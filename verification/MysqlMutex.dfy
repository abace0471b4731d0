/**
 The MySQL driver's promise-chain mutex and its read-only transactions on one shared
 connection: any schedule of calls, answers, failures and a close.
 */
module MysqlMutex {

  datatype Kind = Plain | ReadOnly

  datatype Verb = StartReadOnly | Statement | Rollback

  /** A command sent on the shared connection, by which call. */
  datatype Command = Command(task: nat, verb: Verb)

  /**
   A call queued on the mutex. `awaits` is the tail promise it was chained to: 0 is the
   initial, settled one, and promise k + 1 follows task k whatever its outcome. `answers`
   are what its commands came to so far, and `fulfilled` that it settled well.
   */
  datatype Task = Task(
    kind: Kind, awaits: nat, started: bool, sent: nat, answers: seq<bool>, settled: bool, fulfilled: bool)

  datatype State = State(tail: nat, connected: bool, tasks: seq<Task>, log: seq<Command>)

  const INITIAL := State(0, true, [], [])

  /** The commands of a call, in order, when nothing fails. */
  function Script(kind: Kind): seq<Verb> {
    if kind.Plain? then [Statement] else [StartReadOnly, Statement, Rollback]
  }

  predicate TailSettled(s: State, promise: nat) {
    promise == 0 || (promise <= |s.tasks| && s.tasks[promise - 1].settled)
  }

  function Enqueue(s: State, kind: Kind): State {
    s.(tasks := s.tasks + [Task(kind, s.tail, false, 0, [], false, false)], tail := |s.tasks| + 1)
  }

  function Set(s: State, i: nat, task: Task): State
    requires i < |s.tasks|
  {
    s.(tasks := s.tasks[i := task])
  }

  /** The next command of the call's script goes out, after these answers to the others. */
  function Send(s: State, i: nat, answers: seq<bool>): State
    requires i < |s.tasks| && s.tasks[i].sent < |Script(s.tasks[i].kind)|
  {
    var t := s.tasks[i];
    Set(s, i, t.(started := true, sent := t.sent + 1, answers := answers))
    .(log := s.log + [Command(i, Script(t.kind)[t.sent])])
  }

  /** A queued call gets its turn; without a connection it is rejected at once. */
  function Begin(s: State, i: nat): State
    requires i < |s.tasks| && s.tasks[i].sent == 0
  {
    if s.connected then Send(s, i, []) else Set(s, i, s.tasks[i].(started := true, settled := true))
  }

  /** The call settles as its statement did; a transaction that could not start is rejected. */
  predicate Fulfils(t: Task) {
    if t.kind.Plain? then |t.answers| == 1 && t.answers[0] else |t.answers| == 3 && t.answers[1]
  }

  /**
   The connection answers, well or badly. A transaction that cannot start is over; once it
   has started it is rolled back whatever the statement did.
   */
  function Answer(s: State, i: nat, ok: bool): State
    requires i < |s.tasks|
  {
    var t := s.tasks[i].(answers := s.tasks[i].answers + [ok]);
    if t.sent < |Script(t.kind)| && (t.sent > 1 || ok) then Send(s, i, t.answers)
    else Set(s, i, t.(settled := true, fulfilled := Fulfils(t)))
  }

  // ---- The driver --------------------------------------------------------------------

  class Driver {
    var tail: nat
    var connected: bool
    var tasks: seq<Task>
    var log: seq<Command>

    function View(): State
      reads this
    {
      State(tail, connected, tasks, log)
    }

    constructor ()
      ensures View() == INITIAL
    {
      tail, connected, tasks, log := 0, true, [], [];
    }

    /** `run`: chain onto the tail whatever becomes of it, and become the tail. */
    method Run(kind: Kind) returns (i: nat)
      modifies this
      ensures i == |old(tasks)| && View() == Enqueue(old(View()), kind)
    {
      i := |tasks|;
      tasks := tasks + [Task(kind, tail, false, 0, [], false, false)];
      tail := i + 1;
    }

    method SendNext(i: nat, answers: seq<bool>)
      requires i < |tasks| && tasks[i].sent < |Script(tasks[i].kind)|
      modifies this`tasks, this`log
      ensures View() == Send(old(View()), i, answers)
    {
      var t := tasks[i];
      log := log + [Command(i, Script(t.kind)[t.sent])];
      tasks := tasks[i := t.(started := true, sent := t.sent + 1, answers := answers)];
    }

    method Turn(i: nat)
      requires i < |tasks| && tasks[i].sent == 0
      modifies this`tasks, this`log
      ensures View() == Begin(old(View()), i)
    {
      if !connected {
        tasks := tasks[i := tasks[i].(started := true, settled := true)];
        return;
      }
      SendNext(i, []);
    }

    method OnAnswer(i: nat, ok: bool)
      requires i < |tasks| && 0 < tasks[i].sent <= |Script(tasks[i].kind)|
      modifies this`tasks, this`log
      ensures View() == Answer(old(View()), i, ok)
    {
      var t := tasks[i].(answers := tasks[i].answers + [ok]);
      if t.kind.Plain? {
        tasks := tasks[i := t.(settled := true, fulfilled := |t.answers| == 1 && ok)];
      } else if t.sent == 1 {
        if ok {
          SendNext(i, t.answers);
        } else {
          tasks := tasks[i := t.(settled := true, fulfilled := Fulfils(t))];
        }
      } else if t.sent == 2 {
        SendNext(i, t.answers);
      } else {
        tasks := tasks[i := t.(settled := true, fulfilled := Fulfils(t))];
      }
    }

    method Close()
      modifies this`connected
      ensures View() == old(View()).(connected := false)
    {
      connected := false;
    }
  }

  // ---- Runs --------------------------------------------------------------------------

  datatype Event = Call(kind: Kind) | Turns(task: nat) | Answers(task: nat, ok: bool) | Closes

  predicate Enabled(s: State, e: Event) {
    match e
    case Turns(i) => i < |s.tasks| && !s.tasks[i].started && s.tasks[i].sent == 0 && TailSettled(s, s.tasks[i].awaits)
    case Answers(i, _) => i < |s.tasks| && s.tasks[i].started && !s.tasks[i].settled
    case _ => true
  }

  function Apply(s: State, e: Event): State
    requires Enabled(s, e)
  {
    match e
    case Call(kind) => Enqueue(s, kind)
    case Turns(i) => Begin(s, i)
    case Answers(i, ok) => Answer(s, i, ok)
    case Closes => s.(connected := false)
  }

  /** The commands a call has sent so far: a prefix of its script. */
  function Sent(i: nat, t: Task): seq<Command>
    requires t.sent <= |Script(t.kind)|
  {
    seq(t.sent, k requires 0 <= k < t.sent => Command(i, Script(t.kind)[k]))
  }

  predicate Within(tasks: seq<Task>) {
    forall t :: t in tasks ==> t.sent <= |Script(t.kind)|
  }

  /** Each call's commands together, the calls in the order they were made. */
  function Serial(tasks: seq<Task>): seq<Command>
    requires Within(tasks)
  {
    if tasks == [] then []
    else Serial(tasks[..|tasks| - 1]) + Sent(|tasks| - 1, tasks[|tasks| - 1])
  }

  predicate TaskOk(s: State, i: nat)
    requires i < |s.tasks|
  {
    var t := s.tasks[i];
    && t.awaits == i && t.sent <= |Script(t.kind)|
    && (!t.started ==> t.sent == 0 && !t.settled)
    && (t.started && !t.settled ==> t.sent > 0)
    && |t.answers| == (if t.settled || t.sent == 0 then t.sent else t.sent - 1)
    && (t.kind.ReadOnly? && t.sent > 1 ==> t.answers[0])
    && (t.settled && t.sent > 0 && t.kind.ReadOnly? && t.answers[0] ==> t.sent == 3)
    && (t.settled && t.sent > 0 && t.kind.ReadOnly? && !t.answers[0] ==> t.sent == 1)
    && (t.fulfilled <==> t.settled && Fulfils(t))
    && (t.settled && t.sent == 0 ==> !s.connected)
    && (t.started && i > 0 ==> s.tasks[i - 1].settled)
  }

  predicate Inv(s: State) {
    && s.tail == |s.tasks|
    && (forall i | 0 <= i < |s.tasks| :: TaskOk(s, i))
    && Within(s.tasks)
    && s.log == Serial(s.tasks)
  }

  lemma {:induction false} SettledBefore(s: State, i: nat, j: nat)
    requires Inv(s) && i < j < |s.tasks| && s.tasks[j].started
    ensures s.tasks[i].settled && s.tasks[i].started
    decreases j
  {
    assert TaskOk(s, j) && TaskOk(s, j - 1);
    if i < j - 1 {
      SettledBefore(s, i, j - 1);
    }
  }

  /** Settling a call changes no command. */
  lemma {:induction false} SerialSettles(a: seq<Task>, i: nat, task: Task)
    requires i < |a| && Within(a) && Within(a[i := task])
    requires task.kind == a[i].kind && task.sent == a[i].sent
    ensures Serial(a[i := task]) == Serial(a)
    decreases |a|
  {
    var n := |a| - 1;
    if i == n {
      assert a[i := task][..n] == a[..n];
    } else {
      assert a[i := task][..n] == a[..n][i := task];
      SerialSettles(a[..n], i, task);
    }
  }

  lemma SilentLast(a: seq<Task>)
    requires a != [] && Within(a) && a[|a| - 1].sent == 0
    ensures Within(a[..|a| - 1]) && Serial(a) == Serial(a[..|a| - 1])
  {
    assert Sent(|a| - 1, a[|a| - 1]) == [];
  }

  lemma OneMoreSent(i: nat, t: Task, u: Task, c: Command)
    requires u.kind == t.kind && u.sent == t.sent + 1 <= |Script(t.kind)| && c == Command(i, Script(t.kind)[t.sent])
    ensures Sent(i, u) == Sent(i, t) + [c]
  {
  }

  /** One more command of call `i`, after which no call has sent anything, ends the log. */
  lemma {:induction false} SerialSends(a: seq<Task>, b: seq<Task>, i: nat, c: Command)
    requires i < |a| == |b| && Within(a) && Within(b) && b == a[i := b[i]]
    requires b[i].kind == a[i].kind && b[i].sent == a[i].sent + 1
    requires forall j | i < j < |a| :: a[j].sent == 0
    requires a[i].sent < |Script(a[i].kind)| && c == Command(i, Script(a[i].kind)[a[i].sent])
    ensures Serial(b) == Serial(a) + [c]
    decreases |a|
  {
    var n := |a| - 1;
    if i == n {
      assert b[..n] == a[..n];
      OneMoreSent(n, a[n], b[n], c);
    } else {
      SilentLast(a);
      SilentLast(b);
      SerialSends(a[..n], b[..n], i, c);
    }
  }

  lemma EnqueueKeeps(s: State, kind: Kind)
    requires Inv(s)
    ensures Inv(Enqueue(s, kind))
  {
    var t := Enqueue(s, kind);
    forall i | 0 <= i < |t.tasks| ensures TaskOk(t, i) {
      if i < |s.tasks| {
        assert TaskOk(s, i);
      }
    }
    assert t.tasks[..|s.tasks|] == s.tasks;
    assert Sent(|s.tasks|, t.tasks[|s.tasks|]) == [];
  }

  /** The call has its turn: every call before it has settled, and none after it has begun. */
  predicate HasTurn(s: State, i: nat) {
    && i < |s.tasks| && !s.tasks[i].settled
    && (i > 0 ==> s.tasks[i - 1].settled)
    && (forall j | i < j < |s.tasks| :: !s.tasks[j].started && s.tasks[j].sent == 0)
  }

  lemma TurnComes(s: State, e: Event)
    requires Inv(s) && Enabled(s, e) && (e.Turns? || e.Answers?)
    ensures HasTurn(s, e.task)
  {
    var i := e.task;
    assert TaskOk(s, i);
    forall j | i < j < |s.tasks| ensures !s.tasks[j].started && s.tasks[j].sent == 0 {
      assert TaskOk(s, j);
      if s.tasks[j].started {
        SettledBefore(s, i, j);
      }
    }
  }

  lemma TasksFrame(s: State, t: State, i: nat)
    requires Inv(s) && HasTurn(s, i) && |t.tasks| == |s.tasks| && t.tasks == s.tasks[i := t.tasks[i]] && t.tail == s.tail
    requires TaskOk(t, i) && t.connected == s.connected && t.tasks[i].started
    ensures forall j | 0 <= j < |t.tasks| :: TaskOk(t, j)
    ensures Within(t.tasks)
  {
    forall j | 0 <= j < |t.tasks| ensures TaskOk(t, j) { assert TaskOk(s, j); }
    forall x | x in t.tasks ensures x.sent <= |Script(x.kind)| {
      assert x == t.tasks[i] || x in s.tasks;
    }
  }

  lemma SendKeeps(s: State, i: nat, answers: seq<bool>)
    requires Inv(s) && HasTurn(s, i) && s.tasks[i].sent < |Script(s.tasks[i].kind)|
    requires TaskOk(Send(s, i, answers), i)
    ensures Inv(Send(s, i, answers))
  {
    var t := Send(s, i, answers);
    TasksFrame(s, t, i);
    SerialSends(s.tasks, t.tasks, i, Command(i, Script(s.tasks[i].kind)[s.tasks[i].sent]));
  }

  lemma SettleKeeps(s: State, i: nat, task: Task)
    requires Inv(s) && HasTurn(s, i) && task.kind == s.tasks[i].kind && task.sent == s.tasks[i].sent
    requires task.started && TaskOk(Set(s, i, task), i)
    ensures Inv(Set(s, i, task))
  {
    TasksFrame(s, Set(s, i, task), i);
    SerialSettles(s.tasks, i, task);
  }

  lemma AnswerKeeps(s: State, i: nat, ok: bool)
    requires Inv(s) && HasTurn(s, i) && s.tasks[i].started
    ensures Inv(Answer(s, i, ok))
  {
    assert TaskOk(s, i);
    var t := s.tasks[i].(answers := s.tasks[i].answers + [ok]);
    assert TaskOk(Answer(s, i, ok), i);
    if t.sent < |Script(t.kind)| && (t.sent > 1 || ok) {
      SendKeeps(s, i, t.answers);
    } else {
      SettleKeeps(s, i, t.(settled := true, fulfilled := Fulfils(t)));
    }
  }

  lemma StepKeeps(s: State, e: Event)
    requires Inv(s) && Enabled(s, e)
    ensures Inv(Apply(s, e))
  {
    match e
    case Call(kind) => EnqueueKeeps(s, kind);
    case Turns(i) =>
      TurnComes(s, e);
      assert TaskOk(s, i);
      if s.connected {
        SendKeeps(s, i, []);
      } else {
        SettleKeeps(s, i, s.tasks[i].(started := true, settled := true));
      }
    case Answers(i, ok) =>
      TurnComes(s, e);
      AnswerKeeps(s, i, ok);
    case Closes =>
      forall i | 0 <= i < |s.tasks| ensures TaskOk(Apply(s, e), i) { assert TaskOk(s, i); }
  }

  predicate Leads(s: State, events: seq<Event>, t: State)
    decreases |events|
  {
    if events == [] then s == t
    else Enabled(s, events[0]) && Leads(Apply(s, events[0]), events[1..], t)
  }

  lemma {:induction false} LeadsKeepInv(s: State, events: seq<Event>, t: State)
    requires Inv(s) && Leads(s, events, t)
    ensures Inv(t)
    decreases |events|
  {
    if events != [] {
      StepKeeps(s, events[0]);
      LeadsKeepInv(Apply(s, events[0]), events[1..], t);
    }
  }

  predicate Reached(events: seq<Event>, s: State) {
    Leads(INITIAL, events, s)
  }

  /** Calls run in the order they were made, one at a time: none begins before all earlier ones settled. */
  lemma FirstInFirstOut(events: seq<Event>, s: State, i: nat, j: nat)
    requires Reached(events, s) && i < j < |s.tasks| && s.tasks[j].started
    ensures s.tasks[i].settled
  {
    LeadsKeepInv(INITIAL, events, s);
    SettledBefore(s, i, j);
  }

  /** The verbs of one call's commands, in the order of the log. */
  function VerbsOf(log: seq<Command>, i: nat): seq<Verb> {
    if log == [] then []
    else VerbsOf(log[..|log| - 1], i) + if log[|log| - 1].task == i then [log[|log| - 1].verb] else []
  }

  lemma {:induction false} VerbsConcat(a: seq<Command>, b: seq<Command>, i: nat)
    ensures VerbsOf(a + b, i) == VerbsOf(a, i) + VerbsOf(b, i)
    decreases |b|
  {
    if b == [] {
      assert a + b == a;
    } else {
      assert (a + b)[..|a + b| - 1] == a + b[..|b| - 1];
      VerbsConcat(a, b[..|b| - 1], i);
    }
  }

  predicate AllBy(log: seq<Command>, i: nat) {
    forall k | 0 <= k < |log| :: log[k].task == i
  }

  predicate AllBefore(log: seq<Command>, i: nat) {
    forall k | 0 <= k < |log| :: log[k].task < i
  }

  predicate AllAfter(log: seq<Command>, i: nat) {
    forall k | 0 <= k < |log| :: log[k].task > i
  }

  lemma {:induction false} VerbsOfOthers(log: seq<Command>, i: nat)
    requires forall k | 0 <= k < |log| :: log[k].task != i
    ensures VerbsOf(log, i) == []
  {
    if log != [] {
      VerbsOfOthers(log[..|log| - 1], i);
    }
  }

  /** What stands before and after a call's own commands in the log is of earlier and of later calls. */
  lemma {:induction false} SerialAround(tasks: seq<Task>, i: nat) returns (before: seq<Command>, after: seq<Command>)
    requires Within(tasks) && i < |tasks|
    ensures Serial(tasks) == before + Sent(i, tasks[i]) + after
    ensures AllBefore(before, i) && AllAfter(after, i) && AllBy(Sent(i, tasks[i]), i)
    decreases |tasks|
  {
    var n := |tasks| - 1;
    if i == n {
      before, after := Serial(tasks[..n]), [];
      SerialIsBefore(tasks[..n], n);
    } else {
      var rest;
      before, rest := SerialAround(tasks[..n], i);
      after := rest + Sent(n, tasks[n]);
    }
  }

  lemma {:induction false} SerialIsBefore(tasks: seq<Task>, i: nat)
    requires Within(tasks) && |tasks| <= i
    ensures AllBefore(Serial(tasks), i)
    decreases |tasks|
  {
    if tasks != [] {
      SerialIsBefore(tasks[..|tasks| - 1], i);
    }
  }

  lemma SentVerbs(i: nat, t: Task)
    requires t.sent <= |Script(t.kind)|
    ensures t.kind.Plain? ==> VerbsOf(Sent(i, t), i) == [Statement][..t.sent]
    ensures t.kind.ReadOnly? ==> VerbsOf(Sent(i, t), i) == [StartReadOnly, Statement, Rollback][..t.sent]
  {
    var script, sent := Script(t.kind), Sent(i, t);
    if t.sent > 0 {
      assert sent[..1][..0] == [] && VerbsOf(sent[..1], i) == script[..1];
      if t.sent > 1 {
        assert sent[..2][..1] == sent[..1] && VerbsOf(sent[..2], i) == script[..2];
      }
      assert sent[..t.sent] == sent;
      if t.sent > 2 {
        assert sent[..3][..2] == sent[..2];
      }
    }
  }

  lemma LoggedVerbs(s: State, i: nat)
    requires Inv(s) && i < |s.tasks|
    ensures VerbsOf(s.log, i) == VerbsOf(Sent(i, s.tasks[i]), i)
  {
    assert s.tasks[i] in s.tasks;
    var before, after := SerialAround(s.tasks, i);
    VerbsOfOthers(before, i);
    VerbsOfOthers(after, i);
    VerbsConcat(before, Sent(i, s.tasks[i]), i);
    VerbsConcat(before + Sent(i, s.tasks[i]), after, i);
  }

  /**
   What a settled call has sent, by what was answered: a query its statement; a read-only call
   START alone when that was answered badly, and otherwise START, statement and ROLLBACK
   whatever became of the last two; nothing for want of a connection. It is fulfilled exactly
   when its statement was answered well.
   */
  lemma TransactionsAreWhole(events: seq<Event>, s: State, i: nat)
    requires Reached(events, s) && i < |s.tasks| && s.tasks[i].settled
    ensures var t, verbs := s.tasks[i], VerbsOf(s.log, i);
            && |t.answers| == |verbs| && (verbs == [] ==> !s.connected)
            && (t.kind == Plain ==> verbs == [] || verbs == [Statement])
            && (t.kind == ReadOnly ==>
                && (verbs == [] || verbs[0] == StartReadOnly)
                && (verbs != [] && t.answers[0] ==> verbs == [StartReadOnly, Statement, Rollback])
                && (verbs != [] && !t.answers[0] ==> verbs == [StartReadOnly]))
            && (t.fulfilled <==> exists k :: 0 <= k < |verbs| && verbs[k] == Statement && t.answers[k])
  {
    LeadsKeepInv(INITIAL, events, s);
    assert TaskOk(s, i) && s.tasks[i] in s.tasks;
    LoggedVerbs(s, i);
    SentVerbs(i, s.tasks[i]);
    StatementDecides(s.tasks[i], VerbsOf(s.log, i));
  }

  lemma StatementDecides(t: Task, verbs: seq<Verb>)
    requires |t.answers| == |verbs|
    requires t.kind.Plain? ==> verbs == [] || verbs == [Statement]
    requires t.kind.ReadOnly? ==> verbs == [] || verbs == [StartReadOnly] || verbs == [StartReadOnly, Statement, Rollback]
    ensures Fulfils(t) <==> exists k :: 0 <= k < |verbs| && verbs[k] == Statement && t.answers[k]
  {
    if Fulfils(t) {
      var k := if t.kind.Plain? then 0 else 1;
      assert verbs[k] == Statement && t.answers[k];
    }
  }

  /** A call's turn sends its first command, or rejects it without one when there is no connection. */
  lemma TurnsBegin(events: seq<Event>, s: State, i: nat)
    requires Reached(events, s) && Enabled(s, Turns(i))
    ensures var t := Apply(s, Turns(i));
            && (s.connected ==>
                && t.log == s.log + [Command(i, if s.tasks[i].kind == Plain then Statement else StartReadOnly)]
                && !t.tasks[i].settled)
            && (!s.connected ==> t.log == s.log && t.tasks[i].settled && !t.tasks[i].fulfilled)
            && t.connected == s.connected && forall j | 0 <= j < |s.tasks| && j != i :: t.tasks[j] == s.tasks[j]
  {
    LeadsKeepInv(INITIAL, events, s);
    assert TaskOk(s, i);
  }

  /** Before it has settled it has sent a part of that, and awaits the answer to the last command. */
  lemma UnsettledTransactions(events: seq<Event>, s: State, i: nat)
    requires Reached(events, s) && i < |s.tasks| && !s.tasks[i].settled
    ensures var t, verbs := s.tasks[i], VerbsOf(s.log, i);
            && verbs <= (if t.kind == Plain then [Statement] else [StartReadOnly, Statement, Rollback])
            && |t.answers| == (if verbs == [] then 0 else |verbs| - 1)
            && (t.kind == ReadOnly && |verbs| > 1 ==> t.answers[0])
  {
    LeadsKeepInv(INITIAL, events, s);
    assert TaskOk(s, i) && s.tasks[i] in s.tasks;
    LoggedVerbs(s, i);
    SentVerbs(i, s.tasks[i]);
  }

  /** After a START, until its ROLLBACK, every command is the same call's, unless START was answered badly. */
  lemma NothingComesBetween(events: seq<Event>, s: State, i: nat, p: nat, k: nat)
    requires Reached(events, s) && p < k < |s.log| && i < |s.tasks|
    requires s.log[p] == Command(i, StartReadOnly) && (s.tasks[i].answers != [] ==> s.tasks[i].answers[0])
    requires forall q | p < q < k :: s.log[q] != Command(i, Rollback)
    ensures s.log[k].task == i
  {
    LeadsKeepInv(INITIAL, events, s);
    assert TaskOk(s, i) && s.tasks[i] in s.tasks;
    var before, after := SerialAround(s.tasks, i);
    var sent := Sent(i, s.tasks[i]);
    StartIsFirst(s, i, p, before, after);
    assert |sent| == 3 ==> s.log[p + 2] == sent[2];
    PartOf(before, sent, after, i, k);
    if s.log[k].task > i {
      LaterHasStarted(s, i, s.log[k]);
    }
  }

  lemma StartIsFirst(s: State, i: nat, p: nat, before: seq<Command>, after: seq<Command>)
    requires Inv(s) && i < |s.tasks| && p < |s.log| && s.log[p] == Command(i, StartReadOnly)
    requires AllBefore(before, i) && AllAfter(after, i) && s.log == before + Sent(i, s.tasks[i]) + after
    ensures p == |before| && s.tasks[i].kind.ReadOnly? && s.tasks[i].sent > 0
  {
    PartOf(before, Sent(i, s.tasks[i]), after, i, p);
  }

  /** A command of the log is of an earlier call, this call's own, or of a later call. */
  lemma PartOf(before: seq<Command>, sent: seq<Command>, after: seq<Command>, i: nat, p: nat)
    requires AllBefore(before, i) && AllAfter(after, i) && p < |before + sent + after|
    ensures var c, m := (before + sent + after)[p], |before| + |sent|;
            && (p < |before| ==> c.task < i)
            && (|before| <= p < m ==> c == sent[p - |before|])
            && (p >= m ==> c in after && c.task > i)
  {
  }

  /** A command of a later call in the log means that this one has settled. */
  lemma LaterHasStarted(s: State, i: nat, c: Command)
    requires Inv(s) && i < |s.tasks| && c in s.log && c.task > i
    ensures s.tasks[i].settled
  {
    SenderHasStarted(s.tasks, c);
    assert TaskOk(s, c.task);
    SettledBefore(s, i, c.task);
  }

  lemma {:induction false} SenderHasStarted(tasks: seq<Task>, c: Command)
    requires Within(tasks) && c in Serial(tasks)
    ensures c.task < |tasks| && tasks[c.task].sent > 0
    decreases |tasks|
  {
    var n := |tasks| - 1;
    if c !in Sent(n, tasks[n]) {
      SenderHasStarted(tasks[..n], c);
    }
  }

  /** The log is the calls' commands one call after the other, in the order they were made. */
  lemma TransactionsAreContiguous(events: seq<Event>, s: State, p: nat, k: nat)
    requires Reached(events, s) && p < k < |s.log|
    ensures s.log[p].task <= s.log[k].task
    ensures s.log[p].task == s.log[k].task ==> AllBy(s.log[p..k], s.log[p].task)
    ensures s.log[k].task < |s.tasks|
    ensures s.log[p].task < s.log[k].task ==> s.tasks[s.log[p].task].settled
  {
    LeadsKeepInv(INITIAL, events, s);
    var a, b := s.log[p], s.log[k];
    SenderHasStarted(s.tasks, a);
    SenderHasStarted(s.tasks, b);
    var before, after := SerialAround(s.tasks, a.task);
    var end := |before| + |Sent(a.task, s.tasks[a.task])|;
    forall q | p <= q < |s.log| ensures q < end ==> s.log[q].task == a.task
                                ensures q >= end ==> s.log[q].task > a.task {
      InParts(before, Sent(a.task, s.tasks[a.task]), after, a.task, p, q);
    }
    if a.task < b.task {
      LaterHasStarted(s, a.task, b);
    }
  }

  lemma InParts(before: seq<Command>, sent: seq<Command>, after: seq<Command>, i: nat, p: nat, q: nat)
    requires AllBefore(before, i) && AllBy(sent, i) && AllAfter(after, i)
    requires p <= q < |before + sent + after| && (before + sent + after)[p].task == i
    ensures var c := (before + sent + after)[q];
            if q < |before| + |sent| then c.task == i else c.task > i
  {
    assert p >= |before|;
  }

  /** A call that has not settled, but all before it have, can always go on: no rejection blocks it. */
  lemma NothingBlocks(events: seq<Event>, s: State, i: nat)
    requires Reached(events, s) && i < |s.tasks| && !s.tasks[i].settled
    requires forall j | 0 <= j < i :: s.tasks[j].settled
    ensures Enabled(s, Turns(i)) || Enabled(s, Answers(i, true))
  {
    LeadsKeepInv(INITIAL, events, s);
    assert TaskOk(s, i);
  }
}
