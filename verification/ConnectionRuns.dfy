/**
 Every interleaving of connects, reads, queries, invalidations and closes on one
 connection manager: what holds in each state that can be reached.
 */
module ConnectionRuns {
  import opened Text
  import opened ConnectionManager

  // ---- The state ---------------------------------------------------------------------

  datatype Phase =
    | Connecting
    | Listing(begun: nat)
    | Failing(result: Result)        // its driver has been told to close
    | Settled(result: Result)

  datatype OpenRun = OpenRun(owner: nat, driver: nat, generation: nat, phase: Phase)

  datatype RunPhase = Reading | Answered | Failure(classified: bool)

  /** An introspection of the live driver, begun when `generation` invalidations had been made. */
  datatype Run = Run(owner: nat, driver: nat, generation: nat, phase: RunPhase)

  datatype Caller = Connect | Read | Query | Close

  /** Why a reader stopped refreshing: nothing is stale, its turns are spent, or shutdown. */
  datatype Why = Current | GaveUp | ShuttingDown

  datatype Pc =
    | OwnOpen(open: nat)
    | AwaitOpen(open: nat)
    | OwnRun(run: nat, driver: nat, turn: nat, inConnect: bool)
    | AwaitRun(run: nat, driver: nat, turn: nat, inConnect: bool)
    | Refreshed(inConnect: bool, why: Why)
    | Returned(result: Result)       // `connect` is back in `ensureDriver`
    | Ready(driver: nat)             // `ensureDriver` is back in its caller
    | CloseOpen(open: nat)
    | CloseRun(run: nat)
    | Resolved(result: Result)       // a `connect` has answered
    | FromOpen(result: Result, open: nat, joined: bool)  // a `connect` has answered what an open came to
    | Reanswered(result: Result, why: Why)  // a `connect` has answered from the memo, after its refreshes
    | Schema(memo: Memo, why: Why)   // a read has answered
    | Queried(driver: nat)           // a query has been handed to this driver
    | Rejected                       // a read or query has thrown
    | Fallback                       // a read found no memo on a live driver
    | Shut                           // a close has released everything

  /**
   `since` counts the invalidations made before the call, `late` says the latch was set
   before it, and `turns` counts the refreshes it has awaited.
   */
  datatype Task = Task(caller: Caller, since: nat, late: bool, turns: nat, pc: Pc)

  datatype State = State(
    v: Vars, hasUrl: bool, live: seq<bool>, opens: seq<OpenRun>, runs: seq<Run>, tasks: seq<Task>)

  predicate Init(s: State) {
    s.v == INITIAL && s.live == [] && s.opens == [] && s.runs == [] && s.tasks == []
  }

  // ---- The steps ---------------------------------------------------------------------

  /** What the driver factory does: allocate, refuse the scheme, or break. */
  datatype Factory = Allocates | Refuses | Breaks

  datatype Event =
    | Call(caller: Caller, factory: Factory)
    | Resume(task: nat)
    | OpenConnected(open: nat)
    | OpenListed(open: nat)
    | OpenFails(open: nat, classified: bool)
    | OpenFailed(open: nat)
    | RunListed(run: nat)
    | RunFails(run: nat, classified: bool)
    | Invalidate

  function SetPc(s: State, i: nat, pc: Pc): State
    requires i < |s.tasks|
  {
    s.(tasks := s.tasks[i := s.tasks[i].(pc := pc)])
  }

  /** One more refresh is awaited. */
  function SetTurn(s: State, i: nat, pc: Pc): State
    requires i < |s.tasks|
  {
    s.(tasks := s.tasks[i := s.tasks[i].(turns := s.tasks[i].turns + 1, pc := pc)])
  }

  /** `connect` answers its caller, or `ensureDriver` when a read or query called it. */
  function Deliver(s: State, i: nat, result: Result): State
    requires i < |s.tasks|
  {
    SetPc(s, i, if s.tasks[i].caller.Connect? then Resolved(result) else Returned(result))
  }

  /** The same with what an open came to. */
  function DeliverOpen(s: State, i: nat, o: nat, joined: bool): State
    requires i < |s.tasks| && OpenSettled(s, o)
  {
    var result := s.opens[o].phase.result;
    SetPc(s, i, if s.tasks[i].caller.Connect? then FromOpen(result, o, joined) else Returned(result))
  }

  /** The same with the memo as it is after the refreshes. */
  function DeliverMemo(s: State, i: nat, why: Why): State
    requires i < |s.tasks|
  {
    SetPc(s, i, if s.tasks[i].caller.Connect? then Reanswered(Reread(s.v), why) else Returned(Reread(s.v)))
  }

  function EnterLoop(s: State, i: nat, d: nat, turn: nat, inConnect: bool): State
    requires i < |s.tasks|
  {
    var (v, next) := LoopHead(s.v, turn, |s.runs|);
    match next
    case Leave =>
      var why := if !s.v.schemaStale then Current else if s.v.closed then ShuttingDown else GaveUp;
      SetPc(s, i, Refreshed(inConnect, why))
    case JoinRun(r) => SetTurn(s, i, AwaitRun(r, d, turn, inConnect))
    case StartRun(generation) =>
      SetTurn(s.(v := v, runs := s.runs + [Run(i, d, generation, Reading)]), i,
              OwnRun(|s.runs|, d, turn, inConnect))
  }

  function Begin(s: State, i: nat, v: Vars, factory: Factory): State
    requires i < |s.tasks|
  {
    var o, d := |s.opens|, |s.live|;
    var phase := match factory
      case Allocates => Connecting
      case Refuses => Settled(Failed)
      case Breaks => Settled(Threw);
    SetPc(s.(v := v, opens := s.opens + [OpenRun(i, d, v.schemaGeneration, phase)],
             live := if factory.Allocates? then s.live + [true] else s.live), i, OwnOpen(o))
  }

  function EnterConnect(s: State, i: nat, factory: Factory): State
    requires i < |s.tasks|
  {
    var (v, next) := ConnectHead(s.v, s.hasUrl, |s.opens|);
    match next
    case Answer(result) => Deliver(s, i, result)
    case Refresh(d) => EnterLoop(s, i, d, 0, true)
    case JoinOpen(o) => SetPc(s, i, AwaitOpen(o))
    case Open => Begin(s, i, v, factory)
  }

  /** `close` once the open it found has settled. */
  function ReleaseNow(s: State, i: nat): State
    requires i < |s.tasks|
  {
    var d := s.v.driver;
    SetPc(s.(v := Released(s.v),
             live := if d.Some? && d.value < |s.live| then s.live[d.value := false] else s.live), i, Shut)
  }

  function DrainRefresh(s: State, i: nat): State
    requires i < |s.tasks|
  {
    if s.v.refreshing.Some? then SetPc(s, i, CloseRun(s.v.refreshing.value)) else ReleaseNow(s, i)
  }

  function CallStep(s: State, caller: Caller, factory: Factory): State {
    var i := |s.tasks|;
    var t := s.(tasks := s.tasks + [Task(caller, s.v.schemaGeneration, s.v.closed, 0, Rejected)]);
    match caller
    case Connect => EnterConnect(t, i, factory)
    case Close =>
      var u := t.(v := Latched(t.v));
      if u.v.inflight.Some? then SetPc(u, i, CloseOpen(u.v.inflight.value)) else DrainRefresh(u, i)
    case _ =>
      if t.v.closed then SetPc(t, i, Rejected)
      else if t.v.driver.Some? then SetPc(t, i, Ready(t.v.driver.value))
      else EnterConnect(t, i, factory)
  }

  predicate OpenSettled(s: State, o: nat) {
    o < |s.opens| && s.opens[o].phase.Settled?
  }

  predicate RunSettled(s: State, r: nat) {
    r < |s.runs| && !s.runs[r].phase.Reading?
  }

  /**
   A suspended call can go on when what it awaits has settled. Those that await one promise
   go on in the order in which they did: the owner of a refresh, who clears it, before any
   who joined it.
   */
  predicate CanResume(s: State, i: nat) {
    i < |s.tasks| &&
    match s.tasks[i].pc
    case OwnOpen(o) => OpenSettled(s, o)
    case AwaitOpen(o) => OpenSettled(s, o)
    case CloseOpen(o) => OpenSettled(s, o)
    case OwnRun(r, _, _, _) => RunSettled(s, r)
    case AwaitRun(r, _, _, _) => RunSettled(s, r) && s.v.refreshing != Some(r)
    case CloseRun(r) => RunSettled(s, r)
    case Refreshed(_, _) => true
    case Returned(_) => true
    case Ready(_) => true
    case _ => false
  }

  /** The next turn, or the failure of the refresh that was awaited. */
  function AfterRun(s: State, i: nat, phase: RunPhase, d: nat, turn: nat, inConnect: bool): State
    requires i < |s.tasks|
  {
    match phase
    case Failure(classified) =>
      if inConnect then Deliver(s, i, if classified then Failed else Threw) else SetPc(s, i, Rejected)
    case _ => EnterLoop(s, i, d, turn + 1, inConnect)
  }

  function ResumeStep(s: State, i: nat): State
    requires CanResume(s, i)
  {
    match s.tasks[i].pc
    case OwnOpen(o) => DeliverOpen(s.(v := LeaveOpen(s.v)), i, o, false)
    case AwaitOpen(o) => DeliverOpen(s, i, o, true)
    case OwnRun(r, d, turn, inConnect) =>
      AfterRun(s.(v := LeaveRun(s.v, r)), i, s.runs[r].phase, d, turn, inConnect)
    case AwaitRun(r, d, turn, inConnect) => AfterRun(s, i, s.runs[r].phase, d, turn, inConnect)
    case Refreshed(inConnect, why) =>
      if inConnect then DeliverMemo(s, i, why)
      else if s.v.cached.Some? then SetPc(s, i, Schema(s.v.cached.value, why))
      else SetPc(s, i, if s.v.closed then Rejected else Fallback)
    case Returned(result) =>
      if result.Connected? && s.v.driver.Some? then SetPc(s, i, Ready(s.v.driver.value))
      else SetPc(s, i, Rejected)
    case Ready(d) =>
      if s.tasks[i].caller.Read? then EnterLoop(s, i, d, 0, false) else SetPc(s, i, Queried(d))
    case CloseOpen(_) => DrainRefresh(s, i)
    case CloseRun(_) => ReleaseNow(s, i)
    case _ => s
  }

  predicate Enabled(s: State, e: Event) {
    match e
    case Call(_, _) => true
    case Invalidate => true
    case Resume(i) => CanResume(s, i)
    case OpenConnected(o) => o < |s.opens| && s.opens[o].phase.Connecting?
    case OpenListed(o) => o < |s.opens| && s.opens[o].phase.Listing?
    case OpenFails(o, _) => o < |s.opens| && (s.opens[o].phase.Connecting? || s.opens[o].phase.Listing?)
    case OpenFailed(o) => o < |s.opens| && s.opens[o].phase.Failing?
    case RunListed(r) => r < |s.runs| && s.runs[r].phase.Reading?
    case RunFails(r, _) => r < |s.runs| && s.runs[r].phase.Reading?
  }

  function SetPhase(s: State, o: nat, phase: Phase): State
    requires o < |s.opens|
  {
    s.(opens := s.opens[o := s.opens[o].(phase := phase)])
  }

  function SetRun(s: State, r: nat, phase: RunPhase): State
    requires r < |s.runs|
  {
    s.(runs := s.runs[r := s.runs[r].(phase := phase)])
  }

  function OpenCommits(s: State, o: nat): State
    requires o < |s.opens| && s.opens[o].phase.Listing?
  {
    var run := s.opens[o];
    SetPhase(s.(v := CommitOpen(s.v, run.driver, run.phase.begun, run.generation)), o,
             Settled(Connected(Memo(run.driver, run.phase.begun))))
  }

  function OpenBreaks(s: State, o: nat, classified: bool): State
    requires o < |s.opens|
  {
    var d := s.opens[o].driver;
    SetPhase(s.(live := if d < |s.live| then s.live[d := false] else s.live), o,
             Failing(if classified then Failed else Threw))
  }

  function Apply(s: State, e: Event): State
    requires Enabled(s, e)
  {
    match e
    case Call(caller, factory) => CallStep(s, caller, factory)
    case Resume(i) => ResumeStep(s, i)
    case OpenConnected(o) => SetPhase(s, o, Listing(s.v.schemaGeneration))
    case OpenListed(o) => OpenCommits(s, o)
    case OpenFails(o, classified) => OpenBreaks(s, o, classified)
    case OpenFailed(o) => SetPhase(s, o, Settled(s.opens[o].phase.result))
    case RunListed(r) =>
      SetRun(s.(v := CommitRun(s.v, s.runs[r].driver, s.runs[r].generation)), r, Answered)
    case RunFails(r, classified) => SetRun(s, r, Failure(classified))
    case Invalidate => s.(v := Invalidated(s.v))
  }

  // ---- The invariant -----------------------------------------------------------------

  predicate Holds(run: OpenRun, d: nat) {
    run.driver == d && (run.phase.Connecting? || run.phase.Listing?)
  }

  predicate OwnedByOpen(s: State, d: nat) {
    s.v.inflight.Some? && s.v.inflight.value < |s.opens| && Holds(s.opens[s.v.inflight.value], d)
  }

  predicate VarsOk(s: State) {
    var v := s.v;
    && (v.driver.Some? <==> v.cached.Some?)
    && (v.cached.Some? ==> v.cached.value.driver == v.driver.value && v.cached.value.begun <= v.schemaGeneration)
    && (v.cached.Some? && !v.schemaStale ==> v.cached.value.begun == v.schemaGeneration)
    && (v.inflight.Some? ==> v.inflight.value < |s.opens|)
    && (v.refreshing.Some? ==> v.refreshing.value < |s.runs|)
    && (v.driver.Some? ==> v.driver.value < |s.live| && s.live[v.driver.value])
  }

  predicate AllSettled(opens: seq<OpenRun>) {
    forall o | 0 <= o < |opens| :: opens[o].phase.Settled?
  }

  /** Every open but possibly this one has settled. */
  predicate SettledBut(opens: seq<OpenRun>, open: nat) {
    forall o | 0 <= o < |opens| && o != open :: opens[o].phase.Settled?
  }

  /** No open is under way, and none will be begun. */
  predicate Quiet(s: State) {
    AllSettled(s.opens) && (s.v.closed || s.v.driver.Some?)
  }

  /** A driver somebody got hold of is the manager's, until shutdown. */
  predicate Reaches(s: State, d: nat) {
    Quiet(s) && (s.v.closed || s.v.driver == Some(d))
  }

  predicate OpenOk(s: State, o: nat)
    requires o < |s.opens|
  {
    var run := s.opens[o];
    && (!run.phase.Settled? ==> s.v.inflight == Some(o) && s.v.driver.None?)
    && (!run.phase.Settled? ==> s.v.schemaStale || run.generation == s.v.schemaGeneration)
    && ((run.phase.Connecting? || run.phase.Listing?) ==> run.driver < |s.live| && s.live[run.driver])
    && run.generation <= s.v.schemaGeneration
    && (run.phase.Listing? ==> run.generation <= run.phase.begun <= s.v.schemaGeneration)
    && (run.phase.Failing? ==> !run.phase.result.Connected?)
    && (run.phase.Settled? && run.phase.result.Connected? ==> run.generation <= run.phase.result.memo.begun)
  }

  predicate RunOk(s: State, r: nat)
    requires r < |s.runs|
  {
    s.runs[r].phase.Reading? ==>
      && s.v.refreshing == Some(r) && s.runs[r].generation <= s.v.schemaGeneration
      && Reaches(s, s.runs[r].driver)
  }

  predicate LiveOk(s: State, d: nat)
    requires d < |s.live|
  {
    s.live[d] ==> s.v.driver == Some(d) || OwnedByOpen(s, d)
  }

  predicate PcOk(s: State, i: nat, t: Task) {
    match t.pc
    case OwnOpen(o) =>
      && o < |s.opens| && s.opens[o].owner == i && s.v.inflight == Some(o) && t.turns == 0
      && s.opens[o].generation >= t.since
    case AwaitOpen(o) => o < |s.opens| && t.turns == 0
    case OwnRun(r, d, turn, inConnect) =>
      && r < |s.runs| && s.runs[r].owner == i && s.v.refreshing == Some(r)
      && Reaches(s, d) && t.turns == turn + 1 <= MAX_REFRESH_TURNS && (inConnect ==> t.caller.Connect?)
    case AwaitRun(r, d, turn, inConnect) =>
      && r < |s.runs| && Reaches(s, d)
      && t.turns == turn + 1 <= MAX_REFRESH_TURNS && (inConnect ==> t.caller.Connect?)
    case Refreshed(inConnect, why) =>
      && Quiet(s) && (inConnect ==> t.caller.Connect?)
      && (why.Current? && s.v.cached.Some? ==> s.v.cached.value.begun >= t.since)
      && (why.ShuttingDown? ==> s.v.closed)
      && (why.GaveUp? ==> t.turns == MAX_REFRESH_TURNS)
    case Returned(_) => t.turns == 0
    case Ready(d) => Reaches(s, d) && t.turns == 0
    case CloseOpen(o) => s.v.closed && SettledBut(s.opens, o) && t.caller.Close? && t.turns == 0
    case CloseRun(_) => s.v.closed && Quiet(s) && t.caller.Close? && t.turns == 0
    case Shut => s.v.closed && Quiet(s) && s.v.driver.None? && s.v.cached.None?
    case FromOpen(result, o, joined) =>
      && o < |s.opens| && s.opens[o].phase == Settled(result)
      && (!joined ==> s.opens[o].generation >= t.since)
    case Reanswered(result, why) =>
      && (result.Connected? || result.Failed?)
      && (why.Current? && result.Connected? ==> result.memo.begun >= t.since)
      && (why.ShuttingDown? ==> s.v.closed)
      && (why.GaveUp? ==> t.turns == MAX_REFRESH_TURNS)
    case Schema(memo, why) =>
      && (why.Current? ==> memo.begun >= t.since)
      && (why.ShuttingDown? ==> s.v.closed)
      && (why.GaveUp? ==> t.turns == MAX_REFRESH_TURNS)
    case Fallback => false
    case _ => true
  }

  predicate IsClosing(pc: Pc) {
    pc.CloseOpen? || pc.CloseRun? || pc.Shut?
  }

  /** Called after the latch was set: refused at once. */
  predicate LateOk(s: State, t: Task) {
    t.late ==> s.v.closed && (t.pc == Resolved(Failed) || t.pc.Rejected? || IsClosing(t.pc))
  }

  predicate TaskOk(s: State, i: nat)
    requires i < |s.tasks|
  {
    s.tasks[i].since <= s.v.schemaGeneration && LateOk(s, s.tasks[i])
    && PcOk(s, i, s.tasks[i]) && s.tasks[i].turns <= MAX_REFRESH_TURNS
  }

  predicate Base(s: State) {
    && VarsOk(s)
    && (forall o | 0 <= o < |s.opens| :: OpenOk(s, o))
    && (forall r | 0 <= r < |s.runs| :: RunOk(s, r))
    && (forall d | 0 <= d < |s.live| :: LiveOk(s, d))
  }

  predicate TasksBut(s: State, i: nat) {
    forall j | 0 <= j < |s.tasks| && j != i :: TaskOk(s, j)
  }

  predicate Inv(s: State) {
    Base(s) && forall i | 0 <= i < |s.tasks| :: TaskOk(s, i)
  }

  lemma InitHolds(s: State)
    requires Init(s)
    ensures Inv(s)
  {
  }

  // ---- What a step may change without disturbing the other calls ----------------------

  predicate Grows(s: State, t: State) {
    && |s.opens| <= |t.opens| && |s.runs| <= |t.runs| && (s.v.closed ==> |s.opens| == |t.opens|)
    && (forall o | 0 <= o < |s.opens| ::
          && t.opens[o].owner == s.opens[o].owner && t.opens[o].generation == s.opens[o].generation
          && (s.opens[o].phase.Settled? ==> t.opens[o].phase == s.opens[o].phase))
    && (forall r | 0 <= r < |s.runs| :: t.runs[r].owner == s.runs[r].owner)
  }

  predicate Frame(s: State, t: State) {
    && s.v.schemaGeneration <= t.v.schemaGeneration && (s.v.closed ==> t.v.closed)
    && Grows(s, t)
    && (Quiet(s) ==> Quiet(t))
    && (s.v.driver.Some? && !t.v.closed ==> t.v.driver == s.v.driver)
    && (Quiet(s) && s.v.driver.None? ==> t.v.driver.None?)
    && (Quiet(s) && s.v.cached.None? ==> t.v.cached.None?)
    && (s.v.cached.Some? && t.v.cached.Some? ==> s.v.cached.value.begun <= t.v.cached.value.begun)
  }

  lemma TaskFrame(s: State, t: State, i: nat)
    requires i < |s.tasks| && i < |t.tasks| && t.tasks[i] == s.tasks[i] && TaskOk(s, i) && Frame(s, t)
    requires s.tasks[i].pc.OwnOpen? ==> t.v.inflight == s.v.inflight
    requires s.tasks[i].pc.OwnRun? ==> t.v.refreshing == s.v.refreshing
    ensures TaskOk(t, i)
  {
  }

  /** One call moves on and the rest of the state stays. */
  lemma SetTaskKeeps(s: State, i: nat, task: Task)
    requires Base(s) && TasksBut(s, i) && i < |s.tasks|
    requires task.since <= s.v.schemaGeneration && LateOk(s, task) && task.turns <= MAX_REFRESH_TURNS
    requires PcOk(s, i, task)
    ensures Inv(s.(tasks := s.tasks[i := task]))
  {
    var t := s.(tasks := s.tasks[i := task]);
    forall o | 0 <= o < |t.opens| ensures OpenOk(t, o) { assert OpenOk(s, o); }
    forall r | 0 <= r < |t.runs| ensures RunOk(t, r) { assert RunOk(s, r); }
    forall d | 0 <= d < |t.live| ensures LiveOk(t, d) { assert LiveOk(s, d); }
    forall j | 0 <= j < |t.tasks| ensures TaskOk(t, j) {
      if j != i {
        assert TaskOk(s, j);
        TaskFrame(s, t, j);
      }
    }
  }

  lemma SetPcKeeps(s: State, i: nat, pc: Pc)
    requires Base(s) && TasksBut(s, i) && i < |s.tasks|
    requires s.tasks[i].since <= s.v.schemaGeneration && LateOk(s, s.tasks[i].(pc := pc))
    requires PcOk(s, i, s.tasks[i].(pc := pc)) && s.tasks[i].turns <= MAX_REFRESH_TURNS
    ensures Inv(SetPc(s, i, pc))
  {
    SetTaskKeeps(s, i, s.tasks[i].(pc := pc));
  }

  lemma InvalidateKeeps(s: State)
    requires Inv(s)
    ensures Inv(Apply(s, Invalidate))
  {
    var t := Apply(s, Invalidate);
    forall o | 0 <= o < |t.opens| ensures OpenOk(t, o) { assert OpenOk(s, o); }
    forall r | 0 <= r < |t.runs| ensures RunOk(t, r) { assert RunOk(s, r); }
    forall d | 0 <= d < |t.live| ensures LiveOk(t, d) { assert LiveOk(s, d); }
    forall i | 0 <= i < |t.tasks| ensures TaskOk(t, i) { TaskFrame(s, t, i); }
  }

  // ---- The refresh loop --------------------------------------------------------------

  lemma StartRunBase(s: State, t: State, i: nat, d: nat)
    requires Base(s) && Reaches(s, d) && s.v.refreshing.None?
    requires t == s.(v := s.v.(refreshing := Some(|s.runs|)),
                     runs := s.runs + [Run(i, d, s.v.schemaGeneration, Reading)])
    ensures Base(t) && Frame(s, t)
  {
    forall o | 0 <= o < |t.opens| ensures OpenOk(t, o) { assert OpenOk(s, o); }
    forall r | 0 <= r < |t.runs| ensures RunOk(t, r) {
      if r < |s.runs| {
        assert RunOk(s, r);
      }
    }
    forall e | 0 <= e < |t.live| ensures LiveOk(t, e) { assert LiveOk(s, e); }
  }

  lemma LoopKeeps(s: State, i: nat, d: nat, turn: nat, inConnect: bool)
    requires Base(s) && TasksBut(s, i) && i < |s.tasks| && Reaches(s, d)
    requires s.tasks[i].since <= s.v.schemaGeneration && !s.tasks[i].late
    requires s.tasks[i].turns == turn <= MAX_REFRESH_TURNS && (inConnect ==> s.tasks[i].caller.Connect?)
    ensures Inv(EnterLoop(s, i, d, turn, inConnect))
  {
    var (v, next) := LoopHead(s.v, turn, |s.runs|);
    match next
    case Leave =>
      var why := if !s.v.schemaStale then Current else if s.v.closed then ShuttingDown else GaveUp;
      SetPcKeeps(s, i, Refreshed(inConnect, why));
    case JoinRun(r) =>
      SetTaskKeeps(s, i, s.tasks[i].(turns := turn + 1, pc := AwaitRun(r, d, turn, inConnect)));
    case StartRun(generation) =>
      var t := s.(v := v, runs := s.runs + [Run(i, d, generation, Reading)]);
      StartRunBase(s, t, i, d);
      forall j | 0 <= j < |t.tasks| && j != i ensures TaskOk(t, j) {
        assert TaskOk(s, j);
        TaskFrame(s, t, j);
      }
      SetTaskKeeps(t, i, t.tasks[i].(turns := turn + 1, pc := OwnRun(|s.runs|, d, turn, inConnect)));
  }

  // ---- connect -----------------------------------------------------------------------

  lemma DeliverKeeps(s: State, i: nat, result: Result)
    requires Base(s) && TasksBut(s, i) && i < |s.tasks|
    requires s.tasks[i].since <= s.v.schemaGeneration
    requires s.tasks[i].late ==> s.v.closed && s.tasks[i].caller.Connect? && result.Failed?
    requires s.tasks[i].turns <= MAX_REFRESH_TURNS && (s.tasks[i].turns == 0 || s.tasks[i].caller.Connect?)
    ensures Inv(Deliver(s, i, result))
  {
    SetPcKeeps(s, i, if s.tasks[i].caller.Connect? then Resolved(result) else Returned(result));
  }

  lemma DeliverOpenKeeps(s: State, i: nat, o: nat, joined: bool)
    requires Base(s) && TasksBut(s, i) && i < |s.tasks| && OpenSettled(s, o)
    requires s.tasks[i].since <= s.v.schemaGeneration && !s.tasks[i].late && s.tasks[i].turns == 0
    requires !joined ==> s.opens[o].generation >= s.tasks[i].since
    ensures Inv(DeliverOpen(s, i, o, joined))
  {
    var result := s.opens[o].phase.result;
    SetPcKeeps(s, i, if s.tasks[i].caller.Connect? then FromOpen(result, o, joined) else Returned(result));
  }

  lemma BeginBase(s: State, t: State, i: nat, phase: Phase)
    requires Base(s) && s.v.inflight.None? && s.v.driver.None? && !s.v.closed
    requires phase.Connecting? || (phase.Settled? && !phase.result.Connected?)
    requires t == s.(v := s.v.(inflight := Some(|s.opens|)),
                     opens := s.opens + [OpenRun(i, |s.live|, s.v.schemaGeneration, phase)],
                     live := if phase.Connecting? then s.live + [true] else s.live)
    ensures Base(t) && Frame(s, t)
  {
    forall o | 0 <= o < |t.opens| ensures OpenOk(t, o) {
      if o < |s.opens| {
        assert OpenOk(s, o);
      }
    }
    forall r | 0 <= r < |t.runs| ensures RunOk(t, r) { assert RunOk(s, r); }
    forall d | 0 <= d < |t.live| ensures LiveOk(t, d) {
      if d < |s.live| {
        assert LiveOk(s, d);
      }
    }
  }

  lemma BeginKeeps(s: State, i: nat, factory: Factory)
    requires Base(s) && TasksBut(s, i) && i < |s.tasks|
    requires s.v.inflight.None? && s.v.driver.None? && !s.v.closed
    requires s.tasks[i].since <= s.v.schemaGeneration && !s.tasks[i].late && s.tasks[i].turns == 0
    ensures Inv(Begin(s, i, s.v.(inflight := Some(|s.opens|)), factory))
  {
    var phase := match factory
      case Allocates => Connecting
      case Refuses => Settled(Failed)
      case Breaks => Settled(Threw);
    var t := s.(v := s.v.(inflight := Some(|s.opens|)),
                opens := s.opens + [OpenRun(i, |s.live|, s.v.schemaGeneration, phase)],
                live := if phase.Connecting? then s.live + [true] else s.live);
    BeginBase(s, t, i, phase);
    forall j | 0 <= j < |t.tasks| && j != i ensures TaskOk(t, j) {
      assert TaskOk(s, j);
      TaskFrame(s, t, j);
    }
    SetPcKeeps(t, i, OwnOpen(|s.opens|));
  }

  lemma DriverIsQuiet(s: State, d: nat)
    requires Base(s) && s.v.driver == Some(d)
    ensures Reaches(s, d)
  {
    forall o | 0 <= o < |s.opens| ensures s.opens[o].phase.Settled? { assert OpenOk(s, o); }
  }

  lemma ConnectKeeps(s: State, i: nat, factory: Factory)
    requires Base(s) && TasksBut(s, i) && i < |s.tasks|
    requires s.tasks[i].since <= s.v.schemaGeneration
    requires s.tasks[i].late ==> s.v.closed && s.tasks[i].caller.Connect?
    requires s.tasks[i].turns == 0 && (s.tasks[i].caller.Connect? || s.v.driver.None?)
    ensures Inv(EnterConnect(s, i, factory))
  {
    var (v, next) := ConnectHead(s.v, s.hasUrl, |s.opens|);
    match next
    case Answer(result) => DeliverKeeps(s, i, result);
    case Refresh(d) =>
      DriverIsQuiet(s, d);
      LoopKeeps(s, i, d, 0, true);
    case JoinOpen(o) => SetPcKeeps(s, i, AwaitOpen(o));
    case Open => BeginKeeps(s, i, factory);
  }

  // ---- close -------------------------------------------------------------------------

  lemma ReleaseBase(s: State, t: State)
    requires Base(s) && s.v.closed && Quiet(s)
    requires t == s.(v := Released(s.v),
                     live := if s.v.driver.Some? then s.live[s.v.driver.value := false] else s.live)
    ensures Base(t) && Frame(s, t)
  {
    forall o | 0 <= o < |t.opens| ensures OpenOk(t, o) { assert OpenOk(s, o); }
    forall r | 0 <= r < |t.runs| ensures RunOk(t, r) { assert RunOk(s, r); }
    forall d | 0 <= d < |t.live| ensures LiveOk(t, d) { assert LiveOk(s, d); }
  }

  lemma ReleaseKeeps(s: State, i: nat)
    requires Base(s) && TasksBut(s, i) && i < |s.tasks| && s.v.closed && Quiet(s)
    requires s.tasks[i].since <= s.v.schemaGeneration && s.tasks[i].caller.Close? && s.tasks[i].turns == 0
    ensures Inv(ReleaseNow(s, i))
  {
    var d := s.v.driver;
    var t := s.(v := Released(s.v), live := if d.Some? then s.live[d.value := false] else s.live);
    ReleaseBase(s, t);
    forall j | 0 <= j < |t.tasks| && j != i ensures TaskOk(t, j) {
      assert TaskOk(s, j);
      TaskFrame(s, t, j);
    }
    SetPcKeeps(t, i, Shut);
  }

  lemma DrainKeeps(s: State, i: nat)
    requires Base(s) && TasksBut(s, i) && i < |s.tasks| && s.v.closed && Quiet(s)
    requires s.tasks[i].since <= s.v.schemaGeneration && s.tasks[i].caller.Close? && s.tasks[i].turns == 0
    ensures Inv(DrainRefresh(s, i))
  {
    if s.v.refreshing.Some? {
      SetPcKeeps(s, i, CloseRun(s.v.refreshing.value));
    } else {
      ReleaseKeeps(s, i);
    }
  }

  // ---- Every step keeps it -----------------------------------------------------------

  lemma TasksCarry(s: State, t: State)
    requires Inv(s) && Frame(s, t) && |t.tasks| >= |s.tasks| && t.tasks[..|s.tasks|] == s.tasks
    requires t.v.inflight == s.v.inflight && t.v.refreshing == s.v.refreshing
    ensures forall j | 0 <= j < |s.tasks| :: TaskOk(t, j)
  {
    forall j | 0 <= j < |s.tasks| ensures TaskOk(t, j) {
      assert t.tasks[j] == t.tasks[..|s.tasks|][j];
      TaskFrame(s, t, j);
    }
  }

  lemma LatchBase(s: State, t: State)
    requires Base(s) && t.v == Latched(s.v)
    requires t.live == s.live && t.opens == s.opens && t.runs == s.runs
    ensures Base(t) && Frame(s, t)
  {
    forall o | 0 <= o < |t.opens| ensures OpenOk(t, o) { assert OpenOk(s, o); }
    forall r | 0 <= r < |t.runs| ensures RunOk(t, r) { assert RunOk(s, r); }
    forall d | 0 <= d < |t.live| ensures LiveOk(t, d) { assert LiveOk(s, d); }
  }

  lemma SameBase(s: State, t: State)
    requires Base(s) && t.v == s.v && t.live == s.live && t.opens == s.opens && t.runs == s.runs
    ensures Base(t) && Frame(s, t)
  {
    forall o | 0 <= o < |t.opens| ensures OpenOk(t, o) { assert OpenOk(s, o); }
    forall r | 0 <= r < |t.runs| ensures RunOk(t, r) { assert RunOk(s, r); }
    forall d | 0 <= d < |t.live| ensures LiveOk(t, d) { assert LiveOk(s, d); }
  }

  lemma CloseKeeps(s: State)
    requires Inv(s)
    ensures Inv(CallStep(s, Close, Allocates))
  {
    var i := |s.tasks|;
    var t := s.(tasks := s.tasks + [Task(Close, s.v.schemaGeneration, s.v.closed, 0, Rejected)], v := Latched(s.v));
    LatchBase(s, t);
    TasksCarry(s, t);
    if t.v.inflight.Some? {
      var o := t.v.inflight.value;
      forall p | 0 <= p < |t.opens| && p != o ensures t.opens[p].phase.Settled? { assert OpenOk(t, p); }
      SetPcKeeps(t, i, CloseOpen(o));
    } else {
      forall p | 0 <= p < |t.opens| ensures t.opens[p].phase.Settled? { assert OpenOk(t, p); }
      DrainKeeps(t, i);
    }
  }

  lemma CallKeeps(s: State, caller: Caller, factory: Factory)
    requires Inv(s) && !caller.Close?
    ensures Inv(CallStep(s, caller, factory))
  {
    var i := |s.tasks|;
    var t := s.(tasks := s.tasks + [Task(caller, s.v.schemaGeneration, s.v.closed, 0, Rejected)]);
    SameBase(s, t);
    TasksCarry(s, t);
    if caller.Connect? {
      ConnectKeeps(t, i, factory);
    } else if t.v.closed {
      SetPcKeeps(t, i, Rejected);
    } else if t.v.driver.Some? {
      DriverIsQuiet(t, t.v.driver.value);
      SetPcKeeps(t, i, Ready(t.v.driver.value));
    } else {
      ConnectKeeps(t, i, factory);
    }
  }

  lemma LeaveOpenBase(s: State, t: State, i: nat, o: nat)
    requires Inv(s) && OpenSettled(s, o) && s.v.inflight == Some(o) && s.opens[o].owner == i
    requires t == s.(v := LeaveOpen(s.v))
    ensures Base(t) && TasksBut(t, i)
  {
    forall p | 0 <= p < |t.opens| ensures OpenOk(t, p) { assert OpenOk(s, p); }
    forall r | 0 <= r < |t.runs| ensures RunOk(t, r) { assert RunOk(s, r); }
    forall d | 0 <= d < |t.live| ensures LiveOk(t, d) { assert LiveOk(s, d); }
    forall j | 0 <= j < |t.tasks| && j != i ensures TaskOk(t, j) {
      assert TaskOk(s, j);
      TaskFrame(s, t, j);
    }
  }

  lemma LeaveRunBase(s: State, t: State, i: nat, r: nat)
    requires Inv(s) && RunSettled(s, r) && s.v.refreshing == Some(r) && s.runs[r].owner == i
    requires t == s.(v := LeaveRun(s.v, r))
    ensures Base(t) && TasksBut(t, i) && Frame(s, t)
  {
    forall p | 0 <= p < |t.opens| ensures OpenOk(t, p) { assert OpenOk(s, p); }
    forall q | 0 <= q < |t.runs| ensures RunOk(t, q) { assert RunOk(s, q); }
    forall d | 0 <= d < |t.live| ensures LiveOk(t, d) { assert LiveOk(s, d); }
    forall j | 0 <= j < |t.tasks| && j != i ensures TaskOk(t, j) {
      assert TaskOk(s, j);
      TaskFrame(s, t, j);
    }
  }

  lemma AfterRunKeeps(s: State, i: nat, phase: RunPhase, d: nat, turn: nat, inConnect: bool)
    requires Base(s) && TasksBut(s, i) && i < |s.tasks| && Reaches(s, d)
    requires s.tasks[i].since <= s.v.schemaGeneration && !s.tasks[i].late
    requires s.tasks[i].turns == turn + 1 <= MAX_REFRESH_TURNS && (inConnect ==> s.tasks[i].caller.Connect?)
    ensures Inv(AfterRun(s, i, phase, d, turn, inConnect))
  {
    match phase
    case Failure(classified) =>
      if inConnect {
        DeliverKeeps(s, i, if classified then Failed else Threw);
      } else {
        SetPcKeeps(s, i, Rejected);
      }
    case _ => LoopKeeps(s, i, d, turn + 1, inConnect);
  }

  lemma RefreshedKeeps(s: State, i: nat)
    requires Inv(s) && CanResume(s, i) && s.tasks[i].pc.Refreshed?
    ensures Inv(ResumeStep(s, i))
  {
    assert TaskOk(s, i);
    if s.tasks[i].pc.inConnect {
      SetPcKeeps(s, i, Reanswered(Reread(s.v), s.tasks[i].pc.why));
    } else if s.v.cached.Some? {
      SetPcKeeps(s, i, Schema(s.v.cached.value, s.tasks[i].pc.why));
    } else {
      SetPcKeeps(s, i, Rejected);
    }
  }

  lemma ReturnedKeeps(s: State, i: nat)
    requires Inv(s) && CanResume(s, i) && s.tasks[i].pc.Returned?
    ensures Inv(ResumeStep(s, i))
  {
    assert TaskOk(s, i);
    if s.tasks[i].pc.result.Connected? && s.v.driver.Some? {
      DriverIsQuiet(s, s.v.driver.value);
      SetPcKeeps(s, i, Ready(s.v.driver.value));
    } else {
      SetPcKeeps(s, i, Rejected);
    }
  }

  lemma ResumeKeeps(s: State, i: nat)
    requires Inv(s) && CanResume(s, i)
    ensures Inv(ResumeStep(s, i))
  {
    assert TaskOk(s, i);
    match s.tasks[i].pc
    case OwnOpen(o) =>
      LeaveOpenBase(s, s.(v := LeaveOpen(s.v)), i, o);
      DeliverOpenKeeps(s.(v := LeaveOpen(s.v)), i, o, false);
    case AwaitOpen(o) => DeliverOpenKeeps(s, i, o, true);
    case OwnRun(r, d, turn, inConnect) =>
      LeaveRunBase(s, s.(v := LeaveRun(s.v, r)), i, r);
      AfterRunKeeps(s.(v := LeaveRun(s.v, r)), i, s.runs[r].phase, d, turn, inConnect);
    case AwaitRun(r, d, turn, inConnect) => AfterRunKeeps(s, i, s.runs[r].phase, d, turn, inConnect);
    case Refreshed(_, _) => RefreshedKeeps(s, i);
    case Returned(_) => ReturnedKeeps(s, i);
    case Ready(d) =>
      if s.tasks[i].caller.Read? {
        LoopKeeps(s, i, d, 0, false);
      } else {
        SetPcKeeps(s, i, Queried(d));
      }
    case CloseOpen(_) => DrainKeeps(s, i);
    case CloseRun(_) => ReleaseKeeps(s, i);
    case _ =>
  }

  /** What the world does to an open or a refresh leaves the calls where they are. */
  lemma WorldKeeps(s: State, t: State)
    requires Inv(s) && Base(t) && Frame(s, t) && t.tasks == s.tasks
    requires t.v.inflight == s.v.inflight && t.v.refreshing == s.v.refreshing
    ensures Inv(t)
  {
    TasksCarry(s, t);
  }

  lemma OpenKeeps(s: State, e: Event)
    requires Inv(s) && Enabled(s, e)
    requires e.OpenConnected? || e.OpenListed? || e.OpenFails? || e.OpenFailed?
    ensures Inv(Apply(s, e))
  {
    var t := Apply(s, e);
    assert OpenOk(s, e.open) && !AllSettled(s.opens);
    forall o | 0 <= o < |t.opens| ensures OpenOk(t, o) { assert OpenOk(s, o); }
    forall r | 0 <= r < |t.runs| ensures RunOk(t, r) { assert RunOk(s, r); }
    forall d | 0 <= d < |t.live| ensures LiveOk(t, d) { assert LiveOk(s, d); }
    WorldKeeps(s, t);
  }

  lemma RunKeeps(s: State, e: Event)
    requires Inv(s) && Enabled(s, e)
    requires e.RunListed? || e.RunFails?
    ensures Inv(Apply(s, e))
  {
    var t := Apply(s, e);
    assert RunOk(s, e.run);
    forall o | 0 <= o < |t.opens| ensures OpenOk(t, o) { assert OpenOk(s, o); }
    forall r | 0 <= r < |t.runs| ensures RunOk(t, r) { assert RunOk(s, r); }
    forall d | 0 <= d < |t.live| ensures LiveOk(t, d) { assert LiveOk(s, d); }
    WorldKeeps(s, t);
  }

  lemma StepKeeps(s: State, e: Event)
    requires Inv(s) && Enabled(s, e)
    ensures Inv(Apply(s, e))
  {
    match e
    case Call(caller, factory) =>
      if caller.Close? {
        CloseKeeps(s);
      } else {
        CallKeeps(s, caller, factory);
      }
    case Resume(i) => ResumeKeeps(s, i);
    case Invalidate => InvalidateKeeps(s);
    case RunListed(_) => RunKeeps(s, e);
    case RunFails(_, _) => RunKeeps(s, e);
    case _ => OpenKeeps(s, e);
  }

  // ---- Runs --------------------------------------------------------------------------

  /** The events lead from `s` to `t`, each enabled when it happens. */
  predicate Leads(s: State, events: seq<Event>, t: State)
    decreases |events|
  {
    if events == [] then s == t
    else Enabled(s, events[0]) && Leads(Apply(s, events[0]), events[1..], t)
  }

  predicate Reached(start: State, events: seq<Event>, s: State) {
    Init(start) && Leads(start, events, s)
  }

  lemma {:induction false} LeadsKeepInv(s: State, events: seq<Event>, t: State)
    requires Inv(s) && Leads(s, events, t)
    ensures Inv(t)
    decreases |events|
  {
    if events != [] {
      StepKeeps(s, events[0]);
      LeadsKeepInv(Apply(s, events[0]), events[1..], t);
    }
  }

  lemma ReachedKeepsInv(start: State, events: seq<Event>, s: State)
    requires Reached(start, events, s)
    ensures Inv(s)
  {
    InitHolds(start);
    LeadsKeepInv(start, events, s);
  }

  /**
   No invalidation is lost: while a memo is held that nothing marks stale, it was read
   after the latest invalidation, from the driver the manager holds.
   */
  lemma NoLostInvalidation(start: State, events: seq<Event>, s: State)
    requires Reached(start, events, s) && s.v.cached.Some? && !s.v.schemaStale
    ensures s.v.driver == Some(s.v.cached.value.driver) && s.v.cached.value.begun == s.v.schemaGeneration
  {
    ReachedKeepsInv(start, events, s);
  }

  lemma CallLeavesFlag(s: State, caller: Caller, factory: Factory)
    ensures CallStep(s, caller, factory).v.schemaStale == s.v.schemaStale
  {
  }

  lemma ResumeLeavesFlag(s: State, i: nat)
    requires CanResume(s, i)
    ensures ResumeStep(s, i).v.schemaStale == s.v.schemaStale
  {
  }

  lemma ClearedByAnAnswer(s: State, e: Event)
    requires Enabled(s, e) && s.v.schemaStale && !Apply(s, e).v.schemaStale
    ensures e.OpenListed? || e.RunListed?
  {
    match e
    case Call(caller, factory) => CallLeavesFlag(s, caller, factory);
    case Resume(i) => ResumeLeavesFlag(s, i);
    case _ =>
  }

  /** The stale flag is only ever cleared by an answer begun after the latest invalidation. */
  lemma OnlyACurrentAnswerClears(start: State, events: seq<Event>, s: State, e: Event)
    requires Reached(start, events, s) && Enabled(s, e)
    requires s.v.schemaStale && !Apply(s, e).v.schemaStale
    ensures e.OpenListed? || e.RunListed?
    ensures var v := Apply(s, e).v;
            v.cached.Some? && v.cached.value.begun == v.schemaGeneration == s.v.schemaGeneration
  {
    ReachedKeepsInv(start, events, s);
    ClearedByAnAnswer(s, e);
    StepKeeps(s, e);
  }

  /** At most one open and one refresh are under way. */
  lemma SingleFlight(start: State, events: seq<Event>, s: State, a: nat, b: nat)
    requires Reached(start, events, s) && a < b
    ensures b < |s.opens| ==> s.opens[a].phase.Settled? || s.opens[b].phase.Settled?
    ensures b < |s.runs| ==> !s.runs[a].phase.Reading? || !s.runs[b].phase.Reading?
  {
    ReachedKeepsInv(start, events, s);
    if b < |s.opens| {
      assert OpenOk(s, a) && OpenOk(s, b);
    }
    if b < |s.runs| {
      assert RunOk(s, a) && RunOk(s, b);
    }
  }

  /** The flight an owner clears when it goes on is always its own. */
  lemma OwnersClearTheirOwn(start: State, events: seq<Event>, s: State, i: nat)
    requires Reached(start, events, s) && i < |s.tasks|
    ensures s.tasks[i].pc.OwnRun? ==> s.v.refreshing == Some(s.tasks[i].pc.run)
    ensures s.tasks[i].pc.OwnOpen? ==> s.v.inflight == Some(s.tasks[i].pc.open)
  {
    ReachedKeepsInv(start, events, s);
    assert TaskOk(s, i);
  }

  /** Every driver ever created is closed, held by the manager, or owned by the open under way. */
  lemma DriversAreConserved(start: State, events: seq<Event>, s: State, d: nat)
    requires Reached(start, events, s) && d < |s.live|
    ensures !s.live[d] || s.v.driver == Some(d) || OwnedByOpen(s, d)
    ensures s.v.driver == Some(d) ==> s.live[d] && !OwnedByOpen(s, d)
  {
    ReachedKeepsInv(start, events, s);
    assert LiveOk(s, d);
    if s.v.inflight.Some? {
      assert OpenOk(s, s.v.inflight.value);
    }
  }

  predicate Finished(pc: Pc) {
    pc.Resolved? || pc.FromOpen? || pc.Reanswered? || pc.Schema? || pc.Queried? || pc.Rejected? || pc.Fallback? || pc.Shut?
  }

  /** Of the calls, only this one moves. */
  predicate OnlyMoves(s: State, t: State, i: nat) {
    |t.tasks| == |s.tasks| && forall j | 0 <= j < |s.tasks| && j != i :: t.tasks[j] == s.tasks[j]
  }

  lemma LoopMoves(s: State, i: nat, d: nat, turn: nat, inConnect: bool)
    requires i < |s.tasks|
    ensures OnlyMoves(s, EnterLoop(s, i, d, turn, inConnect), i)
  {
  }

  lemma ConnectMoves(s: State, i: nat, factory: Factory)
    requires i < |s.tasks|
    ensures OnlyMoves(s, EnterConnect(s, i, factory), i)
  {
    LoopMoves(s, i, if s.v.driver.Some? then s.v.driver.value else 0, 0, true);
  }

  lemma CallMoves(s: State, caller: Caller, factory: Factory, i: nat)
    requires i < |s.tasks|
    ensures var t := CallStep(s, caller, factory); |t.tasks| > |s.tasks| && t.tasks[i] == s.tasks[i]
  {
    var t := s.(tasks := s.tasks + [Task(caller, s.v.schemaGeneration, s.v.closed, 0, Rejected)]);
    ConnectMoves(t, |s.tasks|, factory);
  }

  lemma ResumeMoves(s: State, i: nat)
    requires CanResume(s, i)
    ensures OnlyMoves(s, ResumeStep(s, i), i)
  {
    match s.tasks[i].pc
    case OwnRun(r, d, turn, inConnect) => LoopMoves(s.(v := LeaveRun(s.v, r)), i, d, turn + 1, inConnect);
    case AwaitRun(r, d, turn, inConnect) => LoopMoves(s, i, d, turn + 1, inConnect);
    case Ready(d) => LoopMoves(s, i, d, 0, false);
    case _ =>
  }

  lemma FinishedStays(s: State, e: Event, i: nat)
    requires Enabled(s, e) && i < |s.tasks| && Finished(s.tasks[i].pc)
    ensures |Apply(s, e).tasks| >= |s.tasks| && Apply(s, e).tasks[i] == s.tasks[i]
  {
    match e
    case Call(caller, factory) => CallMoves(s, caller, factory, i);
    case Resume(j) => ResumeMoves(s, j);
    case _ =>
  }

  lemma {:induction false} FinishedRemains(s: State, events: seq<Event>, t: State, i: nat)
    requires Leads(s, events, t) && i < |s.tasks| && Finished(s.tasks[i].pc)
    ensures i < |t.tasks| && t.tasks[i] == s.tasks[i]
    decreases |events|
  {
    if events != [] {
      FinishedStays(s, events[0], i);
      FinishedRemains(Apply(s, events[0]), events[1..], t, i);
    }
  }

  lemma NothingIsLive(s: State, i: nat)
    requires Inv(s) && i < |s.tasks| && s.tasks[i].pc.Shut?
    ensures s.v.closed && s.v.driver.None? && s.v.cached.None?
    ensures forall d | 0 <= d < |s.live| :: !s.live[d]
  {
    assert TaskOk(s, i);
    forall d | 0 <= d < |s.live| ensures !s.live[d] {
      assert LiveOk(s, d);
    }
  }

  /** From the moment a `close` completes there is no driver, no memo and no open connection. */
  lemma ClosedForever(start: State, events: seq<Event>, s: State, i: nat, later: seq<Event>, t: State)
    requires Reached(start, events, s) && i < |s.tasks| && s.tasks[i].pc.Shut?
    requires Leads(s, later, t)
    ensures t.v.closed && t.v.driver.None? && t.v.cached.None?
    ensures forall d | 0 <= d < |t.live| :: !t.live[d]
  {
    ReachedKeepsInv(start, events, s);
    LeadsKeepInv(s, later, t);
    FinishedRemains(s, later, t, i);
    NothingIsLive(t, i);
  }

  /** A call made after the latch is refused: `connect` with the neutral failure, never a schema. */
  lemma LateCallsAreRefused(start: State, events: seq<Event>, s: State, i: nat)
    requires Reached(start, events, s) && i < |s.tasks| && s.tasks[i].late
    ensures var pc := s.tasks[i].pc; pc == Resolved(Failed) || pc.Rejected? || IsClosing(pc)
  {
    ReachedKeepsInv(start, events, s);
    assert TaskOk(s, i);
  }

  /**
   A read answers with a schema read after every invalidation made before it was called,
   unless it has spent all its turns or the manager is shutting down; no call spends more
   than its turns, and no read finds a live driver without a memo.
   */
  lemma ReadsAreFresh(start: State, events: seq<Event>, s: State, i: nat)
    requires Reached(start, events, s) && i < |s.tasks|
    ensures var t := s.tasks[i];
            && t.turns <= 3 && !t.pc.Fallback?
            && (t.pc.Schema? ==> t.pc.memo.begun >= t.since || t.turns == 3 || s.v.closed)
  {
    ReachedKeepsInv(start, events, s);
    assert TaskOk(s, i);
  }

  /**
   A `connect` that found a connection and was not broken by its refresh answers with a schema
   as fresh as a read's, or with the neutral failure; never with another outcome.
   */
  lemma ConnectsAreFresh(start: State, events: seq<Event>, s: State, i: nat)
    requires Reached(start, events, s) && i < |s.tasks| && s.tasks[i].pc.Reanswered?
    ensures var t := s.tasks[i];
            && (t.pc.result.Connected? || t.pc.result.Failed?)
            && (t.pc.result.Connected? ==>
                  t.pc.result.memo.begun >= t.since || t.turns == 3 || s.v.closed)
  {
    ReachedKeepsInv(start, events, s);
    assert TaskOk(s, i);
  }

  /**
   A `connect` that waited for an open answers with a schema no older than the invalidations
   made before that open began; when it began the open itself, no older than those made
   before it was called.
   */
  lemma OpenAnswersAreAsOldAsTheOpen(start: State, events: seq<Event>, s: State, i: nat)
    requires Reached(start, events, s) && i < |s.tasks| && s.tasks[i].pc.FromOpen?
    ensures var t := s.tasks[i];
            && t.pc.open < |s.opens| && s.opens[t.pc.open].phase == Settled(t.pc.result)
            && (t.pc.result.Connected? ==>
                  && t.pc.result.memo.begun >= s.opens[t.pc.open].generation
                  && (t.pc.joined || t.pc.result.memo.begun >= t.since))
  {
    ReachedKeepsInv(start, events, s);
    assert TaskOk(s, i);
    assert OpenOk(s, s.tasks[i].pc.open);
  }

  // ---- The answer of a joined open can be older than the call ------------------------

  const NOBODY := State(INITIAL, true, [], [], [], [])

  lemma OneMore(s: State, e: Event, t: State, events: seq<Event>, end: State)
    requires Enabled(s, e) && Apply(s, e) == t && Leads(t, events, end)
    ensures Leads(s, [e] + events, end)
  {
    assert ([e] + events)[1..] == events;
  }

  /** One call has begun an open, which has connected and is listing the schema. */
  const LISTING := State(
    INITIAL.(inflight := Some(0)), true, [true], [OpenRun(0, 0, 0, Listing(0))], [],
    [Task(Connect, 0, false, 0, OwnOpen(0))])

  /** Then the schema is invalidated, and a second call joins the open. */
  const JOINED := State(
    INITIAL.(inflight := Some(0), schemaStale := true, schemaGeneration := 1), true, [true],
    [OpenRun(0, 0, 0, Listing(0))], [],
    [Task(Connect, 0, false, 0, OwnOpen(0)), Task(Connect, 1, false, 0, AwaitOpen(0))])

  const ANSWERED := State(
    INITIAL.(inflight := Some(0), schemaStale := true, schemaGeneration := 1, driver := Some(0),
             cached := Some(Memo(0, 0))), true, [true],
    [OpenRun(0, 0, 0, Settled(Connected(Memo(0, 0))))], [],
    [Task(Connect, 0, false, 0, OwnOpen(0)),
     Task(Connect, 1, false, 0, FromOpen(Connected(Memo(0, 0)), 0, true))])

  lemma BeginsListing(events: seq<Event>, end: State) returns (all: seq<Event>)
    requires Leads(LISTING, events, end)
    ensures Leads(NOBODY, all, end)
  {
    var connecting := LISTING.(opens := [OpenRun(0, 0, 0, Connecting)]);
    OneMore(connecting, OpenConnected(0), LISTING, events, end);
    OneMore(NOBODY, Call(Connect, Allocates), connecting, [OpenConnected(0)] + events, end);
    all := [Call(Connect, Allocates)] + ([OpenConnected(0)] + events);
  }

  lemma Joins(events: seq<Event>, end: State) returns (all: seq<Event>)
    requires Leads(JOINED, events, end)
    ensures Leads(LISTING, all, end)
  {
    var stale := JOINED.(tasks := LISTING.tasks);
    OneMore(stale, Call(Connect, Allocates), JOINED, events, end);
    OneMore(LISTING, Invalidate, stale, [Call(Connect, Allocates)] + events, end);
    all := [Invalidate] + ([Call(Connect, Allocates)] + events);
  }

  lemma AnswersLate() returns (all: seq<Event>)
    ensures Leads(JOINED, all, ANSWERED)
  {
    var listed := ANSWERED.(tasks := JOINED.tasks);
    OneMore(listed, Resume(1), ANSWERED, [], ANSWERED);
    OneMore(JOINED, OpenListed(0), listed, [Resume(1)] + [], ANSWERED);
    all := [OpenListed(0)] + ([Resume(1)] + []);
  }

  /** A run in which a `connect` answers with a schema older than an invalidation made before it. */
  lemma AJoinedOpenCanBeStale() returns (start: State, events: seq<Event>, s: State)
    ensures Reached(start, events, s) && |s.tasks| == 2
    ensures var t := s.tasks[1];
            t.pc.FromOpen? && t.pc.joined && t.pc.result.Connected? && t.pc.result.memo.begun < t.since
  {
    start, s := NOBODY, ANSWERED;
    events := AnswersLate();
    events := Joins(events, ANSWERED);
    events := BeginsListing(events, ANSWERED);
  }
}
