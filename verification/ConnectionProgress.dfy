/**
 What the manager gets done: answers land, invalidations are counted, a call spends a turn
 only for a reason, nothing waits for ever on the manager itself, and the plain runs of one
 caller end as they should.
 */
module ConnectionProgress {
  import opened Text
  import opened ConnectionManager
  import opened ConnectionRuns

  // ---- What an answer does -----------------------------------------------------------

  /**
   A refresh begun after the latest invalidation becomes the memo and clears the flag; a
   superseded one, or one that answers after shutdown, changes nothing.
   */
  lemma CurrentAnswersLand(start: State, events: seq<Event>, s: State, r: nat)
    requires Reached(start, events, s) && Enabled(s, RunListed(r))
    ensures var run, v := s.runs[r], Apply(s, RunListed(r)).v;
            if run.generation == s.v.schemaGeneration && !s.v.closed then
              && v.cached == Some(Memo(run.driver, s.v.schemaGeneration)) && !v.schemaStale
              && v.driver == Some(run.driver) && v.refreshing == Some(r)
            else v == s.v
  {
    ReachedKeepsInv(start, events, s);
    assert RunOk(s, r);
  }

  /** An open that answers is adopted with its schema; it clears the flag unless it is superseded. */
  lemma OpensLand(start: State, events: seq<Event>, s: State, o: nat)
    requires Reached(start, events, s) && Enabled(s, OpenListed(o))
    ensures var open, t := s.opens[o], Apply(s, OpenListed(o));
            && t.v.driver == Some(open.driver) && t.v.cached == Some(Memo(open.driver, open.phase.begun))
            && (t.v.schemaStale <==> open.generation != s.v.schemaGeneration)
            && t.opens[o].phase == Settled(Connected(Memo(open.driver, open.phase.begun)))
            && t.v.schemaGeneration == s.v.schemaGeneration && t.v.closed == s.v.closed
  {
    ReachedKeepsInv(start, events, s);
    assert OpenOk(s, o);
  }

  // ---- Invalidations and the latch are what the run says ------------------------------

  function Invalidations(events: seq<Event>): nat {
    if events == [] then 0 else (if events[0] == Invalidate then 1 else 0) + Invalidations(events[1..])
  }

  predicate Closes(e: Event) {
    e.Call? && e.caller == Close
  }

  lemma CallCounts(s: State, caller: Caller, factory: Factory)
    ensures var v := CallStep(s, caller, factory).v;
            v.schemaGeneration == s.v.schemaGeneration && v.closed == (s.v.closed || caller == Close)
  {
  }

  lemma ResumeCounts(s: State, i: nat)
    requires CanResume(s, i)
    ensures var v := ResumeStep(s, i).v;
            v.schemaGeneration == s.v.schemaGeneration && v.closed == s.v.closed
  {
  }

  lemma StepCounts(s: State, e: Event)
    requires Enabled(s, e)
    ensures var v := Apply(s, e).v;
            && v.schemaGeneration == s.v.schemaGeneration + (if e == Invalidate then 1 else 0)
            && v.closed == (s.v.closed || Closes(e))
            && (e == Invalidate ==> v.schemaStale)
  {
    match e
    case Call(caller, factory) => CallCounts(s, caller, factory);
    case Resume(i) => ResumeCounts(s, i);
    case _ =>
  }

  lemma {:induction false} LeadsCount(s: State, events: seq<Event>, t: State)
    requires Leads(s, events, t)
    ensures t.v.schemaGeneration == s.v.schemaGeneration + Invalidations(events)
    ensures t.v.closed <==> s.v.closed || exists e :: e in events && Closes(e)
    decreases |events|
  {
    if events != [] {
      StepCounts(s, events[0]);
      LeadsCount(Apply(s, events[0]), events[1..], t);
    }
  }

  /**
   The generation is the number of invalidations made, the latch is set exactly by a close,
   and an invalidation marks whatever is held as stale.
   */
  lemma RunsAreCounted(start: State, events: seq<Event>, s: State)
    requires Reached(start, events, s)
    ensures s.v.schemaGeneration == Invalidations(events)
    ensures s.v.closed <==> exists e :: e in events && Closes(e)
    ensures Apply(s, Invalidate).v.schemaStale
  {
    LeadsCount(start, events, s);
  }

  // ---- Every turn has a reason -------------------------------------------------------

  /** The runs after `r` were begun when at least `since` invalidations had been made. */
  predicate LaterRuns(s: State, r: nat, since: nat) {
    forall q | r < q < |s.runs| :: s.runs[q].generation >= since
  }

  /** What a call awaits on its `turn`: begun the later, the more turns it has spent. */
  predicate Awaited(s: State, t: Task, r: nat, turn: nat, own: bool) {
    && r < |s.runs| && LaterRuns(s, r, t.since)
    && (turn == 0 && own ==> s.runs[r].generation >= t.since)
    && (turn > 0 ==> s.runs[r].generation + 1 >= t.since + turn)
  }

  predicate Outrun(s: State, t: Task, why: Why) {
    why.GaveUp? ==> s.v.schemaGeneration >= t.since + 2
  }

  predicate TaskPace(s: State, t: Task) {
    && t.since <= s.v.schemaGeneration
    && (t.turns >= 2 ==> s.v.schemaGeneration + 2 >= t.since + t.turns)
    && match t.pc
       case OwnRun(r, _, turn, _) => Awaited(s, t, r, turn, true) && t.turns == turn + 1
       case AwaitRun(r, _, turn, _) => Awaited(s, t, r, turn, false) && t.turns == turn + 1
       case Refreshed(_, why) => Outrun(s, t, why)
       case Reanswered(_, why) => Outrun(s, t, why)
       case Schema(_, why) => Outrun(s, t, why)
       case CloseOpen(o) => o < |s.opens|
       case CloseRun(r) => r < |s.runs|
       case _ => true
  }

  /** Nothing that has answered is current while the flag is set. */
  predicate Superseded(s: State) {
    s.v.schemaStale && !s.v.closed ==>
      forall r | 0 <= r < |s.runs| && s.runs[r].phase.Answered? :: s.runs[r].generation < s.v.schemaGeneration
  }

  /** The refresh recorded is the latest, and a run that has answered was begun before the later ones. */
  predicate RunPace(s: State) {
    && (s.v.refreshing.Some? ==> s.v.refreshing.value + 1 == |s.runs|)
    && (forall r | 0 <= r < |s.runs| :: s.runs[r].generation <= s.v.schemaGeneration)
    && (forall r, q | 0 <= r < q < |s.runs| ::
          s.runs[r].phase.Answered? ==> s.runs[r].generation < s.runs[q].generation)
    && Superseded(s)
  }

  predicate OwnsRun(s: State, r: nat) {
    r < |s.runs| && s.runs[r].owner < |s.tasks|
    && s.tasks[s.runs[r].owner].pc.OwnRun? && s.tasks[s.runs[r].owner].pc.run == r
  }

  predicate OwnsOpen(s: State, o: nat) {
    o < |s.opens| && s.opens[o].owner < |s.tasks| && s.tasks[s.opens[o].owner].pc == OwnOpen(o)
  }

  /** A flight is recorded only while its owner awaits it. */
  predicate Owned(s: State) {
    && (s.v.refreshing.Some? ==> OwnsRun(s, s.v.refreshing.value))
    && (s.v.inflight.Some? ==> OwnsOpen(s, s.v.inflight.value))
  }

  predicate PacedBut(s: State, i: nat) {
    forall j | 0 <= j < |s.tasks| && j != i :: TaskPace(s, s.tasks[j])
  }

  predicate Paced(s: State) {
    RunPace(s) && Owned(s) && forall j | 0 <= j < |s.tasks| :: TaskPace(s, s.tasks[j])
  }

  /** Runs are only added, with the present generation. */
  predicate RunsGrow(s: State, t: State) {
    && |s.opens| <= |t.opens| && |s.runs| <= |t.runs| && s.v.schemaGeneration <= t.v.schemaGeneration
    && (forall r | 0 <= r < |s.runs| :: t.runs[r].generation == s.runs[r].generation)
    && (forall r | |s.runs| <= r < |t.runs| :: t.runs[r].generation >= s.v.schemaGeneration)
  }

  lemma PaceFrame(s: State, t: State, task: Task)
    requires TaskPace(s, task) && RunsGrow(s, t)
    ensures TaskPace(t, task)
  {
  }

  /** Enough invalidations for a call to take this turn. */
  predicate MayTurn(s: State, t: Task, turn: nat) {
    turn > 0 && s.v.schemaStale && !s.v.closed ==>
      && s.v.schemaGeneration + 1 >= t.since + turn
      && (s.v.refreshing.Some? ==>
          s.v.refreshing.value < |s.runs| && s.runs[s.v.refreshing.value].generation + 1 >= t.since + turn)
  }

  /** The owner of a recorded flight is not this call. */
  predicate OwnedByOthers(s: State, i: nat) {
    && Owned(s)
    && (s.v.refreshing.Some? ==> s.runs[s.v.refreshing.value].owner != i)
    && (s.v.inflight.Some? ==> s.opens[s.v.inflight.value].owner != i)
  }

  /** One call moves to a place where it owns nothing. */
  lemma MovePaces(s: State, i: nat, task: Task)
    requires RunPace(s) && OwnedByOthers(s, i) && PacedBut(s, i) && i < |s.tasks| && TaskPace(s, task)
    ensures Paced(s.(tasks := s.tasks[i := task]))
  {
    var t := s.(tasks := s.tasks[i := task]);
    forall j | 0 <= j < |t.tasks| ensures TaskPace(t, t.tasks[j]) {
      PaceFrame(s, t, t.tasks[j]);
    }
  }

  lemma StartedRunPaces(s: State, t: State, i: nat, d: nat)
    requires RunPace(s) && s.v.refreshing.None? && s.v.schemaStale && !s.v.closed
    requires forall r | 0 <= r < |s.runs| :: !s.runs[r].phase.Reading?
    requires t.v == s.v.(refreshing := Some(|s.runs|))
    requires t.runs == s.runs + [Run(i, d, s.v.schemaGeneration, Reading)] && t.opens == s.opens
    ensures RunPace(t) && RunsGrow(s, t)
  {
  }

  lemma NewRunPace(s: State, t: State, was: Task, task: Task, r: nat, turn: nat)
    requires r == |s.runs| && |t.runs| == r + 1 && t.v.schemaGeneration == s.v.schemaGeneration == t.runs[r].generation
    requires s.v.schemaStale && !s.v.closed && was.since <= s.v.schemaGeneration && MayTurn(s, was, turn)
    requires task.pc.OwnRun? && task.pc.run == r && task.pc.turn == turn
    requires task.turns == turn + 1 && task.since == was.since
    ensures TaskPace(t, task)
  {
  }

  lemma OthersKeepPace(s: State, t: State, i: nat)
    requires PacedBut(s, i) && RunsGrow(s, t) && i < |s.tasks| == |t.tasks|
    requires forall j | 0 <= j < |s.tasks| && j != i :: t.tasks[j] == s.tasks[j]
    ensures PacedBut(t, i)
  {
    forall j | 0 <= j < |t.tasks| && j != i ensures TaskPace(t, t.tasks[j]) {
      PaceFrame(s, t, t.tasks[j]);
    }
  }

  /** A call begins a refresh of its own. */
  lemma StartPaces(s: State, t: State, i: nat, d: nat, turn: nat)
    requires RunPace(s) && OwnedByOthers(s, i) && PacedBut(s, i) && i < |s.tasks| == |t.tasks|
    requires s.v.refreshing.None? && s.v.schemaStale && !s.v.closed
    requires forall r | 0 <= r < |s.runs| :: !s.runs[r].phase.Reading?
    requires s.tasks[i].since <= s.v.schemaGeneration && MayTurn(s, s.tasks[i], turn)
    requires t.v == s.v.(refreshing := Some(|s.runs|)) && t.opens == s.opens
    requires t.runs == s.runs + [Run(i, d, s.v.schemaGeneration, Reading)]
    requires t.tasks[i].pc.OwnRun? && t.tasks[i].pc.run == |s.runs| && t.tasks[i].pc.turn == turn
    requires t.tasks[i].turns == turn + 1 && t.tasks[i].since == s.tasks[i].since
    requires forall j | 0 <= j < |s.tasks| && j != i :: t.tasks[j] == s.tasks[j]
    ensures Paced(t)
  {
    StartedRunPaces(s, t, i, d);
    NewRunPace(s, t, s.tasks[i], t.tasks[i], |s.runs|, turn);
    OthersKeepPace(s, t, i);
    StartedIsOwned(s, t, i);
    Gathered(t, i);
  }

  lemma Gathered(t: State, i: nat)
    requires RunPace(t) && Owned(t) && PacedBut(t, i) && i < |t.tasks| && TaskPace(t, t.tasks[i])
    ensures Paced(t)
  {
  }

  lemma StartedIsOwned(s: State, t: State, i: nat)
    requires OwnedByOthers(s, i) && i < |s.tasks| == |t.tasks| && |t.runs| == |s.runs| + 1
    requires t.v == s.v.(refreshing := Some(|s.runs|)) && t.opens == s.opens && t.runs[|s.runs|].owner == i
    requires t.tasks[i].pc.OwnRun? && t.tasks[i].pc.run == |s.runs|
    requires forall j | 0 <= j < |s.tasks| && j != i :: t.tasks[j] == s.tasks[j]
    ensures Owned(t)
  {
  }

  lemma JoinPaces(s: State, i: nat, r: nat, d: nat, turn: nat, inConnect: bool)
    requires RunPace(s) && OwnedByOthers(s, i) && PacedBut(s, i) && i < |s.tasks|
    requires s.v.refreshing == Some(r) && s.v.schemaStale && !s.v.closed
    requires s.tasks[i].since <= s.v.schemaGeneration && s.tasks[i].turns == turn && MayTurn(s, s.tasks[i], turn)
    ensures Paced(SetTurn(s, i, AwaitRun(r, d, turn, inConnect)))
  {
    MovePaces(s, i, s.tasks[i].(turns := turn + 1, pc := AwaitRun(r, d, turn, inConnect)));
  }

  lemma LeavePaces(s: State, i: nat, turn: nat, inConnect: bool)
    requires RunPace(s) && OwnedByOthers(s, i) && PacedBut(s, i) && i < |s.tasks|
    requires s.tasks[i].since <= s.v.schemaGeneration && s.tasks[i].turns == turn && MayTurn(s, s.tasks[i], turn)
    requires turn >= 2 ==> s.v.schemaGeneration + 2 >= s.tasks[i].since + turn
    requires s.v.schemaStale && !s.v.closed ==> turn == 3
    ensures var why := if !s.v.schemaStale then Current else if s.v.closed then ShuttingDown else GaveUp;
            Paced(SetPc(s, i, Refreshed(inConnect, why)))
  {
    var why := if !s.v.schemaStale then Current else if s.v.closed then ShuttingDown else GaveUp;
    MovePaces(s, i, s.tasks[i].(pc := Refreshed(inConnect, why)));
  }

  lemma LoopPaces(s: State, i: nat, d: nat, turn: nat, inConnect: bool)
    requires RunPace(s) && OwnedByOthers(s, i) && PacedBut(s, i) && i < |s.tasks|
    requires s.v.refreshing.None? ==> forall r | 0 <= r < |s.runs| :: !s.runs[r].phase.Reading?
    requires s.tasks[i].since <= s.v.schemaGeneration && s.tasks[i].turns == turn && MayTurn(s, s.tasks[i], turn)
    requires turn <= 3
    requires turn >= 2 ==> s.v.schemaGeneration + 2 >= s.tasks[i].since + turn
    ensures Paced(EnterLoop(s, i, d, turn, inConnect))
  {
    if !(s.v.schemaStale && !s.v.closed && turn < 3) {
      LeavePaces(s, i, turn, inConnect);
    } else if s.v.refreshing.Some? {
      JoinPaces(s, i, s.v.refreshing.value, d, turn, inConnect);
    } else {
      StartPaces(s, EnterLoop(s, i, d, turn, inConnect), i, d, turn);
    }
  }

  lemma NoneReading(s: State)
    requires Inv(s) && s.v.refreshing.None?
    ensures forall r | 0 <= r < |s.runs| :: !s.runs[r].phase.Reading?
  {
    forall r | 0 <= r < |s.runs| ensures !s.runs[r].phase.Reading? {
      assert RunOk(s, r);
    }
  }

  lemma NoneReadingBut(s: State, own: nat)
    requires Inv(s) && RunSettled(s, own) && s.v.refreshing == Some(own)
    ensures forall r | 0 <= r < |s.runs| :: !s.runs[r].phase.Reading?
  {
    forall r | 0 <= r < |s.runs| ensures !s.runs[r].phase.Reading? {
      assert RunOk(s, r);
    }
  }

  lemma OwnerMoves(s: State, i: nat)
    requires Owned(s) && i < |s.tasks|
    ensures !s.tasks[i].pc.OwnRun? && !s.tasks[i].pc.OwnOpen? ==> OwnedByOthers(s, i)
    ensures s.tasks[i].pc.OwnOpen? && s.v.inflight == Some(s.tasks[i].pc.open) ==>
            OwnedByOthers(s.(v := LeaveOpen(s.v)), i)
    ensures s.tasks[i].pc.OwnRun? && s.v.refreshing == Some(s.tasks[i].pc.run) ==>
            OwnedByOthers(s.(v := LeaveRun(s.v, s.tasks[i].pc.run)), i)
  {
  }

  /** What a call does once the refresh it awaited has failed. */
  lemma FailurePaces(s: State, i: nat, phase: RunPhase, d: nat, turn: nat, inConnect: bool)
    requires RunPace(s) && OwnedByOthers(s, i) && PacedBut(s, i) && i < |s.tasks| && phase.Failure?
    requires TaskPace(s, s.tasks[i].(pc := Rejected))
    ensures Paced(AfterRun(s, i, phase, d, turn, inConnect))
  {
    var result := if phase.classified then Failed else Threw;
    var pc := if !inConnect then Rejected
              else if s.tasks[i].caller.Connect? then Resolved(result) else Returned(result);
    MovePaces(s, i, s.tasks[i].(pc := pc));
  }

  lemma RunLeft(s: State, t: State, i: nat, r: nat)
    requires Inv(s) && Paced(s) && i < |s.tasks| && s.tasks[i].pc.OwnRun? && s.tasks[i].pc.run == r
    requires RunSettled(s, r) && s.v.refreshing == Some(r) && t == s.(v := LeaveRun(s.v, r))
    ensures RunPace(t) && OwnedByOthers(t, i) && PacedBut(t, i) && TaskPace(t, t.tasks[i])
    ensures forall q | 0 <= q < |t.runs| :: !t.runs[q].phase.Reading?
  {
    OwnerMoves(s, i);
    NoneReadingBut(s, r);
    forall j | 0 <= j < |t.tasks| ensures TaskPace(t, t.tasks[j]) {
      PaceFrame(s, t, t.tasks[j]);
    }
  }

  lemma NextTurn(s: State, task: Task, r: nat, turn: nat)
    requires RunPace(s) && TaskPace(s, task) && (task.pc.OwnRun? || task.pc.AwaitRun?)
    requires task.pc.run == r && task.pc.turn == turn && s.v.refreshing != Some(r)
    ensures task.since <= s.v.schemaGeneration && task.turns == turn + 1 && r < |s.runs|
    ensures s.runs[r].phase.Answered? ==> MayTurn(s, task, turn + 1)
    ensures turn >= 1 ==> s.v.schemaGeneration + 2 >= task.since + (turn + 1)
    ensures TaskPace(s, task.(pc := Rejected))
  {
  }

  lemma AfterRunPaces(s: State, i: nat, r: nat, d: nat, turn: nat, inConnect: bool)
    requires RunPace(s) && OwnedByOthers(s, i) && PacedBut(s, i) && i < |s.tasks|
    requires s.v.refreshing.None? ==> forall q | 0 <= q < |s.runs| :: !s.runs[q].phase.Reading?
    requires s.tasks[i].since <= s.v.schemaGeneration && s.tasks[i].turns == turn + 1 <= 3 && RunSettled(s, r)
    requires s.runs[r].phase.Answered? ==> MayTurn(s, s.tasks[i], turn + 1)
    requires turn >= 1 ==> s.v.schemaGeneration + 2 >= s.tasks[i].since + (turn + 1)
    requires TaskPace(s, s.tasks[i].(pc := Rejected))
    ensures Paced(AfterRun(s, i, s.runs[r].phase, d, turn, inConnect))
  {
    if s.runs[r].phase.Failure? {
      FailurePaces(s, i, s.runs[r].phase, d, turn, inConnect);
    } else {
      LoopPaces(s, i, d, turn + 1, inConnect);
    }
  }

  lemma OwnerGoesOn(s: State, i: nat)
    requires Inv(s) && Paced(s) && CanResume(s, i) && s.tasks[i].pc.OwnRun?
    ensures Paced(ResumeStep(s, i))
  {
    assert TaskOk(s, i);
    var r, d, turn, inConnect := s.tasks[i].pc.run, s.tasks[i].pc.driver, s.tasks[i].pc.turn, s.tasks[i].pc.inConnect;
    var t := s.(v := LeaveRun(s.v, r));
    RunLeft(s, t, i, r);
    NextTurn(t, t.tasks[i], r, turn);
    AfterRunPaces(t, i, r, d, turn, inConnect);
  }

  lemma TurnIsBounded(s: State, i: nat)
    requires Inv(s) && i < |s.tasks| && s.tasks[i].pc.AwaitRun?
    ensures s.tasks[i].pc.turn < MAX_REFRESH_TURNS
  {
    assert TaskOk(s, i);
  }

  lemma JoinerGoesOn(s: State, i: nat)
    requires Inv(s) && Paced(s) && CanResume(s, i) && s.tasks[i].pc.AwaitRun?
    ensures Paced(ResumeStep(s, i))
  {
    var pc := s.tasks[i].pc;
    TurnIsBounded(s, i);
    OwnerMoves(s, i);
    if s.v.refreshing.None? {
      NoneReading(s);
    }
    NextTurn(s, s.tasks[i], pc.run, pc.turn);
    AfterRunPaces(s, i, pc.run, pc.driver, pc.turn, pc.inConnect);
  }

  lemma ReaderGoesOn(s: State, i: nat)
    requires Inv(s) && Paced(s) && CanResume(s, i) && s.tasks[i].pc.Ready?
    ensures Paced(ResumeStep(s, i))
  {
    assert TaskOk(s, i) && TaskPace(s, s.tasks[i]);
    OwnerMoves(s, i);
    if s.v.refreshing.None? {
      NoneReading(s);
    }
    if s.tasks[i].caller.Read? {
      LoopPaces(s, i, s.tasks[i].pc.driver, 0, false);
    } else {
      MovePaces(s, i, s.tasks[i].(pc := Queried(s.tasks[i].pc.driver)));
    }
  }

  lemma OpenerGoesOn(s: State, i: nat)
    requires Inv(s) && Paced(s) && CanResume(s, i) && s.tasks[i].pc.OwnOpen?
    ensures Paced(ResumeStep(s, i))
  {
    assert TaskOk(s, i) && TaskPace(s, s.tasks[i]);
    var o, t := s.tasks[i].pc.open, s.(v := LeaveOpen(s.v));
    var result := s.opens[o].phase.result;
    OwnerMoves(s, i);
    forall j | 0 <= j < |t.tasks| ensures TaskPace(t, t.tasks[j]) {
      PaceFrame(s, t, t.tasks[j]);
    }
    MovePaces(t, i, t.tasks[i].(pc := FromOpen(result, o, false)));
    MovePaces(t, i, t.tasks[i].(pc := Returned(result)));
  }

  lemma ReleasePaces(s: State, i: nat)
    requires Paced(s) && i < |s.tasks| && OwnedByOthers(s, i)
    ensures Paced(ReleaseNow(s, i))
  {
    var t := s.(v := Released(s.v),
                live := if s.v.driver.Some? && s.v.driver.value < |s.live| then s.live[s.v.driver.value := false] else s.live);
    forall j | 0 <= j < |t.tasks| ensures TaskPace(t, t.tasks[j]) {
      PaceFrame(s, t, t.tasks[j]);
    }
    MovePaces(t, i, t.tasks[i].(pc := Shut));
  }

  lemma DrainPaces(s: State, i: nat)
    requires Paced(s) && i < |s.tasks| && OwnedByOthers(s, i)
    ensures Paced(DrainRefresh(s, i))
  {
    if s.v.refreshing.Some? {
      MovePaces(s, i, s.tasks[i].(pc := CloseRun(s.v.refreshing.value)));
    } else {
      ReleasePaces(s, i);
    }
  }

  lemma ResumePaces(s: State, i: nat)
    requires Inv(s) && Paced(s) && CanResume(s, i)
    ensures Paced(ResumeStep(s, i))
  {
    OwnerMoves(s, i);
    var task := s.tasks[i];
    assert TaskPace(s, task);
    match task.pc
    case OwnOpen(_) => OpenerGoesOn(s, i);
    case AwaitOpen(o) =>
      var result := s.opens[o].phase.result;
      MovePaces(s, i, task.(pc := FromOpen(result, o, true)));
      MovePaces(s, i, task.(pc := Returned(result)));
    case OwnRun(_, _, _, _) => OwnerGoesOn(s, i);
    case AwaitRun(_, _, _, _) => JoinerGoesOn(s, i);
    case Refreshed(_, why) => AnswerPaces(s, i, why);
    case Returned(_) =>
      MovePaces(s, i, task.(pc := Rejected));
      if s.v.driver.Some? {
        MovePaces(s, i, task.(pc := Ready(s.v.driver.value)));
      }
    case Ready(_) => ReaderGoesOn(s, i);
    case CloseOpen(_) => DrainPaces(s, i);
    case CloseRun(_) => ReleasePaces(s, i);
    case _ =>
  }

  lemma AnswerPaces(s: State, i: nat, why: Why)
    requires Paced(s) && i < |s.tasks| && OwnedByOthers(s, i) && s.tasks[i].pc.Refreshed? && s.tasks[i].pc.why == why
    ensures Paced(ResumeStep(s, i))
  {
    var task := s.tasks[i];
    assert TaskPace(s, task);
    MovePaces(s, i, task.(pc := Rejected));
    MovePaces(s, i, task.(pc := Fallback));
    MovePaces(s, i, task.(pc := Reanswered(Reread(s.v), why)));
    MovePaces(s, i, task.(pc := Returned(Reread(s.v))));
    if s.v.cached.Some? {
      MovePaces(s, i, task.(pc := Schema(s.v.cached.value, why)));
    }
  }

  // ---- Calls -------------------------------------------------------------------------

  lemma BeginPaces(s: State, i: nat, factory: Factory)
    requires RunPace(s) && OwnedByOthers(s, i) && PacedBut(s, i) && i < |s.tasks|
    requires s.v.inflight.None? && s.tasks[i].since <= s.v.schemaGeneration && s.tasks[i].turns == 0
    ensures Paced(Begin(s, i, s.v.(inflight := Some(|s.opens|)), factory))
  {
    var t := Begin(s, i, s.v.(inflight := Some(|s.opens|)), factory);
    forall j | 0 <= j < |t.tasks| ensures TaskPace(t, t.tasks[j]) {
      if j != i {
        PaceFrame(s, t, t.tasks[j]);
      }
    }
  }

  lemma ConnectPaces(s: State, i: nat, factory: Factory)
    requires RunPace(s) && OwnedByOthers(s, i) && PacedBut(s, i) && i < |s.tasks|
    requires s.v.refreshing.None? ==> forall r | 0 <= r < |s.runs| :: !s.runs[r].phase.Reading?
    requires s.tasks[i].since <= s.v.schemaGeneration && s.tasks[i].turns == 0
    ensures Paced(EnterConnect(s, i, factory))
  {
    var (v, next) := ConnectHead(s.v, s.hasUrl, |s.opens|);
    match next
    case Answer(result) =>
      MovePaces(s, i, s.tasks[i].(pc := Resolved(result)));
      MovePaces(s, i, s.tasks[i].(pc := Returned(result)));
    case Refresh(d) => LoopPaces(s, i, d, 0, true);
    case JoinOpen(o) => MovePaces(s, i, s.tasks[i].(pc := AwaitOpen(o)));
    case Open => BeginPaces(s, i, factory);
  }

  lemma AddedPaces(s: State, t: State, task: Task)
    requires Paced(s) && t == s.(tasks := s.tasks + [task])
    requires TaskPace(s, task) && !task.pc.OwnRun? && !task.pc.OwnOpen?
    ensures Paced(t) && OwnedByOthers(t, |s.tasks|)
  {
    forall j | 0 <= j < |t.tasks| ensures TaskPace(t, t.tasks[j]) {
      PaceFrame(s, t, t.tasks[j]);
    }
    OwnerMoves(t, |s.tasks|);
  }

  lemma ClosingPaces(t: State, i: nat)
    requires Paced(t) && i < |t.tasks| && OwnedByOthers(t, i)
    ensures var u := t.(v := Latched(t.v));
            Paced(if u.v.inflight.Some? then SetPc(u, i, CloseOpen(u.v.inflight.value)) else DrainRefresh(u, i))
  {
    var u := t.(v := Latched(t.v));
    forall j | 0 <= j < |u.tasks| ensures TaskPace(u, u.tasks[j]) {
      PaceFrame(t, u, u.tasks[j]);
    }
    if u.v.inflight.Some? {
      MovePaces(u, i, u.tasks[i].(pc := CloseOpen(u.v.inflight.value)));
    } else {
      DrainPaces(u, i);
    }
  }

  lemma CallPaces(s: State, caller: Caller, factory: Factory)
    requires Inv(s) && Paced(s)
    ensures Paced(CallStep(s, caller, factory))
  {
    var i, task := |s.tasks|, Task(caller, s.v.schemaGeneration, s.v.closed, 0, Rejected);
    var t := s.(tasks := s.tasks + [task]);
    AddedPaces(s, t, task);
    if s.v.refreshing.None? {
      NoneReading(s);
    }
    if caller.Close? {
      ClosingPaces(t, i);
    } else if caller.Connect? {
      ConnectPaces(t, i, factory);
    } else if t.v.closed {
      MovePaces(t, i, t.tasks[i]);
    } else if t.v.driver.Some? {
      MovePaces(t, i, t.tasks[i].(pc := Ready(t.v.driver.value)));
    } else {
      ConnectPaces(t, i, factory);
    }
  }

  // ---- The world ---------------------------------------------------------------------

  lemma WorldPaces(s: State, t: State)
    requires Paced(s) && RunPace(t) && RunsGrow(s, t) && t.tasks == s.tasks
    requires t.v.inflight == s.v.inflight && t.v.refreshing == s.v.refreshing
    requires |t.opens| == |s.opens| && forall o | 0 <= o < |s.opens| :: t.opens[o].owner == s.opens[o].owner
    requires |t.runs| == |s.runs| && forall r | 0 <= r < |s.runs| :: t.runs[r].owner == s.runs[r].owner
    ensures Paced(t)
  {
    forall j | 0 <= j < |t.tasks| ensures TaskPace(t, t.tasks[j]) {
      PaceFrame(s, t, t.tasks[j]);
    }
  }

  lemma AnswerSupersedes(s: State, r: nat)
    requires Inv(s) && Paced(s) && Enabled(s, RunListed(r))
    ensures RunPace(Apply(s, RunListed(r)))
  {
    assert RunOk(s, r);
  }

  lemma OpenEventPaces(s: State, e: Event)
    requires Paced(s) && Enabled(s, e)
    requires e.OpenConnected? || e.OpenListed? || e.OpenFails? || e.OpenFailed?
    ensures Paced(Apply(s, e))
  {
    WorldPaces(s, Apply(s, e));
  }

  lemma RunEventPaces(s: State, e: Event)
    requires Inv(s) && Paced(s) && Enabled(s, e) && (e.RunListed? || e.RunFails?)
    ensures Paced(Apply(s, e))
  {
    if e.RunListed? {
      AnswerSupersedes(s, e.run);
    }
    WorldPaces(s, Apply(s, e));
  }

  lemma InvalidatePaces(s: State)
    requires Paced(s)
    ensures Paced(Apply(s, Invalidate))
  {
    WorldPaces(s, Apply(s, Invalidate));
  }

  lemma StepPaces(s: State, e: Event)
    requires Inv(s) && Paced(s) && Enabled(s, e)
    ensures Paced(Apply(s, e))
  {
    match e
    case Call(caller, factory) => CallPaces(s, caller, factory);
    case Resume(i) => ResumePaces(s, i);
    case Invalidate => InvalidatePaces(s);
    case RunListed(_) => RunEventPaces(s, e);
    case RunFails(_, _) => RunEventPaces(s, e);
    case _ => OpenEventPaces(s, e);
  }

  lemma {:induction false} LeadsPaced(s: State, events: seq<Event>, t: State)
    requires Inv(s) && Paced(s) && Leads(s, events, t)
    ensures Inv(t) && Paced(t)
    decreases |events|
  {
    if events != [] {
      StepKeeps(s, events[0]);
      StepPaces(s, events[0]);
      LeadsPaced(Apply(s, events[0]), events[1..], t);
    }
  }

  lemma ReachedIsPaced(start: State, events: seq<Event>, s: State)
    requires Reached(start, events, s)
    ensures Inv(s) && Paced(s)
  {
    InitHolds(start);
    LeadsPaced(start, events, s);
  }

  /**
   A call stops refreshing over a stale schema only if at least two invalidations were made
   since it was called, and every turn after its second was paid for by one of them.
   */
  lemma GivingUpHasACause(start: State, events: seq<Event>, s: State, i: nat)
    requires Reached(start, events, s) && i < |s.tasks|
    ensures var t := s.tasks[i];
            && (t.pc.Schema? && t.pc.why == GaveUp ==> s.v.schemaGeneration >= t.since + 2)
            && (t.pc.Reanswered? && t.pc.why == GaveUp ==> s.v.schemaGeneration >= t.since + 2)
            && (t.turns >= 2 ==> s.v.schemaGeneration - t.since >= t.turns - 2)
  {
    ReachedIsPaced(start, events, s);
    assert TaskPace(s, s.tasks[i]);
  }

  /**
   A read answers with a schema read after every invalidation made before it was called,
   unless two more were made meanwhile or the manager is shutting down.
   */
  lemma ReadsCatchUp(start: State, events: seq<Event>, s: State, i: nat)
    requires Reached(start, events, s) && i < |s.tasks| && s.tasks[i].pc.Schema?
    ensures var t := s.tasks[i];
            t.pc.memo.begun >= t.since || s.v.schemaGeneration >= t.since + 2 || s.v.closed
  {
    ReachedIsPaced(start, events, s);
    assert TaskOk(s, i) && TaskPace(s, s.tasks[i]);
  }

  // ---- One turn is enough ------------------------------------------------------------

  lemma FlagIsOnlySetByInvalidate(s: State, e: Event)
    requires Enabled(s, e) && e != Invalidate && !s.v.schemaStale
    ensures !Apply(s, e).v.schemaStale
  {
    match e
    case Call(caller, factory) => CallLeavesFlag(s, caller, factory);
    case Resume(i) => ResumeLeavesFlag(s, i);
    case _ =>
  }

  lemma CallLeavesRuns(s: State, caller: Caller, factory: Factory, r: nat)
    requires r < |s.runs|
    ensures var t := CallStep(s, caller, factory); r < |t.runs| && t.runs[r] == s.runs[r]
  {
  }

  lemma ResumeLeavesRuns(s: State, i: nat, r: nat)
    requires CanResume(s, i) && r < |s.runs|
    ensures var t := ResumeStep(s, i); r < |t.runs| && t.runs[r] == s.runs[r]
  {
  }

  predicate Disturbs(e: Event, r: nat) {
    e == Invalidate || Closes(e) || (e.RunFails? && e.run == r)
  }

  lemma RunStays(s: State, e: Event, r: nat)
    requires Enabled(s, e) && r < |s.runs| && !Disturbs(e, r) && e != RunListed(r)
    ensures var t := Apply(s, e); r < |t.runs| && t.runs[r] == s.runs[r]
  {
    match e
    case Call(caller, factory) => CallLeavesRuns(s, caller, factory, r);
    case Resume(i) => ResumeLeavesRuns(s, i, r);
    case _ =>
  }

  lemma OthersStay(s: State, e: Event, i: nat)
    requires Enabled(s, e) && i < |s.tasks| && e != Resume(i)
    ensures i < |Apply(s, e).tasks| && Apply(s, e).tasks[i] == s.tasks[i]
  {
    match e
    case Call(caller, factory) => CallMoves(s, caller, factory, i);
    case Resume(j) => ResumeMoves(s, j);
    case _ =>
  }

  /** The call awaits a refresh begun at the present generation, or is served from it. */
  predicate Served(s: State, i: nat, r: nat, turns: nat) {
    && i < |s.tasks| && r < |s.runs| && s.runs[r].generation == s.v.schemaGeneration && !s.v.closed
    && s.tasks[i].turns == turns
    && (s.runs[r].phase.Reading? || (s.runs[r].phase.Answered? && !s.v.schemaStale))
    && match s.tasks[i].pc
       case OwnRun(q, _, _, _) => q == r
       case AwaitRun(q, _, _, _) => q == r
       case Refreshed(_, why) => why == Current && s.runs[r].phase.Answered?
       case Schema(memo, why) => why == Current && memo.begun == s.v.schemaGeneration
       case Reanswered(result, why) =>
         why == Current && result.Connected? && result.memo.begun == s.v.schemaGeneration
       case _ => false
  }

  lemma ServedGoesOn(s: State, i: nat, r: nat, turns: nat)
    requires Inv(s) && Served(s, i, r, turns) && CanResume(s, i)
    ensures Served(ResumeStep(s, i), i, r, turns)
  {
    assert TaskOk(s, i);
    if s.tasks[i].pc.Refreshed? {
      assert Quiet(s) && s.v.cached.Some?;
    }
  }

  lemma AnswerServes(s: State, i: nat, r: nat, turns: nat)
    requires Served(s, i, r, turns) && Enabled(s, RunListed(r))
    ensures Served(Apply(s, RunListed(r)), i, r, turns)
  {
  }

  lemma OthersServe(s: State, e: Event, i: nat, r: nat, turns: nat)
    requires Served(s, i, r, turns) && Enabled(s, e) && !Disturbs(e, r) && e != Resume(i) && e != RunListed(r)
    ensures Served(Apply(s, e), i, r, turns)
  {
    StepCounts(s, e);
    RunStays(s, e, r);
    OthersStay(s, e, i);
    if !s.v.schemaStale {
      FlagIsOnlySetByInvalidate(s, e);
    }
  }

  lemma {:induction false} StaysServed(s: State, events: seq<Event>, t: State, i: nat, r: nat, turns: nat)
    requires Inv(s) && Served(s, i, r, turns) && Leads(s, events, t)
    requires forall e :: e in events ==> !Disturbs(e, r)
    ensures Served(t, i, r, turns)
    decreases |events|
  {
    if events != [] {
      var e := events[0];
      assert !Disturbs(e, r);
      StepKeeps(s, e);
      if e == Resume(i) {
        ServedGoesOn(s, i, r, turns);
      } else if e == RunListed(r) {
        AnswerServes(s, i, r, turns);
      } else {
        OthersServe(s, e, i, r, turns);
      }
      StaysServed(Apply(s, e), events[1..], t, i, r, turns);
    }
  }

  predicate Awaits(pc: Pc, r: nat) {
    (pc.OwnRun? && pc.run == r) || (pc.AwaitRun? && pc.run == r)
  }

  /**
   A call that awaits a refresh begun after the latest invalidation needs no other: with no
   invalidation, failure or close meanwhile, whatever else happens, it answers with a schema
   of the present generation and has spent no further turn.
   */
  lemma OneTurnIsEnough(
    start: State, events: seq<Event>, s: State, i: nat, r: nat, later: seq<Event>, t: State)
    requires Reached(start, events, s) && i < |s.tasks| && Awaits(s.tasks[i].pc, r) && r < |s.runs|
    requires s.runs[r].phase.Reading? && s.runs[r].generation == s.v.schemaGeneration && !s.v.closed
    requires Leads(s, later, t) && forall e :: e in later ==> !Disturbs(e, r)
    ensures i < |t.tasks| && t.tasks[i].turns == s.tasks[i].turns
    ensures var pc := t.tasks[i].pc;
            Finished(pc) ==>
            && t.v.schemaGeneration == s.v.schemaGeneration
            && (pc.Schema? || (pc.Reanswered? && pc.result.Connected?))
            && (pc.Schema? ==> pc.memo.begun == s.v.schemaGeneration)
            && (pc.Reanswered? ==> pc.result.memo.begun == s.v.schemaGeneration)
  {
    ReachedKeepsInv(start, events, s);
    StaysServed(s, later, t, i, r, s.tasks[i].turns);
    LeadsCount(s, later, t);
    NoneInvalidates(later, r);
  }

  /**
   So a read that finds its schema stale and no refresh under way answers after one turn,
   whatever else happens, unless something disturbs it.
   */
  lemma AStaleReadRefreshesOnce(
    start: State, events: seq<Event>, s: State, i: nat, later: seq<Event>, t: State)
    requires Reached(start, events, s) && i < |s.tasks| && s.tasks[i].caller == Read && s.tasks[i].pc.Ready?
    requires s.v.schemaStale && s.v.refreshing == None && !s.v.closed
    requires Leads(Apply(s, Resume(i)), later, t) && forall e :: e in later ==> !Disturbs(e, |s.runs|)
    ensures i < |t.tasks| && t.tasks[i].turns == 1
    ensures var pc := t.tasks[i].pc;
            Finished(pc) ==>
            && (pc.Schema? || (pc.Reanswered? && pc.result.Connected?))
            && (pc.Schema? ==> pc.memo.begun == s.v.schemaGeneration)
            && (pc.Reanswered? ==> pc.result.memo.begun == s.v.schemaGeneration)
  {
    ReachedKeepsInv(start, events, s);
    StepKeeps(s, Resume(i));
    ReadersGoOn(start, events, s, i);
    assert TaskOk(s, i);
    StaysServed(Apply(s, Resume(i)), later, t, i, |s.runs|, 1);
    LeadsCount(Apply(s, Resume(i)), later, t);
    NoneInvalidates(later, |s.runs|);
  }

  lemma {:induction false} NoneInvalidates(events: seq<Event>, r: nat)
    requires forall e :: e in events ==> !Disturbs(e, r)
    ensures Invalidations(events) == 0
  {
    if events != [] {
      assert !Disturbs(events[0], r);
      NoneInvalidates(events[1..], r);
    }
  }

  // ---- Where a call begins -----------------------------------------------------------

  /** The refresh loop entered for the first time: nothing to do, one to join, or one to begin. */
  predicate EntersLoop(s: State, t: State, i: nat, d: nat, inConnect: bool) {
    && i < |t.tasks|
    && if !s.v.schemaStale then t.v == s.v && t.runs == s.runs && t.tasks[i].pc == Refreshed(inConnect, Current)
       else if s.v.refreshing != None then
         t.v == s.v && t.runs == s.runs && t.tasks[i].pc == AwaitRun(s.v.refreshing.value, d, 0, inConnect)
       else
         && t.v == s.v.(refreshing := Some(|s.runs|)) && t.tasks[i].pc == OwnRun(|s.runs|, d, 0, inConnect)
         && t.runs == s.runs + [Run(i, d, s.v.schemaGeneration, Reading)]
  }

  /** No connection yet: an open to join, one to begin, or no target. */
  predicate EntersOpen(s: State, t: State, i: nat, factory: Factory, noTarget: Pc) {
    && i < |t.tasks|
    && if s.v.inflight != None then t.v == s.v && t.tasks[i].pc == AwaitOpen(s.v.inflight.value)
       else if !s.hasUrl then t.v == s.v && t.tasks[i].pc == noTarget
       else
         && t.v == s.v.(inflight := Some(|s.opens|)) && t.tasks[i].pc == OwnOpen(|s.opens|)
         && (factory == Allocates ==> t.live == s.live + [true])
         && (factory != Allocates ==> t.live == s.live)
         && t.opens == s.opens + [OpenRun(i, |s.live|, s.v.schemaGeneration,
              if factory == Allocates then Connecting else Settled(if factory == Refuses then Failed else Threw))]
  }

  /** What a `connect` does up to its first await: after shutdown, on a live connection, and without one. */
  lemma ConnectsBegin(start: State, events: seq<Event>, s: State, factory: Factory)
    requires Reached(start, events, s)
    ensures var t, i := Apply(s, Call(Connect, factory)), |s.tasks|;
            && |t.tasks| == i + 1 && t.tasks[i].since == s.v.schemaGeneration && t.tasks[i].late == s.v.closed
            && if s.v.closed then t.v == s.v && t.tasks[i].pc == Resolved(Failed)
               else if s.v.driver != None then EntersLoop(s, t, i, s.v.driver.value, true)
               else EntersOpen(s, t, i, factory, Resolved(NoTarget))
  {
    ReachedKeepsInv(start, events, s);
  }

  /** The same for a read or query, which goes on with a live connection. */
  lemma ReadsBegin(start: State, events: seq<Event>, s: State, caller: Caller, factory: Factory)
    requires Reached(start, events, s) && (caller == Read || caller == Query)
    ensures var t, i := Apply(s, Call(caller, factory)), |s.tasks|;
            && |t.tasks| == i + 1 && t.tasks[i].since == s.v.schemaGeneration && t.tasks[i].late == s.v.closed
            && if s.v.closed then t.v == s.v && t.tasks[i].pc == Rejected
               else if s.v.driver != None then t.v == s.v && t.tasks[i].pc == Ready(s.v.driver.value)
               else EntersOpen(s, t, i, factory, Returned(NoTarget))
  {
    ReachedKeepsInv(start, events, s);
  }

  /** A close sets the latch at once and awaits the open or the refresh under way before it releases. */
  lemma ClosesBegin(start: State, events: seq<Event>, s: State, factory: Factory)
    requires Reached(start, events, s)
    ensures var t, i := Apply(s, Call(Close, factory)), |s.tasks|;
            && |t.tasks| == i + 1 && t.v.closed
            && if s.v.inflight != None then t.tasks[i].pc == CloseOpen(s.v.inflight.value)
               else if s.v.refreshing != None then t.tasks[i].pc == CloseRun(s.v.refreshing.value)
               else t.tasks[i].pc == Shut && t.v.driver == None && t.v.cached == None
  {
  }

  /** A read with a connection enters the loop, and a query is handed to that connection. */
  lemma ReadersGoOn(start: State, events: seq<Event>, s: State, i: nat)
    requires Reached(start, events, s) && i < |s.tasks| && s.tasks[i].pc.Ready? && !s.v.closed
    ensures var t, d := Apply(s, Resume(i)), s.tasks[i].pc.driver;
            && s.v.driver == Some(d)
            && (s.tasks[i].caller == Read ==> EntersLoop(s, t, i, d, false))
            && (s.tasks[i].caller != Read ==> t.v == s.v && t.tasks[i].pc == Queried(d))
  {
    ReachedKeepsInv(start, events, s);
    assert TaskOk(s, i);
  }

  /** What a `connect` has come to: its answer, or what `ensureDriver` is given of it. */
  function Answered(t: Task, result: Result, answer: Pc): Pc {
    if t.caller == Connect then answer else Returned(result)
  }

  /**
   Where a call stands once what it awaited of an open or a refresh has settled: with the open's
   outcome, with the failure of the refresh, or back in the loop.
   */
  lemma AwaitersGoOn(start: State, events: seq<Event>, s: State, i: nat)
    requires Reached(start, events, s) && CanResume(s, i)
    ensures var t, task := Apply(s, Resume(i)), s.tasks[i];
            && i < |t.tasks|
            && match task.pc
               case OwnOpen(o) =>
                 && t.v == s.v.(inflight := None)
                 && t.tasks[i].pc == Answered(task, s.opens[o].phase.result, FromOpen(s.opens[o].phase.result, o, false))
               case AwaitOpen(o) =>
                 && t.v == s.v
                 && t.tasks[i].pc == Answered(task, s.opens[o].phase.result, FromOpen(s.opens[o].phase.result, o, true))
               case OwnRun(r, _, _, inConnect) =>
                 && t.v.refreshing != Some(r)
                 && (s.runs[r].phase.Failure? ==>
                     t.v == s.v.(refreshing := None) && FailsAs(s.runs[r].phase, inConnect, t.tasks[i].pc))
               case AwaitRun(r, _, _, inConnect) =>
                 s.runs[r].phase.Failure? ==> t.v == s.v && FailsAs(s.runs[r].phase, inConnect, t.tasks[i].pc)
               case _ => true
  {
    ReachedKeepsInv(start, events, s);
    assert TaskOk(s, i);
  }

  /** A failed refresh is the neutral answer or the throw of a `connect`, and the throw of a read. */
  predicate FailsAs(phase: RunPhase, inConnect: bool, pc: Pc)
    requires phase.Failure?
  {
    if inConnect then pc == Resolved(if phase.classified then Failed else Threw) else pc == Rejected
  }

  /**
   Where a call stands after its refreshes, after its `ensureDriver`, and a close after what it
   awaited: the memo as it is by then, the driver as it is by then, and nothing left.
   */
  lemma AnswersGoOut(start: State, events: seq<Event>, s: State, i: nat)
    requires Reached(start, events, s) && CanResume(s, i)
    ensures var t, task, memo := Apply(s, Resume(i)), s.tasks[i], s.v.cached;
            && i < |t.tasks|
            && match task.pc
               case Refreshed(inConnect, why) =>
                 && t.v == s.v
                 && t.tasks[i].pc ==
                    (if inConnect then Reanswered(if memo == None then Failed else Connected(memo.value), why)
                     else if memo == None then Rejected else Schema(memo.value, why))
               case Returned(result) =>
                 && t.v == s.v
                 && t.tasks[i].pc ==
                    (if result.Connected? && s.v.driver != None then Ready(s.v.driver.value) else Rejected)
               case CloseOpen(_) =>
                 if s.v.refreshing != None then t.v == s.v && t.tasks[i].pc == CloseRun(s.v.refreshing.value)
                 else t.v == s.v.(driver := None, cached := None) && t.tasks[i].pc == Shut
               case CloseRun(_) => t.v == s.v.(driver := None, cached := None) && t.tasks[i].pc == Shut
               case _ => true
  {
    ReachedKeepsInv(start, events, s);
    assert TaskOk(s, i);
  }

  // ---- Nothing waits on the manager itself -------------------------------------------

  /** The event moves the call, what it awaits, or the owner of what it awaits. */
  predicate Concerns(s: State, i: nat, e: Event)
    requires i < |s.tasks|
  {
    match s.tasks[i].pc
    case OwnOpen(o) => e == Resume(i) || e in {OpenConnected(o), OpenListed(o), OpenFailed(o)}
    case AwaitOpen(o) => e == Resume(i) || e in {OpenConnected(o), OpenListed(o), OpenFailed(o)}
    case CloseOpen(o) => e == Resume(i) || e in {OpenConnected(o), OpenListed(o), OpenFailed(o)}
    case OwnRun(r, _, _, _) => e == Resume(i) || e == RunListed(r)
    case CloseRun(r) => e == Resume(i) || e == RunListed(r)
    case AwaitRun(r, _, _, _) =>
      e == Resume(i) || e == RunListed(r) || (r < |s.runs| && e == Resume(s.runs[r].owner))
    case _ => e == Resume(i)
  }

  lemma OpenGoesOn(s: State, o: nat) returns (e: Event)
    requires o < |s.opens| && !s.opens[o].phase.Settled?
    ensures Enabled(s, e) && e in {OpenConnected(o), OpenListed(o), OpenFailed(o)}
  {
    e := if s.opens[o].phase.Connecting? then OpenConnected(o)
         else if s.opens[o].phase.Listing? then OpenListed(o) else OpenFailed(o);
  }

  /** A call that has not finished can go on, or what it awaits can, or its owner. */
  lemma NothingIsStuck(start: State, events: seq<Event>, s: State, i: nat) returns (e: Event)
    requires Reached(start, events, s) && i < |s.tasks| && !Finished(s.tasks[i].pc)
    ensures Enabled(s, e) && Concerns(s, i, e)
  {
    ReachedIsPaced(start, events, s);
    assert TaskOk(s, i) && TaskPace(s, s.tasks[i]);
    e := Resume(i);
    match s.tasks[i].pc
    case OwnOpen(o) => if !OpenSettled(s, o) { e := OpenGoesOn(s, o); }
    case AwaitOpen(o) => if !OpenSettled(s, o) { e := OpenGoesOn(s, o); }
    case CloseOpen(o) => if !OpenSettled(s, o) { e := OpenGoesOn(s, o); }
    case OwnRun(r, _, _, _) => if !RunSettled(s, r) { e := RunListed(r); }
    case CloseRun(r) => if !RunSettled(s, r) { e := RunListed(r); }
    case AwaitRun(r, _, _, _) =>
      if !RunSettled(s, r) {
        e := RunListed(r);
      } else if s.v.refreshing == Some(r) {
        e := Resume(s.runs[r].owner);
      }
    case _ =>
  }

  // ---- One caller on its own ---------------------------------------------------------

  lemma Two(s: State, a: Event, m: State, b: Event, t: State)
    requires Enabled(s, a) && Apply(s, a) == m && Enabled(m, b) && Apply(m, b) == t
    ensures Leads(s, [a, b], t)
  {
    assert [a, b][1..] == [b] && [b][1..] == [];
    assert Leads(m, [b], t);
  }

  lemma {:induction false} Chain(s: State, a: seq<Event>, m: State, b: seq<Event>, t: State)
    requires Leads(s, a, m) && Leads(m, b, t)
    ensures Leads(s, a + b, t)
    decreases |a|
  {
    if a == [] {
      assert a + b == b;
    } else {
      assert (a + b)[1..] == a[1..] + b;
      Chain(Apply(s, a[0]), a[1..], m, b, t);
    }
  }

  /** One `connect` on a manager that has a target, no connection and no open under way. */
  predicate Idle(s: State) {
    !s.v.closed && s.v.cached == None && s.v.driver == None && s.v.inflight == None && s.hasUrl
  }

  /** The state in which call number `i` has begun open number `o` of driver number `d`. */
  function Opening(s: State, caller: Caller, phase: Phase): State {
    var i, o, d := |s.tasks|, |s.opens|, |s.live|;
    s.(v := s.v.(inflight := Some(o)), live := s.live + [true],
       opens := s.opens + [OpenRun(i, d, s.v.schemaGeneration, phase)],
       tasks := s.tasks + [Task(caller, s.v.schemaGeneration, false, 0, OwnOpen(o))])
  }

  lemma BeginsOpening(s: State, caller: Caller)
    requires Idle(s) && !caller.Close?
    ensures Apply(s, Call(caller, Allocates)) == Opening(s, caller, Connecting)
  {
    var t, u := Apply(s, Call(caller, Allocates)), Opening(s, caller, Connecting);
    assert t.tasks == u.tasks;
  }

  lemma ConnectsAndLists(s: State, caller: Caller)
    requires Idle(s) && !caller.Close?
    ensures Leads(s, [Call(caller, Allocates), OpenConnected(|s.opens|)],
                  Opening(s, caller, Listing(s.v.schemaGeneration)))
  {
    var m, t := Opening(s, caller, Connecting), Opening(s, caller, Listing(s.v.schemaGeneration));
    BeginsOpening(s, caller);
    assert Apply(m, OpenConnected(|s.opens|)).opens == t.opens;
    Two(s, Call(caller, Allocates), m, OpenConnected(|s.opens|), t);
  }

  /** With the schema listed: connected, current, and nothing under way but the call itself. */
  function Opened(s: State, caller: Caller, pc: Pc): State {
    var i, o, d, g := |s.tasks|, |s.opens|, |s.live|, s.v.schemaGeneration;
    s.(v := s.v.(driver := Some(d), cached := Some(Memo(d, g)), schemaStale := false), live := s.live + [true],
       opens := s.opens + [OpenRun(i, d, g, Settled(Connected(Memo(d, g))))],
       tasks := s.tasks + [Task(caller, g, false, 0, pc)])
  }

  lemma ListsAndGoesOn(s: State, caller: Caller)
    requires Idle(s) && !caller.Close?
    ensures var result := Connected(Memo(|s.live|, s.v.schemaGeneration));
            Leads(Opening(s, caller, Listing(s.v.schemaGeneration)), [OpenListed(|s.opens|), Resume(|s.tasks|)],
                  Opened(s, caller, if caller.Connect? then FromOpen(result, |s.opens|, false) else Returned(result)))
  {
    var i, o, result := |s.tasks|, |s.opens|, Connected(Memo(|s.live|, s.v.schemaGeneration));
    var listing := Opening(s, caller, Listing(s.v.schemaGeneration));
    var listed := Opened(s, caller, OwnOpen(o));
    var m := listed.(v := listed.v.(inflight := Some(o)));
    var t := Opened(s, caller, if caller.Connect? then FromOpen(result, o, false) else Returned(result));
    assert Apply(listing, OpenListed(o)).opens == m.opens;
    assert Apply(m, Resume(i)).tasks == t.tasks;
    Two(listing, OpenListed(o), m, Resume(i), t);
  }

  /** A `connect` on an idle manager that meets no failure ends connected to a current schema. */
  lemma ASoloConnectSucceeds(s: State)
    requires Idle(s)
    ensures Leads(s, [Call(Connect, Allocates), OpenConnected(|s.opens|)] + [OpenListed(|s.opens|), Resume(|s.tasks|)],
                  Opened(s, Connect, FromOpen(Connected(Memo(|s.live|, s.v.schemaGeneration)), |s.opens|, false)))
  {
    ConnectsAndLists(s, Connect);
    ListsAndGoesOn(s, Connect);
    Chain(s, [Call(Connect, Allocates), OpenConnected(|s.opens|)],
          Opening(s, Connect, Listing(s.v.schemaGeneration)), [OpenListed(|s.opens|), Resume(|s.tasks|)],
          Opened(s, Connect, FromOpen(Connected(Memo(|s.live|, s.v.schemaGeneration)), |s.opens|, false)));
  }

  lemma ReturnsToSchema(s: State)
    requires Idle(s)
    ensures var i, memo := |s.tasks|, Memo(|s.live|, s.v.schemaGeneration);
            Leads(Opened(s, Read, Returned(Connected(memo))), [Resume(i), Resume(i)], Opened(s, Read, Refreshed(false, Current)))
  {
    var i, memo := |s.tasks|, Memo(|s.live|, s.v.schemaGeneration);
    var returned, ready := Opened(s, Read, Returned(Connected(memo))), Opened(s, Read, Ready(|s.live|));
    var refreshed := Opened(s, Read, Refreshed(false, Current));
    assert Apply(returned, Resume(i)).tasks == ready.tasks;
    assert Apply(ready, Resume(i)).tasks == refreshed.tasks;
    Two(returned, Resume(i), ready, Resume(i), refreshed);
  }

  lemma AnswersSchema(s: State)
    requires Idle(s)
    ensures Leads(Opened(s, Read, Refreshed(false, Current)), [Resume(|s.tasks|)],
                  Opened(s, Read, Schema(Memo(|s.live|, s.v.schemaGeneration), Current)))
  {
    var i, refreshed := |s.tasks|, Opened(s, Read, Refreshed(false, Current));
    var answered := Opened(s, Read, Schema(Memo(|s.live|, s.v.schemaGeneration), Current));
    assert Apply(refreshed, Resume(i)).tasks == answered.tasks;
    assert [Resume(i)][1..] == [];
  }

  /** A read on an idle manager opens it and answers with the schema the open listed. */
  lemma ASoloReadSucceeds(s: State)
    requires Idle(s)
    ensures var i, o, memo := |s.tasks|, |s.opens|, Memo(|s.live|, s.v.schemaGeneration);
            Leads(s, ([Call(Read, Allocates), OpenConnected(o)] + [OpenListed(o), Resume(i)])
                     + ([Resume(i), Resume(i)] + [Resume(i)]),
                  Opened(s, Read, Schema(memo, Current)))
  {
    var i, o, memo := |s.tasks|, |s.opens|, Memo(|s.live|, s.v.schemaGeneration);
    ConnectsAndLists(s, Read);
    ListsAndGoesOn(s, Read);
    ReturnsToSchema(s);
    AnswersSchema(s);
    var returned, refreshed := Opened(s, Read, Returned(Connected(memo))), Opened(s, Read, Refreshed(false, Current));
    var answered := Opened(s, Read, Schema(memo, Current));
    Chain(s, [Call(Read, Allocates), OpenConnected(o)], Opening(s, Read, Listing(s.v.schemaGeneration)),
          [OpenListed(o), Resume(i)], returned);
    Chain(returned, [Resume(i), Resume(i)], refreshed, [Resume(i)], answered);
    Chain(s, [Call(Read, Allocates), OpenConnected(o)] + [OpenListed(o), Resume(i)], returned,
          [Resume(i), Resume(i)] + [Resume(i)], answered);
  }

  /** A failed `connect` closes its driver, answers with the failure and leaves the manager as it was. */
  lemma AFailedConnectCanBeRetried(s: State, classified: bool)
    requires Idle(s)
    ensures var i, o := |s.tasks|, |s.opens|;
            var result := if classified then Failed else Threw;
            var t := s.(live := s.live + [false],
                        opens := s.opens + [OpenRun(i, |s.live|, s.v.schemaGeneration, Settled(result))],
                        tasks := s.tasks + [Task(Connect, s.v.schemaGeneration, false, 0, FromOpen(result, o, false))]);
            && Idle(t)
            && Leads(s, [Call(Connect, Allocates), OpenFails(o, classified)] + [OpenFailed(o), Resume(i)], t)
  {
    var i, o := |s.tasks|, |s.opens|;
    var result := if classified then Failed else Threw;
    var connecting, failing := Opening(s, Connect, Connecting), Opening(s, Connect, Failing(result)).(live := s.live + [false]);
    var failed := Opening(s, Connect, Settled(result)).(live := s.live + [false]);
    var t := failed.(v := s.v, tasks := s.tasks + [Task(Connect, s.v.schemaGeneration, false, 0, FromOpen(result, o, false))]);
    BeginsOpening(s, Connect);
    assert Apply(connecting, OpenFails(o, classified)).opens == failing.opens;
    assert Apply(connecting, OpenFails(o, classified)).live == failing.live;
    Two(s, Call(Connect, Allocates), connecting, OpenFails(o, classified), failing);
    assert Apply(failing, OpenFailed(o)).opens == failed.opens;
    assert Apply(failed, Resume(i)).tasks == t.tasks;
    Two(failing, OpenFailed(o), failed, Resume(i), t);
    Chain(s, [Call(Connect, Allocates), OpenFails(o, classified)], failing, [OpenFailed(o), Resume(i)], t);
  }
}
