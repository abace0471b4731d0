/**
 Every interleaving of processes on one host that acquire, reclaim and release the lock,
 with crashes and reused process ids. Each call on the file system is one step of its own:
 creating, reading, probing the holder, renaming away, reading again on release, removing.
 Where the file system refuses hard links, creating is two steps: an empty file, then its text.
 A process runs one acquire or release at a time, as the source's functions are synchronous.
 */
module StoreLockRuns {
  import opened Text
  import opened StoreLock

  /**
   What the lock file names: one of our handles, a process from before, another host, or
   nothing valid. A blank one has been created by a handle that has yet to write into it.
   */
  datatype Lock = Ours(pid: nat, handle: nat) | Former(pid: nat) | OtherHost | Malformed | Blank(handle: nat)

  datatype Proc = Proc(pid: nat, alive: bool)

  datatype Stage =
    | Trying                         // about to create the file
    | Writing                        // it has created the file empty and is about to write its text
    | Contended                      // the file was there
    | Saw(seen: Option<Lock>)        // it has been read
    | Condemned(seen: Option<Lock>)  // what was read has been found reclaimable
    | Holding                        // created, not released, not given up by its own process
    | Superseded                     // its own process has renamed the lock it wrote away
    | Removing(seen: Option<Lock>)   // releasing: what was read is its own or names nobody
    | Released
    | Refused
    | Broken

  /** One call of acquire and the handle it may come to; its number stands for its token. */
  datatype Handle = Handle(proc: nat, attempt: nat, stage: Stage)

  datatype State = State(lock: Option<Lock>, procs: seq<Proc>, handles: seq<Handle>)

  datatype Event =
    | Start(pid: nat)
    | Crash(proc: nat)
    | Leave(lock: Lock)              // something else leaves a file nobody here wrote
    | Begin(proc: nat)
    | Create(handle: nat)
    | CreateFails(handle: nat)
    | CreateEmpty(handle: nat)       // where hard links are refused
    | WriteBody(handle: nat)         // into the file it created, wherever that is by now
    | WriteFails(handle: nat)
    | Read(handle: nat)
    | Judge(handle: nat)             // probe the process that was read
    | RenameAway(handle: nat)        // whatever the file is by now
    | RenameFails(handle: nat)
    | ReleaseRead(handle: nat)
    | ReleaseRemove(handle: nat)     // whatever the file is by now
    | RemoveFails(handle: nat)

  predicate Init(s: State) {
    s.handles == [] && DistinctPids(s) && (s.lock.Some? ==> LeftByOthers(s.lock.value))
  }

  /** Not written by a handle of this run. */
  predicate LeftByOthers(lock: Lock) {
    !lock.Ours? && !lock.Blank?
  }

  predicate PidAlive(s: State, pid: nat) {
    exists p :: 0 <= p < |s.procs| && s.procs[p] == Proc(pid, true)
  }

  predicate Acts(s: State, h: nat) {
    h < |s.handles| && s.handles[h].proc < |s.procs| && s.procs[s.handles[h].proc].alive
  }

  predicate InLoop(stage: Stage) {
    stage.Trying? || stage.Writing? || stage.Contended? || stage.Saw? || stage.Condemned?
  }

  predicate Mid(stage: Stage) {
    InLoop(stage) || stage.Removing?
  }

  /** The process is in none of its calls. */
  predicate Idle(s: State, p: nat) {
    p < |s.procs| && s.procs[p].alive && forall h | 0 <= h < |s.handles| && s.handles[h].proc == p :: !Mid(s.handles[h].stage)
  }

  predicate Enabled(s: State, e: Event) {
    match e
    case Start(pid) => !PidAlive(s, pid)
    case Crash(p) => p < |s.procs| && s.procs[p].alive
    case Leave(lock) => s.lock.None? && LeftByOthers(lock)
    case Begin(p) => Idle(s, p)
    case Create(h) => Acts(s, h) && s.handles[h].stage.Trying?
    case CreateFails(h) => Acts(s, h) && s.handles[h].stage.Trying?
    case CreateEmpty(h) => Acts(s, h) && s.handles[h].stage.Trying? && s.lock.None?
    case WriteBody(h) => Acts(s, h) && s.handles[h].stage.Writing?
    case WriteFails(h) => Acts(s, h) && s.handles[h].stage.Writing?
    case Read(h) => Acts(s, h) && s.handles[h].stage.Contended?
    case Judge(h) => Acts(s, h) && s.handles[h].stage.Saw?
    case RenameAway(h) => Acts(s, h) && s.handles[h].stage.Condemned?
    case RenameFails(h) => Acts(s, h) && s.handles[h].stage.Condemned?
    case ReleaseRead(h) =>
      Acts(s, h) && Idle(s, s.handles[h].proc) && (s.handles[h].stage.Holding? || s.handles[h].stage.Superseded?)
    case ReleaseRemove(h) => Acts(s, h) && s.handles[h].stage.Removing?
    case RemoveFails(h) => Acts(s, h) && s.handles[h].stage.Removing?
  }

  function SetStage(s: State, h: nat, stage: Stage): State
    requires h < |s.handles|
  {
    s.(handles := s.handles[h := s.handles[h].(stage := stage)])
  }

  function PidOf(s: State, h: nat): nat
    requires h < |s.handles| && s.handles[h].proc < |s.procs|
  {
    s.procs[s.handles[h].proc].pid
  }

  /** The file is missing, malformed or still empty: its text names nobody. */
  predicate NamesNobody(lock: Option<Lock>) {
    lock.None? || lock.value.Malformed? || lock.value.Blank?
  }

  /** What was read names nobody, this process, or a process that is gone. */
  predicate Reclaimable(s: State, pid: nat, seen: Option<Lock>) {
    || NamesNobody(seen)
    || (!seen.value.OtherHost? && (seen.value.pid == pid || !PidAlive(s, seen.value.pid)))
  }

  /** The next turn of the bounded loop. */
  function Retry(s: State, h: nat): State
    requires h < |s.handles|
  {
    var attempt := s.handles[h].attempt + 1;
    s.(handles := s.handles[h := s.handles[h].(attempt := attempt,
         stage := if attempt < MAX_ACQUIRE_ATTEMPTS then Trying else Refused)])
  }

  /** The handle whose lock is renamed away by its own process, if there is one. */
  predicate Supersedes(s: State, h: nat)
    requires h < |s.handles|
  {
    && s.lock.Some? && s.lock.value.Ours? && s.lock.value.handle < |s.handles|
    && s.handles[s.lock.value.handle].proc == s.handles[h].proc
    && s.handles[s.lock.value.handle].stage.Holding?
  }

  function TakeAway(s: State, h: nat): State
    requires h < |s.handles|
  {
    var t := if Supersedes(s, h) then SetStage(s, s.lock.value.handle, Superseded) else s;
    Retry(t.(lock := None), h)
  }

  function Apply(s: State, e: Event): State
    requires Enabled(s, e)
  {
    match e
    case Start(pid) => s.(procs := s.procs + [Proc(pid, true)])
    case Crash(p) => s.(procs := s.procs[p := s.procs[p].(alive := false)])
    case Leave(lock) => s.(lock := Some(lock))
    case Begin(p) => s.(handles := s.handles + [Handle(p, 0, Trying)])
    case Create(h) =>
      if s.lock.None? then SetStage(s.(lock := Some(Ours(PidOf(s, h), h))), h, Holding)
      else SetStage(s, h, Contended)
    case CreateFails(h) => SetStage(s, h, Broken)
    case CreateEmpty(h) => SetStage(s.(lock := Some(Blank(h))), h, Writing)
    case WriteBody(h) =>
      SetStage(if s.lock == Some(Blank(h)) then s.(lock := Some(Ours(PidOf(s, h), h))) else s, h, Holding)
    case WriteFails(h) => SetStage(s, h, Broken)
    case Read(h) => SetStage(s, h, Saw(s.lock))
    case Judge(h) =>
      var seen := s.handles[h].stage.seen;
      SetStage(s, h, if Reclaimable(s, PidOf(s, h), seen) then Condemned(seen) else Refused)
    case RenameAway(h) => TakeAway(s, h)
    case RenameFails(h) => Retry(s, h)
    case ReleaseRead(h) =>
      SetStage(s, h, if NamesNobody(s.lock) || s.lock.value == Ours(PidOf(s, h), h) then Removing(s.lock)
                     else Stage.Released)
    case ReleaseRemove(h) => SetStage(s.(lock := None), h, Stage.Released)
    case RemoveFails(h) => SetStage(s, h, Stage.Released)
  }

  // ---- What every step keeps ---------------------------------------------------------

  predicate DistinctPids(s: State) {
    forall p, q | 0 <= p < q < |s.procs| :: s.procs[p].alive && s.procs[q].alive ==> s.procs[p].pid != s.procs[q].pid
  }

  /** A lock of ours carries the process id of the handle that wrote it. */
  predicate Named(s: State, lock: Option<Lock>) {
    lock.Some? && lock.value.Ours? ==>
      var g := lock.value.handle;
      g < |s.handles| && s.handles[g].proc < |s.procs| && PidOf(s, g) == lock.value.pid
  }

  function Seen(stage: Stage): Option<Lock> {
    match stage
    case Saw(seen) => seen
    case Condemned(seen) => seen
    case Removing(seen) => seen
    case _ => None
  }

  /** A lock judged reclaimable was written by a process that is gone, or by the judge's own. */
  predicate JudgedRightly(s: State, h: nat)
    requires h < |s.handles| && Named(s, Seen(s.handles[h].stage))
  {
    var stage := s.handles[h].stage;
    stage.Condemned? && stage.seen.Some? && stage.seen.value.Ours? ==>
      var p := s.handles[stage.seen.value.handle].proc;
      p == s.handles[h].proc || !s.procs[p].alive
  }

  /** The file carries this handle's token. */
  predicate Names(lock: Option<Lock>, h: nat) {
    lock.Some? && lock.value.Ours? && lock.value.handle == h
  }

  predicate HandleOk(s: State, h: nat)
    requires h < |s.handles|
  {
    var stage := s.handles[h].stage;
    && s.handles[h].proc < |s.procs| && s.handles[h].attempt <= MAX_ACQUIRE_ATTEMPTS
    && (InLoop(stage) ==> s.handles[h].attempt < MAX_ACQUIRE_ATTEMPTS && !Names(s.lock, h))
    && Named(s, Seen(stage)) && JudgedRightly(s, h)
    && (stage.Removing? ==> NamesNobody(stage.seen) || stage.seen.value == Ours(PidOf(s, h), h))
  }

  /** No live process is in two calls at once. */
  predicate OneCallEach(s: State) {
    forall g, h | 0 <= g < h < |s.handles| && s.handles[g].proc == s.handles[h].proc && Acts(s, g)
      :: !(Mid(s.handles[g].stage) && Mid(s.handles[h].stage))
  }

  predicate Basic(s: State) {
    && DistinctPids(s) && Named(s, s.lock) && OneCallEach(s)
    && forall h | 0 <= h < |s.handles| :: HandleOk(s, h)
  }

  lemma SetStageKeeps(s: State, lock: Option<Lock>, h: nat, attempt: nat, stage: Stage)
    requires Basic(s) && h < |s.handles| && attempt <= MAX_ACQUIRE_ATTEMPTS
    requires Mid(stage) ==> Mid(s.handles[h].stage) || Idle(s, s.handles[h].proc)
    requires lock == s.lock || lock.None? || lock == Some(Blank(h)) || Names(lock, h)
    requires var t := State(lock, s.procs, s.handles[h := Handle(s.handles[h].proc, attempt, stage)]);
             Named(t, lock) && HandleOk(t, h)
    ensures Basic(State(lock, s.procs, s.handles[h := Handle(s.handles[h].proc, attempt, stage)]))
  {
    var t := State(lock, s.procs, s.handles[h := Handle(s.handles[h].proc, attempt, stage)]);
    forall k | 0 <= k < |t.handles| ensures HandleOk(t, k) { assert HandleOk(s, k); }
    forall g, k | 0 <= g < k < |t.handles| && t.handles[g].proc == t.handles[k].proc && Acts(t, g)
      ensures !(Mid(t.handles[g].stage) && Mid(t.handles[k].stage))
    {
      assert Acts(s, g);
    }
  }

  lemma JudgeIsRight(s: State, h: nat)
    requires Basic(s) && Enabled(s, Judge(h))
    ensures HandleOk(Apply(s, Judge(h)), h)
  {
    assert HandleOk(s, h);
    var seen := s.handles[h].stage.seen;
    if seen.Some? && seen.value.Ours? && Reclaimable(s, PidOf(s, h), seen) {
      var p := s.handles[seen.value.handle].proc;
      if s.procs[p].alive {
        assert s.procs[p] == Proc(seen.value.pid, true);
      }
    }
  }

  lemma HandleStepKeeps(s: State, e: Event)
    requires Basic(s) && Enabled(s, e)
    requires || e.Create? || e.CreateFails? || e.CreateEmpty? || e.WriteBody? || e.WriteFails? || e.Read?
             || e.ReleaseRead? || e.ReleaseRemove? || e.RemoveFails?
    ensures Basic(Apply(s, e))
  {
    var h, t := e.handle, Apply(s, e);
    assert HandleOk(s, h);
    SetStageKeeps(s, t.lock, h, s.handles[h].attempt, t.handles[h].stage);
  }

  lemma JudgeKeeps(s: State, h: nat)
    requires Basic(s) && Enabled(s, Judge(h))
    ensures Basic(Apply(s, Judge(h)))
  {
    JudgeIsRight(s, h);
    SetStageKeeps(s, s.lock, h, s.handles[h].attempt, Apply(s, Judge(h)).handles[h].stage);
  }

  lemma RetryKeeps(s: State, lock: Option<Lock>, h: nat)
    requires Basic(s) && Acts(s, h) && s.handles[h].stage.Condemned? && (lock == s.lock || lock.None?)
    ensures Basic(Retry(s.(lock := lock), h))
  {
    assert HandleOk(s, h);
    var t := Retry(s.(lock := lock), h);
    SetStageKeeps(s, lock, h, t.handles[h].attempt, t.handles[h].stage);
  }

  lemma RenameKeeps(s: State, h: nat)
    requires Basic(s) && Enabled(s, RenameAway(h))
    ensures Basic(Apply(s, RenameAway(h)))
  {
    if Supersedes(s, h) {
      var g := s.lock.value.handle;
      assert HandleOk(s, g);
      SetStageKeeps(s, s.lock, g, s.handles[g].attempt, Superseded);
      RetryKeeps(SetStage(s, g, Superseded), None, h);
    } else {
      RetryKeeps(s, None, h);
    }
  }

  lemma StartKeeps(s: State, pid: nat)
    requires Basic(s) && Enabled(s, Start(pid))
    ensures Basic(Apply(s, Start(pid)))
  {
    var t := Apply(s, Start(pid));
    forall p, q | 0 <= p < q < |t.procs| && t.procs[p].alive && t.procs[q].alive
      ensures t.procs[p].pid != t.procs[q].pid
    {
      if q == |s.procs| {
        assert s.procs[p] == Proc(s.procs[p].pid, true);
      }
    }
    forall k | 0 <= k < |t.handles| ensures HandleOk(t, k) { assert HandleOk(s, k); }
    forall g | 0 <= g < |s.handles| && Acts(t, g) ensures Acts(s, g) { assert HandleOk(s, g); }
  }

  lemma CrashKeeps(s: State, p: nat)
    requires Basic(s) && Enabled(s, Crash(p))
    ensures Basic(Apply(s, Crash(p)))
  {
    var t := Apply(s, Crash(p));
    forall k | 0 <= k < |t.handles| ensures HandleOk(t, k) { assert HandleOk(s, k); }
    assert forall g | 0 <= g < |s.handles| :: Acts(t, g) ==> Acts(s, g);
  }

  lemma BeginKeeps(s: State, p: nat)
    requires Basic(s) && Enabled(s, Begin(p))
    ensures Basic(Apply(s, Begin(p)))
  {
    var t := Apply(s, Begin(p));
    forall k | 0 <= k < |t.handles| ensures HandleOk(t, k) {
      if k < |s.handles| {
        assert HandleOk(s, k);
      }
    }
    assert forall g | 0 <= g < |s.handles| :: Acts(t, g) ==> Acts(s, g);
  }

  lemma LeaveKeeps(s: State, lock: Lock)
    requires Basic(s) && Enabled(s, Leave(lock))
    ensures Basic(Apply(s, Leave(lock)))
  {
    var t := Apply(s, Leave(lock));
    forall k | 0 <= k < |t.handles| ensures HandleOk(t, k) { assert HandleOk(s, k); }
    assert forall g | 0 <= g < |s.handles| :: Acts(t, g) ==> Acts(s, g);
  }

  /** Whatever the interleaving: locks name who wrote them, and judgements stay right. */
  lemma StepKeeps(s: State, e: Event)
    requires Basic(s) && Enabled(s, e)
    ensures Basic(Apply(s, e))
  {
    match e
    case Start(pid) => StartKeeps(s, pid);
    case Crash(p) => CrashKeeps(s, p);
    case Leave(lock) => LeaveKeeps(s, lock);
    case Begin(p) => BeginKeeps(s, p);
    case Judge(h) => JudgeKeeps(s, h);
    case RenameAway(h) => RenameKeeps(s, h);
    case RenameFails(h) => RetryKeeps(s, s.lock, h);
    case Create(_) => HandleStepKeeps(s, e);
    case CreateFails(_) => HandleStepKeeps(s, e);
    case CreateEmpty(_) => HandleStepKeeps(s, e);
    case WriteBody(_) => HandleStepKeeps(s, e);
    case WriteFails(_) => HandleStepKeeps(s, e);
    case Read(_) => HandleStepKeeps(s, e);
    case ReleaseRead(_) => HandleStepKeeps(s, e);
    case ReleaseRemove(_) => HandleStepKeeps(s, e);
    case RemoveFails(_) => HandleStepKeeps(s, e);
  }

  // ---- When a step takes a hold ------------------------------------------------------

  /** A live process holds the lock through this handle. */
  predicate Holds(s: State, h: nat) {
    Acts(s, h) && s.handles[h].stage.Holding?
  }

  /** The file names every live holder; so there is at most one. */
  predicate HoldsAreNamed(s: State) {
    forall h | 0 <= h < |s.handles| && Holds(s, h) :: s.lock == Some(Ours(PidOf(s, h), h))
  }

  predicate HeldByAnother(s: State, p: nat) {
    exists g :: 0 <= g < |s.handles| && Holds(s, g) && s.handles[g].proc != p
  }

  predicate Held(s: State) {
    exists g :: 0 <= g < |s.handles| && Holds(s, g)
  }

  /** A rename while another process holds, or a release's remove while anybody does. */
  predicate TakesHold(s: State, e: Event)
    requires Enabled(s, e)
  {
    (e.RenameAway? && HeldByAnother(s, s.handles[e.handle].proc)) || (e.ReleaseRemove? && Held(s))
  }

  /** A handle writes its text into a file that is no longer the lock, and takes itself for the holder. */
  predicate HoldsNothing(s: State, e: Event)
    requires Enabled(s, e)
  {
    e.WriteBody? && s.lock != Some(Blank(e.handle))
  }

  lemma RenameTakes(s: State, h: nat)
    requires Basic(s) && HoldsAreNamed(s) && Enabled(s, RenameAway(h))
    ensures HoldsAreNamed(Apply(s, RenameAway(h))) <==> !HeldByAnother(s, s.handles[h].proc)
  {
    var t := Apply(s, RenameAway(h));
    if HeldByAnother(s, s.handles[h].proc) {
      var g :| 0 <= g < |s.handles| && Holds(s, g) && s.handles[g].proc != s.handles[h].proc;
      assert Holds(t, g);
    } else {
      forall k | 0 <= k < |t.handles| ensures !Holds(t, k) {
        if Holds(s, k) {
          assert s.lock == Some(Ours(PidOf(s, k), k));
          assert Supersedes(s, h);
        }
      }
    }
  }

  lemma RemoveTakes(s: State, h: nat)
    requires HoldsAreNamed(s) && Enabled(s, ReleaseRemove(h))
    ensures HoldsAreNamed(Apply(s, ReleaseRemove(h))) <==> !Held(s)
  {
    var t := Apply(s, ReleaseRemove(h));
    if Held(s) {
      var g :| 0 <= g < |s.handles| && Holds(s, g);
      assert Holds(t, g);
    } else {
      forall k | 0 <= k < |t.handles| ensures !Holds(t, k) { assert !Holds(s, k); }
    }
  }

  lemma WriteTakes(s: State, h: nat)
    requires Basic(s) && HoldsAreNamed(s) && Enabled(s, WriteBody(h))
    ensures HoldsAreNamed(Apply(s, WriteBody(h))) <==> s.lock == Some(Blank(h))
  {
    var t := Apply(s, WriteBody(h));
    assert Holds(t, h);
    if s.lock == Some(Blank(h)) {
      forall k | 0 <= k < |t.handles| && Holds(t, k) ensures t.lock == Some(Ours(PidOf(t, k), k)) {
        if k != h {
          assert Holds(s, k);
        }
      }
    } else if t.lock == Some(Ours(PidOf(t, h), h)) {
      assert HandleOk(s, h) && Names(s.lock, h);
    }
  }

  lemma OthersTakeNothing(s: State, e: Event)
    requires Basic(s) && HoldsAreNamed(s) && Enabled(s, e) && !e.RenameAway? && !e.ReleaseRemove? && !e.WriteBody?
    ensures HoldsAreNamed(Apply(s, e))
  {
    var t := Apply(s, e);
    forall k | 0 <= k < |t.handles| && Holds(t, k) ensures t.lock == Some(Ours(PidOf(t, k), k)) {
      if k < |s.handles| {
        assert HandleOk(s, k);
        assert Holds(s, k) || e == Create(k);
      }
    }
  }

  /**
   The exact condition, step by step: while every live holder is named by the file, a step
   keeps that so unless it is a rename with another process holding, a release's remove with
   anybody holding, or the text written into a file that is no longer the lock, and then it
   never does.
   */
  lemma NamedUnlessTaken(s: State, e: Event)
    requires Basic(s) && HoldsAreNamed(s) && Enabled(s, e)
    ensures HoldsAreNamed(Apply(s, e)) <==> !TakesHold(s, e) && !HoldsNothing(s, e)
  {
    match e
    case WriteBody(h) => WriteTakes(s, h);
    case RenameAway(h) => RenameTakes(s, h);
    case ReleaseRemove(h) => RemoveTakes(s, h);
    case _ => OthersTakeNothing(s, e);
  }

  // ---- Runs --------------------------------------------------------------------------

  /** The events lead from `s` to `t`, each enabled when it happens. */
  predicate Leads(s: State, events: seq<Event>, t: State)
    decreases |events|
  {
    if events == [] then s == t
    else Enabled(s, events[0]) && Leads(Apply(s, events[0]), events[1..], t)
  }

  predicate NamedThroughout(s: State, events: seq<Event>)
    decreases |events|
  {
    HoldsAreNamed(s)
    && (events != [] && Enabled(s, events[0]) ==> NamedThroughout(Apply(s, events[0]), events[1..]))
  }

  predicate NoHoldTaken(s: State, events: seq<Event>)
    decreases |events|
  {
    events != [] && Enabled(s, events[0]) ==>
      !TakesHold(s, events[0]) && !HoldsNothing(s, events[0]) && NoHoldTaken(Apply(s, events[0]), events[1..])
  }

  /** Over whole runs: the file names every live holder throughout exactly when no step takes a hold. */
  lemma {:induction false} NamedExactlyWhenNoneTaken(s: State, events: seq<Event>)
    requires Basic(s) && HoldsAreNamed(s)
    ensures NamedThroughout(s, events) <==> NoHoldTaken(s, events)
    decreases |events|
  {
    if events != [] && Enabled(s, events[0]) {
      StepKeeps(s, events[0]);
      NamedUnlessTaken(s, events[0]);
      if !TakesHold(s, events[0]) && !HoldsNothing(s, events[0]) {
        NamedExactlyWhenNoneTaken(Apply(s, events[0]), events[1..]);
      }
    }
  }


  /** A process id above every one in use. */
  function PidBound(procs: seq<Proc>): (r: nat)
    ensures forall p | 0 <= p < |procs| :: procs[p].pid < r
  {
    if procs == [] then 1
    else
      var rest := PidBound(procs[1..]);
      assert forall p | 0 < p < |procs| :: procs[p] == procs[1..][p - 1];
      if procs[0].pid < rest then rest else procs[0].pid + 1
  }

  lemma OneMore(s: State, e: Event, t: State, events: seq<Event>, end: State)
    requires Enabled(s, e) && Apply(s, e) == t && Leads(t, events, end)
    ensures Leads(s, [e] + events, end)
  {
    assert ([e] + events)[1..] == events;
  }

  /** A hold whose file is gone admits a second holder: a process that starts now gets the lock. */
  lemma ASecondHolderFollows(s: State, g: nat) returns (events: seq<Event>, t: State)
    requires Holds(s, g) && s.lock.None? && forall h | 0 <= h < |s.handles| :: s.handles[h].proc < |s.procs|
    ensures Leads(s, events, t) && Holds(t, g) && Holds(t, |s.handles|) && g != |s.handles|
  {
    var pid := PidBound(s.procs);
    var s1 := Apply(s, Start(pid));
    var s2 := Apply(s1, Begin(|s.procs|));
    t := Apply(s2, Create(|s.handles|));
    OneMore(s2, Create(|s.handles|), t, [], t);
    OneMore(s1, Begin(|s.procs|), s2, [Create(|s.handles|)] + [], t);
    OneMore(s, Start(pid), s1, [Begin(|s.procs|)] + ([Create(|s.handles|)] + []), t);
    events := [Start(pid)] + ([Begin(|s.procs|)] + ([Create(|s.handles|)] + []));
  }

  /** So taking a hold is the end of mutual exclusion: some continuation has two holders. */
  lemma ATakenHoldAdmitsTwo(s: State, e: Event) returns (events: seq<Event>, t: State, a: nat, b: nat)
    requires Basic(s) && Enabled(s, e) && TakesHold(s, e)
    ensures Leads(Apply(s, e), events, t) && Holds(t, a) && Holds(t, b) && a != b
  {
    var g :| 0 <= g < |s.handles| && Holds(s, g)
             && (e.RenameAway? ==> s.handles[g].proc != s.handles[e.handle].proc);
    StepKeeps(s, e);
    var u := Apply(s, e);
    assert Holds(u, g);
    assert u.lock.None?;
    forall h | 0 <= h < |u.handles| ensures u.handles[h].proc < |u.procs| { assert HandleOk(u, h); }
    events, t := ASecondHolderFollows(u, g);
    a, b := g, |u.handles|;
  }

  // ---- Runs in which a reclaim finds what it judged ----------------------------------

  /** Nobody is named by either, or they are the same process, host and token. */
  predicate Unchanged(seen: Option<Lock>, now: Option<Lock>) {
    seen == now || (NamesNobody(seen) && NamesNobody(now))
  }

  /**
   A rename finds the lock that was judged, and the text goes into the file created for it. A
   remove after reading no valid lock finds none still; a remove after reading its own lock
   needs no such assumption.
   */
  predicate FindsWhatItRead(s: State, e: Event)
    requires Enabled(s, e)
  {
    && (e.RenameAway? ==> Unchanged(s.handles[e.handle].stage.seen, s.lock))
    && (e.ReleaseRemove? && NamesNobody(s.handles[e.handle].stage.seen) ==> NamesNobody(s.lock))
    && !HoldsNothing(s, e)
  }

  predicate Faithful(s: State, events: seq<Event>)
    decreases |events|
  {
    events != [] && Enabled(s, events[0]) ==>
      FindsWhatItRead(s, events[0]) && Faithful(Apply(s, events[0]), events[1..])
  }

  /** The file a release is about to remove is its own. */
  predicate RemovesItsOwn(s: State, h: nat) {
    Acts(s, h) && s.handles[h].stage.Removing? && !NamesNobody(s.handles[h].stage.seen) ==>
      s.lock == Some(Ours(PidOf(s, h), h))
  }

  predicate Inv(s: State) {
    Basic(s) && HoldsAreNamed(s) && forall h | 0 <= h < |s.handles| :: RemovesItsOwn(s, h)
  }

  lemma RenameFindsNoHolder(s: State, h: nat)
    requires Inv(s) && Enabled(s, RenameAway(h)) && FindsWhatItRead(s, RenameAway(h))
    ensures !HeldByAnother(s, s.handles[h].proc)
  {
    assert HandleOk(s, h);
    forall g | 0 <= g < |s.handles| && Holds(s, g) ensures s.handles[g].proc == s.handles[h].proc {
      assert s.lock == Some(Ours(PidOf(s, g), g));
      assert s.handles[h].stage.seen == s.lock;
    }
  }

  lemma RemoveFindsNoHolder(s: State, h: nat)
    requires Inv(s) && Enabled(s, ReleaseRemove(h)) && FindsWhatItRead(s, ReleaseRemove(h))
    ensures !Held(s)
  {
    assert RemovesItsOwn(s, h);
  }

  lemma FaithfulTakesNoHold(s: State, e: Event)
    requires Inv(s) && Enabled(s, e) && FindsWhatItRead(s, e)
    ensures !TakesHold(s, e)
  {
    if e.RenameAway? {
      RenameFindsNoHolder(s, e.handle);
    } else if e.ReleaseRemove? {
      RemoveFindsNoHolder(s, e.handle);
    }
  }

  /** A rename that finds what it judged leaves the file of every release under way. */
  lemma RenameSparesRemovals(s: State, h: nat, k: nat)
    requires Inv(s) && Enabled(s, RenameAway(h)) && FindsWhatItRead(s, RenameAway(h)) && k < |s.handles|
    ensures RemovesItsOwn(Apply(s, RenameAway(h)), k)
  {
    assert HandleOk(s, h) && HandleOk(s, k) && RemovesItsOwn(s, k);
    if k != h && Acts(s, k) && s.handles[k].stage.Removing? && !NamesNobody(s.handles[k].stage.seen) {
      assert s.lock == Some(Ours(PidOf(s, k), k));
      assert s.handles[h].stage.seen == s.lock;
      assert s.handles[k].proc == s.handles[h].proc;
      assert Mid(s.handles[k].stage) && Mid(s.handles[h].stage);
      assert false;
    }
  }

  lemma RemoveSparesRemovals(s: State, h: nat, k: nat)
    requires Inv(s) && Enabled(s, ReleaseRemove(h)) && FindsWhatItRead(s, ReleaseRemove(h)) && k < |s.handles|
    ensures RemovesItsOwn(Apply(s, ReleaseRemove(h)), k)
  {
    assert RemovesItsOwn(s, h) && RemovesItsOwn(s, k);
  }

  lemma OthersSpareRemovals(s: State, e: Event, k: nat)
    requires Inv(s) && Enabled(s, e) && !e.RenameAway? && !e.ReleaseRemove? && k < |Apply(s, e).handles|
    ensures RemovesItsOwn(Apply(s, e), k)
  {
    if k < |s.handles| {
      assert HandleOk(s, k) && RemovesItsOwn(s, k);
    }
  }

  lemma FaithfulStepKeeps(s: State, e: Event)
    requires Inv(s) && Enabled(s, e) && FindsWhatItRead(s, e)
    ensures Inv(Apply(s, e))
  {
    StepKeeps(s, e);
    FaithfulTakesNoHold(s, e);
    NamedUnlessTaken(s, e);
    var t := Apply(s, e);
    forall k | 0 <= k < |t.handles| ensures RemovesItsOwn(t, k) {
      match e
      case RenameAway(h) => RenameSparesRemovals(s, h, k);
      case ReleaseRemove(h) => RemoveSparesRemovals(s, h, k);
      case _ => OthersSpareRemovals(s, e, k);
    }
  }

  /** `s` is reached from a fresh start by a run whose reclaims find what they judged. */
  predicate Reached(start: State, events: seq<Event>, s: State) {
    Init(start) && Faithful(start, events) && Leads(start, events, s)
  }

  lemma {:induction false} FaithfulRunKeeps(s: State, events: seq<Event>, t: State)
    requires Inv(s) && Faithful(s, events) && Leads(s, events, t)
    ensures Inv(t)
    decreases |events|
  {
    if events != [] {
      FaithfulStepKeeps(s, events[0]);
      FaithfulRunKeeps(Apply(s, events[0]), events[1..], t);
    }
  }

  lemma ReachedKeepsInv(start: State, events: seq<Event>, s: State)
    requires Reached(start, events, s)
    ensures Inv(s)
  {
    FaithfulRunKeeps(start, events, s);
  }

  /** In every state such a run reaches, at most one handle of a live process holds the lock. */
  lemma AtMostOneHolder(start: State, events: seq<Event>, s: State, a: nat, b: nat)
    requires Reached(start, events, s) && Holds(s, a) && Holds(s, b)
    ensures a == b && s.lock == Some(Ours(PidOf(s, a), a))
  {
    ReachedKeepsInv(start, events, s);
    assert s.lock == Some(Ours(PidOf(s, a), a)) && s.lock == Some(Ours(PidOf(s, b), b));
  }

  /** The process a step is taken by or happens to. */
  function ActorOf(s: State, e: Event): Option<nat>
    requires Enabled(s, e)
  {
    match e
    case Start(_) => None
    case Leave(_) => None
    case Crash(p) => Some(p)
    case Begin(p) => Some(p)
    case _ => Some(s.handles[e.handle].proc)
  }

  /** A live holder keeps holding until its own process releases, reopens or crashes. */
  lemma OnlyItsProcessEndsAHold(start: State, events: seq<Event>, s: State, e: Event, h: nat)
    requires Reached(start, events, s) && Enabled(s, e) && FindsWhatItRead(s, e) && Holds(s, h)
    requires ActorOf(s, e) != Some(s.handles[h].proc)
    ensures Holds(Apply(s, e), h) && Apply(s, e).lock == s.lock
  {
    ReachedKeepsInv(start, events, s);
    assert HandleOk(s, h) && s.lock == Some(Ours(PidOf(s, h), h));
    FaithfulTakesNoHold(s, e);
  }

  /** Between the read and the remove of a release, the lock it read as its own stays its own. */
  lemma OwnReleaseIsSafe(start: State, events: seq<Event>, s: State, h: nat)
    requires Reached(start, events, s) && Enabled(s, ReleaseRemove(h)) && !NamesNobody(s.handles[h].stage.seen)
    ensures s.lock == Some(Ours(PidOf(s, h), h))
    ensures !TakesHold(s, ReleaseRemove(h))
  {
    ReachedKeepsInv(start, events, s);
    assert RemovesItsOwn(s, h);
    RemoveFindsNoHolder(s, h);
  }

  /** Releasing a handle that holds reads its own lock: the remove that follows is such a one. */
  lemma HolderReadsItsOwn(start: State, events: seq<Event>, s: State, h: nat)
    requires Reached(start, events, s) && Enabled(s, ReleaseRead(h)) && Holds(s, h)
    ensures Apply(s, ReleaseRead(h)).handles[h].stage == Removing(Some(Ours(PidOf(s, h), h)))
    ensures Apply(s, ReleaseRead(h)).lock == s.lock
  {
    ReachedKeepsInv(start, events, s);
    assert s.lock == Some(Ours(PidOf(s, h), h));
  }

  /** Neither step of a release ends a hold through another handle, even of the same process. */
  lemma ReleaseSparesOthers(start: State, events: seq<Event>, s: State, e: Event, holder: nat)
    requires Reached(start, events, s) && Enabled(s, e) && FindsWhatItRead(s, e) && Holds(s, holder)
    requires e.ReleaseRead? || e.ReleaseRemove?
    ensures e.handle != holder ==> Holds(Apply(s, e), holder)
    ensures Apply(s, e).lock == s.lock == Some(Ours(PidOf(s, holder), holder))
  {
    ReachedKeepsInv(start, events, s);
    FaithfulTakesNoHold(s, e);
  }

  /** A release that read no valid lock is safe exactly when nobody holds at its remove. */
  lemma NullReadRelease(start: State, events: seq<Event>, s: State, h: nat)
    requires Reached(start, events, s) && Enabled(s, ReleaseRemove(h)) && NamesNobody(s.handles[h].stage.seen)
    ensures HoldsAreNamed(Apply(s, ReleaseRemove(h))) <==> !Held(s)
    ensures !Held(s) <==> s.lock.None? || !s.lock.value.Ours? || !Holds(s, s.lock.value.handle)
  {
    ReachedKeepsInv(start, events, s);
    RemoveTakes(s, h);
    if Held(s) {
      var g :| 0 <= g < |s.handles| && Holds(s, g);
      assert s.lock == Some(Ours(PidOf(s, g), g));
    }
  }

  predicate Over(stage: Stage) {
    !InLoop(stage)
  }

  lemma {:induction false} AnyRunKeeps(s: State, events: seq<Event>, t: State)
    requires Basic(s) && Leads(s, events, t)
    ensures Basic(t)
    decreases |events|
  {
    if events != [] {
      StepKeeps(s, events[0]);
      AnyRunKeeps(Apply(s, events[0]), events[1..], t);
    }
  }

  /** In any run, no acquire makes more than three attempts, and with the last one it is over. */
  lemma AttemptsAreBounded(start: State, events: seq<Event>, s: State, h: nat)
    requires Init(start) && Leads(start, events, s) && h < |s.handles|
    ensures s.handles[h].attempt <= 3
    ensures s.handles[h].attempt == 3 ==> Over(s.handles[h].stage)
  {
    AnyRunKeeps(start, events, s);
    assert HandleOk(s, h);
  }

  // ---- Two runs that end with two live holders ---------------------------------------

  predicate RenamesFaithful(s: State, events: seq<Event>)
    decreases |events|
  {
    events != [] && Enabled(s, events[0]) ==>
      (events[0].RenameAway? ==> FindsWhatItRead(s, events[0])) && RenamesFaithful(Apply(s, events[0]), events[1..])
  }

  lemma OneMoreFaithful(s: State, e: Event, t: State, events: seq<Event>, end: State)
    requires Enabled(s, e) && Apply(s, e) == t && Leads(t, events, end)
    requires RenamesFaithful(t, events) && (e.RenameAway? ==> FindsWhatItRead(s, e))
    ensures Leads(s, [e] + events, end) && RenamesFaithful(s, [e] + events)
  {
    assert ([e] + events)[1..] == events;
  }

  const TWO_PROCESSES := [Proc(11, true), Proc(12, true)]

  const LEFT_OVER := State(Some(Malformed), TWO_PROCESSES, [])

  const BOTH_READ :=
    State(Some(Malformed), TWO_PROCESSES, [Handle(0, 0, Saw(Some(Malformed))), Handle(1, 0, Saw(Some(Malformed)))])

  const BOTH_HOLDING := State(Some(Ours(11, 0)), TWO_PROCESSES, [Handle(0, 1, Holding), Handle(1, 1, Holding)])

  lemma BothRead(events: seq<Event>, end: State) returns (all: seq<Event>)
    requires Leads(BOTH_READ, events, end)
    ensures Leads(LEFT_OVER, all, end)
  {
    var m, p := Some(Malformed), TWO_PROCESSES;
    var s1 := State(m, p, [Handle(0, 0, Trying)]);
    var s2 := State(m, p, [Handle(0, 0, Trying), Handle(1, 0, Trying)]);
    var s3 := State(m, p, [Handle(0, 0, Contended), Handle(1, 0, Trying)]);
    var s4 := State(m, p, [Handle(0, 0, Contended), Handle(1, 0, Contended)]);
    var s5 := State(m, p, [Handle(0, 0, Saw(m)), Handle(1, 0, Contended)]);
    OneMore(s5, Read(1), BOTH_READ, events, end);
    OneMore(s4, Read(0), s5, [Read(1)] + events, end);
    var e3 := [Read(0)] + ([Read(1)] + events);
    OneMore(s3, Create(1), s4, e3, end);
    OneMore(s2, Create(0), s3, [Create(1)] + e3, end);
    var e1 := [Create(0)] + ([Create(1)] + e3);
    OneMore(s1, Begin(1), s2, e1, end);
    OneMore(LEFT_OVER, Begin(0), s1, [Begin(1)] + e1, end);
    all := [Begin(0)] + ([Begin(1)] + e1);
  }

  lemma BothComeToHold() returns (events: seq<Event>)
    ensures Leads(BOTH_READ, events, BOTH_HOLDING)
  {
    var m, p := Some(Malformed), TWO_PROCESSES;
    var s1 := State(m, p, [Handle(0, 0, Condemned(m)), Handle(1, 0, Saw(m))]);
    var s2 := State(m, p, [Handle(0, 0, Condemned(m)), Handle(1, 0, Condemned(m))]);
    var s3 := State(None, p, [Handle(0, 0, Condemned(m)), Handle(1, 1, Trying)]);
    var s4 := State(Some(Ours(12, 1)), p, [Handle(0, 0, Condemned(m)), Handle(1, 1, Holding)]);
    var s5 := State(None, p, [Handle(0, 1, Trying), Handle(1, 1, Holding)]);
    OneMore(s5, Create(0), BOTH_HOLDING, [], BOTH_HOLDING);
    OneMore(s4, RenameAway(0), s5, [Create(0)] + [], BOTH_HOLDING);
    var e3 := [RenameAway(0)] + ([Create(0)] + []);
    OneMore(s3, Create(1), s4, e3, BOTH_HOLDING);
    OneMore(s2, RenameAway(1), s3, [Create(1)] + e3, BOTH_HOLDING);
    var e1 := [RenameAway(1)] + ([Create(1)] + e3);
    OneMore(s1, Judge(1), s2, e1, BOTH_HOLDING);
    OneMore(BOTH_READ, Judge(0), s1, [Judge(1)] + e1, BOTH_HOLDING);
    events := [Judge(0)] + ([Judge(1)] + e1);
  }

  /**
   A late reclaimer renames a fresh live lock away: both processes find the left-over file
   reclaimable, the second takes it over, and then the first renames the second's lock away
   and acquires as well.
   */
  lemma ALateReclaimTakesAHold() returns (start: State, events: seq<Event>, s: State)
    ensures Init(start) && Leads(start, events, s)
    ensures Holds(s, 0) && Holds(s, 1) && s.handles[0].proc != s.handles[1].proc
  {
    var tail := BothComeToHold();
    events := BothRead(tail, BOTH_HOLDING);
    start, s := LEFT_OVER, BOTH_HOLDING;
  }

  const THREE_PROCESSES := [Proc(11, true), Proc(12, true), Proc(13, true)]

  const NO_FILE := State(None, THREE_PROCESSES, [])

  /** The first process has reopened: its second handle holds, its first is superseded. */
  const REOPENED :=
    State(Some(Ours(11, 1)), THREE_PROCESSES, [Handle(0, 0, Superseded), Handle(0, 1, Holding)])

  const OTHERS_HOLD :=
    State(Some(Ours(13, 3)), THREE_PROCESSES,
          [Handle(0, 0, Stage.Released), Handle(0, 1, Stage.Released), Handle(1, 0, Holding), Handle(2, 0, Holding)])

  const REOPENING :=
    State(Some(Ours(11, 0)), THREE_PROCESSES, [Handle(0, 0, Holding), Handle(0, 0, Contended)])

  lemma Reopening(events: seq<Event>, end: State) returns (all: seq<Event>)
    requires Leads(REOPENING, events, end) && RenamesFaithful(REOPENING, events)
    ensures Leads(NO_FILE, all, end) && RenamesFaithful(NO_FILE, all)
  {
    var p, own := THREE_PROCESSES, Some(Ours(11, 0));
    var s1 := State(None, p, [Handle(0, 0, Trying)]);
    var s2 := State(own, p, [Handle(0, 0, Holding)]);
    var s3 := State(own, p, [Handle(0, 0, Holding), Handle(0, 0, Trying)]);
    OneMoreFaithful(s3, Create(1), REOPENING, events, end);
    OneMoreFaithful(s2, Begin(0), s3, [Create(1)] + events, end);
    var e1 := [Begin(0)] + ([Create(1)] + events);
    OneMoreFaithful(s1, Create(0), s2, e1, end);
    OneMoreFaithful(NO_FILE, Begin(0), s1, [Create(0)] + e1, end);
    all := [Begin(0)] + ([Create(0)] + e1);
  }

  lemma Reopens(events: seq<Event>, end: State) returns (all: seq<Event>)
    requires Leads(REOPENED, events, end) && RenamesFaithful(REOPENED, events)
    ensures Leads(REOPENING, all, end) && RenamesFaithful(REOPENING, all)
  {
    var p, own := THREE_PROCESSES, Some(Ours(11, 0));
    var s1 := State(own, p, [Handle(0, 0, Holding), Handle(0, 0, Saw(own))]);
    var s2 := State(own, p, [Handle(0, 0, Holding), Handle(0, 0, Condemned(own))]);
    var s3 := State(None, p, [Handle(0, 0, Superseded), Handle(0, 1, Trying)]);
    OneMoreFaithful(s3, Create(1), REOPENED, events, end);
    OneMoreFaithful(s2, RenameAway(1), s3, [Create(1)] + events, end);
    var e1 := [RenameAway(1)] + ([Create(1)] + events);
    OneMoreFaithful(s1, Judge(1), s2, e1, end);
    OneMoreFaithful(REOPENING, Read(1), s1, [Judge(1)] + e1, end);
    all := [Read(1)] + ([Judge(1)] + e1);
  }

  /** The newer handle is released, and the superseded one has read that there is no lock. */
  const NO_LOCK_READ :=
    State(None, THREE_PROCESSES, [Handle(0, 0, Removing(None)), Handle(0, 1, Stage.Released)])

  lemma ReadsNoLock(events: seq<Event>, end: State) returns (all: seq<Event>)
    requires Leads(NO_LOCK_READ, events, end) && RenamesFaithful(NO_LOCK_READ, events)
    ensures Leads(REOPENED, all, end) && RenamesFaithful(REOPENED, all)
  {
    var p, own := THREE_PROCESSES, Some(Ours(11, 1));
    var s1 := State(own, p, [Handle(0, 0, Superseded), Handle(0, 1, Removing(own))]);
    var s2 := State(None, p, [Handle(0, 0, Superseded), Handle(0, 1, Stage.Released)]);
    OneMoreFaithful(s2, ReleaseRead(0), NO_LOCK_READ, events, end);
    OneMoreFaithful(s1, ReleaseRemove(1), s2, [ReleaseRead(0)] + events, end);
    var e1 := [ReleaseRemove(1)] + ([ReleaseRead(0)] + events);
    OneMoreFaithful(REOPENED, ReleaseRead(1), s1, e1, end);
    all := [ReleaseRead(1)] + e1;
  }

  const REMOVED :=
    State(None, THREE_PROCESSES, [Handle(0, 0, Stage.Released), Handle(0, 1, Stage.Released), Handle(1, 0, Holding)])

  lemma RemovesALiveLock(events: seq<Event>, end: State) returns (all: seq<Event>)
    requires Leads(REMOVED, events, end) && RenamesFaithful(REMOVED, events)
    ensures Leads(NO_LOCK_READ, all, end) && RenamesFaithful(NO_LOCK_READ, all)
  {
    var p, h, r := THREE_PROCESSES, Handle(0, 0, Removing(None)), Handle(0, 1, Stage.Released);
    var s1 := State(None, p, [h, r, Handle(1, 0, Trying)]);
    var s2 := State(Some(Ours(12, 2)), p, [h, r, Handle(1, 0, Holding)]);
    OneMoreFaithful(s2, ReleaseRemove(0), REMOVED, events, end);
    OneMoreFaithful(s1, Create(2), s2, [ReleaseRemove(0)] + events, end);
    var e1 := [Create(2)] + ([ReleaseRemove(0)] + events);
    OneMoreFaithful(NO_LOCK_READ, Begin(1), s1, e1, end);
    all := [Begin(1)] + e1;
  }

  lemma AThirdAcquires() returns (all: seq<Event>)
    ensures Leads(REMOVED, all, OTHERS_HOLD) && RenamesFaithful(REMOVED, all)
  {
    var s1 := REMOVED.(handles := REMOVED.handles + [Handle(2, 0, Trying)]);
    OneMoreFaithful(s1, Create(3), OTHERS_HOLD, [], OTHERS_HOLD);
    OneMoreFaithful(REMOVED, Begin(2), s1, [Create(3)] + [], OTHERS_HOLD);
    all := [Begin(2)] + ([Create(3)] + []);
  }

  /**
   A late release takes a hold as well, though every rename finds what it judged: a process
   reopens, releases the newer handle, and the superseded one then reads no lock; another
   process acquires before the remove, which deletes that live lock.
   */
  lemma ALateReleaseTakesAHold() returns (start: State, events: seq<Event>, s: State)
    ensures Init(start) && Leads(start, events, s) && RenamesFaithful(start, events)
    ensures Holds(s, 2) && Holds(s, 3) && s.handles[2].proc != s.handles[3].proc
  {
    events := AThirdAcquires();
    events := RemovesALiveLock(events, OTHERS_HOLD);
    events := ReadsNoLock(events, OTHERS_HOLD);
    events := Reopens(events, OTHERS_HOLD);
    events := Reopening(events, OTHERS_HOLD);
    start, s := NO_FILE, OTHERS_HOLD;
  }

  const ONE_WRITES :=
    State(Some(Blank(0)), TWO_PROCESSES, [Handle(0, 0, Writing), Handle(1, 0, Contended)])

  const BOTH_WROTE := State(Some(Ours(12, 1)), TWO_PROCESSES, [Handle(0, 0, Holding), Handle(1, 1, Holding)])

  lemma CreatedEmpty(events: seq<Event>, end: State) returns (all: seq<Event>)
    requires Leads(ONE_WRITES, events, end) && RenamesFaithful(ONE_WRITES, events)
    ensures Leads(LEFT_OVER.(lock := None), all, end) && RenamesFaithful(LEFT_OVER.(lock := None), all)
  {
    var p := TWO_PROCESSES;
    var s1 := State(None, p, [Handle(0, 0, Trying)]);
    var s2 := State(None, p, [Handle(0, 0, Trying), Handle(1, 0, Trying)]);
    var s3 := State(Some(Blank(0)), p, [Handle(0, 0, Writing), Handle(1, 0, Trying)]);
    OneMoreFaithful(s3, Create(1), ONE_WRITES, events, end);
    OneMoreFaithful(s2, CreateEmpty(0), s3, [Create(1)] + events, end);
    var e1 := [CreateEmpty(0)] + ([Create(1)] + events);
    OneMoreFaithful(s1, Begin(1), s2, e1, end);
    OneMoreFaithful(LEFT_OVER.(lock := None), Begin(0), s1, [Begin(1)] + e1, end);
    all := [Begin(0)] + ([Begin(1)] + e1);
  }

  lemma ReclaimedBlank(events: seq<Event>, end: State) returns (all: seq<Event>)
    requires var s := State(None, TWO_PROCESSES, [Handle(0, 0, Writing), Handle(1, 1, Trying)]);
             Leads(s, events, end) && RenamesFaithful(s, events)
    ensures Leads(ONE_WRITES, all, end) && RenamesFaithful(ONE_WRITES, all)
  {
    var b, p := Some(Blank(0)), TWO_PROCESSES;
    var s1 := State(b, p, [Handle(0, 0, Writing), Handle(1, 0, Saw(b))]);
    var s2 := State(b, p, [Handle(0, 0, Writing), Handle(1, 0, Condemned(b))]);
    var s3 := State(None, p, [Handle(0, 0, Writing), Handle(1, 1, Trying)]);
    OneMoreFaithful(s2, RenameAway(1), s3, events, end);
    OneMoreFaithful(s1, Judge(1), s2, [RenameAway(1)] + events, end);
    OneMoreFaithful(ONE_WRITES, Read(1), s1, [Judge(1)] + ([RenameAway(1)] + events), end);
    all := [Read(1)] + ([Judge(1)] + ([RenameAway(1)] + events));
  }

  lemma BothWrite() returns (all: seq<Event>)
    ensures var s := State(None, TWO_PROCESSES, [Handle(0, 0, Writing), Handle(1, 1, Trying)]);
            Leads(s, all, BOTH_WROTE) && RenamesFaithful(s, all)
  {
    var p := TWO_PROCESSES;
    var s1 := State(None, p, [Handle(0, 0, Writing), Handle(1, 1, Trying)]);
    var s2 := State(Some(Ours(12, 1)), p, [Handle(0, 0, Writing), Handle(1, 1, Holding)]);
    OneMoreFaithful(s2, WriteBody(0), BOTH_WROTE, [], BOTH_WROTE);
    OneMoreFaithful(s1, Create(1), s2, [WriteBody(0)] + [], BOTH_WROTE);
    all := [Create(1)] + ([WriteBody(0)] + []);
  }

  /**
   Where hard links are refused, an empty lock can be reclaimed before its text is written,
   though the rename finds what it judged: both processes hold.
   */
  lemma AnEmptyLockIsReclaimed() returns (start: State, events: seq<Event>, s: State)
    ensures Init(start) && Leads(start, events, s) && RenamesFaithful(start, events)
    ensures Holds(s, 0) && Holds(s, 1) && s.handles[0].proc != s.handles[1].proc
  {
    events := BothWrite();
    events := ReclaimedBlank(events, BOTH_WROTE);
    events := CreatedEmpty(events, BOTH_WROTE);
    start, s := LEFT_OVER.(lock := None), BOTH_WROTE;
  }

  // ---- What one process does undisturbed ---------------------------------------------

  predicate IsAlive(procs: seq<Proc>, pid: nat) {
    exists p | 0 <= p < |procs| :: procs[p].pid == pid && procs[p].alive
  }

  /**
   The file may be taken by the process with this id: it names nobody, that very process, or
   one of this host that is gone. A lock of another host never is.
   */
  predicate MayBeTaken(procs: seq<Proc>, pid: nat, lock: Lock) {
    match lock
    case OtherHost => false
    case Malformed => true
    case Blank(_) => true
    case Ours(holder, _) => holder == pid || !IsAlive(procs, holder)
    case Former(holder) => holder == pid || !IsAlive(procs, holder)
  }

  lemma JudgedExactly(s: State, h: nat)
    requires Enabled(s, Judge(h))
    ensures var seen, t := s.handles[h].stage.seen, Apply(s, Judge(h));
            && t.lock == s.lock && t.procs == s.procs
            && t.handles[h].stage ==
               (if seen == None || MayBeTaken(s.procs, PidOf(s, h), seen.value) then Condemned(seen) else Refused)
  {
    forall pid ensures IsAlive(s.procs, pid) <==> PidAlive(s, pid) {
      if IsAlive(s.procs, pid) {
        var p :| 0 <= p < |s.procs| && s.procs[p].pid == pid && s.procs[p].alive;
        assert s.procs[p] == Proc(pid, true);
      }
    }
  }

  /** Of the handles, only these two may have changed, and the processes have not. */
  function Acquiring(s: State, p: nat, attempt: nat, stage: Stage): State {
    s.(handles := s.handles + [Handle(p, attempt, stage)])
  }

  lemma BeginsAndCreates(s: State, p: nat)
    requires Idle(s, p)
    ensures var h := |s.handles|;
            Leads(s, [Begin(p), Create(h)],
                  if s.lock == None then Acquiring(s, p, 0, Holding).(lock := Some(Ours(s.procs[p].pid, h)))
                  else Acquiring(s, p, 0, Contended))
  {
    var h := |s.handles|;
    var t := if s.lock == None then Acquiring(s, p, 0, Holding).(lock := Some(Ours(s.procs[p].pid, h)))
             else Acquiring(s, p, 0, Contended);
    var m := Acquiring(s, p, 0, Trying);
    assert Apply(m, Create(h)).handles == t.handles;
    OneMore(m, Create(h), t, [], t);
    OneMore(s, Begin(p), m, [Create(h)] + [], t);
    assert [Begin(p)] + ([Create(h)] + []) == [Begin(p), Create(h)];
  }

  lemma ReadsAndJudges(s: State, p: nat)
    requires Idle(s, p) && s.lock != None
    ensures var h := |s.handles|;
            Leads(Acquiring(s, p, 0, Contended), [Read(h), Judge(h)],
                  Acquiring(s, p, 0, if MayBeTaken(s.procs, s.procs[p].pid, s.lock.value)
                                     then Condemned(s.lock) else Refused))
  {
    var h := |s.handles|;
    var a, m := Acquiring(s, p, 0, Contended), Acquiring(s, p, 0, Saw(s.lock));
    var t := Acquiring(s, p, 0, if MayBeTaken(s.procs, s.procs[p].pid, s.lock.value) then Condemned(s.lock) else Refused);
    assert Apply(a, Read(h)).handles == m.handles;
    JudgedExactly(m, h);
    assert Apply(m, Judge(h)).handles == t.handles;
    OneMore(m, Judge(h), t, [], t);
    OneMore(a, Read(h), m, [Judge(h)] + [], t);
    assert [Read(h)] + ([Judge(h)] + []) == [Read(h), Judge(h)];
  }

  lemma TakesAndCreates(s: State, p: nat) returns (t: State)
    requires Idle(s, p) && s.lock != None
    ensures var h := |s.handles|;
            && Leads(Acquiring(s, p, 0, Condemned(s.lock)), [RenameAway(h), Create(h)], t)
            && t.lock == Some(Ours(s.procs[p].pid, h)) && t.procs == s.procs
            && |t.handles| == h + 1 && t.handles[h] == Handle(p, 1, Holding)
  {
    var h := |s.handles|;
    var a := Acquiring(s, p, 0, Condemned(s.lock));
    var m := Apply(a, RenameAway(h));
    t := Apply(m, Create(h));
    OneMore(m, Create(h), t, [], t);
    OneMore(a, RenameAway(h), m, [Create(h)] + [], t);
    assert [RenameAway(h)] + ([Create(h)] + []) == [RenameAway(h), Create(h)];
  }

  lemma {:induction false} Chain(s: State, a: seq<Event>, m: State, b: seq<Event>, t: State)
    requires Leads(s, a, m) && Leads(m, b, t)
    ensures Leads(s, a + b, t)
    decreases |a|
  {
    if a == [] {
      assert a + b == b;
    } else {
      assert (a + b)[1..] == a[1..] + b;
      Chain(Apply(s, a[0]), a[1..], m, b, t);
    }
  }

  /**
   A process that acquires with nobody in between: it holds a free lock at once, takes one
   that may be taken at its second attempt, and is refused any other, which it leaves alone.
   */
  lemma AnUndisturbedAcquire(s: State, p: nat) returns (events: seq<Event>, t: State)
    requires Idle(s, p)
    ensures Leads(s, events, t) && |t.handles| == |s.handles| + 1 && t.procs == s.procs
    ensures var h, pid := |s.handles|, s.procs[p].pid;
            && (s.lock == None || MayBeTaken(s.procs, pid, s.lock.value) ==>
                && t.lock == Some(Ours(pid, h)) && t.handles[h].proc == p && t.handles[h].stage == Holding
                && t.handles[h].attempt == (if s.lock == None then 0 else 1))
            && (s.lock != None && !MayBeTaken(s.procs, pid, s.lock.value) ==>
                t == s.(handles := s.handles + [Handle(p, 0, Refused)]))
  {
    var h := |s.handles|;
    BeginsAndCreates(s, p);
    if s.lock == None {
      events := [Begin(p), Create(h)];
      t := Acquiring(s, p, 0, Holding).(lock := Some(Ours(s.procs[p].pid, h)));
    } else {
      ReadsAndJudges(s, p);
      var judged := Acquiring(s, p, 0, if MayBeTaken(s.procs, s.procs[p].pid, s.lock.value)
                                       then Condemned(s.lock) else Refused);
      Chain(s, [Begin(p), Create(h)], Acquiring(s, p, 0, Contended), [Read(h), Judge(h)], judged);
      events, t := [Begin(p), Create(h)] + [Read(h), Judge(h)], judged;
      if MayBeTaken(s.procs, s.procs[p].pid, s.lock.value) {
        t := TakesAndCreates(s, p);
        Chain(s, events, judged, [RenameAway(h), Create(h)], t);
        events := events + [RenameAway(h), Create(h)];
      }
    }
  }

  /** A reclaim spends one of three attempts, whether it takes the file away or not. */
  lemma ReclaimsAreCounted(s: State, h: nat)
    requires Enabled(s, RenameAway(h))
    ensures var t, u, attempt := Apply(s, RenameAway(h)), Apply(s, RenameFails(h)), s.handles[h].attempt + 1;
            && t.lock == None && u.lock == s.lock
            && t.handles[h] == Handle(s.handles[h].proc, attempt, if attempt < 3 then Trying else Refused)
            && u.handles == s.handles[h := t.handles[h]]
  {
  }

  /** A holder's release, undisturbed, leaves no lock. */
  lemma AnUndisturbedRelease(s: State, h: nat)
    requires Acts(s, h) && Idle(s, s.handles[h].proc) && s.handles[h].stage.Holding?
    requires s.lock == Some(Ours(PidOf(s, h), h))
    ensures Leads(s, [ReleaseRead(h), ReleaseRemove(h)], SetStage(s, h, Stage.Released).(lock := None))
  {
    var m, t := SetStage(s, h, Removing(s.lock)), SetStage(s, h, Stage.Released).(lock := None);
    assert Apply(m, ReleaseRemove(h)).handles == t.handles;
    OneMore(m, ReleaseRemove(h), t, [], t);
    OneMore(s, ReleaseRead(h), m, [ReleaseRemove(h)] + [], t);
    assert [ReleaseRead(h)] + ([ReleaseRemove(h)] + []) == [ReleaseRead(h), ReleaseRemove(h)];
  }
}
