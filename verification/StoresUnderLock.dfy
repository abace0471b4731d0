/**
 Several processes over one store directory: every interleaving of the lock's steps with the
 opens, saves and deletes of the stores that the lock's holders have open. The lock is what
 makes the directory look, at any moment, like that of the one store its holder has open.
 */
module StoresUnderLock {
  import opened Text
  import opened EncryptedStore
  import L = StoreLockRuns
  import E = EncryptedStoreRuns

  /** `open` has the stores in memory, each by the number of the lock handle it was opened under. */
  datatype State = State(lock: L.State, disk: Disk, creation: Option<Key>, open: map<nat, E.Handle>)

  datatype Event =
    | Locking(step: L.Event)
    | Opening(handle: nat, env: Env)
    | OpeningDies(handle: nat, env: Env, writes: nat)
    | Changing(handle: nat, change: E.Event)
    | ChangingDies(handle: nat, change: E.Event)
    | LosingEnc

  predicate Init(s: State) {
    L.Init(s.lock) && s.disk == Disk(None, None) && s.creation == None && s.open == map[]
  }

  /** The handle of a live process that the lock file names and that holds. */
  function Holder(s: State): (r: Option<nat>)
    ensures r.Some? ==> L.Holds(s.lock, r.value)
  {
    if s.lock.lock.Some? && s.lock.lock.value.Ours? && L.Holds(s.lock, s.lock.lock.value.handle) then
      Some(s.lock.lock.value.handle)
    else None
  }

  /** The directory as the one store of the lock's holder sees it. */
  function View(s: State): E.State {
    E.State(s.disk, if Holder(s).Some? && Holder(s).value in s.open then Some(s.open[Holder(s).value]) else None,
            s.creation)
  }

  predicate IsChange(e: E.Event) {
    e.Save? || e.Delete?
  }

  predicate IsDyingChange(e: E.Event) {
    e.SaveDies? || e.DeleteDies?
  }

  /** A store is opened under a lock that holds; one in memory can be used while its process lives. */
  predicate Enabled(s: State, e: Event) {
    match e
    case Locking(step) => L.Enabled(s.lock, step)
    case Opening(h, _) => L.Holds(s.lock, h) && h !in s.open
    case OpeningDies(h, env, n) => L.Holds(s.lock, h) && h !in s.open && n <= |OpenPersistent(s.disk, env).0|
    case Changing(h, change) => h in s.open && L.Acts(s.lock, h) && IsChange(change)
    case ChangingDies(h, change) => h in s.open && L.Acts(s.lock, h) && IsDyingChange(change)
    case LosingEnc => true
  }

  function Crashed(lock: L.State, h: nat): L.State
    requires L.Acts(lock, h)
  {
    L.Apply(lock, L.Crash(lock.handles[h].proc))
  }

  /** The directory as the store of handle `h` sees it. */
  function StoreOf(s: State, h: nat): E.State {
    E.State(s.disk, if h in s.open then Some(s.open[h]) else None, s.creation)
  }

  /** What a step of the store of handle `h` leaves. */
  function After(s: State, h: nat, t: E.State, lock: L.State): State {
    State(lock, t.disk, t.creation, if t.handle.Some? then s.open[h := t.handle.value] else s.open)
  }

  function Apply(s: State, e: Event): State
    requires Enabled(s, e)
  {
    match e
    case Locking(step) => s.(lock := L.Apply(s.lock, step))
    case Opening(h, env) => After(s, h, E.Apply(StoreOf(s, h), E.Open(env)), s.lock)
    case OpeningDies(h, env, n) => After(s, h, E.Apply(StoreOf(s, h), E.OpenDies(env, n)), Crashed(s.lock, h))
    case Changing(h, change) => After(s, h, E.Apply(StoreOf(s, h), change), s.lock)
    case ChangingDies(h, change) => After(s, h, E.Apply(StoreOf(s, h), change), Crashed(s.lock, h))
    case LosingEnc => s.(disk := s.disk.(enc := None))
  }

  /** The lock's steps find what they read, and only a holder's store is changed. */
  predicate Proper(s: State, e: Event)
    requires Enabled(s, e)
  {
    match e
    case Locking(step) => L.FindsWhatItRead(s.lock, step)
    case Changing(h, _) => L.Holds(s.lock, h)
    case ChangingDies(h, _) => L.Holds(s.lock, h)
    case _ => true
  }

  // ---- One step of all of them is at most one step of the one store ------------------

  /** A store in memory belongs to a handle that has held; such a handle never comes to hold again. */
  predicate Inv(s: State) {
    L.Inv(s.lock) && forall h | h in s.open :: h < |s.lock.handles| && !L.InLoop(s.lock.handles[h].stage)
  }

  lemma HolderIsTheOne(s: State, h: nat)
    requires L.Inv(s.lock) && L.Holds(s.lock, h)
    ensures Holder(s) == Some(h) && View(s) == StoreOf(s, h)
  {
    assert s.lock.lock == Some(L.Ours(L.PidOf(s.lock, h), h));
  }

  lemma NeverBackInTheLoop(s: L.State, e: L.Event, h: nat)
    requires L.Basic(s) && L.Enabled(s, e) && h < |s.handles| && !L.InLoop(s.handles[h].stage)
    ensures h < |L.Apply(s, e).handles| && !L.InLoop(L.Apply(s, e).handles[h].stage)
    ensures L.Holds(L.Apply(s, e), h) ==> L.Holds(s, h)
  {
    assert L.HandleOk(s, h);
  }

  lemma CrashKeeps(lock: L.State, h: nat)
    requires L.Inv(lock) && L.Acts(lock, h)
    ensures L.Inv(Crashed(lock, h)) && !L.Acts(Crashed(lock, h), h)
  {
    L.FaithfulStepKeeps(lock, L.Crash(lock.handles[h].proc));
  }

  lemma StepKeeps(s: State, e: Event)
    requires Inv(s) && Enabled(s, e) && Proper(s, e)
    ensures Inv(Apply(s, e))
  {
    match e
    case Locking(step) =>
      L.FaithfulStepKeeps(s.lock, step);
      forall h | h in s.open
        ensures h < |L.Apply(s.lock, step).handles| && !L.InLoop(L.Apply(s.lock, step).handles[h].stage)
      {
        NeverBackInTheLoop(s.lock, step, h);
      }
    case OpeningDies(h, _, _) => CrashKeeps(s.lock, h);
    case ChangingDies(h, _) => CrashKeeps(s.lock, h);
    case _ =>
  }

  /** A step of the lock leaves the one store as it is, or makes it go away. */
  lemma LockStepRefines(s: State, step: L.Event)
    requires Inv(s) && L.Enabled(s.lock, step) && L.FindsWhatItRead(s.lock, step)
    ensures var t := Apply(s, Locking(step));
            View(t) == View(s) || (View(s).handle.Some? && View(t) == E.Apply(View(s), E.Leave))
  {
    var t := Apply(s, Locking(step));
    if Holder(t).Some? && Holder(t).value in s.open {
      NeverBackInTheLoop(s.lock, step, Holder(t).value);
      HolderIsTheOne(s, Holder(t).value);
    }
  }

  lemma DeadHoldsNothing(s: State, h: nat, t: State)
    requires L.Inv(s.lock) && L.Holds(s.lock, h) && t.lock == Crashed(s.lock, h)
    ensures View(t).handle.None?
  {
    assert s.lock.lock == Some(L.Ours(L.PidOf(s.lock, h), h));
  }

  /** The store step, if any, that a step of the whole amounts to. */
  lemma StepRefines(s: State, e: Event) returns (steps: seq<E.Event>)
    requires Inv(s) && Enabled(s, e) && Proper(s, e)
    ensures |steps| <= 1 && E.Leads(View(s), steps, View(Apply(s, e)))
  {
    match e
    case Locking(step) =>
      LockStepRefines(s, step);
      steps := if View(Apply(s, e)) == View(s) then [] else [E.Leave];
    case Opening(h, env) =>
      HolderIsTheOne(s, h);
      HolderIsTheOne(Apply(s, e), h);
      steps := [E.Open(env)];
    case OpeningDies(h, env, n) =>
      HolderIsTheOne(s, h);
      DeadHoldsNothing(s, h, Apply(s, e));
      steps := [E.OpenDies(env, n)];
    case Changing(h, change) =>
      HolderIsTheOne(s, h);
      HolderIsTheOne(Apply(s, e), h);
      steps := [change];
    case ChangingDies(h, change) =>
      HolderIsTheOne(s, h);
      DeadHoldsNothing(s, h, Apply(s, e));
      steps := [change];
    case LosingEnc =>
      steps := [E.LoseEnc];
  }

  // ---- Runs --------------------------------------------------------------------------

  /** The events lead from `s` to `t`, each enabled and proper when it happens. */
  predicate Leads(s: State, events: seq<Event>, t: State)
    decreases |events|
  {
    if events == [] then s == t
    else
      && Enabled(s, events[0]) && Proper(s, events[0])
      && Leads(Apply(s, events[0]), events[1..], t)
  }

  predicate Reached(start: State, events: seq<Event>, s: State) {
    Init(start) && Leads(start, events, s)
  }

  lemma {:induction false} RunRefines(s: State, events: seq<Event>, t: State) returns (steps: seq<E.Event>)
    requires Inv(s) && Leads(s, events, t)
    ensures Inv(t) && E.Leads(View(s), steps, View(t))
    decreases |events|
  {
    if events == [] {
      steps := [];
    } else {
      var first := StepRefines(s, events[0]);
      StepKeeps(s, events[0]);
      var rest := RunRefines(Apply(s, events[0]), events[1..], t);
      steps := first + rest;
      if first == [] {
        assert steps == rest;
      } else {
        assert steps[1..] == rest;
      }
    }
  }

  /**
   Every run of any number of processes under the lock is a run of the one store that its
   holder has open, crash for crash and write for write.
   */
  lemma ManyProcessesAreOneStore(start: State, events: seq<Event>, s: State)
    returns (first: E.State, steps: seq<E.Event>)
    requires Reached(start, events, s)
    ensures Inv(s) && E.Reached(first, steps, View(s))
  {
    first := View(start);
    steps := RunRefines(start, events, s);
  }

  /** So the one key holds for all of them. */
  lemma OneKeyForAll(start: State, events: seq<Event>, s: State)
    requires Reached(start, events, s) && s.disk.enc.Some?
    ensures exists key, records ::
              && s.disk.enc == Some(Seal(key, records))
              && (s.disk.meta.Some? ==> s.creation == Some(key))
              && (key.Derived? ==> s.disk.meta.Some?)
  {
    var first, steps := ManyProcessesAreOneStore(start, events, s);
    E.OneKeyForever(first, steps, View(s));
  }

  /** And what the holder's store has in memory is what the file decrypts to: no update is lost. */
  lemma HoldersMemoryIsTheFile(start: State, events: seq<Event>, s: State, h: nat)
    requires Reached(start, events, s) && L.Holds(s.lock, h) && h in s.open && s.disk.enc.Some?
    ensures LoadStoreFromFile(s.disk.enc, false, s.open[h].key) == Opened(s.open[h].key, s.open[h].records)
  {
    var first, steps := ManyProcessesAreOneStore(start, events, s);
    HolderIsTheOne(s, h);
    E.MemoryIsTheFile(first, steps, View(s));
  }

  /**
   A step of one store is that store's own, and leaves those of all other handles in memory; a
   step of the lock leaves the disk and every store.
   */
  lemma OnlyOneStoreMoves(s: State, e: Event, other: nat)
    requires Enabled(s, e)
    ensures var t := Apply(s, e);
            match e
            case Locking(step) => t.disk == s.disk && t.open == s.open && t.lock == L.Apply(s.lock, step)
            case LosingEnc => t.disk == Disk(None, s.disk.meta) && t.open == s.open && t.lock == s.lock
            case Opening(h, env) =>
              && StoreOf(t, h) == E.Apply(StoreOf(s, h), E.Open(env)) && t.lock == s.lock
              && (other != h ==> StoreOf(t, other).handle == StoreOf(s, other).handle)
            case Changing(h, change) =>
              && StoreOf(t, h) == E.Apply(StoreOf(s, h), change) && t.lock == s.lock
              && (other != h ==> StoreOf(t, other).handle == StoreOf(s, other).handle)
            case OpeningDies(h, env, n) =>
              && t.disk == E.Apply(StoreOf(s, h), E.OpenDies(env, n)).disk && !L.Acts(t.lock, h)
              && (other != h ==> StoreOf(t, other).handle == StoreOf(s, other).handle)
            case ChangingDies(h, change) =>
              && t.disk == E.Apply(StoreOf(s, h), change).disk && !L.Acts(t.lock, h)
              && (other != h ==> StoreOf(t, other).handle == StoreOf(s, other).handle)
  {
  }

  // ---- A store used after its process has reopened -----------------------------------

  const PROCESS := [L.Proc(11, true)]
  const KEY := FromKeychain(7)
  const MINE := Record("a", "mine")
  const YOURS := Record("b", "yours")
  const QUIET := Env(Loaded(7), Declined, 1, false, false, false, false, false, false)

  const EMPTY := State(L.State(None, PROCESS, []), Disk(None, None), None, map[])

  const FIRST_OPEN := State(
    L.State(Some(L.Ours(11, 0)), PROCESS, [L.Handle(0, 0, L.Holding)]), Disk(None, None), None,
    map[0 := E.Handle(KEY, [])])

  const REOPENED := State(
    L.State(Some(L.Ours(11, 1)), PROCESS, [L.Handle(0, 0, L.Superseded), L.Handle(0, 1, L.Holding)]),
    Disk(None, None), None, map[0 := E.Handle(KEY, [])])

  const BOTH_OPEN := REOPENED.(
    disk := Disk(Some(Seal(KEY, [MINE])), None),
    open := map[0 := E.Handle(KEY, []), 1 := E.Handle(KEY, [MINE])])

  lemma OneMore(s: State, e: Event, t: State, events: seq<Event>, end: State)
    requires Enabled(s, e) && Proper(s, e) && Apply(s, e) == t && Leads(t, events, end)
    ensures Leads(s, [e] + events, end)
  {
    assert ([e] + events)[1..] == events;
  }

  lemma OpensFirst(events: seq<Event>, end: State) returns (all: seq<Event>)
    requires Leads(FIRST_OPEN, events, end)
    ensures Leads(EMPTY, all, end)
  {
    var s1 := EMPTY.(lock := EMPTY.lock.(handles := [L.Handle(0, 0, L.Trying)]));
    var s2 := FIRST_OPEN.(open := map[]);
    OneMore(s2, Opening(0, QUIET), FIRST_OPEN, events, end);
    OneMore(s1, Locking(L.Create(0)), s2, [Opening(0, QUIET)] + events, end);
    all := [Locking(L.Create(0))] + ([Opening(0, QUIET)] + events);
    OneMore(EMPTY, Locking(L.Begin(0)), s1, all, end);
    all := [Locking(L.Begin(0))] + all;
  }

  function Reopening(lock: Option<L.Lock>, first: L.Stage, attempt: nat, second: L.Stage): State {
    FIRST_OPEN.(lock := L.State(lock, PROCESS, [L.Handle(0, 0, first), L.Handle(0, attempt, second)]))
  }

  lemma FindsItsOwn(events: seq<Event>, end: State) returns (all: seq<Event>)
    requires Leads(Reopening(Some(L.Ours(11, 0)), L.Holding, 0, L.Contended), events, end)
    ensures Leads(FIRST_OPEN, all, end)
  {
    var own := Some(L.Ours(11, 0));
    var s1 := Reopening(own, L.Holding, 0, L.Trying);
    OneMore(s1, Locking(L.Create(1)), Reopening(own, L.Holding, 0, L.Contended), events, end);
    OneMore(FIRST_OPEN, Locking(L.Begin(0)), s1, [Locking(L.Create(1))] + events, end);
    all := [Locking(L.Begin(0))] + ([Locking(L.Create(1))] + events);
  }

  lemma TakesItOver(events: seq<Event>, end: State) returns (all: seq<Event>)
    requires Leads(REOPENED, events, end)
    ensures Leads(Reopening(Some(L.Ours(11, 0)), L.Holding, 0, L.Condemned(Some(L.Ours(11, 0)))), all, end)
  {
    var own := Some(L.Ours(11, 0));
    var s1 := Reopening(own, L.Holding, 0, L.Condemned(own));
    var s2 := Reopening(None, L.Superseded, 1, L.Trying);
    OneMore(s2, Locking(L.Create(1)), REOPENED, events, end);
    OneMore(s1, Locking(L.RenameAway(1)), s2, [Locking(L.Create(1))] + events, end);
    all := [Locking(L.RenameAway(1))] + ([Locking(L.Create(1))] + events);
  }

  lemma JudgesIt(events: seq<Event>, end: State) returns (all: seq<Event>)
    requires Leads(Reopening(Some(L.Ours(11, 0)), L.Holding, 0, L.Condemned(Some(L.Ours(11, 0)))), events, end)
    ensures Leads(Reopening(Some(L.Ours(11, 0)), L.Holding, 0, L.Contended), all, end)
  {
    var own := Some(L.Ours(11, 0));
    var s1 := Reopening(own, L.Holding, 0, L.Contended);
    var s2 := Reopening(own, L.Holding, 0, L.Saw(own));
    OneMore(s2, Locking(L.Judge(1)), Reopening(own, L.Holding, 0, L.Condemned(own)), events, end);
    OneMore(s1, Locking(L.Read(1)), s2, [Locking(L.Judge(1))] + events, end);
    all := [Locking(L.Read(1))] + ([Locking(L.Judge(1))] + events);
  }

  lemma SavesMine() returns (all: seq<Event>)
    ensures Leads(REOPENED, all, BOTH_OPEN)
  {
    var s1 := REOPENED.(open := map[0 := E.Handle(KEY, []), 1 := E.Handle(KEY, [])]);
    var save := Changing(1, E.Save(MINE, false));
    OneMore(s1, save, BOTH_OPEN, [], BOTH_OPEN);
    OneMore(REOPENED, Opening(1, QUIET), s1, [save] + [], BOTH_OPEN);
    all := [Opening(1, QUIET)] + ([save] + []);
  }

  /**
   The lock does not stop a store whose own process has reopened: its save replaces the file
   by its own records, and the holder's memory is no longer what the file decrypts to.
   */
  lemma ASupersededStoreOverwrites() returns (start: State, events: seq<Event>, s: State, e: Event)
    ensures Reached(start, events, s) && Enabled(s, e) && e.Changing? && !Proper(s, e)
    ensures L.Holds(s.lock, 1) && 1 in s.open && L.Holds(Apply(s, e).lock, 1) && 1 in Apply(s, e).open
    ensures var t := Apply(s, e);
            LoadStoreFromFile(t.disk.enc, false, t.open[1].key) != Opened(t.open[1].key, t.open[1].records)
  {
    start, s, e := EMPTY, BOTH_OPEN, Changing(0, E.Save(YOURS, false));
    events := SavesMine();
    events := TakesItOver(events, BOTH_OPEN);
    events := JudgesIt(events, BOTH_OPEN);
    events := FindsItsOwn(events, BOTH_OPEN);
    events := OpensFirst(events, BOTH_OPEN);
    E.SealedOpens([YOURS], KEY, KEY);
  }
}
