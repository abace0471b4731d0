/**
 The live report's re-query driver: every pick and every refresh starts a run, runs overlap
 at their awaits, and a run-generation guard lets only the newest one touch the page.
 */
module LiveReport {
  import opened Text

  type ConnectionId = string

  /** What a block shows after one reply, or instead of one. */
  datatype Shown = NoQuery | CannotReach | ErrorNote | ConfirmNote | OkNote | Rows(result: string)

  /** Something appended to a slot, by which run and for which pick. */
  datatype Entry = Entry(run: nat, pick: Option<ConnectionId>, shown: Shown)

  datatype Picker = Picker(run: nat, offered: set<ConnectionId>, selected: Option<ConnectionId>)

  /** A block's query in flight. */
  datatype Ask = Ask(run: nat, slot: nat, pick: Option<ConnectionId>)

  datatype State = State(
    current: Option<ConnectionId>, latestRun: nat, statusFailed: bool,
    banner: bool, picker: Option<Picker>, slots: seq<seq<Entry>>,
    loading: set<nat>, asked: set<Ask>)

  function Initial(n: nat): State {
    State(None, 0, false, false, None, seq(n, _ => []), {}, {})
  }

  // ---- The pieces of code between awaits ---------------------------------------------

  /** A run takes the next generation and asks for the list of connections. */
  function Begin(s: State): State {
    s.(latestRun := s.latestRun + 1, loading := s.loading + {s.latestRun + 1})
  }

  function Pick(s: State, pick: Option<ConnectionId>): State {
    Begin(s.(current := pick))
  }

  function AllShow(n: nat, entry: Entry): seq<seq<Entry>> {
    seq(n, _ => [entry])
  }

  function ListFailed(s: State, run: nat): State {
    var t := s.(loading := s.loading - {run});
    if run != s.latestRun then t
    else
      t.(banner := true, statusFailed := true, picker := Some(Picker(run, {}, s.current)),
         slots := AllShow(|s.slots|, Entry(run, s.current, CannotReach)))
  }

  /** A pick that is no longer offered falls back to the default connection. */
  function Reconciled(current: Option<ConnectionId>, offered: set<ConnectionId>): Option<ConnectionId> {
    if current.Some? && current.value !in offered then None else current
  }

  /** A block with no query shows a note at once; the others are cleared and asked. */
  function Cleared(blank: seq<bool>, run: nat, pick: Option<ConnectionId>): seq<seq<Entry>> {
    seq(|blank|, k requires 0 <= k < |blank| => if blank[k] then [Entry(run, pick, NoQuery)] else [])
  }

  function Asks(blank: seq<bool>, run: nat, pick: Option<ConnectionId>): set<Ask> {
    set k: nat | k < |blank| && !blank[k] :: Ask(run, k, pick)
  }

  function ListLoaded(s: State, blank: seq<bool>, run: nat, offered: set<ConnectionId>): State {
    var t := s.(loading := s.loading - {run});
    if run != s.latestRun then t
    else
      var pick := Reconciled(s.current, offered);
      t.(banner := s.banner && !s.statusFailed, statusFailed := false, current := pick,
         picker := Some(Picker(run, offered, pick)),
         slots := Cleared(blank, run, pick), asked := s.asked + Asks(blank, run, pick))
  }

  function Replied(s: State, ask: Ask, shown: Shown): State
    requires ask.slot < |s.slots|
  {
    var t := s.(asked := s.asked - {ask});
    if ask.run != s.latestRun then t
    else t.(slots := s.slots[ask.slot := s.slots[ask.slot] + [Entry(ask.run, ask.pick, shown)]])
  }

  // ---- The driver --------------------------------------------------------------------

  class Report {
    const blank: seq<bool>
    var current: Option<ConnectionId>
    var latestRun: nat
    var statusFailed: bool
    var banner: bool
    var picker: Option<Picker>
    var slots: seq<seq<Entry>>
    var loading: set<nat>
    var asked: set<Ask>

    function View(): State
      reads this
    {
      State(current, latestRun, statusFailed, banner, picker, slots, loading, asked)
    }

    constructor (blank: seq<bool>)
      ensures this.blank == blank && View() == Initial(|blank|)
    {
      this.blank := blank;
      current, latestRun, statusFailed, banner := None, 0, false, false;
      picker, slots, loading, asked := None, seq(|blank|, _ => []), {}, {};
    }

    /** `runAll` up to its first await; also what the refresh control does. */
    method RunAll() returns (myRun: nat)
      modifies this
      ensures View() == Begin(old(View())) && myRun == latestRun
    {
      latestRun := latestRun + 1;
      myRun := latestRun;
      loading := loading + {myRun};
    }

    method OnPick(pick: Option<ConnectionId>)
      modifies this
      ensures View() == Pick(old(View()), pick)
    {
      current := pick;
      var myRun := RunAll();
    }

    /** `runAll` once the list has failed to load. */
    method AfterFailedList(myRun: nat)
      modifies this
      ensures View() == ListFailed(old(View()), myRun)
    {
      loading := loading - {myRun};
      if myRun != latestRun {
        return;
      }
      banner := true;
      statusFailed := true;
      picker := Some(Picker(myRun, {}, current));
      ghost var before := View();
      for k := 0 to |slots|
        invariant View() == before.(slots := slots) && |slots| == |before.slots|
        invariant forall j | 0 <= j < k :: slots[j] == [Entry(myRun, current, CannotReach)]
      {
        slots := slots[k := []];
        slots := slots[k := slots[k] + [Entry(myRun, current, CannotReach)]];
      }
      assert slots == AllShow(|slots|, Entry(myRun, current, CannotReach));
    }

    /** Every query slot is cleared, and asks for its rows unless it has no query. */
    method StartBlocks(myRun: nat, pick: Option<ConnectionId>)
      requires |slots| == |blank|
      modifies this`slots, this`asked
      ensures slots == Cleared(blank, myRun, pick)
      ensures asked == old(asked) + Asks(blank, myRun, pick)
    {
      for k := 0 to |slots|
        invariant |slots| == |blank|
        invariant forall j | 0 <= j < k :: slots[j] == if blank[j] then [Entry(myRun, pick, NoQuery)] else []
        invariant forall a :: a in asked <==> a in old(asked) || IsAsk(a, blank, k, myRun, pick)
      {
        slots := slots[k := []];
        if blank[k] {
          slots := slots[k := slots[k] + [Entry(myRun, pick, NoQuery)]];
        } else {
          asked := asked + {Ask(myRun, k, pick)};
        }
      }
      AsksAre(blank, myRun, pick);
      assert slots == Cleared(blank, myRun, pick);
    }

    /** `runAll` once the list has loaded, up to the awaits of its blocks. */
    method AfterList(myRun: nat, offered: set<ConnectionId>)
      requires |slots| == |blank|
      modifies this
      ensures View() == ListLoaded(old(View()), blank, myRun, offered)
    {
      loading := loading - {myRun};
      if myRun != latestRun {
        return;
      }
      if statusFailed {
        banner := false;
        statusFailed := false;
      }
      if current.Some? && current.value !in offered {
        current := None;
      }
      picker := Some(Picker(myRun, offered, current));
      StartBlocks(myRun, current);
    }

    /** A block after its await: a superseded run appends nothing. */
    method AfterReply(ask: Ask, shown: Shown)
      requires ask.slot < |slots|
      modifies this
      ensures View() == Replied(old(View()), ask, shown)
    {
      asked := asked - {ask};
      if ask.run != latestRun {
        return;
      }
      slots := slots[ask.slot := slots[ask.slot] + [Entry(ask.run, ask.pick, shown)]];
    }
  }

  predicate IsAsk(a: Ask, blank: seq<bool>, n: nat, run: nat, pick: Option<ConnectionId>)
    requires n <= |blank|
  {
    a.run == run && a.pick == pick && a.slot < n && !blank[a.slot]
  }

  lemma AsksAre(blank: seq<bool>, run: nat, pick: Option<ConnectionId>)
    ensures forall a :: a in Asks(blank, run, pick) <==> IsAsk(a, blank, |blank|, run, pick)
  {
    forall a | IsAsk(a, blank, |blank|, run, pick) ensures a in Asks(blank, run, pick) {
      assert a == Ask(run, a.slot, pick);
    }
  }

  // ---- Runs --------------------------------------------------------------------------

  datatype Event =
    | Picks(pick: Option<ConnectionId>)
    | Refreshes
    | ListFails(run: nat)
    | ListLoads(run: nat, offered: set<ConnectionId>)
    | Replies(ask: Ask, shown: Shown)

  predicate Enabled(s: State, e: Event) {
    match e
    case ListFails(run) => run in s.loading
    case ListLoads(run, _) => run in s.loading
    case Replies(ask, _) => ask in s.asked && ask.slot < |s.slots|
    case _ => true
  }

  function Apply(s: State, blank: seq<bool>, e: Event): State
    requires Enabled(s, e)
  {
    match e
    case Picks(pick) => Pick(s, pick)
    case Refreshes => Begin(s)
    case ListFails(run) => ListFailed(s, run)
    case ListLoads(run, offered) => ListLoaded(s, blank, run, offered)
    case Replies(ask, shown) => Replied(s, ask, shown)
  }

  /** Every entry of a slot was put there by the run that last cleared it, and at most once. */
  predicate SlotOk(s: State, k: nat)
    requires k < |s.slots|
  {
    && |s.slots[k]| <= 1
    && (forall e :: e in s.slots[k] ==>
          s.picker.Some? && e.run == s.picker.value.run && e.pick == s.picker.value.selected)
  }

  /** The newest run has its list, and this slot's answer has come or is awaited. */
  predicate SlotDue(s: State, k: nat)
    requires k < |s.slots|
  {
    exists a :: a in s.asked && a.run == s.latestRun && a.slot == k
  }

  predicate Settled(s: State) {
    s.latestRun > 0 && s.latestRun !in s.loading
  }

  predicate AskOk(s: State, a: Ask) {
    && a.run <= s.latestRun && a.slot < |s.slots|
    && (a.run == s.latestRun ==>
        && s.picker.Some? && s.picker.value.run == a.run && s.picker.value.selected == a.pick
        && s.slots[a.slot] == [])
  }

  predicate PickerOk(s: State) {
    && (s.picker.Some? ==> s.picker.value.run <= s.latestRun)
    && (s.banner <==> s.statusFailed)
    && (s.latestRun in s.loading ==> forall a :: a in s.asked ==> a.run < s.latestRun)
    && (Settled(s) ==>
        && s.picker.Some? && s.picker.value.run == s.latestRun && s.picker.value.selected == s.current)
  }

  predicate Inv(s: State, blank: seq<bool>) {
    && |s.slots| == |blank| && PickerOk(s)
    && (forall r :: r in s.loading ==> 0 < r <= s.latestRun)
    && (forall a :: a in s.asked ==> AskOk(s, a))
    && (forall k | 0 <= k < |s.slots| :: SlotOk(s, k))
    && (Settled(s) ==> forall k | 0 <= k < |s.slots| :: s.slots[k] == [] ==> SlotDue(s, k))
  }

  lemma InitialHolds(blank: seq<bool>)
    ensures Inv(Initial(|blank|), blank)
  {
  }

  lemma BeginKeeps(s: State, blank: seq<bool>, pick: Option<ConnectionId>)
    requires Inv(s, blank)
    ensures Inv(Begin(s.(current := pick)), blank)
  {
    var t := Begin(s.(current := pick));
    forall k | 0 <= k < |t.slots| ensures SlotOk(t, k) { assert SlotOk(s, k); }
    forall a | a in t.asked ensures AskOk(t, a) && a.run < t.latestRun { assert AskOk(s, a); }
  }

  lemma SupersededKeeps(s: State, blank: seq<bool>, t: State)
    requires Inv(s, blank)
    requires exists run :: run != s.latestRun && t == s.(loading := s.loading - {run})
    ensures Inv(t, blank)
  {
    forall k | 0 <= k < |t.slots| ensures SlotOk(t, k) { assert SlotOk(s, k); }
    forall a | a in t.asked ensures AskOk(t, a) { assert AskOk(s, a); }
    if Settled(t) {
      forall k | 0 <= k < |t.slots| && t.slots[k] == [] ensures SlotDue(t, k) { assert SlotDue(s, k); }
    }
  }

  lemma ListFailsKeeps(s: State, blank: seq<bool>, run: nat)
    requires Inv(s, blank) && run in s.loading
    ensures Inv(ListFailed(s, run), blank)
  {
    var t := ListFailed(s, run);
    if run != s.latestRun {
      SupersededKeeps(s, blank, t);
    } else {
      forall a | a in t.asked ensures AskOk(t, a) { assert AskOk(s, a); }
    }
  }

  lemma ListLoadsKeeps(s: State, blank: seq<bool>, run: nat, offered: set<ConnectionId>)
    requires Inv(s, blank) && run in s.loading
    ensures Inv(ListLoaded(s, blank, run, offered), blank)
  {
    var t := ListLoaded(s, blank, run, offered);
    if run != s.latestRun {
      SupersededKeeps(s, blank, t);
    } else {
      forall a | a in t.asked ensures AskOk(t, a) {
        if a in s.asked {
          assert AskOk(s, a);
        }
      }
      forall k: nat | k < |t.slots| && t.slots[k] == [] ensures SlotDue(t, k) {
        assert Ask(run, k, t.current) in t.asked;
      }
    }
  }

  lemma RepliesKeeps(s: State, blank: seq<bool>, ask: Ask, shown: Shown)
    requires Inv(s, blank) && ask in s.asked
    ensures Inv(Replied(s, ask, shown), blank)
  {
    var t := Replied(s, ask, shown);
    assert AskOk(s, ask);
    forall k | 0 <= k < |t.slots| ensures SlotOk(t, k) { assert SlotOk(s, k); }
    forall a | a in t.asked ensures AskOk(t, a) {
      assert AskOk(s, a);
    }
    if Settled(t) {
      forall k | 0 <= k < |t.slots| && t.slots[k] == [] ensures SlotDue(t, k) {
        assert s.slots[k] == [] && SlotDue(s, k);
        var a :| a in s.asked && a.run == s.latestRun && a.slot == k;
        assert a in t.asked;
      }
    }
  }

  lemma StepKeeps(s: State, blank: seq<bool>, e: Event)
    requires Inv(s, blank) && Enabled(s, e)
    ensures Inv(Apply(s, blank, e), blank)
  {
    match e
    case Picks(pick) => BeginKeeps(s, blank, pick);
    case Refreshes =>
      BeginKeeps(s, blank, s.current);
      assert s.(current := s.current) == s;
    case ListFails(run) => ListFailsKeeps(s, blank, run);
    case ListLoads(run, offered) => ListLoadsKeeps(s, blank, run, offered);
    case Replies(ask, shown) => RepliesKeeps(s, blank, ask, shown);
  }

  predicate Leads(s: State, blank: seq<bool>, events: seq<Event>, t: State)
    decreases |events|
  {
    if events == [] then s == t
    else Enabled(s, events[0]) && Leads(Apply(s, blank, events[0]), blank, events[1..], t)
  }

  predicate Reached(blank: seq<bool>, events: seq<Event>, s: State) {
    Leads(Initial(|blank|), blank, events, s)
  }

  lemma {:induction false} LeadsKeepInv(s: State, blank: seq<bool>, events: seq<Event>, t: State)
    requires Inv(s, blank) && Leads(s, blank, events, t)
    ensures Inv(t, blank)
    decreases |events|
  {
    if events != [] {
      StepKeeps(s, blank, events[0]);
      LeadsKeepInv(Apply(s, blank, events[0]), blank, events[1..], t);
    }
  }

  /** Since its last clear, a slot holds what at most one run appended, at most once. */
  lemma OneRunPerSlot(blank: seq<bool>, events: seq<Event>, s: State, k: nat)
    requires Reached(blank, events, s) && k < |s.slots|
    ensures |s.slots[k]| <= 1
    ensures forall j, e, f :: 0 <= j < |s.slots| && e in s.slots[k] && f in s.slots[j] ==>
              e.run == f.run && e.pick == f.pick
  {
    InitialHolds(blank);
    LeadsKeepInv(Initial(|blank|), blank, events, s);
    assert SlotOk(s, k);
    forall j, e, f | 0 <= j < |s.slots| && e in s.slots[k] && f in s.slots[j]
      ensures e.run == f.run && e.pick == f.pick
    {
      assert SlotOk(s, j);
    }
  }

  /** A corollary of the steps: one of a superseded run leaves the page, the picker and the pick as they are. */
  lemma OnlyTheNewestRunShows(s: State, blank: seq<bool>, e: Event)
    requires Enabled(s, e)
    requires match e
             case ListFails(run) => run != s.latestRun
             case ListLoads(run, _) => run != s.latestRun
             case Replies(ask, _) => ask.run != s.latestRun
             case _ => false
    ensures var t := Apply(s, blank, e);
            t.slots == s.slots && t.picker == s.picker && t.banner == s.banner && t.current == s.current
  {
  }

  predicate Quiet(s: State) {
    Settled(s) && forall a :: a in s.asked ==> a.run != s.latestRun
  }

  /**
   When nothing of the newest run is in flight, every query slot shows exactly one thing,
   of that run and of the pick that the picker shows and the driver keeps.
   */
  lemma QuiescenceAgrees(blank: seq<bool>, events: seq<Event>, s: State, k: nat)
    requires Reached(blank, events, s) && Quiet(s) && k < |s.slots|
    ensures s.picker.Some? && s.picker.value.run == s.latestRun && s.picker.value.selected == s.current
    ensures |s.slots[k]| == 1 && s.slots[k][0].run == s.latestRun && s.slots[k][0].pick == s.current
  {
    InitialHolds(blank);
    LeadsKeepInv(Initial(|blank|), blank, events, s);
    assert SlotOk(s, k);
    assert s.slots[k] != [];
    assert s.slots[k][0] in s.slots[k];
  }

  /** A corollary of the steps: a pick is only ever replaced by another pick, or by the default once it is not offered. */
  lemma FailureKeepsThePick(s: State, blank: seq<bool>, e: Event)
    requires Enabled(s, e) && Apply(s, blank, e).current != s.current
    ensures e.Picks? || (e.ListLoads? && e.run == s.latestRun && s.current.Some?
                         && s.current.value !in e.offered && Apply(s, blank, e).current == None)
  {
  }

  // ---- What each step shows, written out ------------------------------------------------

  /** The slot in place `k` has become this, and the others are as they were. */
  predicate OnlySlot(s: State, t: State, k: nat, shown: seq<Entry>) {
    && k < |s.slots| && |t.slots| == |s.slots| && t.slots[k] == shown
    && forall j | 0 <= j < |s.slots| && j != k :: t.slots[j] == s.slots[j]
  }

  predicate PageStays(s: State, t: State) {
    t.slots == s.slots && t.picker == s.picker && t.banner == s.banner
  }

  /** The list of the newest run has come: the page is rebuilt for the pick, if it is offered. */
  predicate ShowsList(s: State, t: State, blank: seq<bool>, run: nat, offered: set<ConnectionId>) {
    && t.current == (if s.current != None && s.current.value in offered then s.current else None)
    && !t.banner && t.picker == Some(Picker(run, offered, t.current)) && |t.slots| == |blank|
    && (forall k | 0 <= k < |blank| :: t.slots[k] == if blank[k] then [Entry(run, t.current, NoQuery)] else [])
    && (forall k | 0 <= k < |blank| :: !blank[k] ==> Ask(run, k, t.current) in t.asked)
    && forall a :: a in t.asked ==>
         a in s.asked || (a.run == run && a.pick == t.current && a.slot < |blank| && !blank[a.slot])
  }

  predicate ShowsFailure(s: State, t: State, run: nat) {
    && t.current == s.current && t.banner && t.picker == Some(Picker(run, {}, s.current)) && t.asked == s.asked
    && |t.slots| == |s.slots| && forall k | 0 <= k < |s.slots| :: t.slots[k] == [Entry(run, s.current, CannotReach)]
  }

  /**
   A pick or refresh starts the next run and leaves the page; the newest run's list, or the
   failure to load it, rebuilds the page; the reply to the newest run's query shows what was
   replied, alone, in its slot; anything of an older run leaves the page.
   */
  lemma StepsShow(blank: seq<bool>, events: seq<Event>, s: State, e: Event)
    requires Reached(blank, events, s) && Enabled(s, e)
    ensures var t := Apply(s, blank, e);
            match e
            case Picks(pick) =>
              && PageStays(s, t) && t.current == pick && t.latestRun == s.latestRun + 1
              && t.loading == s.loading + {t.latestRun} && t.asked == s.asked
            case Refreshes =>
              && PageStays(s, t) && t.current == s.current && t.latestRun == s.latestRun + 1
              && t.loading == s.loading + {t.latestRun} && t.asked == s.asked
            case ListFails(run) =>
              && t.latestRun == s.latestRun && t.loading == s.loading - {run}
              && if run == s.latestRun then ShowsFailure(s, t, run)
                 else PageStays(s, t) && t.current == s.current && t.asked == s.asked
            case ListLoads(run, offered) =>
              && t.latestRun == s.latestRun && t.loading == s.loading - {run}
              && if run == s.latestRun then ShowsList(s, t, blank, run, offered)
                 else PageStays(s, t) && t.current == s.current && t.asked == s.asked
            case Replies(ask, shown) =>
              && t.latestRun == s.latestRun && t.current == s.current && t.loading == s.loading
              && t.asked == s.asked - {ask} && t.picker == s.picker && t.banner == s.banner
              && if ask.run == s.latestRun then OnlySlot(s, t, ask.slot, [Entry(ask.run, ask.pick, shown)])
                 else t.slots == s.slots
  {
    InitialHolds(blank);
    LeadsKeepInv(Initial(|blank|), blank, events, s);
    match e
    case ListLoads(run, offered) => AsksAre(blank, run, Reconciled(s.current, offered));
    case Replies(ask, _) => assert AskOk(s, ask);
    case _ =>
  }

  // ---- What a slot shows is what happened ----------------------------------------------

  predicate Loaded(done: seq<Event>, run: nat) {
    exists i | 0 <= i < |done| :: done[i].ListLoads? && done[i].run == run
  }

  /** The entry is the failure of its run's list, the note of a blank block, or the reply to its own query. */
  predicate Explained(done: seq<Event>, blank: seq<bool>, k: nat, e: Entry) {
    || (e.shown == CannotReach && ListFails(e.run) in done)
    || (k < |blank| && blank[k] && e.shown == NoQuery && Loaded(done, e.run))
    || (k < |blank| && !blank[k] && Replies(Ask(e.run, k, e.pick), e.shown) in done)
  }

  predicate AllExplained(done: seq<Event>, blank: seq<bool>, s: State) {
    && (forall k, e | 0 <= k < |s.slots| && e in s.slots[k] :: Explained(done, blank, k, e))
    && forall a :: a in s.asked ==> a.slot < |blank| && !blank[a.slot]
  }

  lemma StillExplained(done: seq<Event>, more: seq<Event>, last: Event, blank: seq<bool>, k: nat, e: Entry)
    requires more == done + [last] && Explained(done, blank, k, e)
    ensures Explained(more, blank, k, e)
  {
    if Loaded(done, e.run) {
      var i :| 0 <= i < |done| && done[i].ListLoads? && done[i].run == e.run;
      assert more[i] == done[i];
    }
  }

  lemma StepExplains(done: seq<Event>, more: seq<Event>, blank: seq<bool>, s: State, e: Event)
    requires AllExplained(done, blank, s) && |s.slots| == |blank| && Enabled(s, e) && more == done + [e]
    ensures AllExplained(more, blank, Apply(s, blank, e))
  {
    var t := Apply(s, blank, e);
    assert more[|done|] == e;
    forall k, x | 0 <= k < |t.slots| && x in t.slots[k] ensures Explained(more, blank, k, x) {
      if k < |s.slots| && x in s.slots[k] {
        StillExplained(done, more, e, blank, k, x);
      }
    }
    if e.ListLoads? {
      AsksAre(blank, e.run, Reconciled(s.current, e.offered));
    }
  }

  lemma {:induction false} RunExplains(done: seq<Event>, blank: seq<bool>, s: State, events: seq<Event>, t: State)
    requires AllExplained(done, blank, s) && Inv(s, blank) && Leads(s, blank, events, t)
    ensures AllExplained(done + events, blank, t)
    decreases |events|
  {
    if events == [] {
      assert done + events == done;
    } else {
      StepExplains(done, done + [events[0]], blank, s, events[0]);
      StepKeeps(s, blank, events[0]);
      RunExplains(done + [events[0]], blank, Apply(s, blank, events[0]), events[1..], t);
      assert done + [events[0]] + events[1..] == done + events;
    }
  }

  /**
   Whatever a slot shows is what happened: the failure of its run's list, the note of a block
   without a query, or the very reply to this slot's query of that run and pick.
   */
  lemma SlotsShowWhatHappened(blank: seq<bool>, events: seq<Event>, s: State, k: nat, e: Entry)
    requires Reached(blank, events, s) && k < |s.slots| && e in s.slots[k]
    ensures Explained(events, blank, k, e)
  {
    InitialHolds(blank);
    RunExplains([], blank, Initial(|blank|), events, s);
    assert [] + events == events;
  }
}
