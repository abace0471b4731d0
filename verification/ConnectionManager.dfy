/**
 The connection manager: one driver opened at most once at a time, a memo of its schema
 that invalidations make stale, a bounded refresh, and a shutdown latch. The closure's
 seven variables are fields of a class, whose methods are the pieces of code between two
 awaits; the module `ConnectionRuns` lets any number of calls interleave at the awaits.
 */
module ConnectionManager {
  import opened Text

  const MAX_REFRESH_TURNS: nat := 3

  /** A schema, known by the driver that read it and the invalidations before it was read. */
  datatype Memo = Memo(driver: nat, begun: nat)

  datatype Vars = Vars(
    driver: Option<nat>,
    cached: Option<Memo>,
    inflight: Option<nat>,
    closed: bool,
    schemaStale: bool,
    refreshing: Option<nat>,
    schemaGeneration: nat)

  const INITIAL := Vars(None, None, None, false, false, None, 0)

  /** What a call of `connect` resolves to: a payload, or an error that is not classified. */
  datatype Result = Connected(memo: Memo) | Failed | NoTarget | Threw

  // ---- The pieces of code between awaits, on values ----------------------------------

  datatype ConnectNext = Answer(result: Result) | Refresh(driver: nat) | JoinOpen(id: nat) | Open

  /** `connect` up to its first await; a new open would be number `newOpen`. */
  function ConnectHead(v: Vars, hasUrl: bool, newOpen: nat): (Vars, ConnectNext) {
    if v.closed then (v, Answer(Failed))
    else if v.cached.Some? then
      if v.driver.Some? then (v, Refresh(v.driver.value)) else (v, Answer(Reread(v)))
    else if v.inflight.Some? then (v, JoinOpen(v.inflight.value))
    else if !hasUrl then (v, Answer(NoTarget))
    else (v.(inflight := Some(newOpen)), Open)
  }

  /** The memo read again after the refresh; shutdown may have dropped it meanwhile. */
  function Reread(v: Vars): Result {
    if v.cached.None? then Failed else Connected(v.cached.value)
  }

  datatype LoopNext = Leave | JoinRun(id: nat) | StartRun(generation: nat)

  /** The head of the refresh loop; a new introspection would be number `newRun`. */
  function LoopHead(v: Vars, turn: nat, newRun: nat): (Vars, LoopNext) {
    if v.schemaStale && !v.closed && turn < MAX_REFRESH_TURNS then
      if v.refreshing.Some? then (v, JoinRun(v.refreshing.value))
      else (v.(refreshing := Some(newRun)), StartRun(v.schemaGeneration))
    else (v, Leave)
  }

  /** An open whose `listSchema` has answered. */
  function CommitOpen(v: Vars, d: nat, begun: nat, generation: nat): Vars {
    v.(driver := Some(d), cached := Some(Memo(d, begun)),
       schemaStale := v.schemaStale && v.schemaGeneration != generation)
  }

  /** A refresh whose `listSchema` has answered: superseded or too late, it writes nothing. */
  function CommitRun(v: Vars, d: nat, generation: nat): Vars {
    if v.schemaGeneration != generation || v.closed then v
    else v.(cached := Some(Memo(d, generation)), schemaStale := false)
  }

  function LeaveOpen(v: Vars): Vars {
    v.(inflight := None)
  }

  function LeaveRun(v: Vars, id: nat): Vars {
    if v.refreshing == Some(id) then v.(refreshing := None) else v
  }

  function Invalidated(v: Vars): Vars {
    v.(schemaStale := true, schemaGeneration := v.schemaGeneration + 1)
  }

  function Latched(v: Vars): Vars {
    v.(closed := true)
  }

  function Released(v: Vars): Vars {
    v.(driver := None, cached := None)
  }

  // ---- The same pieces, on the variables ---------------------------------------------

  class Manager {
    const hasUrl: bool
    var driver: Option<nat>
    var cached: Option<Memo>
    var inflight: Option<nat>
    var closed: bool
    var schemaStale: bool
    var refreshing: Option<nat>
    var schemaGeneration: nat

    function View(): Vars
      reads this
    {
      Vars(driver, cached, inflight, closed, schemaStale, refreshing, schemaGeneration)
    }

    constructor (hasUrl: bool)
      ensures View() == INITIAL && this.hasUrl == hasUrl
    {
      this.hasUrl := hasUrl;
      driver, cached, inflight, closed := None, None, None, false;
      schemaStale, refreshing, schemaGeneration := false, None, 0;
    }

    method EnterConnect(newOpen: nat) returns (next: ConnectNext)
      modifies this
      ensures (View(), next) == ConnectHead(old(View()), hasUrl, newOpen)
    {
      if closed {
        return Answer(Failed);
      }
      if cached.Some? {
        if driver.Some? {
          return Refresh(driver.value);
        }
        var current := RereadMemo();
        return Answer(current);
      }
      if inflight.Some? {
        return JoinOpen(inflight.value);
      }
      if !hasUrl {
        return Answer(NoTarget);
      }
      inflight := Some(newOpen);
      return Open;
    }

    method RereadMemo() returns (r: Result)
      ensures r == Reread(View())
    {
      var current := cached;
      if current.None? {
        return Failed;
      }
      return Connected(current.value);
    }

    method EnterLoop(turn: nat, newRun: nat) returns (next: LoopNext)
      modifies this
      ensures (View(), next) == LoopHead(old(View()), turn, newRun)
    {
      if schemaStale && !closed && turn < MAX_REFRESH_TURNS {
        var pending := refreshing;
        if pending.Some? {
          return JoinRun(pending.value);
        }
        var generation := schemaGeneration;
        refreshing := Some(newRun);
        return StartRun(generation);
      }
      return Leave;
    }

    method OpenListed(d: nat, begun: nat, generation: nat)
      modifies this
      ensures View() == CommitOpen(old(View()), d, begun, generation)
    {
      driver := Some(d);
      cached := Some(Memo(d, begun));
      if schemaGeneration == generation {
        schemaStale := false;
      }
    }

    method RunListed(d: nat, generation: nat)
      modifies this
      ensures View() == CommitRun(old(View()), d, generation)
    {
      if schemaGeneration != generation || closed {
        return;
      }
      cached := Some(Memo(d, generation));
      schemaStale := false;
    }

    method OpenerLeaves()
      modifies this
      ensures View() == LeaveOpen(old(View()))
    {
      inflight := None;
    }

    method RunnerLeaves(id: nat)
      modifies this
      ensures View() == LeaveRun(old(View()), id)
    {
      if refreshing == Some(id) {
        refreshing := None;
      }
    }

    method InvalidateSchema()
      modifies this
      ensures View() == Invalidated(old(View()))
    {
      schemaStale := true;
      schemaGeneration := schemaGeneration + 1;
    }

    method Latch()
      modifies this
      ensures View() == Latched(old(View()))
    {
      closed := true;
    }

    method Release() returns (d: Option<nat>)
      modifies this
      ensures d == old(View()).driver && View() == Released(old(View()))
    {
      d := driver;
      driver := None;
      cached := None;
    }
  }
}
