/**
 The pool of connection managers, one per saved connection in use. A manager is kept only
 while the saved record still says what it was built with; shutdown closes them all.
 */
module ConnectionTargets {
  import opened Text

  /** A manager created for a connection, and whether it has been told to close. */
  datatype Made = Made(id: string, url: string, schema: Option<string>, told: bool)

  datatype Cached = Cached(manager: nat, url: string, schema: Option<string>)

  datatype Lookup = Found(url: string, schema: Option<string>) | NotFound | Unavailable

  /** The answer to the caller: the boot manager, a target's manager, or a reason. */
  datatype Resolved = Boot | Target(manager: nat) | Missing | NoStore

  datatype Pool = Pool(cache: map<string, Cached>, closed: bool, made: seq<Made>)

  const EMPTY := Pool(map[], false, [])

  // ---- What the operations do --------------------------------------------------------

  function Tell(made: seq<Made>, m: nat): seq<Made> {
    if m < |made| then made[m := made[m].(told := true)] else made
  }

  function Evict(p: Pool, id: string): Pool {
    if id in p.cache then p.(cache := p.cache - {id}, made := Tell(p.made, p.cache[id].manager)) else p
  }

  predicate Serves(c: Cached, url: string, schema: Option<string>) {
    c.url == url && c.schema == schema
  }

  function Create(p: Pool, id: string, url: string, schema: Option<string>): Pool {
    p.(cache := p.cache[id := Cached(|p.made|, url, schema)], made := p.made + [Made(id, url, schema, false)])
  }

  function Resolve(p: Pool, id: Option<string>, lookup: Lookup): (Pool, Resolved) {
    if id.None? then (p, Boot)
    else if p.closed then (p, Missing)
    else
      match lookup
      case Unavailable => (p, NoStore)
      case NotFound => (Evict(p, id.value), Missing)
      case Found(url, schema) =>
        if id.value in p.cache && Serves(p.cache[id.value], url, schema) then (p, Target(p.cache[id.value].manager))
        else (Create(Evict(p, id.value), id.value, url, schema), Target(|p.made|))
  }

  function TellAll(made: seq<Made>, managers: set<nat>): seq<Made> {
    seq(|made|, i requires 0 <= i < |made| => if i in managers then made[i].(told := true) else made[i])
  }

  function ManagersOf(cache: map<string, Cached>): set<nat> {
    set id | id in cache :: cache[id].manager
  }

  function CloseAll(p: Pool): Pool {
    Pool(map[], true, TellAll(p.made, ManagersOf(p.cache)))
  }

  // ---- The operations ----------------------------------------------------------------

  class Targets {
    var cache: map<string, Cached>
    var closed: bool
    var made: seq<Made>

    function View(): Pool
      reads this
    {
      Pool(cache, closed, made)
    }

    constructor ()
      ensures View() == EMPTY
    {
      cache, closed, made := map[], false, [];
    }

    method EvictEntry(id: string)
      modifies this
      ensures View() == Evict(old(View()), id)
    {
      if id !in cache {
        return;
      }
      made := Tell(made, cache[id].manager);
      cache := cache - {id};
    }

    method ResolveTarget(connectionId: Option<string>, lookup: Lookup) returns (r: Resolved)
      modifies this
      ensures (View(), r) == Resolve(old(View()), connectionId, lookup)
    {
      if connectionId.None? {
        return Boot;
      }
      if closed {
        return Missing;
      }
      var id := connectionId.value;
      if lookup.Unavailable? {
        return NoStore;
      }
      if lookup.NotFound? {
        EvictEntry(id);
        return Missing;
      }
      if id in cache {
        var existing := cache[id];
        if existing.url == lookup.url && existing.schema == lookup.schema {
          return Target(existing.manager);
        }
        EvictEntry(id);
      }
      var manager := |made|;
      made := made + [Made(id, lookup.url, lookup.schema, false)];
      cache := cache[id := Cached(manager, lookup.url, lookup.schema)];
      return Target(manager);
    }

    method CloseEvery()
      modifies this
      ensures View() == CloseAll(old(View()))
    {
      closed := true;
      var managers := ManagersOf(cache);
      cache := map[];
      ghost var before, all := made, managers;
      assert TellAll(before, {}) == before;
      while managers != {}
        invariant managers <= all
        invariant made == TellAll(before, all - managers)
        invariant cache == map[] && closed
        decreases |managers|
      {
        var m :| m in managers;
        made := Tell(made, m);
        assert all - (managers - {m}) == (all - managers) + {m};
        managers := managers - {m};
      }
      assert all - {} == all;
    }
  }

  // ---- The invariant -----------------------------------------------------------------

  predicate EntryOk(p: Pool, id: string)
    requires id in p.cache
  {
    var c := p.cache[id];
    c.manager < |p.made| && p.made[c.manager] == Made(id, c.url, c.schema, false)
  }

  predicate CachedForItsId(p: Pool, m: nat)
    requires m < |p.made|
  {
    p.made[m].id in p.cache && p.cache[p.made[m].id].manager == m
  }

  predicate Accounted(p: Pool, m: nat)
    requires m < |p.made|
  {
    p.made[m].told || CachedForItsId(p, m)
  }

  predicate Inv(p: Pool) {
    && (forall id :: id in p.cache ==> EntryOk(p, id))
    && (forall m :: 0 <= m < |p.made| ==> Accounted(p, m))
    && (p.closed ==> p.cache == map[])
  }

  lemma EvictKeeps(p: Pool, id: string)
    requires Inv(p)
    ensures Inv(Evict(p, id)) && id !in Evict(p, id).cache && |Evict(p, id).made| == |p.made|
  {
    var q := Evict(p, id);
    forall other | other in q.cache ensures EntryOk(q, other) {
      assert EntryOk(p, other);
    }
    forall m | 0 <= m < |q.made| ensures Accounted(q, m) {
      assert Accounted(p, m);
    }
  }

  lemma CreateKeeps(p: Pool, id: string, url: string, schema: Option<string>)
    requires Inv(p) && !p.closed && id !in p.cache
    ensures Inv(Create(p, id, url, schema))
  {
    var q := Create(p, id, url, schema);
    forall other | other in q.cache ensures EntryOk(q, other) {
      if other != id {
        assert EntryOk(p, other);
      }
    }
    forall m | 0 <= m < |q.made| ensures Accounted(q, m) {
      if m < |p.made| {
        assert Accounted(p, m);
      }
    }
  }

  lemma ResolveKeeps(p: Pool, id: Option<string>, lookup: Lookup)
    requires Inv(p)
    ensures Inv(Resolve(p, id, lookup).0)
  {
    if id.Some? {
      EvictKeeps(p, id.value);
      if lookup.Found? && !p.closed {
        CreateKeeps(Evict(p, id.value), id.value, lookup.url, lookup.schema);
      }
    }
  }

  lemma CloseAllKeeps(p: Pool)
    requires Inv(p)
    ensures Inv(CloseAll(p))
    ensures forall m :: 0 <= m < |p.made| ==> CloseAll(p).made[m].told
  {
    var q := CloseAll(p);
    forall m | 0 <= m < |p.made| ensures q.made[m].told {
      assert Accounted(p, m);
      if CachedForItsId(p, m) {
        assert m in ManagersOf(p.cache);
      }
    }
  }

  /**
   A resolved target is served by a manager built with the url and schema just looked up,
   which has not been told to close; a store that cannot be opened disturbs nothing.
   */
  lemma ResolvedAsLookedUp(p: Pool, id: string, lookup: Lookup)
    requires Inv(p)
    ensures var (q, r) := Resolve(p, Some(id), lookup);
            && (r.Target? <==> !p.closed && lookup.Found?)
            && (r.Target? ==> r.manager < |q.made| && q.made[r.manager] == Made(id, lookup.url, lookup.schema, false))
            && (lookup.Unavailable? ==> q == p)
            && (!p.closed && lookup.NotFound? ==> id !in q.cache)
  {
    if id in p.cache {
      assert EntryOk(p, id);
    }
  }

  /** The manager is cached for the id with this very url and schema. */
  predicate StillServes(p: Pool, id: string, lookup: Lookup) {
    lookup.Found? && id in p.cache && p.cache[id].url == lookup.url && p.cache[id].schema == lookup.schema
  }

  /**
   The answer in every case, and what becomes of the pool: a manager whose record is unchanged
   is used again and the pool stays; otherwise a new one is made for a record that is found, and
   the one cached before is told to close.
   */
  lemma ResolvesExactly(p: Pool, id: Option<string>, lookup: Lookup)
    requires Inv(p)
    ensures var (q, r) := Resolve(p, id, lookup);
            && (r == Boot <==> id == None)
            && (r == Missing <==> id != None && (p.closed || lookup == NotFound))
            && (r == NoStore <==> id != None && !p.closed && lookup == Unavailable)
            && (id == None || p.closed || lookup == Unavailable || StillServes(p, id.value, lookup) ==> q == p)
            && (id != None && !p.closed && StillServes(p, id.value, lookup) ==> r == Target(p.cache[id.value].manager))
            && (id != None && !p.closed && lookup.Found? && !StillServes(p, id.value, lookup) ==>
                && r == Target(|p.made|) && |q.made| == |p.made| + 1
                && id.value in q.cache && q.cache[id.value] == Cached(|p.made|, lookup.url, lookup.schema))
            && (id != None && !p.closed && lookup == NotFound ==> id.value !in q.cache && |q.made| == |p.made|)
            && (id != None && !p.closed && lookup != Unavailable && !StillServes(p, id.value, lookup) && id.value in p.cache ==>
                q.made[p.cache[id.value].manager].told)
  {
    if id.Some? && id.value in p.cache {
      assert EntryOk(p, id.value);
    }
  }

  /** Another connection's manager is neither closed nor replaced by this resolve. */
  lemma OthersUntouched(p: Pool, id: string, lookup: Lookup, other: string)
    requires Inv(p) && other in p.cache && other != id
    ensures var q := Resolve(p, Some(id), lookup).0;
            other in q.cache && q.cache[other] == p.cache[other] && EntryOk(q, other)
  {
    assert EntryOk(p, other);
    EvictKeeps(p, id);
  }

  // ---- Runs --------------------------------------------------------------------------

  datatype Event = Resolving(id: Option<string>, lookup: Lookup) | ClosingAll

  function After(p: Pool, events: seq<Event>): Pool {
    if events == [] then p
    else
      var q := After(p, events[..|events| - 1]);
      match events[|events| - 1]
      case Resolving(id, lookup) => Resolve(q, id, lookup).0
      case ClosingAll => CloseAll(q)
  }

  lemma {:induction false} RunKeeps(p: Pool, events: seq<Event>)
    requires Inv(p)
    ensures Inv(After(p, events))
  {
    if events != [] {
      var front, last := events[..|events| - 1], events[|events| - 1];
      RunKeeps(p, front);
      match last
      case Resolving(id, lookup) => ResolveKeeps(After(p, front), id, lookup);
      case ClosingAll => CloseAllKeeps(After(p, front));
    }
  }

  /**
   In every run from an empty pool, a manager has been told to close exactly when it is not
   the one cached for its connection; so no manager is lost while open, none cached is
   closed, and no connection has two open ones.
   */
  lemma ToldUnlessCached(events: seq<Event>, m: nat)
    requires m < |After(EMPTY, events).made|
    ensures var p := After(EMPTY, events); p.made[m].told <==> !CachedForItsId(p, m)
  {
    var p := After(EMPTY, events);
    RunKeeps(EMPTY, events);
    assert Accounted(p, m);
    if CachedForItsId(p, m) {
      assert EntryOk(p, p.made[m].id);
    }
  }

  lemma {:induction false} ClosedStaysClosed(p: Pool, events: seq<Event>)
    requires Inv(p)
    ensures var q := After(CloseAll(p), events);
            && q.closed && q.cache == map[] && |q.made| == |p.made|
            && forall m :: 0 <= m < |q.made| ==> q.made[m].told
  {
    CloseAllKeeps(p);
    if events != [] {
      ClosedStaysClosed(p, events[..|events| - 1]);
    }
  }

  /** After `closeAll`, whenever it comes, no target is created any more, and none stays open. */
  lemma NothingAfterCloseAll(before: seq<Event>, events: seq<Event>)
    ensures var p := After(EMPTY, before);
            var q := After(CloseAll(p), events);
            && q.closed && q.cache == map[] && |q.made| == |p.made|
            && forall m :: 0 <= m < |q.made| ==> q.made[m].told
  {
    RunKeeps(EMPTY, before);
    ClosedStaysClosed(After(EMPTY, before), events);
  }
}
