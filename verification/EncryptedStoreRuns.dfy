/**
 Runs of one encrypted store from an empty directory: opens with any answers and failures,
 saves, deletes, closes, crashes between writes, and a user who removes the encrypted file,
 with at most one live handle at a time.
 */
module EncryptedStoreRuns {
  import opened Text
  import opened EncryptedStore
  import StoreOpening

  datatype Handle = Handle(key: Key, records: seq<Record>)

  /** `creation` is the key derived when the present descriptor was written. */
  datatype State = State(disk: Disk, handle: Option<Handle>, creation: Option<Key>)

  datatype Event =
    | Open(env: Env)
    | OpenDies(env: Env, writes: nat)      // a crash after so many of its writes
    | Save(record: Record, fails: bool)
    | SaveDies(record: Record, written: bool)
    | Delete(id: string, fails: bool)
    | DeleteDies(id: string, written: bool)
    | Leave                                // close, or a crash between operations
    | LoseEnc

  predicate Init(s: State) {
    s == State(Disk(None, None), None, None)
  }

  predicate Enabled(s: State, e: Event) {
    match e
    case Open(_) => s.handle.None?
    case OpenDies(env, n) => s.handle.None? && n <= |OpenPersistent(s.disk, env).0|
    case LoseEnc => true
    case _ => s.handle.Some?
  }

  /** The key a creation derives, once its descriptor is on disk. */
  function CreationAfter(s: State, env: Env, writes: nat): Option<Key> {
    if writes > 0 && env.response.Given? then Some(Derived(env.response.passphrase, env.freshSalt, DEFAULT_COST))
    else s.creation
  }

  function Written(s: State, h: Handle): State {
    s.(disk := s.disk.(enc := Some(Seal(h.key, h.records))))
  }

  function Apply(s: State, e: Event): State
    requires Enabled(s, e)
  {
    match e
    case Open(env) =>
      var (writes, result) := OpenPersistent(s.disk, env);
      State(Last(s.disk, writes), if result.Opened? then Some(Handle(result.key, result.records)) else None,
            CreationAfter(s, env, |writes|))
    case OpenDies(env, n) =>
      State(Last(s.disk, OpenPersistent(s.disk, env).0[..n]), None, CreationAfter(s, env, n))
    case Save(record, fails) =>
      if fails then s
      else
        var h := s.handle.value.(records := Upsert(s.handle.value.records, record));
        Written(s.(handle := Some(h)), h)
    case SaveDies(record, written) =>
      var h := s.handle.value.(records := Upsert(s.handle.value.records, record));
      if written then Written(s, h).(handle := None) else s.(handle := None)
    case Delete(id, fails) =>
      if id !in Ids(s.handle.value.records) || fails then s
      else
        var h := s.handle.value.(records := Without(s.handle.value.records, id));
        Written(s.(handle := Some(h)), h)
    case DeleteDies(id, written) =>
      var h := s.handle.value.(records := Without(s.handle.value.records, id));
      if written && id in Ids(s.handle.value.records) then Written(s, h).(handle := None) else s.(handle := None)
    case Leave => s.(handle := None)
    case LoseEnc => s.(disk := s.disk.(enc := None))
  }

  // ---- Records -----------------------------------------------------------------------

  predicate HasId(records: seq<Record>, id: string) {
    exists i :: 0 <= i < |records| && records[i].id == id
  }

  lemma {:induction false} UpsertNew(records: seq<Record>, r: Record)
    requires !HasId(records, r.id)
    ensures Upsert(records, r) == records + [r]
  {
    if records != [] {
      assert forall i | 0 <= i < |records| - 1 :: records[1..][i] == records[i + 1];
      UpsertNew(records[1..], r);
      assert records == [records[0]] + records[1..];
    }
  }

  lemma {:induction false} UpsertKnown(records: seq<Record>, r: Record)
    requires HasId(records, r.id)
    ensures |Upsert(records, r)| == |records|
  {
    if records[0].id != r.id {
      var i :| 0 <= i < |records| && records[i].id == r.id;
      assert records[1..][i - 1].id == r.id;
      UpsertKnown(records[1..], r);
    }
  }

  lemma UpsertStaysUnique(records: seq<Record>, r: Record)
    requires UniqueIds(records)
    ensures UniqueIds(Upsert(records, r))
  {
    if HasId(records, r.id) {
      UpsertKnown(records, r);
    } else {
      UpsertNew(records, r);
    }
  }

  lemma {:induction false} WithoutStaysUnique(records: seq<Record>, id: string)
    requires UniqueIds(records)
    ensures UniqueIds(Without(records, id))
  {
    if records != [] {
      var s, rest := Without(records, id), Without(records[1..], id);
      WithoutStaysUnique(records[1..], id);
      if records[0].id != id {
        forall j | 0 < j < |s| ensures s[j].id != s[0].id {
          assert s[j] in rest;
          assert s[j] in records[1..];
          var k :| 0 <= k < |records| - 1 && records[1..][k] == s[j];
          assert records[k + 1] == s[j];
        }
      }
    }
  }

  lemma LastIsNew(list: seq<Record>)
    requires UniqueIds(list) && list != []
    ensures var front, last := list[..|list| - 1], list[|list| - 1];
            UniqueIds(front) && !HasId(front, last.id) && list == front + [last]
  {
  }

  /** Reading back a list without repeated ids gives the list, in its order. */
  lemma {:induction false} UniqueListIsItsMap(list: seq<Record>)
    requires UniqueIds(list)
    ensures FromList(list) == list
  {
    if list != [] {
      var front, last := list[..|list| - 1], list[|list| - 1];
      LastIsNew(list);
      UniqueListIsItsMap(front);
      UpsertNew(front, last);
    }
  }

  lemma StoredThenValues(records: seq<Record>)
    ensures None !in Stored(records)
    ensures Values(Stored(records)) == records
  {
  }

  /** What was sealed opens under its key, and only under its key, as the same records. */
  lemma SealedOpens(records: seq<Record>, key: Key, other: Key)
    requires UniqueIds(records)
    ensures LoadStoreFromFile(Some(Seal(key, records)), false, other) ==
            if other == key then Opened(key, records) else Failed(Corrupt)
  {
    StoredThenValues(records);
    UniqueListIsItsMap(records);
  }

  // ---- The invariant -----------------------------------------------------------------

  predicate DescriptorOk(s: State) {
    s.disk.meta.Some? ==>
      && s.creation.Some? && s.creation.value.Derived?
      && s.disk.meta.value == Meta(STORE_META_SCHEMA_VERSION, s.creation.value.salt, s.creation.value.cost, true)
      && !BadPassphrase(s.creation.value.passphrase)
  }

  /** The key in use: the one derived at creation beside a descriptor, else the keychain's. */
  predicate RightKey(s: State, key: Key) {
    if s.disk.meta.Some? then s.creation == Some(key) else key.FromKeychain?
  }

  predicate EncIs(s: State, key: Key, records: seq<Record>) {
    s.disk.enc == Some(Seal(key, records)) && RightKey(s, key) && UniqueIds(records)
  }

  predicate HandleOk(s: State) {
    s.handle.Some? ==>
      && RightKey(s, s.handle.value.key) && UniqueIds(s.handle.value.records)
      && (s.disk.enc.Some? ==> s.disk.enc == Some(Seal(s.handle.value.key, s.handle.value.records)))
  }

  ghost predicate Inv(s: State) {
    && DescriptorOk(s) && HandleOk(s)
    && (s.disk.enc.Some? ==> exists key, records :: EncIs(s, key, records))
  }

  lemma EncStays(s: State, t: State)
    requires Inv(s) && t.disk == s.disk && t.creation == s.creation
    ensures t.disk.enc.Some? ==> exists key, records :: EncIs(t, key, records)
  {
    if s.disk.enc.Some? {
      var key, records :| EncIs(s, key, records);
      assert EncIs(t, key, records);
    }
  }

  lemma WriteKeeps(s: State, h: Handle, t: State)
    requires Inv(s) && RightKey(s, h.key) && UniqueIds(h.records)
    requires t == Written(s, h).(handle := Some(h)) || t == Written(s, h).(handle := None)
    ensures Inv(t)
  {
    assert EncIs(t, h.key, h.records);
  }

  /** An open that finds no descriptor and no file, and cannot use the keychain, creates. */
  lemma CreateKeeps(s: State, env: Env, n: nat)
    requires Inv(s) && s.disk.enc.None? && s.disk.meta.None?
    requires n <= |CreateStore(s.disk, env).0|
    ensures Inv(State(Last(s.disk, CreateStore(s.disk, env).0[..n]), None, CreationAfter(s, env, n)))
    ensures var (writes, result) := CreateStore(s.disk, env);
            result.Opened? ==>
              Inv(State(Last(s.disk, writes), Some(Handle(result.key, result.records)),
                        CreationAfter(s, env, |writes|)))
  {
    var (writes, result) := CreateStore(s.disk, env);
    var t := State(Last(s.disk, writes[..n]), None, CreationAfter(s, env, n));
    if t.disk.enc.Some? {
      assert EncIs(t, t.creation.value, []);
    }
    if result.Opened? {
      var u := State(Last(s.disk, writes), Some(Handle(result.key, result.records)), CreationAfter(s, env, |writes|));
      assert EncIs(u, result.key, []);
    }
  }

  /** An open of what is there writes nothing, and what it opens is what the file holds. */
  lemma ExistingOpen(s: State, env: Env)
    requires Inv(s) && (s.disk.meta.Some? || s.disk.enc.Some?)
    ensures var (writes, result) := OpenPersistent(s.disk, env);
            writes == [] && (result.Opened? ==> EncIs(s, result.key, result.records))
  {
    if s.disk.enc.Some? {
      var key, records :| EncIs(s, key, records);
      if s.disk.meta.Some? && env.response.Given? {
        SealedOpens(records, key, Derived(env.response.passphrase, s.disk.meta.value.salt, s.disk.meta.value.cost));
      } else if s.disk.meta.None? && env.keychain.Loaded? {
        SealedOpens(records, key, FromKeychain(env.keychain.entry));
      }
    }
  }

  lemma OpenKeeps(s: State, env: Env)
    requires Inv(s) && s.handle.None?
    ensures Inv(Apply(s, Open(env)))
  {
    var t := Apply(s, Open(env));
    var (writes, result) := OpenPersistent(s.disk, env);
    if s.disk.meta.Some? || s.disk.enc.Some? {
      ExistingOpen(s, env);
      EncStays(s, t);
    } else if env.keychain.NoKeychain? {
      assert writes[..|writes|] == writes;
      CreateKeeps(s, env, |writes|);
    }
  }

  lemma OpenDiesKeeps(s: State, env: Env, n: nat)
    requires Inv(s) && s.handle.None? && Enabled(s, OpenDies(env, n))
    ensures Inv(Apply(s, OpenDies(env, n)))
  {
    var t := Apply(s, OpenDies(env, n));
    if s.disk.meta.Some? || s.disk.enc.Some? {
      ExistingOpen(s, env);
      EncStays(s, t);
    } else if env.keychain.NoKeychain? {
      CreateKeeps(s, env, n);
    }
  }

  lemma StepKeeps(s: State, e: Event)
    requires Inv(s) && Enabled(s, e)
    ensures Inv(Apply(s, e))
  {
    match e
    case Open(env) => OpenKeeps(s, env);
    case OpenDies(env, n) => OpenDiesKeeps(s, env, n);
    case Save(record, fails) => MutationKeeps(s, e, Upsert(s.handle.value.records, record));
    case SaveDies(record, written) => MutationKeeps(s, e, Upsert(s.handle.value.records, record));
    case Delete(id, fails) => MutationKeeps(s, e, Without(s.handle.value.records, id));
    case DeleteDies(id, written) => MutationKeeps(s, e, Without(s.handle.value.records, id));
    case Leave => EncStays(s, Apply(s, e));
    case LoseEnc =>
  }

  lemma MutationKeeps(s: State, e: Event, next: seq<Record>)
    requires Inv(s) && Enabled(s, e) && s.handle.Some?
    requires
      || (e.Save? && next == Upsert(s.handle.value.records, e.record))
      || (e.SaveDies? && next == Upsert(s.handle.value.records, e.record))
      || (e.Delete? && next == Without(s.handle.value.records, e.id))
      || (e.DeleteDies? && next == Without(s.handle.value.records, e.id))
    ensures Inv(Apply(s, e))
  {
    var t, h := Apply(s, e), s.handle.value.(records := next);
    if e.Save? || e.SaveDies? {
      UpsertStaysUnique(s.handle.value.records, e.record);
    } else {
      WithoutStaysUnique(s.handle.value.records, e.id);
    }
    if t.disk == s.disk && (t.handle == s.handle || t.handle.None?) {
      EncStays(s, t);
    } else {
      WriteKeeps(s, h, t);
    }
  }

  // ---- Runs --------------------------------------------------------------------------

  predicate Leads(s: State, events: seq<Event>, t: State)
    decreases |events|
  {
    if events == [] then s == t
    else Enabled(s, events[0]) && Leads(Apply(s, events[0]), events[1..], t)
  }

  lemma {:induction false} LeadsKeepInv(s: State, events: seq<Event>, t: State)
    requires Inv(s) && Leads(s, events, t)
    ensures Inv(t)
    decreases |events|
  {
    if events != [] {
      StepKeeps(s, events[0]);
      LeadsKeepInv(Apply(s, events[0]), events[1..], t);
    }
  }

  predicate Reached(start: State, events: seq<Event>, s: State) {
    Init(start) && Leads(start, events, s)
  }

  /**
   Every encrypted file beside a descriptor is sealed under the key derived at creation,
   and a file sealed under a derived key never stands without its descriptor.
   */
  lemma OneKeyForever(start: State, events: seq<Event>, s: State)
    requires Reached(start, events, s) && s.disk.enc.Some?
    ensures exists key, records ::
              && s.disk.enc == Some(Seal(key, records))
              && (s.disk.meta.Some? ==> s.creation == Some(key))
              && (key.Derived? ==> s.disk.meta.Some?)
  {
    LeadsKeepInv(start, events, s);
    var key, records :| EncIs(s, key, records);
  }

  /** A descriptor, once an open has ended with it on disk, is never replaced or re-keyed. */
  lemma DescriptorIsForever(start: State, events: seq<Event>, s: State, e: Event)
    requires Reached(start, events, s) && Enabled(s, e) && s.disk.meta.Some?
    ensures Apply(s, e).disk.meta == s.disk.meta && Apply(s, e).creation == s.creation
  {
    LeadsKeepInv(start, events, s);
    match e
    case Open(env) => ExistingOpen(s, env);
    case OpenDies(env, n) => ExistingOpen(s, env);
    case _ =>
  }

  /** After every save, delete or failure, memory is what the file decrypts to. */
  lemma MemoryIsTheFile(start: State, events: seq<Event>, s: State)
    requires Reached(start, events, s) && s.handle.Some? && s.disk.enc.Some?
    ensures LoadStoreFromFile(s.disk.enc, false, s.handle.value.key) ==
            Opened(s.handle.value.key, s.handle.value.records)
  {
    LeadsKeepInv(start, events, s);
    SealedOpens(s.handle.value.records, s.handle.value.key, s.handle.value.key);
  }

  predicate NoReadFault(env: Env) {
    !env.metaUnreadable && !env.encUnreadable && !env.deriveFails
  }

  /**
   Beside a descriptor, an undisturbed open succeeds exactly when the encrypted file is
   there and the passphrase is the one given at creation; it writes nothing either way.
   */
  lemma OnlyTheFirstPassphraseOpens(start: State, events: seq<Event>, s: State, env: Env)
    requires Reached(start, events, s) && s.disk.meta.Some? && NoReadFault(env)
    ensures s.creation.Some? && s.creation.value.Derived?
    ensures var (writes, result) := OpenPersistent(s.disk, env);
            && writes == []
            && (result.Opened? <==> s.disk.enc.Some? && env.response == Given(s.creation.value.passphrase))
            && (result.Opened? ==> s.disk.enc == Some(Seal(result.key, result.records)))
  {
    LeadsKeepInv(start, events, s);
    ExistingOpen(s, env);
    if s.disk.enc.Some? && env.response.Given? {
      var key, records :| EncIs(s, key, records);
      SealedOpens(records, key, Derived(env.response.passphrase, s.creation.value.salt, s.creation.value.cost));
    }
  }

  /** Closing and reopening with the same secret returns the records, in order. */
  lemma ReopenReturnsTheRecords(start: State, events: seq<Event>, s: State, env: Env)
    requires Reached(start, events, s) && s.handle.Some? && s.disk.enc.Some? && NoReadFault(env)
    requires match s.handle.value.key
             case Derived(passphrase, _, _) => env.response == Given(passphrase)
             case FromKeychain(entry) => env.keychain == Loaded(entry)
    ensures Apply(Apply(s, Leave), Open(env)) == s
  {
    LeadsKeepInv(start, events, s);
    SealedOpens(s.handle.value.records, s.handle.value.key, s.handle.value.key);
  }

  /** A failed open leaves the disk as it was, or with the descriptor alone if rollback fails. */
  lemma FailedOpenWritesNothing(disk: Disk, env: Env)
    ensures var (writes, result) := OpenPersistent(disk, env);
            result.Failed? ==>
              || Last(disk, writes) == disk
              || (env.rollbackFails && Last(disk, writes) == disk.(meta := Last(disk, writes).meta))
    ensures var (writes, result) := OpenPersistent(disk, env);
            forall d :: d in writes ==> d.meta.Some? || d == disk
  {
  }

  // ---- What each event does, written out -----------------------------------------------

  /** The file is of this version and holds these records, in this order, sealed under the key. */
  predicate FileHolds(disk: Disk, key: Key, records: seq<Record>) {
    && disk.enc.Some? && disk.enc.value.Envelope? && disk.enc.value.version == 1
    && disk.enc.value.sealed.Sealed? && disk.enc.value.sealed.key == key
    && disk.enc.value.sealed.payload.Payload? && disk.enc.value.sealed.payload.version == 1
    && |disk.enc.value.sealed.payload.records| == |records|
    && forall i | 0 <= i < |records| :: disk.enc.value.sealed.payload.records[i] == Some(records[i])
  }

  /** The record stands where its id stood, or last if it is new; the others are as they were. */
  predicate IsSavedIn(before: seq<Record>, record: Record, after: seq<Record>) {
    && |after| == |before| + (if HasId(before, record.id) then 0 else 1)
    && (forall i | 0 <= i < |before| :: after[i] == if before[i].id == record.id then record else before[i])
    && (!HasId(before, record.id) ==> after[|before|] == record)
  }

  /** The record of this id, which stood at `k`, is gone; the others are as they were. */
  predicate IsRemovedFrom(before: seq<Record>, k: nat, after: seq<Record>) {
    k < |before| && after == before[..k] + before[k + 1..]
  }

  lemma SavedIn(records: seq<Record>, record: Record)
    requires UniqueIds(records)
    ensures IsSavedIn(records, record, Upsert(records, record))
  {
    StoreOpening.UpsertExactly(records, record);
  }

  lemma {:induction false} RemovedFrom(records: seq<Record>, k: nat)
    requires UniqueIds(records) && k < |records|
    ensures IsRemovedFrom(records, k, Without(records, records[k].id))
  {
    var id, rest := records[k].id, records[1..];
    if k == 0 {
      forall i | 0 <= i < |rest| ensures Ids(rest)[i] != id {
        assert rest[i] == records[i + 1];
      }
      NothingRemoved(rest, id);
    } else {
      assert rest[k - 1] == records[k];
      RemovedFrom(rest, k - 1);
      CutLater(records, k);
    }
  }

  lemma CutLater(records: seq<Record>, k: nat)
    requires 0 < k < |records|
    ensures records[..k] + records[k + 1..] == [records[0]] + (records[1..][..k - 1] + records[1..][k..])
  {
    assert records[1..][k..] == records[k + 1..];
    assert records[..k] == [records[0]] + records[1..][..k - 1];
  }

  /** Memory and file hold the new set, or, where the write fails, both stay. */
  predicate Commits(s: State, t: State, records: seq<Record>)
    requires s.handle.Some?
  {
    && t.handle == Some(Handle(s.handle.value.key, records)) && FileHolds(t.disk, s.handle.value.key, records)
    && t.disk.meta == s.disk.meta && t.creation == s.creation
  }

  /** A save puts the record in memory and in the file, or changes neither when its write fails. */
  lemma SavesLand(start: State, events: seq<Event>, s: State, record: Record, fails: bool) returns (records: seq<Record>)
    requires Reached(start, events, s) && s.handle.Some?
    ensures IsSavedIn(s.handle.value.records, record, records)
    ensures var t := Apply(s, Save(record, fails)); if fails then t == s else Commits(s, t, records)
  {
    LeadsKeepInv(start, events, s);
    records := Upsert(s.handle.value.records, record);
    SavedIn(s.handle.value.records, record);
  }

  /** A delete takes it out of both, or changes neither when there is none or its write fails. */
  lemma DeletesLand(start: State, events: seq<Event>, s: State, id: string, fails: bool) returns (k: nat, records: seq<Record>)
    requires Reached(start, events, s) && s.handle.Some?
    ensures var t, before := Apply(s, Delete(id, fails)), s.handle.value.records;
            if fails || !HasId(before, id) then t == s
            else k < |before| && before[k].id == id && IsRemovedFrom(before, k, records) && Commits(s, t, records)
  {
    LeadsKeepInv(start, events, s);
    var before := s.handle.value.records;
    k, records := 0, Without(before, id);
    IdsAreIds(before, id);
    if HasId(before, id) {
      k :| 0 <= k < |before| && before[k].id == id;
      RemovedFrom(before, k);
    }
  }

  lemma IdsAreIds(records: seq<Record>, id: string)
    ensures HasId(records, id) <==> id in Ids(records)
  {
    if HasId(records, id) {
      var k :| 0 <= k < |records| && records[k].id == id;
      assert Ids(records)[k] == id;
    }
  }

  /** An open has in memory what it opened, a close or crash forgets it, and only the file can be lost. */
  lemma OtherEventsShow(s: State, e: Event, key: Key, records: seq<Record>)
    requires Enabled(s, e)
    ensures var t := Apply(s, e);
            match e
            case Open(env) =>
              && (t.handle == Some(Handle(key, records)) <==> OpenPersistent(s.disk, env).1 == Opened(key, records))
              && t.disk == Last(s.disk, OpenPersistent(s.disk, env).0)
            case OpenDies(env, n) => t.handle == None && t.disk == Last(s.disk, OpenPersistent(s.disk, env).0[..n])
            case Leave => t == s.(handle := None)
            case LoseEnc => t == s.(disk := Disk(None, s.disk.meta))
            case SaveDies(record, written) =>
              t.handle == None && (if written then t.disk == Apply(s, Save(record, false)).disk else t.disk == s.disk)
            case DeleteDies(id, written) =>
              t.handle == None && (if written then t.disk == Apply(s, Delete(id, false)).disk else t.disk == s.disk)
            case _ => true
  {
  }
}
