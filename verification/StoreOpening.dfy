/**
 What an open of a store comes to, outcome by outcome, and what a save and a delete do to the
 records: each condition in terms of the two files, the answers and the failures alone.
 */
module StoreOpening {
  import opened Text
  import opened SqlSpans
  import opened EncryptedStore

  // ---- The situation -----------------------------------------------------------------

  /** Some character that is not blank, and at most 1024 characters. */
  predicate Usable(passphrase: string) {
    |passphrase| <= 1024 && exists k | 0 <= k < |passphrase| :: !IsBlank(passphrase[k])
  }

  /** A descriptor that can be read and is of this version, with parameters in range. */
  predicate Described(disk: Disk, env: Env) {
    && disk.meta != None && !env.metaUnreadable
    && disk.meta.value.Meta? && disk.meta.value.version == 1 && disk.meta.value.sane
  }

  /** Neither file, and no keychain: a passphrase store is to be created. */
  predicate Creates(disk: Disk, env: Env) {
    disk.meta == None && disk.enc == None && env.keychain == NoKeychain
  }

  /** A passphrase is asked for. */
  predicate Asks(disk: Disk, env: Env) {
    Described(disk, env) || Creates(disk, env)
  }

  /** A usable one is given. */
  predicate Gives(disk: Disk, env: Env) {
    Asks(disk, env) && env.response.Given? && Usable(env.response.passphrase)
  }

  /** The file that is there is read under this key. */
  predicate ReadsUnder(disk: Disk, env: Env, key: Key) {
    && disk.enc != None
    && (|| (&& Described(disk, env) && Gives(disk, env) && !env.deriveFails
            && key == Derived(env.response.passphrase, disk.meta.value.salt, disk.meta.value.cost))
        || (disk.meta == None && env.keychain.Loaded? && key == FromKeychain(env.keychain.entry)))
  }

  /** The file is this list of records, sealed under the key by this version. */
  predicate Decrypts(file: EncFile, key: Key, list: seq<Option<Record>>) {
    file == Envelope(1, Sealed(key, Payload(1, list)))
  }

  /** It is of another version: the envelope, or what it holds under the key. */
  predicate OtherVersion(file: EncFile, key: Key) {
    && file.Envelope?
    && (|| file.version != 1
        || (&& file.sealed.Sealed? && file.sealed.key == key
            && file.sealed.payload.Payload? && file.sealed.payload.version != 1))
  }

  /** It is no envelope, holds nothing under the key, or holds something that is no record. */
  predicate Unsound(file: EncFile, key: Key) {
    || !file.Envelope?
    || (&& file.version == 1
        && (|| file.sealed.Tampered? || file.sealed.key != key || file.sealed.payload.NotAPayload?
            || (file.sealed.payload.version == 1 && None in file.sealed.payload.records)))
  }

  // ---- The outcomes ------------------------------------------------------------------

  ghost predicate IsUnavailable(disk: Disk, env: Env) {
    || (disk.meta != None && env.metaUnreadable)
    || (Gives(disk, env) && env.deriveFails)
    || (Creates(disk, env) && Gives(disk, env) && (env.metaWriteFails || env.encWriteFails))
    || (env.encUnreadable && exists key :: ReadsUnder(disk, env, key))
  }

  ghost predicate IsCorrupt(disk: Disk, env: Env) {
    || (disk.meta != None && !env.metaUnreadable
        && (disk.meta.value.BadMeta? || (disk.meta.value.version == 1 && !disk.meta.value.sane)))
    || (Described(disk, env) && Gives(disk, env) && !env.deriveFails && disk.enc == None)
    || exists key :: ReadsUnder(disk, env, key) && !env.encUnreadable && Unsound(disk.enc.value, key)
  }

  ghost predicate IsOfOtherVersion(disk: Disk, env: Env) {
    || (disk.meta != None && !env.metaUnreadable && disk.meta.value.Meta? && disk.meta.value.version != 1)
    || exists key :: ReadsUnder(disk, env, key) && !env.encUnreadable && OtherVersion(disk.enc.value, key)
  }

  lemma UsableIsGood(passphrase: string)
    ensures Usable(passphrase) <==> !BadPassphrase(passphrase)
  {
    var a, b := TrimmedExactly(passphrase);
    assert Trim(passphrase) != "" ==> passphrase[|a|] == Trim(passphrase)[0];
  }

  lemma Reading(disk: Disk, env: Env, key: Key)
    requires ReadsUnder(disk, env, key)
    ensures OpenPersistent(disk, env) == ([], LoadStoreFromFile(disk.enc, env.encUnreadable, key))
    ensures forall other :: ReadsUnder(disk, env, other) ==> other == key
  {
    if env.response.Given? {
      UsableIsGood(env.response.passphrase);
    }
  }

  /** The records of a list that holds nothing else. */
  function ValuesOf(list: seq<Option<Record>>): seq<Record> {
    if list == [] || list[|list| - 1].None? then [] else ValuesOf(list[..|list| - 1]) + [list[|list| - 1].value]
  }

  lemma {:induction false} ValuesAreRecords(list: seq<Option<Record>>)
    requires forall x :: x in list ==> x.Some?
    ensures ValuesOf(list) == Values(list)
  {
    if list != [] {
      var n := |list| - 1;
      assert list[n] in list;
      ValuesAreRecords(list[..n]);
    }
  }

  lemma ReadAs(file: EncFile, unreadable: bool, key: Key)
    ensures var r := LoadStoreFromFile(Some(file), unreadable, key);
            && (r == Failed(Unavailable) <==> unreadable)
            && (r == Failed(Corrupt) <==> !unreadable && Unsound(file, key))
            && (r == Failed(SchemaUnknown) <==> !unreadable && OtherVersion(file, key))
            && (r.Opened? <==> !unreadable && file.Envelope? && file.sealed.Sealed? && file.sealed.payload.Payload?
                               && Decrypts(file, key, file.sealed.payload.records)
                               && None !in file.sealed.payload.records)
            && (r.Opened? ==> r == Opened(key, FromList(ValuesOf(file.sealed.payload.records))))
            && (r.Failed? ==> r.why == Unavailable || r.why == Corrupt || r.why == SchemaUnknown)
  {
    if LoadStoreFromFile(Some(file), unreadable, key).Opened? {
      ValuesAreRecords(file.sealed.payload.records);
    }
  }

  /** The only key the file can be read under. */
  function KeyTried(disk: Disk, env: Env): Key {
    if Described(disk, env) && env.response.Given? then
      Derived(env.response.passphrase, disk.meta.value.salt, disk.meta.value.cost)
    else FromKeychain(if env.keychain.Loaded? then env.keychain.entry else 0)
  }

  /** Why an open fails, reason by reason: each exactly under its condition. */
  lemma FailsExactly(disk: Disk, env: Env, why: Reason)
    ensures OpenPersistent(disk, env).1 == Failed(why) <==>
            match why
            case Locked => false
            case KeyInvalid => disk.meta == None && env.keychain == KeyNotUsable
            case KeyUnavailable => disk.meta == None && disk.enc != None && (env.keychain == NoKeychain || env.keychain.Created?)
            case PassphraseDeclined => Asks(disk, env) && env.response == Declined
            case PassphraseInvalid => Asks(disk, env) && env.response.Given? && !Usable(env.response.passphrase)
            case Unavailable => IsUnavailable(disk, env)
            case Corrupt => IsCorrupt(disk, env)
            case SchemaUnknown => IsOfOtherVersion(disk, env)
  {
    if env.response.Given? {
      UsableIsGood(env.response.passphrase);
    }
    var key := KeyTried(disk, env);
    assert forall other :: ReadsUnder(disk, env, other) ==> other == key;
    if ReadsUnder(disk, env, key) {
      Reading(disk, env, key);
      ReadAs(disk.enc.value, env.encUnreadable, key);
    }
  }

  // ---- What an open store holds --------------------------------------------------------

  predicate NamedBy(list: seq<Record>, id: string, end: nat) {
    exists a | 0 <= a < end && a < |list| :: list[a].id == id
  }

  /** `x` is named at a place before which, and at which, `y` is not. */
  predicate NamedFirst(list: seq<Record>, x: string, y: string) {
    exists a | 0 <= a < |list| :: list[a].id == x && !NamedBy(list, y, a + 1)
  }

  /** The record is the last of the list with its id. */
  predicate IsLast(list: seq<Record>, r: Record) {
    exists a | 0 <= a < |list| :: list[a] == r && forall b | a < b < |list| :: list[b].id != r.id
  }

  /** Each id of the list once, in the order in which they are first named, with what it is last given. */
  predicate IsMapOf(list: seq<Record>, records: seq<Record>) {
    && UniqueIds(records)
    && (forall a | 0 <= a < |list| :: NamedBy(records, list[a].id, |records|))
    && (forall k | 0 <= k < |records| :: IsLast(list, records[k]))
    && forall j, k | 0 <= j < k < |records| :: NamedFirst(list, records[j].id, records[k].id)
  }

  lemma NamedFirstLonger(list: seq<Record>, more: seq<Record>, x: string, y: string)
    requires |more| == |list| + 1 && (forall b | 0 <= b < |list| :: more[b] == list[b]) && NamedFirst(list, x, y)
    ensures NamedFirst(more, x, y)
  {
    var a :| 0 <= a < |list| && list[a].id == x && !NamedBy(list, y, a + 1);
    assert more[a].id == x && !NamedBy(more, y, a + 1);
  }

  lemma NewIsNamedLast(list: seq<Record>, more: seq<Record>, r: Record, x: Record)
    requires more == list + [r] && !NamedBy(list, r.id, |list|) && IsLast(list, x)
    ensures NamedFirst(more, x.id, r.id)
  {
    var a :| 0 <= a < |list| && list[a] == x && forall b | a < b < |list| :: list[b].id != x.id;
    assert more[a].id == x.id;
    assert !NamedBy(more, r.id, a + 1);
  }

  lemma StillLast(list: seq<Record>, more: seq<Record>, r: Record, x: Record)
    requires more == list + [r]
    ensures IsLast(more, r)
    ensures IsLast(list, x) && x.id != r.id ==> IsLast(more, x)
  {
    assert more[|list|] == r;
    if IsLast(list, x) && x.id != r.id {
      var a :| 0 <= a < |list| && list[a] == x && forall b | a < b < |list| :: list[b].id != x.id;
      assert more[a] == x;
    }
  }

  lemma SetIsMap(list: seq<Record>, records: seq<Record>, r: Record)
    requires IsMapOf(list, records)
    ensures IsMapOf(list + [r], Upsert(records, r))
  {
    var more, s := list + [r], Upsert(records, r);
    UpsertExactly(records, r);
    forall k | 0 <= k < |s| ensures IsLast(more, s[k]) {
      StillLast(list, more, r, if k < |records| then records[k] else r);
    }
    forall a | 0 <= a < |more| ensures NamedBy(s, more[a].id, |s|) {
      SetNames(list, records, r, a);
    }
    forall j, k | 0 <= j < k < |s| ensures NamedFirst(more, s[j].id, s[k].id) {
      if k < |records| {
        NamedFirstLonger(list, more, records[j].id, records[k].id);
      } else {
        NotNamed(list, records, r);
        NewIsNamedLast(list, more, r, records[j]);
      }
    }
  }

  lemma NotNamed(list: seq<Record>, records: seq<Record>, r: Record)
    requires IsMapOf(list, records) && !exists k :: 0 <= k < |records| && records[k].id == r.id
    ensures !NamedBy(list, r.id, |list|)
  {
  }

  lemma SetNames(list: seq<Record>, records: seq<Record>, r: Record, a: nat)
    requires IsMapOf(list, records) && a <= |list|
    ensures NamedBy(Upsert(records, r), (list + [r])[a].id, |Upsert(records, r)|)
  {
    var s := Upsert(records, r);
    if a == |list| {
      var k :| 0 <= k < |s| && s[k] == r;
      assert s[k].id == r.id;
    } else {
      assert NamedBy(records, list[a].id, |records|);
      var k :| 0 <= k < |records| && records[k].id == list[a].id;
      assert s[k].id == list[a].id;
    }
  }

  /** An open store holds the map of the list it decrypted. */
  lemma {:induction false} FromListExactly(list: seq<Record>)
    ensures IsMapOf(list, FromList(list))
    decreases |list|
  {
    if list != [] {
      var front, r := list[..|list| - 1], list[|list| - 1];
      FromListExactly(front);
      SetIsMap(front, FromList(front), r);
      assert front + [r] == list;
    }
  }

  lemma {:induction false} UpsertInPlace(records: seq<Record>, r: Record, k: nat)
    requires k < |records| && records[k].id == r.id && forall j | 0 <= j < k :: records[j].id != r.id
    ensures Upsert(records, r) == records[k := r]
  {
    if k > 0 {
      UpsertInPlace(records[1..], r, k - 1);
    }
  }

  lemma {:induction false} UpsertAtEnd(records: seq<Record>, r: Record)
    requires forall j | 0 <= j < |records| :: records[j].id != r.id
    ensures Upsert(records, r) == records + [r]
  {
    if records != [] {
      UpsertAtEnd(records[1..], r);
      assert records == [records[0]] + records[1..];
    }
  }

  /** What setting a record does: in its place if its id is there, at the end if not. */
  lemma UpsertExactly(records: seq<Record>, r: Record)
    requires UniqueIds(records)
    ensures var s := Upsert(records, r);
            && UniqueIds(s)
            && (forall k | 0 <= k < |records| :: s[k] == if records[k].id == r.id then r else records[k])
            && (if exists k :: 0 <= k < |records| && records[k].id == r.id then |s| == |records| else s == records + [r])
  {
    if k :| 0 <= k < |records| && records[k].id == r.id {
      UpsertInPlace(records, r, k);
    } else {
      UpsertAtEnd(records, r);
    }
  }

  // ---- What an open writes and answers ------------------------------------------------

  /** An open succeeds in one of four ways, and writes in the last of them only. */
  lemma OpensExactly(disk: Disk, env: Env, key: Key, records: seq<Record>)
    ensures OpenPersistent(disk, env).1 == Opened(key, records) <==>
            || (&& ReadsUnder(disk, env, key) && !env.encUnreadable
                && exists list :: Decrypts(disk.enc.value, key, list) && None !in list && records == FromList(ValuesOf(list)))
            || (&& disk.meta == None && disk.enc == None && records == []
                && (env.keychain.Loaded? || env.keychain.Created?) && key == FromKeychain(env.keychain.entry))
            || (&& Creates(disk, env) && Gives(disk, env)
                && !env.deriveFails && !env.metaWriteFails && !env.encWriteFails
                && records == [] && key == Derived(env.response.passphrase, env.freshSalt, 32768))
  {
    if env.response.Given? {
      UsableIsGood(env.response.passphrase);
    }
    var tried := KeyTried(disk, env);
    assert forall other :: ReadsUnder(disk, env, other) ==> other == tried;
    if ReadsUnder(disk, env, tried) {
      Reading(disk, env, tried);
      ReadAs(disk.enc.value, env.encUnreadable, tried);
      assert disk.enc.value.Envelope? && disk.enc.value.sealed.Sealed? && disk.enc.value.sealed.payload.Payload? ==>
             forall list :: Decrypts(disk.enc.value, tried, list) ==> list == disk.enc.value.sealed.payload.records;
    }
  }

  /** The descriptor an open creates, and beside it the empty store sealed under its key. */
  function Descriptor(env: Env): MetaFile {
    Meta(1, env.freshSalt, 32768, true)
  }

  predicate WritesDescriptor(disk: Disk, env: Env) {
    Creates(disk, env) && Gives(disk, env) && !env.deriveFails && !env.metaWriteFails
  }

  /**
   The disk after each write: none, unless a passphrase store is created. Then the descriptor
   comes first, and after it the empty store, or the rollback where that fails.
   */
  lemma WritesExactly(disk: Disk, env: Env)
    ensures var writes := OpenPersistent(disk, env).0;
            && (!WritesDescriptor(disk, env) <==> writes == [])
            && (WritesDescriptor(disk, env) ==>
                && |writes| == (if env.encWriteFails && env.rollbackFails then 1 else 2)
                && writes[0] == Disk(None, Some(Descriptor(env)))
                && (!env.encWriteFails ==>
                    writes[1] == Disk(Some(Envelope(1, Sealed(Derived(env.response.passphrase, env.freshSalt, 32768),
                                                              Payload(1, [])))), Some(Descriptor(env))))
                && (env.encWriteFails && !env.rollbackFails ==> writes[1] == disk))
  {
    if env.response.Given? {
      UsableIsGood(env.response.passphrase);
    }
    assert Stored([]) == [];
  }

  /** The credential store's open: only under the lock, which it keeps exactly when it is open. */
  lemma OpensUnderTheLock(disk: Disk, lock: LockAnswer, env: Env)
    ensures var (writes, r, kept) := OpenCredentialStore(disk, lock, env);
            && (lock == Held ==> writes == [] && r == Failed(Locked))
            && (lock == LockUnavailable ==> writes == [] && r == Failed(Unavailable))
            && (lock == Acquired ==> (writes, r) == OpenPersistent(disk, env))
            && (kept <==> lock == Acquired && r.Opened?)
  {
  }
}
