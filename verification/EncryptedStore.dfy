/**
 The persistent encrypted store: its two files, how an open decides on a key and a result,
 and the live store whose mutations rewrite the encrypted file. Keys and ciphertext are
 symbolic: distinct passphrases, salts or keychain entries give distinct keys, and a text
 opens only under the key that sealed it.

 This is the credential store's code; it takes the writer lock before and gives it back
 after a failure. The provider-key store has a copy of its own.
 */
module EncryptedStore {
  import opened Text

  const CRYPTO_SCHEMA_VERSION: nat := 1
  const STORE_SCHEMA_VERSION: nat := 1
  const STORE_META_SCHEMA_VERSION: nat := 1
  const MAX_PASSPHRASE_LENGTH: nat := 1024
  const DEFAULT_COST: nat := 0x8000

  // ---- Keys, files and answers -------------------------------------------------------

  datatype Key = FromKeychain(entry: nat) | Derived(passphrase: string, salt: nat, cost: nat)

  /** A saved connection or provider key, by its id. */
  datatype Record = Record(id: string, body: string)

  /** A decrypted payload; an element that is not a record is `None`. */
  datatype Payload = NotAPayload | Payload(version: nat, records: seq<Option<Record>>)

  /** What AES-GCM sealed under a key, or a text that authenticates under none. */
  datatype Sealed = Sealed(key: Key, payload: Payload) | Tampered

  datatype EncFile = NotJson | NotAnEnvelope | Envelope(version: nat, sealed: Sealed)

  /** The key descriptor; `sane` says its parameters pass the range checks. */
  datatype MetaFile = BadMeta | Meta(version: nat, salt: nat, cost: nat, sane: bool)

  datatype Disk = Disk(enc: Option<EncFile>, meta: Option<MetaFile>)

  datatype KeychainAnswer = Loaded(entry: nat) | Created(entry: nat) | KeyNotUsable | NoKeychain

  datatype Response = Declined | Given(passphrase: string)

  /** The answers an open gets from outside, and which of its accesses fail. */
  datatype Env = Env(
    keychain: KeychainAnswer, response: Response, freshSalt: nat,
    metaUnreadable: bool, encUnreadable: bool, deriveFails: bool,
    metaWriteFails: bool, encWriteFails: bool, rollbackFails: bool)

  datatype Reason =
    | Unavailable | Locked | KeyInvalid | Corrupt | SchemaUnknown
    | PassphraseDeclined | PassphraseInvalid | KeyUnavailable

  datatype OpenResult = Opened(key: Key, records: seq<Record>) | Failed(why: Reason)

  // ---- Records -----------------------------------------------------------------------

  function Ids(records: seq<Record>): seq<string> {
    seq(|records|, i requires 0 <= i < |records| => records[i].id)
  }

  predicate UniqueIds(records: seq<Record>) {
    forall i, j | 0 <= i < j < |records| :: records[i].id != records[j].id
  }

  /** Setting a key that is there keeps its place; a new one goes last. */
  function Upsert(records: seq<Record>, r: Record): (s: seq<Record>)
    ensures |s| >= |records| && forall i :: 0 <= i < |records| ==> s[i].id == records[i].id
    ensures forall x :: x in s ==> x == r || x in records
    ensures r in s
  {
    if records == [] then [r]
    else if records[0].id == r.id then [r] + records[1..]
    else [records[0]] + Upsert(records[1..], r)
  }

  function Without(records: seq<Record>, id: string): (s: seq<Record>)
    ensures forall x :: x in s <==> x in records && x.id != id
  {
    if records == [] then []
    else (if records[0].id == id then [] else [records[0]]) + Without(records[1..], id)
  }

  lemma {:induction false} NothingRemoved(records: seq<Record>, id: string)
    requires id !in Ids(records)
    ensures Without(records, id) == records
  {
    if records != [] {
      assert Ids(records)[0] == records[0].id;
      assert forall i | 0 <= i < |records| - 1 :: Ids(records[1..])[i] == Ids(records)[i + 1];
      NothingRemoved(records[1..], id);
    }
  }

  /** The map built by setting each record in turn. */
  function FromList(list: seq<Record>): seq<Record> {
    if list == [] then [] else Upsert(FromList(list[..|list| - 1]), list[|list| - 1])
  }

  function Stored(records: seq<Record>): seq<Option<Record>> {
    seq(|records|, i requires 0 <= i < |records| => Some(records[i]))
  }

  function Values(stored: seq<Option<Record>>): seq<Record>
    requires forall x :: x in stored ==> x.Some?
  {
    seq(|stored|, i requires 0 <= i < |stored| => assert stored[i] in stored; stored[i].value)
  }

  // ---- What an open does -------------------------------------------------------------

  function Seal(key: Key, records: seq<Record>): EncFile {
    Envelope(CRYPTO_SCHEMA_VERSION, Sealed(key, Payload(STORE_SCHEMA_VERSION, Stored(records))))
  }

  predicate BadPassphrase(passphrase: string) {
    Trim(passphrase) == "" || |passphrase| > MAX_PASSPHRASE_LENGTH
  }

  /** Reading the encrypted file under a key; a missing file is an empty store. */
  function LoadStoreFromFile(enc: Option<EncFile>, unreadable: bool, key: Key): OpenResult {
    if enc.None? then Opened(key, [])
    else if unreadable then Failed(Unavailable)
    else
      match enc.value
      case NotJson => Failed(Corrupt)
      case NotAnEnvelope => Failed(Corrupt)
      case Envelope(version, sealed) =>
        if version != CRYPTO_SCHEMA_VERSION then Failed(SchemaUnknown)
        else if sealed.Tampered? || sealed.key != key then Failed(Corrupt)
        else if sealed.payload.NotAPayload? then Failed(Corrupt)
        else if sealed.payload.version != STORE_SCHEMA_VERSION then Failed(SchemaUnknown)
        else if None in sealed.payload.records then Failed(Corrupt)
        else Opened(key, FromList(Values(sealed.payload.records)))
  }

  function OpenExisting(disk: Disk, env: Env, meta: MetaFile): OpenResult
    requires meta.Meta?
  {
    if env.response.Declined? then Failed(PassphraseDeclined)
    else if BadPassphrase(env.response.passphrase) then Failed(PassphraseInvalid)
    else if env.deriveFails then Failed(Unavailable)
    else if disk.enc.None? then Failed(Corrupt)
    else LoadStoreFromFile(disk.enc, env.encUnreadable, Derived(env.response.passphrase, meta.salt, meta.cost))
  }

  function OpenWithKeychain(disk: Disk, env: Env): OpenResult {
    match env.keychain
    case NoKeychain => Failed(KeyUnavailable)
    case Created(_) => Failed(KeyUnavailable)
    case KeyNotUsable => Failed(KeyInvalid)
    case Loaded(entry) => LoadStoreFromFile(disk.enc, env.encUnreadable, FromKeychain(entry))
  }

  /** A new passphrase store: the descriptor first, then the empty encrypted file. */
  function CreateStore(disk: Disk, env: Env): (seq<Disk>, OpenResult) {
    if env.response.Declined? then ([], Failed(PassphraseDeclined))
    else if BadPassphrase(env.response.passphrase) then ([], Failed(PassphraseInvalid))
    else if env.deriveFails then ([], Failed(Unavailable))
    else if env.metaWriteFails then ([], Failed(Unavailable))
    else
      var key := Derived(env.response.passphrase, env.freshSalt, DEFAULT_COST);
      var described := disk.(meta := Some(Meta(STORE_META_SCHEMA_VERSION, env.freshSalt, DEFAULT_COST, true)));
      if env.encWriteFails then
        (if env.rollbackFails then [described] else [described, described.(meta := None)], Failed(Unavailable))
      else ([described, described.(enc := Some(Seal(key, [])))], Opened(key, []))
  }

  /**
   The persistent open: the disk after each write, in order, and the result. A crash leaves
   the disk as it was before or after any of the writes.
   */
  function OpenPersistent(disk: Disk, env: Env): (seq<Disk>, OpenResult) {
    if disk.meta.Some? then
      if env.metaUnreadable then ([], Failed(Unavailable))
      else if disk.meta.value.BadMeta? then ([], Failed(Corrupt))
      else if disk.meta.value.version != STORE_META_SCHEMA_VERSION then ([], Failed(SchemaUnknown))
      else if !disk.meta.value.sane then ([], Failed(Corrupt))
      else ([], OpenExisting(disk, env, disk.meta.value))
    else if disk.enc.Some? then ([], OpenWithKeychain(disk, env))
    else
      match env.keychain
      case KeyNotUsable => ([], Failed(KeyInvalid))
      case Loaded(entry) => ([], Opened(FromKeychain(entry), []))
      case Created(entry) => ([], Opened(FromKeychain(entry), []))
      case NoKeychain => CreateStore(disk, env)
  }

  function Last(disk: Disk, trail: seq<Disk>): Disk {
    if trail == [] then disk else trail[|trail| - 1]
  }

  // ---- The files, and the open on them -----------------------------------------------

  class Files {
    var enc: Option<EncFile>
    var meta: Option<MetaFile>
    ghost var trail: seq<Disk>

    function View(): Disk
      reads this
    {
      Disk(enc, meta)
    }

    constructor (disk: Disk)
      ensures View() == disk && trail == []
    {
      enc, meta, trail := disk.enc, disk.meta, [];
    }

    method WriteDescriptor(descriptor: MetaFile, fails: bool) returns (ok: bool)
      modifies this
      ensures ok == !fails
      ensures View() == if ok then old(View()).(meta := Some(descriptor)) else old(View())
      ensures trail == if ok then old(trail) + [View()] else old(trail)
    {
      ok := !fails;
      if ok {
        meta := Some(descriptor);
        trail := trail + [Disk(enc, meta)];
      }
    }

    method RemoveDescriptor(fails: bool)
      modifies this
      ensures View() == if fails then old(View()) else old(View()).(meta := None)
      ensures trail == if fails then old(trail) else old(trail) + [View()]
    {
      if !fails {
        meta := None;
        trail := trail + [Disk(enc, meta)];
      }
    }

    /** The whole record set, sealed, replaces the file in one rename. */
    method WriteStoreFile(key: Key, records: seq<Record>, fails: bool) returns (ok: bool)
      modifies this
      ensures ok == !fails
      ensures View() == if ok then old(View()).(enc := Some(Seal(key, records))) else old(View())
      ensures trail == if ok then old(trail) + [View()] else old(trail)
    {
      ok := !fails;
      if ok {
        enc := Some(Seal(key, records));
        trail := trail + [Disk(enc, meta)];
      }
    }

    method Create(env: Env) returns (r: OpenResult)
      modifies this
      ensures var (writes, result) := CreateStore(old(View()), env);
              r == result && trail == old(trail) + writes && View() == Last(old(View()), writes)
    {
      if env.response.Declined? {
        return Failed(PassphraseDeclined);
      }
      if BadPassphrase(env.response.passphrase) {
        return Failed(PassphraseInvalid);
      }
      if env.deriveFails {
        return Failed(Unavailable);
      }
      var key := Derived(env.response.passphrase, env.freshSalt, DEFAULT_COST);
      var written := WriteDescriptor(Meta(STORE_META_SCHEMA_VERSION, env.freshSalt, DEFAULT_COST, true),
                                     env.metaWriteFails);
      if !written {
        return Failed(Unavailable);
      }
      var seeded := WriteStoreFile(key, [], env.encWriteFails);
      if !seeded {
        RemoveDescriptor(env.rollbackFails);
        return Failed(Unavailable);
      }
      return Opened(key, []);
    }

    method Open(env: Env) returns (r: OpenResult)
      modifies this
      ensures var (writes, result) := OpenPersistent(old(View()), env);
              r == result && trail == old(trail) + writes && View() == Last(old(View()), writes)
    {
      if meta.Some? {
        if env.metaUnreadable {
          return Failed(Unavailable);
        }
        var descriptor := meta.value;
        if descriptor.BadMeta? {
          return Failed(Corrupt);
        }
        if descriptor.version != STORE_META_SCHEMA_VERSION {
          return Failed(SchemaUnknown);
        }
        if !descriptor.sane {
          return Failed(Corrupt);
        }
        if env.response.Declined? {
          return Failed(PassphraseDeclined);
        }
        if BadPassphrase(env.response.passphrase) {
          return Failed(PassphraseInvalid);
        }
        if env.deriveFails {
          return Failed(Unavailable);
        }
        if enc.None? {
          return Failed(Corrupt);
        }
        return LoadStoreFromFile(
          enc, env.encUnreadable, Derived(env.response.passphrase, descriptor.salt, descriptor.cost));
      }
      if enc.Some? {
        match env.keychain
        case NoKeychain => return Failed(KeyUnavailable);
        case Created(_) => return Failed(KeyUnavailable);
        case KeyNotUsable => return Failed(KeyInvalid);
        case Loaded(entry) => return LoadStoreFromFile(enc, env.encUnreadable, FromKeychain(entry));
      }
      match env.keychain
      case KeyNotUsable => return Failed(KeyInvalid);
      case Loaded(entry) => return Opened(FromKeychain(entry), []);
      case Created(entry) => return Opened(FromKeychain(entry), []);
      case NoKeychain => r := Create(env);
    }
  }

  // ---- The live store ----------------------------------------------------------------

  datatype Mutation = Ok | WriteFailed

  /**
   A store handle. `files` is absent for an ephemeral store, whose mutations stay in memory;
   `lockHeld` says the writer lock has not been given back.
   */
  class Store {
    const key: Key
    const files: Files?
    var records: seq<Record>
    var closed: bool
    var lockHeld: bool

    constructor (key: Key, files: Files?, initial: seq<Record>, locked: bool)
      ensures this.key == key && this.files == files && !closed && lockHeld == locked
      ensures records == FromList(initial)
    {
      this.key, this.files, closed, lockHeld := key, files, false, locked;
      new;
      records := [];
      assert initial[..0] == [];
      for i := 0 to |initial|
        invariant records == FromList(initial[..i])
        invariant this.key == key && this.files == files && !closed && lockHeld == locked
      {
        assert initial[..i + 1][..i] == initial[..i];
        records := Upsert(records, initial[i]);
      }
      assert initial[..|initial|] == initial;
    }

    /** The new set is written first; memory follows only when the write has succeeded. */
    method Commit(next: seq<Record>, fails: bool) returns (r: Mutation)
      modifies this`records, files
      ensures r == if files != null && fails then WriteFailed else Ok
      ensures records == if r.Ok? then next else old(records)
      ensures files != null ==>
                files.View() == if r.Ok? then old(files.View()).(enc := Some(Seal(key, next))) else old(files.View())
    {
      if files != null {
        var ok := files.WriteStoreFile(key, next, fails);
        if !ok {
          return WriteFailed;
        }
      }
      records := next;
      return Ok;
    }

    method Save(record: Record, fails: bool) returns (r: Mutation)
      modifies this`records, files
      ensures r == if files != null && fails then WriteFailed else Ok
      ensures records == if r.Ok? then Upsert(old(records), record) else old(records)
      ensures files != null ==>
                files.View() == if r.Ok? then old(files.View()).(enc := Some(Seal(key, records))) else old(files.View())
    {
      r := Commit(Upsert(records, record), fails);
    }

    /** Deleting what is not there writes nothing. */
    method Delete(id: string, fails: bool) returns (r: Mutation)
      modifies this`records, files
      ensures r == if id in Ids(old(records)) && files != null && fails then WriteFailed else Ok
      ensures records == if r.Ok? then Without(old(records), id) else old(records)
      ensures files != null ==>
                files.View() == if r.Ok? && id in Ids(old(records))
                                then old(files.View()).(enc := Some(Seal(key, records)))
                                else old(files.View())
    {
      if id !in Ids(records) {
        NothingRemoved(records, id);
        return Ok;
      }
      r := Commit(Without(records, id), fails);
    }

    /** The lock is given back once, however often this is called. */
    method Close()
      modifies this`closed, this`lockHeld
      ensures closed && lockHeld == (old(closed) && old(lockHeld))
    {
      if closed {
        return;
      }
      closed := true;
      lockHeld := false;
    }
  }

  // ---- Under the lock ----------------------------------------------------------------

  datatype LockAnswer = Acquired | Held | LockUnavailable

  /** The credential store's open: the writes, the result, and whether the lock is kept. */
  function OpenCredentialStore(disk: Disk, lock: LockAnswer, env: Env): (seq<Disk>, OpenResult, bool) {
    match lock
    case Held => ([], Failed(Locked), false)
    case LockUnavailable => ([], Failed(Unavailable), false)
    case Acquired =>
      var (writes, result) := OpenPersistent(disk, env);
      (writes, result, result.Opened?)
  }
}
