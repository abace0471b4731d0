/**
 The provider-key store. Its source is a second copy of the credential store's code over its
 own pair of files, with no writer lock; it is modelled here from that copy, and proved to
 decide, write and remember exactly what the credential store does on the same disk.
 */
module ProviderKeyStore {
  import opened Text
  import opened EncryptedStore

  const PROVIDER_STORE_SCHEMA_VERSION: nat := 1
  const PROVIDER_STORE_META_SCHEMA_VERSION: nat := 1

  // ---- Its files ---------------------------------------------------------------------

  class KeyFiles {
    var enc: Option<EncFile>
    var meta: Option<MetaFile>
    ghost var trail: seq<Disk>

    function View(): Disk
      reads this
    {
      Disk(enc, meta)
    }

    constructor (disk: Disk)
      ensures View() == disk && trail == []
    {
      enc, meta, trail := disk.enc, disk.meta, [];
    }

    method WriteStoreFile(key: Key, keys: seq<Record>, fails: bool) returns (ok: bool)
      modifies this
      ensures ok == !fails
      ensures View() == if ok then old(View()).(enc := Some(Seal(key, keys))) else old(View())
      ensures trail == if ok then old(trail) + [View()] else old(trail)
    {
      var payload := Payload(PROVIDER_STORE_SCHEMA_VERSION, Stored(keys));
      if fails {
        return false;
      }
      enc := Some(Envelope(CRYPTO_SCHEMA_VERSION, Sealed(key, payload)));
      trail := trail + [Disk(enc, meta)];
      return true;
    }

    /** Reads, authenticates and checks the file in the order of its possible failures. */
    method LoadStoreFromFile(unreadable: bool, key: Key) returns (r: OpenResult)
      ensures r == EncryptedStore.LoadStoreFromFile(enc, unreadable, key)
    {
      if enc.None? {
        return Opened(key, []);
      }
      if unreadable {
        return Failed(Unavailable);
      }
      if !enc.value.Envelope? {
        return Failed(Corrupt);
      }
      var envelope := enc.value;
      if envelope.version != CRYPTO_SCHEMA_VERSION {
        return Failed(SchemaUnknown);
      }
      if envelope.sealed.Tampered? || envelope.sealed.key != key {
        return Failed(Corrupt);
      }
      var payload := envelope.sealed.payload;
      if payload.NotAPayload? {
        return Failed(Corrupt);
      }
      if payload.version != PROVIDER_STORE_SCHEMA_VERSION {
        return Failed(SchemaUnknown);
      }
      var initial: seq<Record> := [];
      for i := 0 to |payload.records|
        invariant None !in payload.records[..i] && |initial| == i
        invariant forall k | 0 <= k < i :: payload.records[k] == Some(initial[k])
      {
        if payload.records[i].None? {
          return Failed(Corrupt);
        }
        initial := initial + [payload.records[i].value];
      }
      assert None !in payload.records;
      assert initial == Values(payload.records);
      return Opened(key, FromList(initial));
    }

    method CreateUnder(env: Env) returns (r: OpenResult)
      modifies this
      ensures var (writes, result) := CreateStore(old(View()), env);
              r == result && trail == old(trail) + writes && View() == Last(old(View()), writes)
    {
      if env.response.Declined? {
        return Failed(PassphraseDeclined);
      }
      var passphrase, salt := env.response.passphrase, env.freshSalt;
      if BadPassphrase(passphrase) {
        return Failed(PassphraseInvalid);
      }
      if env.deriveFails || env.metaWriteFails {
        return Failed(Unavailable);
      }
      meta := Some(Meta(PROVIDER_STORE_META_SCHEMA_VERSION, salt, DEFAULT_COST, true));
      trail := trail + [Disk(enc, meta)];
      var seeded := WriteStoreFile(Derived(passphrase, salt, DEFAULT_COST), [], env.encWriteFails);
      if !seeded {
        if !env.rollbackFails {
          meta := None;
          trail := trail + [Disk(enc, meta)];
        }
        return Failed(Unavailable);
      }
      return Opened(Derived(passphrase, salt, DEFAULT_COST), []);
    }

    /** The persistent open of this copy makes the very decision and writes of the other. */
    method Open(env: Env) returns (r: OpenResult)
      modifies this
      ensures var (writes, result) := OpenPersistent(old(View()), env);
              r == result && trail == old(trail) + writes && View() == Last(old(View()), writes)
    {
      if meta.Some? && env.metaUnreadable {
        return Failed(Unavailable);
      }
      if meta.Some? && meta.value.BadMeta? {
        return Failed(Corrupt);
      }
      if meta.Some? && meta.value.version != PROVIDER_STORE_META_SCHEMA_VERSION {
        return Failed(SchemaUnknown);
      }
      if meta.Some? && !meta.value.sane {
        return Failed(Corrupt);
      }
      if meta.Some? {
        if env.response.Declined? {
          return Failed(PassphraseDeclined);
        }
        if BadPassphrase(env.response.passphrase) {
          return Failed(PassphraseInvalid);
        }
        if env.deriveFails {
          return Failed(Unavailable);
        }
        if enc.None? {
          return Failed(Corrupt);
        }
        r := LoadStoreFromFile(env.encUnreadable, Derived(env.response.passphrase, meta.value.salt, meta.value.cost));
        return;
      }
      if enc.Some? {
        if env.keychain.NoKeychain? || env.keychain.Created? {
          return Failed(KeyUnavailable);
        }
        if env.keychain.KeyNotUsable? {
          return Failed(KeyInvalid);
        }
        r := LoadStoreFromFile(env.encUnreadable, FromKeychain(env.keychain.entry));
        return;
      }
      if env.keychain.KeyNotUsable? {
        return Failed(KeyInvalid);
      }
      if env.keychain.Loaded? || env.keychain.Created? {
        return Opened(FromKeychain(env.keychain.entry), []);
      }
      r := CreateUnder(env);
    }
  }

  // ---- The live store ----------------------------------------------------------------

  /** One key per provider kind, the record's id. Without files the store is ephemeral. */
  class KeyStore {
    const key: Option<Key>
    const files: KeyFiles?
    var records: seq<Record>

    constructor (key: Option<Key>, files: KeyFiles?, initial: seq<Record>)
      ensures this.key == key && this.files == files && records == FromList(initial)
    {
      this.key, this.files := key, files;
      new;
      records := [];
      assert initial[..0] == [];
      for i := 0 to |initial|
        invariant records == FromList(initial[..i])
        invariant this.key == key && this.files == files
      {
        assert initial[..i + 1][..i] == initial[..i];
        records := Upsert(records, initial[i]);
      }
      assert initial[..|initial|] == initial;
    }

    method Commit(next: seq<Record>, fails: bool) returns (r: Mutation)
      requires files != null ==> key.Some?
      modifies this`records, files
      ensures r == if files != null && fails then WriteFailed else Ok
      ensures records == if r.Ok? then next else old(records)
      ensures files != null ==>
                files.View() == if r.Ok? then old(files.View()).(enc := Some(Seal(key.value, next)))
                                else old(files.View())
    {
      if files != null {
        var ok := files.WriteStoreFile(key.value, next, fails);
        if !ok {
          return WriteFailed;
        }
      }
      records := next;
      return Ok;
    }

    method SaveKey(record: Record, fails: bool) returns (r: Mutation)
      requires files != null ==> key.Some?
      modifies this`records, files
      ensures r == if files != null && fails then WriteFailed else Ok
      ensures records == if r.Ok? then Upsert(old(records), record) else old(records)
      ensures files != null ==>
                files.View() == if r.Ok? then old(files.View()).(enc := Some(Seal(key.value, records)))
                                else old(files.View())
    {
      r := Commit(Upsert(records, record), fails);
    }

    method DeleteKey(kind: string, fails: bool) returns (r: Mutation)
      requires files != null ==> key.Some?
      modifies this`records, files
      ensures r == if kind in Ids(old(records)) && files != null && fails then WriteFailed else Ok
      ensures records == if r.Ok? then Without(old(records), kind) else old(records)
      ensures files != null ==>
                files.View() == if r.Ok? && kind in Ids(old(records))
                                then old(files.View()).(enc := Some(Seal(key.value, records)))
                                else old(files.View())
    {
      if kind !in Ids(records) {
        NothingRemoved(records, kind);
        return Ok;
      }
      r := Commit(Without(records, kind), fails);
    }
  }

  datatype RunMode = Ephemeral | Persistent

  datatype Answered = Store(store: KeyStore) | Refused(why: Reason)

  /** An ephemeral store touches nothing; a persistent one is what its open decided. */
  method OpenProviderKeyStore(mode: RunMode, dirFails: bool, files: KeyFiles, env: Env) returns (r: Answered)
    modifies files
    ensures mode.Ephemeral? || dirFails ==> files.View() == old(files.View())
    ensures mode.Ephemeral? ==> r.Store? && fresh(r.store) && r.store.files == null && r.store.records == []
    ensures mode.Persistent? && dirFails ==> r == Refused(Unavailable)
    ensures mode.Persistent? && !dirFails ==>
              var (writes, result) := OpenPersistent(old(files.View()), env);
              && files.View() == Last(old(files.View()), writes)
              && (match result
                  case Failed(why) => r == Refused(why)
                  case Opened(key, records) =>
                    && r.Store? && fresh(r.store) && r.store.files == files
                    && r.store.key == Some(key) && r.store.records == FromList(records))
  {
    if mode.Ephemeral? {
      var store := new KeyStore(None, null, []);
      return Store(store);
    }
    if dirFails {
      return Refused(Unavailable);
    }
    var result := files.Open(env);
    if result.Failed? {
      return Refused(result.why);
    }
    var store := new KeyStore(Some(result.key), files, result.records);
    return Store(store);
  }

  // ---- The two stores side by side ---------------------------------------------------

  /**
   Both stores opened on equal disks with the same answers from outside: under the writer
   lock they decide alike and leave equal disks after the same writes, and the lock is kept
   exactly by an open store; without the lock the credential store does nothing at all.
   */
  method OpenBoth(credential: Files, keys: KeyFiles, lock: LockAnswer, env: Env)
    returns (c: OpenResult, kept: bool, p: OpenResult)
    requires credential.View() == keys.View() && credential.trail == keys.trail
    modifies credential, keys
    ensures lock.Acquired? ==> c == p && credential.View() == keys.View() && credential.trail == keys.trail
    ensures !lock.Acquired? ==> c.Failed? && credential.View() == old(credential.View())
    ensures kept <==> c.Opened?
  {
    p := keys.Open(env);
    match lock
    case Held => c, kept := Failed(Locked), false;
    case LockUnavailable => c, kept := Failed(Unavailable), false;
    case Acquired =>
      c := credential.Open(env);
      kept := c.Opened?;
  }

  datatype Change = Saved(record: Record) | Deleted(id: string)

  /** The two stores hold the same records under the same key on equal disks. */
  predicate Twins(a: Store, b: KeyStore)
    reads a, b, a.files, b.files
  {
    && a.files != null && b.files != null && b.key == Some(a.key)
    && a.records == b.records && a.files.View() == b.files.View()
  }

  /** Whatever is saved and deleted, and whichever writes fail, they stay so. */
  method ChangeBoth(a: Store, b: KeyStore, changes: seq<Change>, fails: seq<bool>) returns (ra: seq<Mutation>, rb: seq<Mutation>)
    requires Twins(a, b) && |fails| == |changes|
    modifies a`records, b`records, a.files, b.files
    ensures Twins(a, b) && ra == rb && |ra| == |changes|
  {
    ra, rb := [], [];
    for i := 0 to |changes|
      invariant Twins(a, b) && ra == rb && |ra| == i
    {
      var x, y;
      match changes[i] {
        case Saved(record) =>
          x := a.Save(record, fails[i]);
          y := b.SaveKey(record, fails[i]);
        case Deleted(id) =>
          x := a.Delete(id, fails[i]);
          y := b.DeleteKey(id, fails[i]);
      }
      ra, rb := ra + [x], rb + [y];
    }
  }
}
