/**
 The first-run pre-flight: whether a passphrase is needed at all, then either unlocking an
 existing store with at most three prompts or creating the credential store.
 */
module FirstRunSetup {
  import opened Text
  import opened EncryptedStore
  import StoreOpening
  import ProviderKeyStore

  const MAX_UNLOCK_ATTEMPTS: nat := 3

  // ---- What is on disk ---------------------------------------------------------------

  datatype Presence = PassphraseMode | OrphanedDescriptor | KeychainMode | FirstRun

  function ClassifyOne(disk: Disk): Presence {
    if disk.meta.Some? then (if disk.enc.Some? then PassphraseMode else OrphanedDescriptor)
    else if disk.enc.Some? then KeychainMode
    else FirstRun
  }

  predicate HasDescriptor(p: Presence) {
    match p
    case PassphraseMode => true
    case OrphanedDescriptor => true
    case KeychainMode => false
    case FirstRun => false
  }

  predicate AnyDescriptor(credential: Disk, providerKeys: Disk) {
    HasDescriptor(ClassifyOne(credential)) || HasDescriptor(ClassifyOne(providerKeys))
  }

  datatype Target = Credential | ProviderKeys | Nothing

  function UnlockTarget(credential: Presence, providerKeys: Presence): Target {
    if credential.PassphraseMode? then Credential
    else if providerKeys.PassphraseMode? then ProviderKeys
    else Nothing
  }

  datatype Attempt = Success | Retry | Skip

  function ClassifyUnlockAttempt(r: OpenResult): Attempt {
    if r.Opened? then Success
    else if r.why.Corrupt? || r.why.PassphraseInvalid? then Retry
    else Skip
  }

  // ---- The world it runs in ----------------------------------------------------------

  datatype Decline = Aborted | NonTty | Empty | Mismatch | Unsupported

  datatype Answer = Refused(reason: Decline) | Typed(passphrase: string)

  datatype Setup = Provider(passphrase: string) | Skipped | Abort

  datatype Line =
    | OrphanNotice(target: Target) | Remedy | BothOrphaned | Blocked
    | TransportHint | Explained(reason: Decline) | TryAgain | GaveUp | WhyCreate | CreateFailed

  /** What each open meets: the lock, and which accesses fail. */
  datatype Meets = Meets(lock: LockAnswer, env: Env)

  /** Each orphaned descriptor by name. */
  function Named(credentialAt: Presence, providerAt: Presence): (r: seq<Line>)
    ensures OrphanNotice(Credential) in r <==> credentialAt.OrphanedDescriptor?
    ensures OrphanNotice(ProviderKeys) in r <==> providerAt.OrphanedDescriptor?
  {
    (if credentialAt.OrphanedDescriptor? then [OrphanNotice(Credential)] else [])
    + (if providerAt.OrphanedDescriptor? then [OrphanNotice(ProviderKeys)] else [])
  }

  /** What is said of orphaned descriptors: their names, the remedy, and whether it takes both. */
  function OrphanNotices(credentialAt: Presence, providerAt: Presence): (r: seq<Line>)
    ensures Named(credentialAt, providerAt) <= r
    ensures Remedy in r <==> credentialAt.OrphanedDescriptor? || providerAt.OrphanedDescriptor?
  {
    Named(credentialAt, providerAt)
    + (if credentialAt.OrphanedDescriptor? || providerAt.OrphanedDescriptor? then [Remedy] else [])
    + (if credentialAt.OrphanedDescriptor? && providerAt.OrphanedDescriptor? then [BothOrphaned] else [])
  }

  /** The pre-flight's own open would ask for a passphrase. */
  predicate NeedsPassphrase(disk: Disk, probe: Meets) {
    OpenCredentialStore(disk, probe.lock, probe.env.(response := Declined)).1 == Failed(PassphraseDeclined)
  }

  /** What the create path answers: success exactly when the store opens, however it does. */
  function CreateAnswer(disk: Disk, m: Meets, answer: Answer): Setup {
    match answer
    case Refused(reason) => if reason.Aborted? then Abort else Skipped
    case Typed(passphrase) =>
      if OpenCredentialStore(disk, m.lock, m.env.(response := Given(passphrase))).1.Opened? then Provider(passphrase)
      else Skipped
  }

  /** The passphrase opens this store, and by decrypting its file rather than by the keychain. */
  predicate Unlocks(disk: Disk, passphrase: string) {
    && disk.meta.Some? && disk.meta.value.Meta? && disk.enc.Some?
    && LoadStoreFromFile(disk.enc, false, Derived(passphrase, disk.meta.value.salt, disk.meta.value.cost)).Opened?
  }

  // ---- The decision, written out -------------------------------------------------------

  /** Both files are there: a passphrase can be tried. */
  predicate Openable(disk: Disk) {
    disk.meta != None && disk.enc != None
  }

  predicate Orphaned(disk: Disk) {
    disk.meta != None && disk.enc == None
  }

  predicate SomeDescriptor(credential: Disk, providerKeys: Disk) {
    credential.meta != None || providerKeys.meta != None
  }

  function NoticesFor(credential: Disk, providerKeys: Disk): seq<Line> {
    if Orphaned(credential) && Orphaned(providerKeys) then
      [OrphanNotice(Credential), OrphanNotice(ProviderKeys), Remedy, BothOrphaned]
    else if Orphaned(credential) then [OrphanNotice(Credential), Remedy]
    else if Orphaned(providerKeys) then [OrphanNotice(ProviderKeys), Remedy]
    else []
  }

  lemma NoticesAreThese(credential: Disk, providerKeys: Disk)
    ensures OrphanNotices(ClassifyOne(credential), ClassifyOne(providerKeys)) == NoticesFor(credential, providerKeys)
  {
  }

  /** The open that verifies a passphrase: of the credential store if it has both files, else of the other. */
  function Verified(credential: Disk, providerKeys: Disk, m: Meets, passphrase: string): OpenResult {
    if Openable(credential) then OpenCredentialStore(credential, m.lock, m.env.(response := Given(passphrase))).1
    else OpenPersistent(providerKeys, m.env.(response := Given(passphrase))).1
  }

  /** A passphrase was typed and was wrong, or the file is damaged: ask again. */
  predicate AsksAgain(credential: Disk, providerKeys: Disk, m: Meets, answer: Answer) {
    && answer.Typed?
    && (|| Verified(credential, providerKeys, m, answer.passphrase) == Failed(Corrupt)
        || Verified(credential, providerKeys, m, answer.passphrase) == Failed(PassphraseInvalid))
  }

  /** What the last answer comes to. */
  predicate EndsWith(credential: Disk, providerKeys: Disk, m: Meets, answer: Answer, r: Setup) {
    match answer
    case Refused(reason) => r == if reason == Aborted then Abort else Skipped
    case Typed(passphrase) =>
      r == if Verified(credential, providerKeys, m, passphrase).Opened? then Provider(passphrase) else Skipped
  }

  /** It asks until an answer does not call for asking again, or three times; the last answer decides. */
  predicate UnlockRun(
    credential: Disk, providerKeys: Disk, meets: seq<Meets>, answers: seq<Answer>, prompts: nat, r: Setup)
    requires |meets| >= 3 && |answers| >= 3
  {
    if !Openable(credential) && !Openable(providerKeys) then prompts == 0 && r == Skipped
    else
      && 1 <= prompts <= 3
      && (forall k | 0 <= k < prompts - 1 :: AsksAgain(credential, providerKeys, meets[k], answers[k]))
      && (prompts < 3 ==> !AsksAgain(credential, providerKeys, meets[prompts - 1], answers[prompts - 1]))
      && EndsWith(credential, providerKeys, meets[prompts - 1], answers[prompts - 1], r)
  }

  /** A run that answers with a passphrase was given it last, and it unlocks. */
  lemma LastAnswerGiven(
    credential: Disk, providerKeys: Disk, meets: seq<Meets>, answers: seq<Answer>, prompts: nat, r: Setup)
    requires |meets| >= 3 && |answers| >= 3 && UnlockRun(credential, providerKeys, meets, answers, prompts, r)
    ensures r.Provider? ==>
              && prompts > 0 && answers[prompts - 1] == Typed(r.passphrase)
              && Unlocks(if Openable(credential) then credential else providerKeys, r.passphrase)
    ensures r.Abort? ==> prompts > 0 && answers[prompts - 1] == Refused(Aborted)
  {
  }

  lemma StoppedSays(credential: Disk, providerKeys: Disk, meets: seq<Meets>, answers: seq<Answer>, last: nat)
    requires |meets| > last && |answers| > last && !AsksAgain(credential, providerKeys, meets[last], answers[last])
    ensures LoopSays(credential, providerKeys, meets, answers, last + 1) == Tries(last) + RefusedLines(answers[last])
  {
  }

  lemma GaveUpSays(credential: Disk, providerKeys: Disk, meets: seq<Meets>, answers: seq<Answer>)
    requires |meets| >= 3 && |answers| >= 3 && AllAskAgain(credential, providerKeys, meets, answers, 3)
    ensures LoopSays(credential, providerKeys, meets, answers, 3) == Tries(3) + [GaveUp]
  {
  }

  lemma Regroup(now: seq<Line>, before: seq<Line>, a: seq<Line>, b: seq<Line>)
    requires now == before + a + b
    ensures now == before + (a + b)
  {
  }

  lemma AttemptIsClassified(credential: Disk, providerKeys: Disk, m: Meets, passphrase: string)
    ensures var attempt := ClassifyUnlockAttempt(Verified(credential, providerKeys, m, passphrase));
            && (attempt.Retry? <==> AsksAgain(credential, providerKeys, m, Typed(passphrase)))
            && (attempt.Success? <==> Verified(credential, providerKeys, m, passphrase).Opened?)
  {
  }

  lemma TargetIsOpenable(credential: Disk, providerKeys: Disk)
    ensures var target := UnlockTarget(ClassifyOne(credential), ClassifyOne(providerKeys));
            && (target.Nothing? <==> !Openable(credential) && !Openable(providerKeys))
            && (target.Credential? <==> Openable(credential))
            && (target.Credential? ==> ClassifyOne(credential).PassphraseMode?)
            && (target.ProviderKeys? ==> ClassifyOne(providerKeys).PassphraseMode?)
  {
  }

  lemma LastAnswerDecides(
    credential: Disk, providerKeys: Disk, meets: seq<Meets>, answers: seq<Answer>, last: nat, r: Setup)
    requires |meets| >= 3 && |answers| >= 3 && last < 3 && (Openable(credential) || Openable(providerKeys))
    requires AllAskAgain(credential, providerKeys, meets, answers, last)
    requires last < 2 ==> !AsksAgain(credential, providerKeys, meets[last], answers[last])
    requires EndsWith(credential, providerKeys, meets[last], answers[last], r)
    ensures UnlockRun(credential, providerKeys, meets, answers, last + 1, r)
  {
    EachAsksAgain(credential, providerKeys, meets, answers, last);
  }

  lemma AllAsked(credential: Disk, providerKeys: Disk, meets: seq<Meets>, answers: seq<Answer>)
    requires |meets| >= 3 && |answers| >= 3 && (Openable(credential) || Openable(providerKeys))
    requires AllAskAgain(credential, providerKeys, meets, answers, 3)
    ensures UnlockRun(credential, providerKeys, meets, answers, 3, Skipped)
  {
    EachAsksAgain(credential, providerKeys, meets, answers, 3);
  }

  predicate AllAskAgain(credential: Disk, providerKeys: Disk, meets: seq<Meets>, answers: seq<Answer>, n: nat)
    requires |meets| >= n && |answers| >= n
  {
    n == 0
    || (AllAskAgain(credential, providerKeys, meets, answers, n - 1)
        && AsksAgain(credential, providerKeys, meets[n - 1], answers[n - 1]))
  }

  lemma {:induction false} EachAsksAgain(
    credential: Disk, providerKeys: Disk, meets: seq<Meets>, answers: seq<Answer>, n: nat)
    requires |meets| >= n && |answers| >= n && AllAskAgain(credential, providerKeys, meets, answers, n)
    ensures forall k | 0 <= k < n :: AsksAgain(credential, providerKeys, meets[k], answers[k])
  {
    if n > 0 {
      EachAsksAgain(credential, providerKeys, meets, answers, n - 1);
    }
  }

  /** What is said of a prompt that was not answered; nothing of one that was aborted. */
  function RefusedLines(answer: Answer): seq<Line> {
    match answer
    case Typed(_) => []
    case Refused(reason) => if reason == Aborted then [] else [Explained(reason), TransportHint]
  }

  function Tries(n: nat): seq<Line> {
    if n == 0 then [] else Tries(n - 1) + [TryAgain]
  }

  /** One line for each wrong try, and then the end or why the last prompt was not answered. */
  function LoopSays(
    credential: Disk, providerKeys: Disk, meets: seq<Meets>, answers: seq<Answer>, prompts: nat): seq<Line>
    requires |meets| >= prompts && |answers| >= prompts > 0
  {
    if AsksAgain(credential, providerKeys, meets[prompts - 1], answers[prompts - 1]) then Tries(prompts) + [GaveUp]
    else Tries(prompts - 1) + RefusedLines(answers[prompts - 1])
  }

  /** What the unlock path says: the orphans, and then why it does not ask or what the prompts came to. */
  function UnlockSays(
    credential: Disk, providerKeys: Disk, meets: seq<Meets>, answers: seq<Answer>, prompts: nat): seq<Line>
    requires |meets| >= prompts && |answers| >= prompts
  {
    NoticesFor(credential, providerKeys)
    + if prompts == 0 then [Blocked] else LoopSays(credential, providerKeys, meets, answers, prompts)
  }

  /** Why a passphrase is wanted, and what became of it. */
  function CreateSays(answer: Answer, r: Setup): seq<Line> {
    [WhyCreate] + (if answer.Typed? && r == Skipped then [CreateFailed] else RefusedLines(answer))
  }

  /** Success exactly when the store opens: by a keychain that is there by now, or by being created. */
  predicate CreateRun(m: Meets, answer: Answer, r: Setup) {
    match answer
    case Refused(reason) => r == if reason == Aborted then Abort else Skipped
    case Typed(passphrase) =>
      r == if && m.lock == Acquired
              && (|| m.env.keychain.Loaded? || m.env.keychain.Created?
                  || (m.env.keychain == NoKeychain && StoreOpening.Usable(passphrase)
                      && !m.env.deriveFails && !m.env.metaWriteFails && !m.env.encWriteFails))
           then Provider(passphrase) else Skipped
  }

  lemma CreateAnswersSo(m: Meets, answer: Answer)
    ensures CreateRun(m, answer, CreateAnswer(Disk(None, None), m, answer))
  {
    if answer.Typed? {
      StoreOpening.UsableIsGood(answer.passphrase);
    }
  }

  /** The own open would ask: under the lock, with a descriptor, or with neither file nor keychain. */
  predicate WouldAsk(disk: Disk, probe: Meets) {
    probe.lock == Acquired && StoreOpening.Asks(disk, probe.env)
  }

  lemma NeedsIsWouldAsk(disk: Disk, probe: Meets)
    ensures NeedsPassphrase(disk, probe) <==> WouldAsk(disk, probe)
  {
    StoreOpening.FailsExactly(disk, probe.env.(response := Declined), PassphraseDeclined);
  }

  class World {
    const credential: Files
    const provider: ProviderKeyStore.KeyFiles
    var prompts: nat
    var locked: bool
    var lines: seq<Line>
    ghost var beforeAsking: seq<Line>

    constructor (credential: Files, provider: ProviderKeyStore.KeyFiles)
      ensures this.credential == credential && this.provider == provider
      ensures prompts == 0 && !locked && lines == []
    {
      this.credential, this.provider := credential, provider;
      prompts, locked, lines := 0, false, [];
    }

    /** The credential store's open: the lock is kept exactly by a store that is open. */
    method OpenCredential(m: Meets, response: Response) returns (r: OpenResult)
      requires !locked
      modifies this`locked, credential
      ensures var (writes, result, kept) :=
                OpenCredentialStore(old(credential.View()), m.lock, m.env.(response := response));
              r == result && locked == kept && credential.View() == Last(old(credential.View()), writes)
    {
      match m.lock
      case Held => return Failed(Locked);
      case LockUnavailable => return Failed(Unavailable);
      case Acquired =>
        r := credential.Open(m.env.(response := response));
        locked := r.Opened?;
    }

    method CloseCredential()
      modifies this`locked
      ensures !locked
    {
      locked := false;
    }

    method Say(line: Line)
      modifies this`lines
      ensures lines == old(lines) + [line]
    {
      lines := lines + [line];
    }

    method DeclineResult(reason: Decline) returns (r: Setup)
      modifies this`lines
      ensures r == if reason.Aborted? then Abort else Skipped
      ensures lines == old(lines) + if reason.Aborted? then [] else [Explained(reason), TransportHint]
    {
      if reason.Aborted? {
        return Abort;
      }
      Say(Explained(reason));
      Say(TransportHint);
      return Skipped;
    }

    /** One prompt; the first one finds on screen what has been said so far. */
    method Ask()
      modifies this`prompts, this`beforeAsking
      ensures prompts == old(prompts) + 1
      ensures beforeAsking == if old(prompts) == 0 then lines else old(beforeAsking)
    {
      if prompts == 0 {
        beforeAsking := lines;
      }
      prompts := prompts + 1;
    }

    /** Every orphaned descriptor is named before the first prompt. */
    method ExplainOrphans(credentialAt: Presence, providerAt: Presence)
      modifies this`lines
      ensures lines == old(lines) + OrphanNotices(credentialAt, providerAt)
    {
      ghost var before := lines;
      if credentialAt.OrphanedDescriptor? {
        Say(OrphanNotice(Credential));
      }
      if providerAt.OrphanedDescriptor? {
        Say(OrphanNotice(ProviderKeys));
      }
      assert lines == before + Named(credentialAt, providerAt);
      if credentialAt.OrphanedDescriptor? || providerAt.OrphanedDescriptor? {
        Say(Remedy);
      }
      if credentialAt.OrphanedDescriptor? && providerAt.OrphanedDescriptor? {
        Say(BothOrphaned);
      }
    }

    /** One verifying open of the target under the passphrase typed. */
    method Verify(target: Target, m: Meets, passphrase: string) returns (r: OpenResult)
      requires !locked && !target.Nothing?
      requires target.Credential? ==> ClassifyOne(credential.View()).PassphraseMode?
      requires target.ProviderKeys? ==> ClassifyOne(provider.View()).PassphraseMode?
      modifies this`locked, credential, provider
      ensures !locked && credential.View() == old(credential.View()) && provider.View() == old(provider.View())
      ensures r == if target.Credential? then
                     OpenCredentialStore(credential.View(), m.lock, m.env.(response := Given(passphrase))).1
                   else OpenPersistent(provider.View(), m.env.(response := Given(passphrase))).1
      ensures r.Opened? ==> Unlocks(if target.Credential? then credential.View() else provider.View(), passphrase)
    {
      if target.Credential? {
        r := OpenCredential(m, Given(passphrase));
        if r.Opened? {
          CloseCredential();
        }
      } else {
        r := provider.Open(m.env.(response := Given(passphrase)));
      }
    }

    /** One prompt of the unlock loop: whether to ask again, and what it comes to if not. */
    method Attempt(target: Target, m: Meets, answer: Answer) returns (again: bool, r: Setup)
      requires !locked && target == UnlockTarget(ClassifyOne(credential.View()), ClassifyOne(provider.View()))
      requires !target.Nothing?
      modifies this`locked, this`lines, this`prompts, this`beforeAsking, credential, provider
      ensures !locked && prompts == old(prompts) + 1
      ensures beforeAsking == if old(prompts) == 0 then old(lines) else old(beforeAsking)
      ensures credential.View() == old(credential.View()) && provider.View() == old(provider.View())
      ensures again <==> AsksAgain(credential.View(), provider.View(), m, answer)
      ensures !again ==> EndsWith(credential.View(), provider.View(), m, answer, r)
      ensures lines == old(lines) + if again then [TryAgain] else RefusedLines(answer)
    {
      TargetIsOpenable(credential.View(), provider.View());
      Ask();
      again := false;
      if answer.Refused? {
        r := DeclineResult(answer.reason);
        return;
      }
      AttemptIsClassified(credential.View(), provider.View(), m, answer.passphrase);
      var verify := Verify(target, m, answer.passphrase);
      if verify.Opened? {
        return false, Provider(answer.passphrase);
      }
      if ClassifyUnlockAttempt(verify).Skip? {
        return false, Skipped;
      }
      Say(TryAgain);
      return true, Skipped;
    }

    /** Prompts until an answer does not call for another, at most three times. */
    method PromptLoop(target: Target, meets: seq<Meets>, answers: seq<Answer>) returns (r: Setup)
      requires !locked && prompts == 0 && |meets| >= MAX_UNLOCK_ATTEMPTS && |answers| >= MAX_UNLOCK_ATTEMPTS
      requires target == UnlockTarget(ClassifyOne(credential.View()), ClassifyOne(provider.View())) && !target.Nothing?
      modifies this, credential, provider
      ensures !locked && 1 <= prompts <= MAX_UNLOCK_ATTEMPTS && beforeAsking == old(lines)
      ensures credential.View() == old(credential.View()) && provider.View() == old(provider.View())
      ensures UnlockRun(credential.View(), provider.View(), meets, answers, prompts, r)
      ensures lines == old(lines) + LoopSays(credential.View(), provider.View(), meets, answers, prompts)
    {
      ghost var c, p := credential.View(), provider.View();
      TargetIsOpenable(c, p);
      for attempt := 0 to MAX_UNLOCK_ATTEMPTS
        invariant !locked && prompts == attempt
        invariant lines == old(lines) + Tries(attempt)
        invariant attempt > 0 ==> beforeAsking == old(lines)
        invariant credential.View() == c && provider.View() == p
        invariant AllAskAgain(c, p, meets, answers, attempt)
      {
        var again;
        again, r := Attempt(target, meets[attempt], answers[attempt]);
        if !again {
          LastAnswerDecides(c, p, meets, answers, attempt, r);
          StoppedSays(c, p, meets, answers, attempt);
          Regroup(lines, old(lines), Tries(attempt), RefusedLines(answers[attempt]));
          return;
        }
      }
      Say(GaveUp);
      r := Skipped;
      AllAsked(c, p, meets, answers);
      GaveUpSays(c, p, meets, answers);
      Regroup(lines, old(lines), Tries(3), [GaveUp]);
    }

    /** Up to three prompts, each verified by opening the store; nothing is ever written. */
    method RunUnlockLoop(meets: seq<Meets>, answers: seq<Answer>) returns (r: Setup)
      requires !locked && prompts == 0
      requires |meets| >= MAX_UNLOCK_ATTEMPTS && |answers| >= MAX_UNLOCK_ATTEMPTS
      modifies this, credential, provider
      ensures !locked && prompts <= MAX_UNLOCK_ATTEMPTS
      ensures prompts > 0 ==> beforeAsking == old(lines) + NoticesFor(credential.View(), provider.View())
      ensures credential.View() == old(credential.View()) && provider.View() == old(provider.View())
      ensures UnlockRun(credential.View(), provider.View(), meets, answers, prompts, r)
      ensures lines == old(lines) + UnlockSays(credential.View(), provider.View(), meets, answers, prompts)
    {
      var credentialAt, providerAt := ClassifyOne(credential.View()), ClassifyOne(provider.View());
      TargetIsOpenable(credential.View(), provider.View());
      NoticesAreThese(credential.View(), provider.View());
      ExplainOrphans(credentialAt, providerAt);
      var target := UnlockTarget(credentialAt, providerAt);
      if target.Nothing? {
        Say(Blocked);
        Regroup(lines, old(lines), NoticesFor(credential.View(), provider.View()), [Blocked]);
        return Skipped;
      }
      r := PromptLoop(target, meets, answers);
      Regroup(lines, old(lines), NoticesFor(credential.View(), provider.View()),
              LoopSays(credential.View(), provider.View(), meets, answers, prompts));
    }

    /**
     One prompt, then the store is opened under the answer before success is reported. The
     keychain is asked again: a store has been created under the answer exactly when it still
     has none, for with a keychain the store opens by its key and nothing is written.
     */
    method RunCreatePath(m: Meets, answer: Answer) returns (r: Setup)
      requires !locked && prompts == 0
      requires credential.View() == Disk(None, None)
      modifies this, credential
      ensures !locked && prompts == 1 && provider.View() == old(provider.View())
      ensures r == CreateAnswer(old(credential.View()), m, answer)
      ensures r.Provider? ==> answer == Typed(r.passphrase)
      ensures r.Provider? ==> (Unlocks(credential.View(), r.passphrase) <==> m.env.keychain.NoKeychain?)
      ensures !m.env.keychain.NoKeychain? ==> credential.View() == old(credential.View())
      ensures !r.Provider? ==> credential.enc == None
      ensures r.Abort? ==> answer == Refused(Aborted)
      ensures CreateRun(m, answer, r)
      ensures lines == old(lines) + CreateSays(answer, r)
    {
      CreateAnswersSo(m, answer);
      Say(WhyCreate);
      Ask();
      if answer.Refused? {
        r := DeclineResult(answer.reason);
        return;
      }
      CreateStep(m, answer.passphrase);
      var created := OpenCredential(m, Given(answer.passphrase));
      if created.Opened? {
        CloseCredential();
        return Provider(answer.passphrase);
      }
      Say(CreateFailed);
      return Skipped;
    }

    /** A passphrase is needed and somebody can be asked: descriptors decide between the two paths. */
    method RunByPresence(meets: seq<Meets>, answers: seq<Answer>) returns (r: Setup)
      requires !locked && prompts == 0
      requires |meets| >= MAX_UNLOCK_ATTEMPTS && |answers| >= MAX_UNLOCK_ATTEMPTS
      requires credential.View().meta.None? ==> credential.View().enc.None?
      modifies this, credential, provider
      ensures !locked && prompts <= MAX_UNLOCK_ATTEMPTS && provider.View() == old(provider.View())
      ensures SomeDescriptor(old(credential.View()), provider.View()) || !meets[0].env.keychain.NoKeychain? ==>
                credential.View() == old(credential.View())
      ensures prompts > 0 && SomeDescriptor(old(credential.View()), provider.View()) ==>
                beforeAsking ==
                old(lines) + NoticesFor(old(credential.View()), provider.View())
      ensures if SomeDescriptor(old(credential.View()), provider.View()) then
                && UnlockRun(credential.View(), provider.View(), meets, answers, prompts, r)
                && lines == old(lines) + UnlockSays(credential.View(), provider.View(), meets, answers, prompts)
              else
                && prompts == 1 && CreateRun(meets[0], answers[0], r)
                && lines == old(lines) + CreateSays(answers[0], r)
                && (r.Provider? ==> (Unlocks(credential.View(), r.passphrase) <==> meets[0].env.keychain.NoKeychain?))
      ensures !r.Provider? ==> credential.enc == old(credential.enc)
    {
      NoticesAreThese(credential.View(), provider.View());
      if AnyDescriptor(credential.View(), provider.View()) {
        r := RunUnlockLoop(meets, answers);
      } else {
        r := RunCreatePath(meets[0], answers[0]);
      }
    }

    /**
     The pre-flight. It never creates a store when either descriptor is there, explains every
     orphan before it asks, asks at most three times, leaves no lock held, and writes no store
     file unless it answers with a passphrase. A store then opens under that passphrase, or
     there was no descriptor and the keychain came back before the create step; in that case
     none does.
     */
    method RunFirstRunSetup(
      persistent: bool, hasTransport: bool, interactive: bool,
      probe: Meets, meets: seq<Meets>, answers: seq<Answer>)
      returns (r: Setup)
      requires !locked && prompts == 0
      requires |meets| >= MAX_UNLOCK_ATTEMPTS && |answers| >= MAX_UNLOCK_ATTEMPTS
      modifies this, credential, provider
      ensures !locked && prompts <= MAX_UNLOCK_ATTEMPTS
      ensures prompts > 0 && SomeDescriptor(old(credential.View()), provider.View()) ==>
                beforeAsking ==
                old(lines) + NoticesFor(old(credential.View()), provider.View())
      ensures provider.View() == old(provider.View())
      ensures SomeDescriptor(old(credential.View()), provider.View()) || !meets[0].env.keychain.NoKeychain? ==>
                credential.View() == old(credential.View())
      ensures r.Provider? ==>
                && prompts > 0 && answers[prompts - 1] == Typed(r.passphrase)
                && (Unlocks(credential.View(), r.passphrase) || Unlocks(provider.View(), r.passphrase)
                    <==> SomeDescriptor(old(credential.View()), provider.View()) || meets[0].env.keychain.NoKeychain?)
      ensures !persistent || hasTransport || !WouldAsk(old(credential.View()), probe) ==>
                r == Skipped && prompts == 0 && lines == old(lines) && credential.View() == old(credential.View())
      ensures persistent && !hasTransport && WouldAsk(old(credential.View()), probe) && !interactive ==>
                r == Skipped && lines == old(lines) + [TransportHint]
      ensures persistent && !hasTransport && WouldAsk(old(credential.View()), probe) && interactive ==>
                if SomeDescriptor(old(credential.View()), provider.View()) then
                  && UnlockRun(credential.View(), provider.View(), meets, answers, prompts, r)
                  && lines == old(lines) + UnlockSays(credential.View(), provider.View(), meets, answers, prompts)
                else
                  && prompts == 1 && CreateRun(meets[0], answers[0], r)
                  && lines == old(lines) + CreateSays(answers[0], r)
      ensures !r.Provider? ==> credential.enc == old(credential.enc)
      ensures !persistent || hasTransport || !interactive ==>
                prompts == 0 && credential.View() == old(credential.View())
      ensures r.Abort? ==> prompts > 0 && answers[prompts - 1] == Refused(Aborted)
    {
      if !persistent {
        return Skipped;
      }
      if hasTransport {
        return Skipped;
      }
      DeclinedOpenWritesNothing(credential.View(), probe.env.(response := Declined));
      NeedsIsWouldAsk(credential.View(), probe);
      var asked := OpenCredential(probe, Declined);
      if asked.Opened? {
        CloseCredential();
        return Skipped;
      }
      if !asked.why.PassphraseDeclined? {
        return Skipped;
      }
      if !interactive {
        Say(TransportHint);
        return Skipped;
      }
      r := RunByPresence(meets, answers);
      if SomeDescriptor(old(credential.View()), provider.View()) {
        LastAnswerGiven(credential.View(), provider.View(), meets, answers, prompts, r);
      }
    }
  }

  const QUIET := Env(NoKeychain, Declined, 1, false, false, false, false, false, false)

  /**
   A keychain that comes back between the probe and the create step: the pre-flight answers
   with the passphrase typed, no store opens under it, and nothing has been written.
   */
  method KeychainComesBack() returns (r: Setup, credential: Disk, providerKeys: Disk)
    ensures r == Provider("secret")
    ensures !Unlocks(credential, "secret") && !Unlocks(providerKeys, "secret")
    ensures credential == Disk(None, None)
  {
    var files := new Files(Disk(None, None));
    var keys := new ProviderKeyStore.KeyFiles(Disk(None, None));
    var world := new World(files, keys);
    var later := Meets(Acquired, QUIET.(keychain := Loaded(0)));
    r := world.RunFirstRunSetup(
      true, false, true, Meets(Acquired, QUIET), [later, later, later], [Typed("secret"), Typed(""), Typed("")]);
    credential, providerKeys := files.View(), keys.View();
  }

  /** Probing with a provider that always declines writes nothing, and tells why it failed. */
  lemma DeclinedOpenWritesNothing(disk: Disk, env: Env)
    requires env.response.Declined?
    ensures OpenPersistent(disk, env).0 == []
    ensures OpenPersistent(disk, env).1 == Failed(PassphraseDeclined) && disk.meta.None? ==>
              disk.enc.None? && env.keychain.NoKeychain?
  {
  }

  /** The open of the create step: what it opens is sealed under the answer unless there is a keychain. */
  lemma CreateStep(m: Meets, passphrase: string)
    ensures var empty := Disk(None, None);
            var (writes, result, kept) :=
              OpenCredentialStore(empty, m.lock, m.env.(response := Given(passphrase)));
            && (result.Opened? ==> (Unlocks(Last(empty, writes), passphrase) <==> m.env.keychain.NoKeychain?))
            && (!m.env.keychain.NoKeychain? ==> writes == [])
            && (result.Failed? ==> Last(empty, writes).enc == None)
  {
    EmptyOpens(Derived(passphrase, m.env.freshSalt, DEFAULT_COST));
  }

  lemma EmptyOpens(key: Key)
    ensures LoadStoreFromFile(Some(Seal(key, [])), false, key) == Opened(key, [])
  {
  }
}
