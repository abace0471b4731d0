/**
 The cross-process writer lock: one file that is created only if absent, reclaimed when
 its holder is gone, and removed by the handle that wrote it. Any number of processes on
 one host, with crashes and reused process ids, against the one path.
 */
module StoreLock {
  import opened Text

  const MAX_ACQUIRE_ATTEMPTS: nat := 3

  // ---- The file's text ---------------------------------------------------------------

  datatype Info = Info(pid: nat, host: string, token: string)

  function Lines(text: string): (r: seq<string>)
    ensures |r| > 0
  {
    if text == "" then [""]
    else if text[0] == '\n' then [""] + Lines(text[1..])
    else var rest := Lines(text[1..]); [[text[0]] + rest[0]] + rest[1..]
  }

  function Body(pid: nat, host: string, token: string, now: string): string {
    Decimal(pid) + ("\n" + (host + ("\n" + (token + ("\n" + now)))))
  }

  /** Nothing for a text that is not a lock's: such a file is reclaimable. */
  function Parse(text: string): Option<Info> {
    var lines := Lines(text);
    if lines[0] == "" || !AllDigits(lines[0]) then None
    else if Value(lines[0]) == 0 then None
    else if |lines| < 2 || lines[1] == "" then None
    else if |lines| < 3 || lines[2] == "" then None
    else Some(Info(Value(lines[0]), lines[1], lines[2]))
  }

  predicate OneLine(s: string) {
    forall k | 0 <= k < |s| :: s[k] != '\n'
  }

  lemma {:induction false} FirstLine(line: string, rest: string)
    requires OneLine(line)
    ensures Lines(line + ("\n" + rest)) == [line] + Lines(rest)
  {
    var text := line + ("\n" + rest);
    if line == "" {
      assert text[1..] == rest;
    } else {
      FirstLine(line[1..], rest);
      assert text[1..] == line[1..] + ("\n" + rest);
      assert Lines(text[1..])[0] == line[1..] && Lines(text[1..])[1..] == Lines(rest);
      assert [text[0]] + line[1..] == line;
    }
  }

  /** What is written is what is read back. */
  lemma BodyParses(pid: nat, host: string, token: string, now: string)
    requires pid > 0 && host != "" && token != "" && OneLine(host) && OneLine(token)
    ensures Parse(Body(pid, host, token, now)) == Some(Info(pid, host, token))
  {
    DecimalValue(pid);
    FirstLine(Decimal(pid), host + ("\n" + (token + ("\n" + now))));
    FirstLine(host, token + ("\n" + now));
    FirstLine(token, now);
  }

  lemma {:induction false} LastLine(line: string)
    requires OneLine(line)
    ensures Lines(line) == [line]
  {
    if line != "" {
      LastLine(line[1..]);
      assert [line[0]] + line[1..] == line;
    }
  }

  lemma {:induction false} LineAndRest(text: string) returns (line: string, rest: Option<string>)
    ensures OneLine(line)
    ensures rest.None? ==> text == line && Lines(text) == [line]
    ensures rest.Some? ==> text == line + ("\n" + rest.value) && Lines(text) == [line] + Lines(rest.value)
  {
    if text == "" {
      line, rest := "", None;
    } else if text[0] == '\n' {
      line, rest := "", Some(text[1..]);
      assert text == "\n" + text[1..];
    } else {
      line, rest := LineAndRest(text[1..]);
      line := [text[0]] + line;
    }
  }

  /** A lock's text: digits that are a process id, a host and a token, each on its line, and anything after. */
  predicate IsLockText(text: string, digits: string, tail: string, info: Info) {
    && digits != "" && (forall k | 0 <= k < |digits| :: '0' <= digits[k] <= '9') && Value(digits) == info.pid > 0
    && OneLine(info.host) && info.host != "" && OneLine(info.token) && info.token != ""
    && text == digits + ("\n" + (info.host + ("\n" + (info.token + tail))))
    && (tail == "" || tail[0] == '\n')
  }

  ghost predicate IsLockOf(text: string, info: Info) {
    exists digits, tail :: IsLockText(text, digits, tail, info)
  }

  lemma TokenAndTail(token: string, tail: string)
    requires OneLine(token) && (tail == "" || tail[0] == '\n')
    ensures Lines(token + tail)[0] == token
  {
    if tail == "" {
      LastLine(token);
      assert token + tail == token;
    } else {
      FirstLine(token, tail[1..]);
      assert token + tail == token + ("\n" + tail[1..]);
    }
  }

  lemma LockTextParses(text: string, digits: string, tail: string, info: Info)
    requires IsLockText(text, digits, tail, info)
    ensures Parse(text) == Some(info)
  {
    FirstLine(digits, info.host + ("\n" + (info.token + tail)));
    FirstLine(info.host, info.token + tail);
    TokenAndTail(info.token, tail);
  }

  lemma ParsedIsLockText(text: string)
    requires Parse(text).Some?
    ensures IsLockOf(text, Parse(text).value)
  {
    var info := Parse(text).value;
    var digits, rest := LineAndRest(text);
    var host, rest2 := LineAndRest(rest.value);
    var token, rest3 := LineAndRest(rest2.value);
    var tail := if rest3.None? then "" else "\n" + rest3.value;
    assert token + tail == rest2.value;
    assert IsLockText(text, digits, tail, info);
  }

  /** A text is read as a lock exactly when it has such lines, and then as theirs. */
  lemma ParsesExactly(text: string, info: Info)
    ensures Parse(text) == Some(info) <==> IsLockOf(text, info)
  {
    if Parse(text) == Some(info) {
      ParsedIsLockText(text);
    }
    if IsLockOf(text, info) {
      var digits, tail :| IsLockText(text, digits, tail, info);
      LockTextParses(text, digits, tail, info);
    }
  }

  // ---- One acquire with nobody in between --------------------------------------------

  /** The file at the lock path, and whether it can be created and taken away at all. */
  class LockPath {
    var file: Option<string>
    const writable: bool
    const removable: bool

    constructor (file: Option<string>, writable: bool, removable: bool)
      ensures this.file == file && this.writable == writable && this.removable == removable
    {
      this.file := file;
      this.writable := writable;
      this.removable := removable;
    }

    /** Renaming the file away or removing it; a failure is not reported. */
    method Remove()
      modifies this
      ensures file == if removable then None else old(file)
    {
      if removable {
        file := None;
      }
    }
  }

  datatype Outcome = Acquired | Held | Unavailable

  function ReadInfo(file: Option<string>): Option<Info> {
    if file.None? then None else Parse(file.value)
  }

  /** The holder may be alive and is not us: the lock is left alone. */
  predicate Refuses(info: Option<Info>, pid: nat, host: string, alive: set<nat>) {
    info.Some? && (info.value.host != host || (info.value.pid != pid && info.value.pid in alive))
  }

  /** The file is the lock of another host's process, or of another live process here. */
  ghost predicate MayBeHeld(file: string, pid: nat, host: string, alive: set<nat>) {
    exists info :: IsLockOf(file, info) && (info.host != host || (info.pid != pid && info.pid in alive))
  }

  lemma RefusedIsHeld(file: string, pid: nat, host: string, alive: set<nat>)
    ensures Refuses(Parse(file), pid, host, alive) <==> MayBeHeld(file, pid, host, alive)
  {
    forall info ensures Parse(file) == Some(info) <==> IsLockOf(file, info) {
      ParsesExactly(file, info);
    }
  }

  /** The file is some lock, but not this one. */
  ghost predicate IsAnothers(file: string, own: Info) {
    exists info :: IsLockOf(file, info) && info != own
  }

  lemma OtherIsAnothers(file: string, own: Info)
    ensures Parse(file).Some? && Parse(file).value != own <==> IsAnothers(file, own)
  {
    forall info ensures Parse(file) == Some(info) <==> IsLockOf(file, info) {
      ParsesExactly(file, info);
    }
  }

  /**
   Undisturbed, an acquire succeeds unless the file cannot be created, names a holder that
   may be alive, or is there and cannot be taken away; then it is left as it was.
   */
  method AcquireStoreLock(path: LockPath, pid: nat, host: string, token: string, now: string, alive: set<nat>)
    returns (outcome: Outcome)
    modifies path
    ensures outcome.Unavailable? <==> !path.writable
    ensures outcome.Held? <==>
              && path.writable && old(path.file).Some?
              && (MayBeHeld(old(path.file).value, pid, host, alive) || !path.removable)
    ensures !outcome.Acquired? ==> path.file == old(path.file)
    ensures outcome.Acquired? ==> path.file == Some(Body(pid, host, token, now))
  {
    if path.file.Some? {
      RefusedIsHeld(path.file.value, pid, host, alive);
    }
    var attempt := 0;
    while attempt < MAX_ACQUIRE_ATTEMPTS
      invariant attempt <= MAX_ACQUIRE_ATTEMPTS
      invariant attempt == 0 || !path.removable ==> path.file == old(path.file)
      invariant attempt > 0 ==> path.writable && old(path.file).Some?
      invariant attempt > 0 && path.removable ==> attempt == 1 && path.file == None
      invariant attempt > 0 ==> !Refuses(ReadInfo(old(path.file)), pid, host, alive)
    {
      if !path.writable {
        return Unavailable;
      }
      if path.file.None? {
        path.file := Some(Body(pid, host, token, now));
        return Acquired;
      }
      var info := ReadInfo(path.file);
      if info.None? {
        path.Remove();
        attempt := attempt + 1;
        continue;
      }
      if info.value.host != host {
        return Held;
      }
      if info.value.pid == pid {
        path.Remove();
        attempt := attempt + 1;
        continue;
      }
      if info.value.pid !in alive {
        path.Remove();
        attempt := attempt + 1;
        continue;
      }
      return Held;
    }
    return Held;
  }

  /** The handle an acquire returns; only the first release does anything. */
  class Handle {
    const path: LockPath
    const own: Info
    var released: bool

    constructor (path: LockPath, own: Info)
      ensures this.path == path && this.own == own && !released
    {
      this.path := path;
      this.own := own;
      released := false;
    }

    /** A lock that names anybody else, or another handle of ours, is left alone. */
    method Release()
      modifies this, path
      ensures released
      ensures path.file ==
              if old(released) || !path.removable || (old(path.file).Some? && IsAnothers(old(path.file).value, own))
              then old(path.file) else None
    {
      if released {
        return;
      }
      released := true;
      if path.file.Some? {
        OtherIsAnothers(path.file.value, own);
      }
      var info := ReadInfo(path.file);
      if info.Some? && (info.value.pid != own.pid || info.value.host != own.host || info.value.token != own.token) {
        return;
      }
      path.Remove();
    }
  }
}
