/**
 * The libssh2 client backend: its non-blocking adapters over a scripted channel or
 * session primitive, its ordered authentication procedure, its host-key policy table,
 * and the guards on `read` and `send`. The session's shutdown flag is a parameter,
 * fixed for the duration of one call.
 */
module LibSSH2Client {
  import opened Common
  import opened Enums
  import opened Adapters

  /** `LIBSSH2_ERROR_EAGAIN`. */
  const EAGAIN: int := -37

  /**
   * What a library call returns: an integer code or some other object, or `Raises` when
   * the call raises. `_block` does not catch, so an exception ends the retries like any
   * result that is not the "try again" code, and escapes to the caller.
   */
  datatype CallResult = Code(code: int) | Object(id: nat) | Raises

  /** `_block`: skipped under shutdown, otherwise the first result that is not `EAGAIN`. */
  method Block(shutdown: bool, kwargs: map<string, KwValue>, script: seq<CallResult>)
    returns (r: BlockOutcome<CallResult>, received: map<string, KwValue>)
    ensures shutdown ==> r == Skipped
    ensures !shutdown ==> r == FirstFrom(script, Code(EAGAIN), 0) && received == ForwardedKwargs(kwargs)
  {
    var waits;
    r, received, waits := Adapters.Block(shutdown, Code(EAGAIN), kwargs, script);
  }

  /**
   * `_block_write`: while fewer than `len(data)` bytes are written, wait on the socket and
   * hand the primitive the unwritten suffix. Under shutdown the loop spins without calls.
   */
  method BlockWrite(shutdown: bool, data: seq<byte>, script: seq<WriteStep>) returns (r: WriteOutcome, waits: nat)
    ensures r == WriteSpec(shutdown, data, script)
    ensures r.Wrote? || r.WriteRaised? ==> waits == |r.passed|
  {
    var total: nat := 0;
    var passed: seq<seq<byte>> := [];
    var k := 0;
    waits := 0;
    while total < |data|
      invariant 0 <= k <= |script| && |passed| == k && waits == k
      invariant !shutdown ==> WriteSpec(shutdown, data, script) == Feed(data, script, k, total, passed)
      invariant shutdown ==> k == 0 && total == 0
      decreases |script| - k
    {
      if shutdown {
        return Spins, waits;
      }
      if k == |script| {
        return WriteUnanswered(passed), waits;
      }
      if script[k].WriteFails? {
        waits := waits + 1;
        return WriteRaised(passed + [data[total..]]), waits;
      }
      waits := waits + 1;
      passed := passed + [data[total..]];
      total := total + script[k].written;
      k := k + 1;
    }
    r := Wrote(total, passed);
  }

  /**
   * `_read_iter`: a wait then a read, repeated; every positive read yields `data[0:size]`,
   * an `EAGAIN` is retried once more before an impatient iteration gives up, and any other
   * size ends the generator. Exceptions from the primitive escape. `waits` counts the
   * waits that a read followed.
   */
  method ReadIter(shutdown: bool, block: bool, maxRead: int, script: seq<ReadStep>) returns (r: ReadRun, waits: nat)
    ensures r == ReadSpec(shutdown, block, maxRead, EAGAIN, false, script)
    ensures waits == r.calls
  {
    var impatient := Impatient(block, maxRead, EAGAIN);
    ghost var spec := ReadSpec(shutdown, block, maxRead, EAGAIN, false, script);
    var chunks: seq<seq<byte>> := [];
    waits := 0;
    if shutdown {
      return ReadRun([], 0, Stopped), waits;
    }
    if |script| == 0 {
      return ReadRun(chunks, 0, ReadUnanswered), waits;
    }
    waits := waits + 1;
    if script[0].Fails? {
      return ReadRun(chunks, 1, Propagated), waits;
    }
    var size, data := script[0].size, script[0].data;
    var k := 1;
    ghost var prev := Start;
    while size == EAGAIN || size > 0
      invariant 1 <= k <= |script| && waits == k
      invariant script[k - 1] == ReadStep.Read(size, data)
      invariant spec == ReadFrom(script, k - 1, EAGAIN, impatient, false, prev, chunks)
      invariant impatient && size == EAGAIN ==> prev != AfterAgain
      decreases |script| - k
    {
      ghost var k0 := k;
      if size == EAGAIN {
        if k == |script| {
          return ReadRun(chunks, k, ReadUnanswered), waits;
        }
        waits := waits + 1;
        if script[k].Fails? {
          return ReadRun(chunks, k + 1, Propagated), waits;
        }
        size, data := script[k].size, script[k].data;
        k := k + 1;
        prev := AfterAgain;
      }
      if size == EAGAIN && impatient {
        return ReadRun(chunks, k, Stopped), waits;
      }
      while size > 0
        invariant 1 <= k <= |script| && waits == k
        invariant script[k - 1] == ReadStep.Read(size, data)
        invariant spec == ReadFrom(script, k - 1, EAGAIN, impatient, false, prev, chunks)
        invariant impatient && size == EAGAIN ==> prev != AfterAgain
        invariant k > k0 || size > 0
        decreases |script| - k
      {
        chunks := chunks + [Chunk(data, size)];
        prev := AfterData;
        if k == |script| {
          return ReadRun(chunks, k, ReadUnanswered), waits;
        }
        waits := waits + 1;
        if script[k].Fails? {
          return ReadRun(chunks, k + 1, Propagated), waits;
        }
        size, data := script[k].size, script[k].data;
        k := k + 1;
      }
    }
    r := ReadRun(chunks, k, Stopped);
  }

  /** One authentication call `_auth` can make. */
  datatype Attempt =
    | AgentAuth
    | KeyFileAuth(path: string, passphrase: string)
    | PasswordAuth(password: string)
    | KeyboardInteractive(password: string)

  /** The name `_auth` records for an attempt. */
  function MethodName(a: Attempt): string {
    match a
    case AgentAuth => "publickey"
    case KeyFileAuth(_, _) => "publickey"
    case PasswordAuth(_) => "password"
    case KeyboardInteractive(_) => "keyboard-interactive"
  }

  /** The de-duplicated names of the attempts made, as the failure exception carries them. */
  function Names(attempts: seq<Attempt>): set<string> {
    set a | a in attempts :: MethodName(a)
  }

  /** `key_filepath` as a list: a single path becomes a one-element list, anything else none. */
  function KeyList(keyFilepath: Option<KeyPaths>): seq<string> {
    match keyFilepath
    case None => []
    case Some(OnePath(p)) => [p]
    case Some(PathList(ps)) => ps
    case Some(OtherValue) => []
  }

  /** One key-file attempt per listed path that exists and is a regular file, in list order. */
  function KeyAttempts(paths: seq<string>, files: set<string>, passphrase: string): seq<Attempt> {
    if |paths| == 0 then []
    else (if paths[0] in files then [KeyFileAuth(paths[0], passphrase)] else [])
         + KeyAttempts(paths[1..], files, passphrase)
  }

  /**
   * Every attempt `_auth` would make if none succeeded, in order: the agent, the key
   * files (both only when publickey is offered), then password and keyboard-interactive
   * when a password was given and the server offers them.
   */
  function Plan(supported: seq<string>, password: Option<string>, allowAgent: bool,
                keyFilepath: Option<KeyPaths>, passphrase: Option<string>, files: set<string>): seq<Attempt>
  {
    var publickey := "publickey" in supported;
    (if publickey && allowAgent then [AgentAuth] else [])
    + (if publickey then KeyAttempts(KeyList(keyFilepath), files, (if passphrase.Some? then passphrase.value else "")) else [])
    + PasswordAttempts(supported, password)
  }

  /** The attempts made with a password, when one was given: password, then keyboard-interactive. */
  function PasswordAttempts(supported: seq<string>, password: Option<string>): seq<Attempt> {
    (if password.Some? && "password" in supported then [PasswordAuth(password.value)] else [])
    + (if password.Some? && "keyboard-interactive" in supported then [KeyboardInteractive(password.value)] else [])
  }

  /** How `_auth` ends: authenticated, the failure exception, or the name of the list unbound. */
  datatype AuthResult = AuthSucceeded | AuthFailed(tried: set<string>) | TriedUnbound
  /** Whether the session is authenticated after an attempt: it already was, or the server accepted it. */
  predicate Accepts(authenticated: bool, accepted: set<Attempt>, a: Attempt) {
    authenticated || a in accepted
  }

  predicate AllRejected(attempts: seq<Attempt>, authenticated: bool, accepted: set<Attempt>) {
    forall j :: 0 <= j < |attempts| ==> !Accepts(authenticated, accepted, attempts[j])
  }

  predicate LastAccepted(attempts: seq<Attempt>, authenticated: bool, accepted: set<Attempt>) {
    |attempts| > 0 && Accepts(authenticated, accepted, attempts[|attempts| - 1])
  }

  /**
   * The attempts made follow the plan, every one before the last was rejected, and they
   * stop short of the plan only at an accepted one.
   */
  predicate InPlanOrder(plan: seq<Attempt>, attempts: seq<Attempt>, authenticated: bool, accepted: set<Attempt>) {
    && attempts <= plan
    && (forall j :: 0 <= j < |attempts| - 1 ==> !Accepts(authenticated, accepted, attempts[j]))
    && (|attempts| < |plan| ==> LastAccepted(attempts, authenticated, accepted))
  }

  /** One `_auth_attempt`: make the next planned attempt and ask whether the session is now authenticated. */
  method TryNext(a: Attempt, authenticated: bool, accepted: set<Attempt>, ghost plan: seq<Attempt>,
                 attempts: seq<Attempt>, ghost rest: seq<Attempt>)
    returns (attempts': seq<Attempt>, ghost rest': seq<Attempt>, ok: bool)
    requires plan == attempts + rest && |rest| > 0 && rest[0] == a
    requires AllRejected(attempts, authenticated, accepted)
    ensures attempts' == attempts + [a] && rest' == rest[1..] && plan == attempts' + rest'
    ensures ok == Accepts(authenticated, accepted, a)
    ensures ok ==> InPlanOrder(plan, attempts', authenticated, accepted) && LastAccepted(attempts', authenticated, accepted)
    ensures !ok ==> AllRejected(attempts', authenticated, accepted)
  {
    attempts' := attempts + [a];
    rest' := rest[1..];
    ok := authenticated || a in accepted;
    assert attempts'[..|attempts'| - 1] == attempts;
  }

  /** The `for private_key in key_filepath` loop of `_auth`: one attempt per existing key file. */
  method TryKeys(paths: seq<string>, files: set<string>, pp: string, authenticated: bool, accepted: set<Attempt>,
                 ghost plan: seq<Attempt>, attempts: seq<Attempt>, ghost rest: seq<Attempt>, ghost tail: seq<Attempt>)
    returns (attempts': seq<Attempt>, ghost rest': seq<Attempt>, ok: bool)
    requires plan == attempts + rest && rest == KeyAttempts(paths, files, pp) + tail
    requires AllRejected(attempts, authenticated, accepted)
    ensures ok ==> InPlanOrder(plan, attempts', authenticated, accepted) && LastAccepted(attempts', authenticated, accepted)
    ensures !ok ==> plan == attempts' + rest' && rest' == tail && AllRejected(attempts', authenticated, accepted)
  {
    attempts', rest', ok := attempts, rest, false;
    assert paths[0..] == paths;
    var i := 0;
    while i < |paths|
      invariant 0 <= i <= |paths|
      invariant plan == attempts' + rest'
      invariant rest' == KeyAttempts(paths[i..], files, pp) + tail
      invariant AllRejected(attempts', authenticated, accepted)
    {
      assert paths[i..][1..] == paths[i + 1..];
      if paths[i] in files {
        attempts', rest', ok := TryNext(KeyFileAuth(paths[i], pp), authenticated, accepted, plan, attempts', rest');
        if ok {
          return;
        }
      }
      i := i + 1;
    }
  }

  /** The password steps of `_auth`: `password`, then `keyboard-interactive`, when offered. */
  method TryPassword(password: Option<string>, offered: seq<string>, authenticated: bool, accepted: set<Attempt>,
                     ghost plan: seq<Attempt>, attempts: seq<Attempt>, ghost rest: seq<Attempt>)
    returns (attempts': seq<Attempt>, ok: bool)
    requires plan == attempts + rest && rest == PasswordAttempts(offered, password)
    requires AllRejected(attempts, authenticated, accepted)
    ensures ok ==> InPlanOrder(plan, attempts', authenticated, accepted) && LastAccepted(attempts', authenticated, accepted)
    ensures !ok ==> attempts' == plan && AllRejected(attempts', authenticated, accepted)
  {
    attempts', ok := attempts, false;
    ghost var rest' := rest;
    if password.Some? {
      if "password" in offered {
        attempts', rest', ok := TryNext(PasswordAuth(password.value), authenticated, accepted, plan, attempts', rest');
        if ok {
          return;
        }
      }
      if "keyboard-interactive" in offered {
        attempts', rest', ok := TryNext(KeyboardInteractive(password.value), authenticated, accepted, plan, attempts', rest');
      }
    }
  }

  /**
   * `_auth`. `supported` is `userauth_list`'s answer (None when it is not a list);
   * `files` are the paths that exist as regular files; `accepted` are the attempts the
   * server accepts.
   */
  method Auth(authenticated: bool, supported: Option<seq<string>>, password: Option<string>, allowAgent: bool,
              keyFilepath: Option<KeyPaths>, passphrase: Option<string>, files: set<string>,
              accepted: set<Attempt>)
    returns (result: AuthResult, attempts: seq<Attempt>)
    ensures supported.None? ==> attempts == [] && result == (if authenticated then AuthSucceeded else TriedUnbound)
    ensures supported.Some? ==>
              var plan := Plan(supported.value, password, allowAgent, keyFilepath, passphrase, files);
              && InPlanOrder(plan, attempts, authenticated, accepted)
              && (result.AuthSucceeded? <==> authenticated || LastAccepted(attempts, authenticated, accepted))
              && (!result.AuthSucceeded? ==> attempts == plan && result == AuthFailed(Names(plan)))
  {
    attempts := [];
    if supported.None? {
      result := if authenticated then AuthSucceeded else TriedUnbound;
      return;
    }
    var offered := supported.value;
    var paths := KeyList(keyFilepath);
    var pp := if passphrase.Some? then passphrase.value else "";
    ghost var plan := Plan(offered, password, allowAgent, keyFilepath, passphrase, files);
    ghost var keys := KeyAttempts(paths, files, pp);
    ghost var tail := PasswordAttempts(offered, password);
    ghost var rest := plan;
    var ok;
    if "publickey" in offered {
      if allowAgent {
        assert plan == [AgentAuth] + (keys + tail);
        attempts, rest, ok := TryNext(AgentAuth, authenticated, accepted, plan, attempts, rest);
        if ok {
          return AuthSucceeded, attempts;
        }
        assert rest == keys + tail by {
          assert ([AgentAuth] + (keys + tail))[1..] == keys + tail;
        }
      } else {
        assert rest == keys + tail;
      }
      attempts, rest, ok := TryKeys(paths, files, pp, authenticated, accepted, plan, attempts, rest, tail);
      if ok {
        return AuthSucceeded, attempts;
      }
    }
    assert rest == tail;
    attempts, ok := TryPassword(password, offered, authenticated, accepted, plan, attempts, rest);
    if ok {
      return AuthSucceeded, attempts;
    }
    assert attempts == plan;
    if !authenticated {
      result := AuthFailed(Names(attempts));
    } else {
      result := AuthSucceeded;
    }
  }

  /** What `check_host_key` does to the known-hosts store under each policy. */
  datatype HostKeyActions = HostKeyActions(loadsFile: bool, checks: bool, raises: bool, warns: bool, addsAndSaves: bool)

  /**
   * `check_host_key`: `none` does nothing; otherwise the known-hosts file is loaded if it
   * exists and the server's key is checked. `strict` lets a failed check raise, `warn`
   * prints it, and the two auto-add policies add the key and save the file when the
   * check fails (`warn_auto_add` also printing).
   */
  function CheckHostKey(policy: SSHHostKeyVerify, fileExists: bool, checkFails: bool): (a: HostKeyActions)
    ensures a.raises <==> policy == Strict && checkFails
    ensures a.addsAndSaves <==> checkFails && (policy == AutoAdd || policy == WarnAutoAdd)
    ensures a.warns <==> checkFails && (policy == Warn || policy == WarnAutoAdd)
    ensures policy == VerifyNone <==> !a.checks
    ensures a.loadsFile <==> a.checks && fileExists
  {
    if policy == VerifyNone then HostKeyActions(false, false, false, false, false)
    else
      var strict := policy == Strict;
      var autoAdd := policy == AutoAdd || policy == WarnAutoAdd;
      HostKeyActions(fileExists, true, strict && checkFails,
                     checkFails && (policy == Warn || policy == WarnAutoAdd),
                     autoAdd && checkFails)
  }

  /** `read(block)`: only past login; otherwise an empty list. */
  method SessionRead(pastLogin: bool, shutdown: bool, block: bool, script: seq<ReadStep>) returns (r: ReadRun)
    ensures r == if pastLogin then ReadSpec(shutdown, block, -1, EAGAIN, false, script) else ReadRun([], 0, Stopped)
  {
    if pastLogin {
      var waits;
      r, waits := ReadIter(shutdown, block, -1, script);
    } else {
      r := ReadRun([], 0, Stopped);
    }
  }

  /** `send(string)`: only past login; otherwise 0 bytes. */
  method SessionSend(pastLogin: bool, shutdown: bool, data: seq<byte>, script: seq<WriteStep>) returns (r: WriteOutcome)
    ensures r == if pastLogin then WriteSpec(shutdown, data, script) else Wrote(0, [])
  {
    if pastLogin {
      var waits;
      r, waits := BlockWrite(shutdown, data, script);
    } else {
      r := Wrote(0, []);
    }
  }

  /** `read` never blocks on a persisting `EAGAIN` unless asked to: `max_read` is left at -1. */
  lemma ReadPatience(block: bool)
    ensures Impatient(block, -1, EAGAIN) == !block
  {
  }
}
