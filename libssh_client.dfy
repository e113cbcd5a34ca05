/**
 * The libssh client backend: its non-blocking adapters, the bitmask filter that lists
 * the server's authentication methods, and its authentication procedure. The session's
 * shutdown flag is a parameter, fixed for the duration of one call.
 */
module LibSSHClient {
  import opened Common
  import opened Adapters

  /** `SSH_AGAIN`. */
  const SSH_AGAIN: int := -2

  /** `SSH_AUTH_SUCCESS`. */
  const SSH_AUTH_SUCCESS: int := 0

  /**
   * What a library call returns: an integer code or some other object, or `Raises` when
   * the call raises. `_block` does not catch, so an exception ends the retries like any
   * result that is not the "try again" code, and escapes to the caller.
   */
  datatype CallResult = Code(code: int) | Object(id: nat) | Raises

  /** `_block`: skipped under shutdown, otherwise the first result that is not `SSH_AGAIN`. */
  method Block(shutdown: bool, kwargs: map<string, KwValue>, script: seq<CallResult>)
    returns (r: BlockOutcome<CallResult>, received: map<string, KwValue>)
    ensures shutdown ==> r == Skipped
    ensures !shutdown ==> r == FirstFrom(script, Code(SSH_AGAIN), 0) && received == ForwardedKwargs(kwargs)
  {
    var waits;
    r, received, waits := Adapters.Block(shutdown, Code(SSH_AGAIN), kwargs, script);
  }

  /** How many of the first `k` write calls returned `SSH_AGAIN` (a call that raised did not). */
  function AgainCount(script: seq<WriteStep>, k: nat): (n: nat)
    requires k <= |script|
    ensures n <= k
  {
    if k == 0 then 0 else AgainCount(script, k - 1) + (if script[k - 1].WriteStep? && script[k - 1].rc == SSH_AGAIN then 1 else 0)
  }

  /**
   * `_block_write`: the same suffix-by-suffix loop as the libssh2 backend's, but the call
   * comes first and the wait follows only a call that returned `SSH_AGAIN`.
   */
  method BlockWrite(shutdown: bool, data: seq<byte>, script: seq<WriteStep>) returns (r: WriteOutcome, waits: nat)
    ensures r == WriteSpec(shutdown, data, script)
    ensures r.Wrote? || r.WriteRaised? ==> |r.passed| <= |script| && waits == AgainCount(script, |r.passed|)
  {
    var total: nat := 0;
    var passed: seq<seq<byte>> := [];
    var k := 0;
    waits := 0;
    while total < |data|
      invariant 0 <= k <= |script| && |passed| == k && waits == AgainCount(script, k)
      invariant !shutdown ==> WriteSpec(shutdown, data, script) == Feed(data, script, k, total, passed)
      invariant shutdown ==> k == 0 && total == 0
      decreases |script| - k
    {
      if shutdown {
        return Spins, waits;
      }
      if k == |script| {
        return WriteUnanswered(passed), waits;
      }
      if script[k].WriteFails? {
        return WriteRaised(passed + [data[total..]]), waits;
      }
      passed := passed + [data[total..]];
      total := total + script[k].written;
      if script[k].rc == SSH_AGAIN {
        waits := waits + 1;
      }
      k := k + 1;
    }
    r := Wrote(total, passed);
  }

  /**
   * `_read_iter`: the first read is made without waiting; then the libssh2 loop, except
   * that an end-of-file exception on a read that follows data ends the iteration instead
   * of escaping. `waits` counts the waits that a read followed: one per read but the first.
   */
  method ReadIter(shutdown: bool, block: bool, maxRead: int, script: seq<ReadStep>) returns (r: ReadRun, waits: nat)
    ensures r == ReadSpec(shutdown, block, maxRead, SSH_AGAIN, true, script)
    ensures waits == if r.calls == 0 then 0 else r.calls - 1
  {
    var impatient := Impatient(block, maxRead, SSH_AGAIN);
    ghost var spec := ReadSpec(shutdown, block, maxRead, SSH_AGAIN, true, script);
    var chunks: seq<seq<byte>> := [];
    waits := 0;
    if shutdown {
      return ReadRun([], 0, Stopped), waits;
    }
    if |script| == 0 {
      return ReadRun(chunks, 0, ReadUnanswered), waits;
    }
    if script[0].Fails? {
      return ReadRun(chunks, 1, Propagated), waits;
    }
    var size, data := script[0].size, script[0].data;
    var k := 1;
    ghost var prev := Start;
    while size == SSH_AGAIN || size > 0
      invariant 1 <= k <= |script| && waits == k - 1
      invariant script[k - 1] == ReadStep.Read(size, data)
      invariant spec == ReadFrom(script, k - 1, SSH_AGAIN, impatient, true, prev, chunks)
      invariant impatient && size == SSH_AGAIN ==> prev != AfterAgain
      decreases |script| - k
    {
      ghost var k0 := k;
      if size == SSH_AGAIN {
        if k == |script| {
          return ReadRun(chunks, k, ReadUnanswered), waits;
        }
        waits := waits + 1;
        if script[k].Fails? {
          return ReadRun(chunks, k + 1, Propagated), waits;
        }
        size, data := script[k].size, script[k].data;
        k := k + 1;
        prev := AfterAgain;
      }
      if size == SSH_AGAIN && impatient {
        return ReadRun(chunks, k, Stopped), waits;
      }
      while size > 0
        invariant 1 <= k <= |script| && waits == k - 1
        invariant script[k - 1] == ReadStep.Read(size, data)
        invariant spec == ReadFrom(script, k - 1, SSH_AGAIN, impatient, true, prev, chunks)
        invariant impatient && size == SSH_AGAIN ==> prev != AfterAgain
        invariant k > k0 || size > 0
        decreases |script| - k
      {
        chunks := chunks + [Chunk(data, size)];
        prev := AfterData;
        if k == |script| {
          return ReadRun(chunks, k, ReadUnanswered), waits;
        }
        waits := waits + 1;
        if script[k].Fails? {
          if script[k].isEof {
            return ReadRun(chunks, k + 1, Stopped), waits;
          }
          return ReadRun(chunks, k + 1, Propagated), waits;
        }
        size, data := script[k].size, script[k].data;
        k := k + 1;
      }
    }
    r := ReadRun(chunks, k, Stopped);
  }

  /** An end-of-file exception only ends the iteration when it follows data; otherwise it escapes. */
  lemma EofAfterDataStops(script: seq<ReadStep>, k: nat, impatient: bool, prev: Prev, chunks: seq<seq<byte>>)
    requires k < |script| && script[k] == Fails(true)
    ensures ReadFrom(script, k, SSH_AGAIN, impatient, true, prev, chunks).end == (if prev == AfterData then Stopped else Propagated)
    ensures ReadFrom(script, k, SSH_AGAIN, impatient, false, prev, chunks).end == Propagated
  {
  }

  /** `libssh.enums.Auth_Method`, in declaration order. */
  datatype AuthMethod = Unknown | NoneMethod | Password | PublicKey | HostBased | Interactive | GssapiMic

  /** The member's value in libssh's `ssh_auth_e` bitmask. */
  function MethodValue(m: AuthMethod): nat {
    match m
    case Unknown => 0
    case NoneMethod => 1
    case Password => 2
    case PublicKey => 4
    case HostBased => 8
    case Interactive => 0x10
    case GssapiMic => 0x20
  }

  const AllMethods: seq<AuthMethod> := [Unknown, NoneMethod, Password, PublicKey, HostBased, Interactive, GssapiMic]

  /**
   * `(mask & value) > 0`. Every non-zero member value is a single bit, so the test is that
   * bit of the mask; `Unknown` (value 0) never passes.
   */
  predicate BitSet(mask: nat, m: AuthMethod) {
    MethodValue(m) > 0 && (mask / MethodValue(m)) % 2 == 1
  }

  /** The members of `ms` whose bit is set, in the order of `ms`. */
  function Filter(ms: seq<AuthMethod>, mask: nat): seq<AuthMethod> {
    if |ms| == 0 then []
    else (if BitSet(mask, ms[0]) then [ms[0]] else []) + Filter(ms[1..], mask)
  }

  /** `_auth_get_supported`: the `Auth_Method` members set in the server's bitmask. */
  function SupportedMethods(mask: nat): seq<AuthMethod> {
    Filter(AllMethods, mask)
  }

  lemma {:induction false} FilterMembers(ms: seq<AuthMethod>, mask: nat)
    ensures forall m :: m in Filter(ms, mask) <==> m in ms && BitSet(mask, m)
  {
    if |ms| > 0 {
      FilterMembers(ms[1..], mask);
    }
  }

  /** A filtered list keeps the order of the list it came from: strictly increasing values stay so. */
  lemma {:induction false} FilterIncreasing(ms: seq<AuthMethod>, mask: nat)
    requires forall i, j :: 0 <= i < j < |ms| ==> MethodValue(ms[i]) < MethodValue(ms[j])
    ensures forall i, j :: 0 <= i < j < |Filter(ms, mask)| ==>
              MethodValue(Filter(ms, mask)[i]) < MethodValue(Filter(ms, mask)[j])
  {
    if |ms| > 0 {
      FilterIncreasing(ms[1..], mask);
      FilterMembers(ms[1..], mask);
      var tail := Filter(ms[1..], mask);
      forall m | m in tail
        ensures MethodValue(ms[0]) < MethodValue(m)
      {
        var j :| 0 <= j < |ms[1..]| && ms[1..][j] == m;
        assert ms[j + 1] == m;
      }
    }
  }

  /**
   * `_auth_get_supported` lists exactly the members whose bit the server set, each once,
   * in the enum's order (strictly increasing values).
   */
  lemma SupportedMethodsExact(mask: nat)
    ensures forall m :: m in SupportedMethods(mask) <==> BitSet(mask, m)
    ensures forall i, j :: 0 <= i < j < |SupportedMethods(mask)| ==>
              MethodValue(SupportedMethods(mask)[i]) < MethodValue(SupportedMethods(mask)[j])
    ensures Unknown !in SupportedMethods(mask)
  {
    FilterMembers(AllMethods, mask);
    FilterIncreasing(AllMethods, mask);
  }

  /** One authentication call `_auth` can make. */
  datatype Attempt = AgentAuth | KeyAuth(path: string, passphrase: Option<string>) | PasswordAuth(password: string)

  /**
   * `_auth_attempt`: what the call returned, or None when it raised. `answers` holds the
   * calls that return; a call missing from it raises.
   */
  function AuthAttempt(answers: map<Attempt, int>, a: Attempt): (r: Option<int>)
    ensures r.Some? <==> a in answers
    ensures r == Some(SSH_AUTH_SUCCESS) <==> a in answers && answers[a] == SSH_AUTH_SUCCESS
  {
    if a in answers then Some(answers[a]) else None
  }

  predicate Succeeds(answers: map<Attempt, int>, a: Attempt) {
    AuthAttempt(answers, a) == Some(SSH_AUTH_SUCCESS)
  }

  function MethodName(a: Attempt): string {
    match a
    case AgentAuth => "publickey"
    case KeyAuth(_, _) => "publickey"
    case PasswordAuth(_) => "password"
  }

  /** The de-duplicated names of the attempts made, as the failure exception carries them. */
  function Names(attempts: seq<Attempt>): set<string> {
    set a | a in attempts :: MethodName(a)
  }

  /** How `_auth` ends: authenticated, the failure exception, or the key import's exception. */
  datatype AuthResult = AuthSucceeded | AuthFailed(tried: set<string>) | KeyImportRaised

  /**
   * `_auth`. `mask` is `userauth_list`'s bitmask; `importFails` is whether importing the
   * private key file raises. The agent is tried when allowed, the key file otherwise, and
   * the password last; there is no check of an already authenticated session.
   */
  method Auth(mask: nat, password: Option<string>, allowAgent: bool, keyFilepath: Option<string>,
              passphrase: Option<string>, importFails: bool, answers: map<Attempt, int>)
    returns (result: AuthResult, attempts: seq<Attempt>)
    ensures var publickey := PublicKey in SupportedMethods(mask);
            && (AgentAuth in attempts <==> publickey && allowAgent)
            && ((exists a :: a in attempts && a.KeyAuth?) <==> publickey && !allowAgent && keyFilepath.Some? && !importFails)
            && (result == KeyImportRaised <==> publickey && !allowAgent && keyFilepath.Some? && importFails)
            && (keyFilepath.Some? ==>
                  (KeyAuth(keyFilepath.value, passphrase) in attempts <==> publickey && !allowAgent && !importFails))
    ensures forall a :: a in attempts && a.KeyAuth? ==> keyFilepath == Some(a.path) && a.passphrase == passphrase
    ensures result == KeyImportRaised ==> attempts == []
    ensures |attempts| <= 2
    ensures forall j :: 0 <= j < |attempts| - 1 ==> !Succeeds(answers, attempts[j])
    ensures result.AuthSucceeded? <==> |attempts| > 0 && Succeeds(answers, attempts[|attempts| - 1])
    ensures forall p :: PasswordAuth(p) in attempts ==>
              password == Some(p) && Password in SupportedMethods(mask) && attempts[|attempts| - 1] == PasswordAuth(p)
    ensures result.AuthFailed? ==>
              && result.tried == Names(attempts)
              && (password.Some? && Password in SupportedMethods(mask) ==> PasswordAuth(password.value) in attempts)
  {
    var supported := SupportedMethods(mask);
    attempts := [];
    if PublicKey in supported {
      if allowAgent {
        attempts := attempts + [AgentAuth];
        if AuthAttempt(answers, AgentAuth) == Some(SSH_AUTH_SUCCESS) {
          return AuthSucceeded, attempts;
        }
      } else if keyFilepath.Some? {
        if importFails {
          return KeyImportRaised, attempts;
        }
        var a := KeyAuth(keyFilepath.value, passphrase);
        attempts := attempts + [a];
        assert attempts[0] == a;
        if AuthAttempt(answers, a) == Some(SSH_AUTH_SUCCESS) {
          return AuthSucceeded, attempts;
        }
      }
    }
    if password.Some? {
      if Password in supported {
        attempts := attempts + [PasswordAuth(password.value)];
        if AuthAttempt(answers, PasswordAuth(password.value)) == Some(SSH_AUTH_SUCCESS) {
          return AuthSucceeded, attempts;
        }
      }
    }
    result := AuthFailed(Names(attempts));
  }

  /** `read(block)`: only past login; otherwise an empty list. */
  method SessionRead(pastLogin: bool, shutdown: bool, block: bool, script: seq<ReadStep>) returns (r: ReadRun)
    ensures r == if pastLogin then ReadSpec(shutdown, block, -1, SSH_AGAIN, true, script) else ReadRun([], 0, Stopped)
  {
    if pastLogin {
      var waits;
      r, waits := ReadIter(shutdown, block, -1, script);
    } else {
      r := ReadRun([], 0, Stopped);
    }
  }

  /** `send(string)`: only past login; otherwise 0 bytes. */
  method SessionSend(pastLogin: bool, shutdown: bool, data: seq<byte>, script: seq<WriteStep>) returns (r: WriteOutcome)
    ensures r == if pastLogin then WriteSpec(shutdown, data, script) else Wrote(0, [])
  {
    if pastLogin {
      var waits;
      r, waits := BlockWrite(shutdown, data, script);
    } else {
      r := Wrote(0, []);
    }
  }
}
