/**
 * What the two client backends' non-blocking adapters (`_block`, `_block_write`,
 * `_read_iter`) compute, stated once over a script of the library primitive's results.
 * Each backend's methods (in `LibSSH2Client` and `LibSSHClient`) run their own loops and
 * are proved to produce exactly these results.
 */
module Adapters {
  import opened Common

  /** How a `_block` call ends: skipped under shutdown, a result, or a script of retries only. */
  datatype BlockOutcome<T> = Skipped | Returned(value: T, calls: nat) | Unanswered

  /** The first result from index `i` on that is not the "try again" code, and how many calls that took. */
  function FirstFrom<T(==)>(script: seq<T>, again: T, i: nat): (r: BlockOutcome<T>)
    requires i <= |script|
    ensures r.Returned? ==> i < r.calls <= |script|
    decreases |script| - i
  {
    if i == |script| then Unanswered
    else if script[i] != again then Returned(script[i], i + 1)
    else FirstFrom(script, again, i + 1)
  }

  /**
   * The result is the first one that is not `again`, every call before it returned
   * `again`, and the script is unanswered exactly when every result in it is `again`.
   */
  lemma {:induction false} FirstFromIsFirst<T>(script: seq<T>, again: T, i: nat)
    requires i <= |script|
    ensures var r := FirstFrom(script, again, i);
            && (r.Returned? ==> r.value == script[r.calls - 1] && r.value != again
                                && forall j :: i <= j < r.calls - 1 ==> script[j] == again)
            && (r.Unanswered? <==> forall j :: i <= j < |script| ==> script[j] == again)
    decreases |script| - i
  {
    if i < |script| && script[i] == again {
      FirstFromIsFirst(script, again, i + 1);
    }
  }

  /** A keyword argument's value; only its equality with the marker string matters here. */
  datatype KwValue = KwText(text: string) | KwOther(id: int)

  const SelectTimeoutKey: string := "_select_timeout"

  /** The marker `_block` uses as the default of its `_select_timeout` lookup. */
  const DefaultMarker: string := "sdkljfhklsdjf"

  /**
   * The keyword arguments `_block` passes on: `_select_timeout` is removed unless it is
   * absent or equal to the marker string, and every other argument passes unchanged.
   */
  function ForwardedKwargs(kwargs: map<string, KwValue>): (r: map<string, KwValue>)
    ensures SelectTimeoutKey in r ==> r[SelectTimeoutKey] == KwText(DefaultMarker)
    ensures forall k :: k in r <==> k in kwargs && (k == SelectTimeoutKey ==> kwargs[k] == KwText(DefaultMarker))
    ensures forall k :: k in r ==> r[k] == kwargs[k]
  {
    if SelectTimeoutKey in kwargs && kwargs[SelectTimeoutKey] != KwText(DefaultMarker)
    then kwargs - {SelectTimeoutKey}
    else kwargs
  }

  /**
   * `_block`: nothing at all under shutdown; otherwise the primitive is called with the
   * forwarded keyword arguments until it returns something other than `again`.
   */
  method Block<T(==)>(shutdown: bool, again: T, kwargs: map<string, KwValue>, script: seq<T>)
    returns (r: BlockOutcome<T>, received: map<string, KwValue>, waits: nat)
    ensures shutdown ==> r == Skipped && waits == 0
    ensures !shutdown ==> r == FirstFrom(script, again, 0) && received == ForwardedKwargs(kwargs)
    ensures r.Returned? ==> waits == r.calls
  {
    received := map[];
    waits := 0;
    if shutdown {
      return Skipped, received, waits;
    }
    received := ForwardedKwargs(kwargs);
    var out := again;
    var i := 0;
    while out == again
      invariant 0 <= i <= |script| && waits == i
      invariant out == again ==> FirstFrom(script, again, 0) == FirstFrom(script, again, i)
      invariant out != again ==> FirstFrom(script, again, 0) == Returned(out, i)
      decreases |script| - i, if out == again then 1 else 0
    {
      if i == |script| {
        return Unanswered, received, waits;
      }
      waits := waits + 1;
      out := script[i];
      i := i + 1;
    }
    r := Returned(out, i);
  }

  /** One call of a channel write: its return code and how many bytes it took, or an exception. */
  datatype WriteStep = WriteStep(rc: int, written: nat) | WriteFails

  /** How many bytes a call took; a call that raised took none the caller learns of. */
  function Taken(s: WriteStep): nat {
    if s.WriteStep? then s.written else 0
  }

  /**
   * How a `_block_write` call ends: the total written and the suffixes handed to the
   * primitive, a loop that spins without calls because shutdown is set, a script that
   * ran out first, or an exception from the last call in `passed` that escapes, so the
   * total written so far is never returned.
   */
  datatype WriteOutcome =
    | Wrote(total: nat, passed: seq<seq<byte>>)
    | Spins
    | WriteUnanswered(passed: seq<seq<byte>>)
    | WriteRaised(passed: seq<seq<byte>>)

  /** The number of bytes the first `k` calls took. */
  function Offset(script: seq<WriteStep>, k: nat): nat
    requires k <= |script|
  {
    if k == 0 then 0 else Offset(script, k - 1) + Taken(script[k - 1])
  }

  /** None of the first `n` calls raised. */
  predicate NoneFailed(script: seq<WriteStep>, n: nat)
    requires n <= |script|
  {
    forall j :: 0 <= j < n ==> script[j].WriteStep?
  }

  /** The write loop from call `k` on, with `total` bytes written and `passed` handed over so far. */
  function Feed(data: seq<byte>, script: seq<WriteStep>, k: nat, total: nat, passed: seq<seq<byte>>): (r: WriteOutcome)
    requires k <= |script|
    ensures !r.Spins?
    decreases |script| - k
  {
    if total >= |data| then Wrote(total, passed)
    else if k == |script| then WriteUnanswered(passed)
    else if script[k].WriteFails? then WriteRaised(passed + [data[total..]])
    else Feed(data, script, k + 1, total + script[k].written, passed + [data[total..]])
  }

  /** What `_block_write(func, data)` does with the shutdown flag fixed for the whole call. */
  function WriteSpec(shutdown: bool, data: seq<byte>, script: seq<WriteStep>): WriteOutcome {
    if shutdown && |data| > 0 then Spins else Feed(data, script, 0, 0, [])
  }

  /** Call `j` was handed the suffix of the data after the bytes the earlier calls took. */
  predicate SuffixByOffset(data: seq<byte>, script: seq<WriteStep>, passed: seq<seq<byte>>)
    requires |passed| <= |script|
  {
    forall j :: 0 <= j < |passed| ==> Offset(script, j) < |data| && passed[j] == data[Offset(script, j)..]
  }

  lemma {:induction false} FeedSuffixes(data: seq<byte>, script: seq<WriteStep>, k: nat, total: nat, passed: seq<seq<byte>>)
    requires k <= |script| && |passed| == k && total == Offset(script, k)
    requires SuffixByOffset(data, script, passed) && NoneFailed(script, k)
    ensures var r := Feed(data, script, k, total, passed);
            && (r.Wrote? ==> && r.total >= |data| && |r.passed| <= |script|
                             && r.total == Offset(script, |r.passed|)
                             && NoneFailed(script, |r.passed|)
                             && SuffixByOffset(data, script, r.passed))
            && (r.WriteUnanswered? ==> && |r.passed| == |script| && NoneFailed(script, |script|)
                                       && SuffixByOffset(data, script, r.passed))
            && (r.WriteRaised? ==> && k < |r.passed| <= |script|
                                   && NoneFailed(script, |r.passed| - 1)
                                   && script[|r.passed| - 1].WriteFails?
                                   && SuffixByOffset(data, script, r.passed))
    decreases |script| - k
  {
    if total < |data| && k < |script| {
      var passed' := passed + [data[total..]];
      assert SuffixByOffset(data, script, passed') by {
        forall j | 0 <= j < |passed'|
          ensures Offset(script, j) < |data| && passed'[j] == data[Offset(script, j)..]
        {
          if j < |passed| {
            assert passed'[j] == passed[j];
          }
        }
      }
      if script[k].WriteStep? {
        FeedSuffixes(data, script, k + 1, total + script[k].written, passed');
      }
    }
  }

  /**
   * `_block_write` hands the primitive `data[total_written:]` call after call, in order,
   * and returns once at least `len(data)` bytes were taken; the total is what the calls took.
   * A call that raises ends the loop with the exception, however much was written before it.
   */
  lemma WriteSuffixes(shutdown: bool, data: seq<byte>, script: seq<WriteStep>)
    ensures var r := WriteSpec(shutdown, data, script);
            && (r.Spins? <==> shutdown && |data| > 0)
            && (r.Wrote? ==> && r.total >= |data| && |r.passed| <= |script|
                             && r.total == Offset(script, |r.passed|)
                             && NoneFailed(script, |r.passed|)
                             && SuffixByOffset(data, script, r.passed))
            && (r.WriteRaised? ==> && 0 < |r.passed| <= |script|
                                   && NoneFailed(script, |r.passed| - 1)
                                   && script[|r.passed| - 1].WriteFails?
                                   && Offset(script, |r.passed| - 1) < |data|
                                   && SuffixByOffset(data, script, r.passed))
  {
    if !(shutdown && |data| > 0) {
      FeedSuffixes(data, script, 0, 0, []);
    }
  }

  /**
   * One call of a channel read: a size and the bytes, or an exception (`isEof` when it is
   * the library's end-of-file exception).
   */
  datatype ReadStep = Read(size: int, data: seq<byte>) | Fails(isEof: bool)

  /** What the previous read was: none yet, a "try again", or data. */
  datatype Prev = Start | AfterAgain | AfterData

  /** How a `_read_iter` generator ends: it returns, the script ran out, or an exception escapes. */
  datatype ReadEnd = Stopped | ReadUnanswered | Propagated

  /** The chunks a `_read_iter` generator yields, how many reads it made, and how it ended. */
  datatype ReadRun = ReadRun(chunks: seq<seq<byte>>, calls: nat, end: ReadEnd)

  /** `data[0:size]` of a read. */
  function Chunk(data: seq<byte>, size: nat): seq<byte> {
    if size <= |data| then data[..size] else data
  }

  /** When the iteration gives up on a "try again" that persists after one retry. */
  function Impatient(block: bool, maxRead: int, again: int): bool {
    !block || (maxRead > again && maxRead != -1)
  }

  /**
   * The read loop from read `k` on: a positive size yields `data[0:size]`; the "try again"
   * code is retried, except that an impatient iteration stops at the second in a row; any
   * other size stops; an exception escapes, except an end-of-file one right after data
   * when `eofStops` holds.
   */
  function ReadFrom(script: seq<ReadStep>, k: nat, again: int, impatient: bool, eofStops: bool,
                    prev: Prev, chunks: seq<seq<byte>>): (r: ReadRun)
    requires k <= |script| && again < 0
    ensures k <= r.calls <= |script|
    decreases |script| - k
  {
    if k == |script| then ReadRun(chunks, k, ReadUnanswered)
    else match script[k]
      case Fails(isEof) =>
        if eofStops && isEof && prev == AfterData then ReadRun(chunks, k + 1, Stopped)
        else ReadRun(chunks, k + 1, Propagated)
      case Read(size, data) =>
        if size > 0 then ReadFrom(script, k + 1, again, impatient, eofStops, AfterData, chunks + [Chunk(data, size)])
        else if size == again then
          if impatient && prev == AfterAgain then ReadRun(chunks, k + 1, Stopped)
          else ReadFrom(script, k + 1, again, impatient, eofStops, AfterAgain, chunks)
        else ReadRun(chunks, k + 1, Stopped)
  }

  /** What `_read_iter(func, block, max_read)` yields, with the shutdown flag fixed for the call. */
  function ReadSpec(shutdown: bool, block: bool, maxRead: int, again: int, eofStops: bool,
                    script: seq<ReadStep>): ReadRun
    requires again < 0
  {
    if shutdown then ReadRun([], 0, Stopped)
    else ReadFrom(script, 0, again, Impatient(block, maxRead, again), eofStops, Start, [])
  }

  /** A read that keeps the iteration going: data, or the "try again" code. */
  predicate Continues(s: ReadStep, again: int) {
    s.Read? && (s.size > 0 || s.size == again)
  }

  predicate IsAgain(s: ReadStep, again: int) {
    s.Read? && s.size == again
  }

  /** The reference list of chunks: `data[0:size]` of every positive-size read, in order. */
  function Positives(s: seq<ReadStep>): seq<seq<byte>> {
    if |s| == 0 then []
    else (if s[0].Read? && s[0].size > 0 then [Chunk(s[0].data, s[0].size)] else []) + Positives(s[1..])
  }

  /** What a read leaves behind for the next one: data, a "try again", or neither. */
  function After(s: ReadStep, again: int): Prev {
    if s.Read? && s.size > 0 then AfterData else if IsAgain(s, again) then AfterAgain else Start
  }

  /** What came before read `j` of a loop that started at read `k` after `prev`. */
  function Before(script: seq<ReadStep>, j: nat, k: nat, prev: Prev, again: int): Prev
    requires k <= j < |script|
  {
    if j == k then prev else After(script[j - 1], again)
  }

  /**
   * A read on which the iteration returns: a size of zero or a negative size other than
   * "try again"; a second "try again" in a row when impatient; or an end-of-file exception
   * right after data when `eofStops` holds.
   */
  predicate Stops(s: ReadStep, before: Prev, again: int, impatient: bool, eofStops: bool) {
    || (s.Read? && s.size <= 0 && s.size != again)
    || (IsAgain(s, again) && impatient && before == AfterAgain)
    || (s.Fails? && s.isEof && eofStops && before == AfterData)
  }

  /** A loop that returns on its own does so on a read that `Stops` it. */
  lemma {:induction false} ReadFromStops(script: seq<ReadStep>, k: nat, again: int, impatient: bool,
                                         eofStops: bool, prev: Prev, chunks: seq<seq<byte>>)
    requires k <= |script| && again < 0
    ensures var r := ReadFrom(script, k, again, impatient, eofStops, prev, chunks);
            r.end == Stopped ==> k < r.calls && Stops(script[r.calls - 1], Before(script, r.calls - 1, k, prev, again),
                                                      again, impatient, eofStops)
    decreases |script| - k
  {
    var r := ReadFrom(script, k, again, impatient, eofStops, prev, chunks);
    if k < |script| && Continues(script[k], again) {
      var s := script[k];
      if !(s.size == again && impatient && prev == AfterAgain) {
        var next := After(s, again);
        var chunks' := if s.size > 0 then chunks + [Chunk(s.data, s.size)] else chunks;
        assert r == ReadFrom(script, k + 1, again, impatient, eofStops, next, chunks');
        ReadFromStops(script, k + 1, again, impatient, eofStops, next, chunks');
      }
    }
  }

  lemma {:induction false} ReadFromShape(script: seq<ReadStep>, k: nat, again: int, impatient: bool,
                                         eofStops: bool, prev: Prev, chunks: seq<seq<byte>>)
    requires k <= |script| && again < 0
    ensures var r := ReadFrom(script, k, again, impatient, eofStops, prev, chunks);
            && r.chunks == chunks + Positives(script[k..r.calls])
            && (forall j :: k <= j < r.calls - 1 ==> Continues(script[j], again))
            && (r.end == ReadUnanswered ==> r.calls == |script|)
            && (r.end != ReadUnanswered ==> k < r.calls)
            && (r.end == Propagated ==> script[r.calls - 1].Fails?)
            && (impatient ==> forall j :: k <= j && j + 1 < r.calls - 1 ==>
                                !(IsAgain(script[j], again) && IsAgain(script[j + 1], again)))
            && (impatient && prev == AfterAgain && k + 1 < r.calls ==> !IsAgain(script[k], again))
    decreases |script| - k
  {
    var r := ReadFrom(script, k, again, impatient, eofStops, prev, chunks);
    if k < |script| && Continues(script[k], again) {
      var s := script[k];
      var next := if s.size > 0 then AfterData else AfterAgain;
      var chunks' := if s.size > 0 then chunks + [Chunk(s.data, s.size)] else chunks;
      if !(s.size == again && impatient && prev == AfterAgain) {
        ReadFromShape(script, k + 1, again, impatient, eofStops, next, chunks');
        assert r == ReadFrom(script, k + 1, again, impatient, eofStops, next, chunks');
        assert script[k..r.calls][1..] == script[k + 1..r.calls];
      } else {
        assert script[k..r.calls][1..] == script[k + 1..r.calls];
      }
    } else if k < |script| {
      assert script[k..r.calls][1..] == script[k + 1..r.calls];
    }
  }

  /**
   * `_read_iter` yields `data[0:size]` once for each positive read, in script order; every
   * read but the last kept it going; it is left unanswered only when the script ran out;
   * an escaping exception was the last read; and an
   * impatient iteration never retried twice in a row before its last read; and an iteration
   * that returned on its own did so on a read that `Stops` it.
   */
  lemma ReadIterShape(shutdown: bool, block: bool, maxRead: int, again: int, eofStops: bool, script: seq<ReadStep>)
    requires again < 0
    ensures var r := ReadSpec(shutdown, block, maxRead, again, eofStops, script);
            && r.chunks == Positives(script[..r.calls])
            && (shutdown ==> r == ReadRun([], 0, Stopped))
            && (forall j :: 0 <= j < r.calls - 1 ==> Continues(script[j], again))
            && (r.end == ReadUnanswered ==> r.calls == |script|)
            && (r.end == Propagated ==> r.calls > 0 && script[r.calls - 1].Fails?)
            && (!shutdown && r.end == Stopped ==>
                  r.calls > 0 && Stops(script[r.calls - 1], Before(script, r.calls - 1, 0, Start, again),
                                       again, Impatient(block, maxRead, again), eofStops))
            && (!shutdown && Impatient(block, maxRead, again) ==>
                  forall j :: 0 <= j && j + 1 < r.calls - 1 ==>
                    !(IsAgain(script[j], again) && IsAgain(script[j + 1], again)))
  {
    if !shutdown {
      ReadFromShape(script, 0, again, Impatient(block, maxRead, again), eofStops, Start, []);
      ReadFromStops(script, 0, again, Impatient(block, maxRead, again), eofStops, Start, []);
      assert script[0..ReadSpec(shutdown, block, maxRead, again, eofStops, script).calls]
          == script[..ReadSpec(shutdown, block, maxRead, again, eofStops, script).calls];
    }
  }

  /** Who offered what to `connect`. */
  datatype Offers = Offers(password: Option<string>, allowAgent: bool, hostBased: Option<bool>,
                           keyFilepath: Option<KeyPaths>, lookForKeys: bool)

  /** `key_filepath`: one path, a list of paths, or some other value. */
  datatype KeyPaths = OnePath(path: string) | PathList(paths: seq<string>) | OtherValue

  /** The guard both `connect` methods start with: nothing at all to authenticate with. */
  predicate NoAuthenticationOffered(o: Offers) {
    o.password.None? && !o.allowAgent && o.hostBased.None? && o.keyFilepath.None? && !o.lookForKeys
  }

  /** What `connect` goes on to do once its arguments are checked. */
  datatype ConnectStart = NoAuthenticationRaised | AlreadyLoggedIn | LogsIn

  /**
   * The opening of both `connect` methods: the offer check comes first, so an empty offer
   * raises even on a session that is already logged in; a logged-in session does nothing.
   */
  function ConnectGate(o: Offers, pastLogin: bool): (r: ConnectStart)
    ensures r == NoAuthenticationRaised <==> NoAuthenticationOffered(o)
    ensures r == AlreadyLoggedIn <==> !NoAuthenticationOffered(o) && pastLogin
    ensures r == LogsIn <==> !NoAuthenticationOffered(o) && !pastLogin
  {
    if NoAuthenticationOffered(o) then NoAuthenticationRaised
    else if pastLogin then AlreadyLoggedIn
    else LogsIn
  }
}
