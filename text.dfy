/**
 * The string operations the tunnel registry and the SOCKS code rely on:
 * Python's `str(int)`, `int(str)` on what `str` produces, `str.split(sep)`,
 * and the dotted-quad text of `socket.inet_ntoa` / `socket.inet_aton`.
 */
module Text {
  import opened Common

  predicate IsDigit(c: char) { '0' <= c <= '9' }

  predicate AllDigits(s: string) { forall i :: 0 <= i < |s| ==> IsDigit(s[i]) }

  function DigitChar(d: nat): (c: char)
    requires d < 10
    ensures IsDigit(c)
  {
    (('0' as int) + d) as char
  }

  function DigitValue(c: char): (d: nat)
    requires IsDigit(c)
    ensures d < 10 && DigitChar(d) == c
  {
    (c as int) - ('0' as int)
  }

  /** `str(n)` for a non-negative int: at least one decimal digit, nothing else. */
  function NatToDecimal(n: nat): (s: string)
    ensures |s| > 0 && AllDigits(s)
    ensures n < 10 <==> |s| == 1
    decreases n
  {
    if n < 10 then [DigitChar(n)] else NatToDecimal(n / 10) + [DigitChar(n % 10)]
  }

  /** The value of a string of decimal digits (Python `int(s)` on such a string). */
  function DecimalValue(s: string): nat
    requires AllDigits(s)
    decreases |s|
  {
    if |s| == 0 then 0 else DecimalValue(s[..|s| - 1]) * 10 + DigitValue(s[|s| - 1])
  }

  lemma {:induction false} DecimalRoundTrip(n: nat)
    ensures DecimalValue(NatToDecimal(n)) == n
    decreases n
  {
    if n >= 10 {
      var s := NatToDecimal(n);
      assert s[..|s| - 1] == NatToDecimal(n / 10);
      DecimalRoundTrip(n / 10);
    }
  }

  /** `str(i)` for any Python int: a minus sign for negative values, then the digits. */
  function IntToDecimal(i: int): (s: string)
    ensures |s| > 0
    ensures forall k :: 0 <= k < |s| ==> IsDigit(s[k]) || s[k] == '-'
  {
    if i < 0 then "-" + NatToDecimal(-i) else NatToDecimal(i)
  }

  /** `int(s)` restricted to the strings `str` produces for ints; anything else is None. */
  function ParseInt(s: string): Option<int>
  {
    if |s| > 0 && AllDigits(s) then Some(DecimalValue(s))
    else if |s| > 1 && s[0] == '-' && AllDigits(s[1..]) then Some(0 - DecimalValue(s[1..]))
    else None
  }

  lemma IntToDecimalRoundTrip(i: int)
    ensures ParseInt(IntToDecimal(i)) == Some(i)
  {
    if i < 0 {
      var s := IntToDecimal(i);
      assert s[1..] == NatToDecimal(-i);
      assert !IsDigit(s[0]);
      DecimalRoundTrip(-i);
    } else {
      DecimalRoundTrip(i);
    }
  }

  /** Distinct ints have distinct `str` texts. */
  lemma IntToDecimalInjective(i: int, j: int)
    requires IntToDecimal(i) == IntToDecimal(j)
    ensures i == j
  {
    IntToDecimalRoundTrip(i);
    IntToDecimalRoundTrip(j);
  }

  /** Python's `s.split(sep)` for a one-character separator. */
  function Split(s: string, sep: char): (parts: seq<string>)
    ensures |parts| >= 1
    decreases |s|
  {
    if |s| == 0 then [""]
    else
      var rest := Split(s[1..], sep);
      if s[0] == sep then [""] + rest else [[s[0]] + rest[0]] + rest[1..]
  }

  lemma {:induction false} SplitNoSeparator(a: string, sep: char)
    requires sep !in a
    ensures Split(a, sep) == [a]
    decreases |a|
  {
    if |a| > 0 {
      assert sep !in a[1..];
      SplitNoSeparator(a[1..], sep);
      assert [a[0]] + a[1..] == a;
    }
  }

  /** Splitting `a + sep + b`, where `a` holds no separator, yields `a` then the pieces of `b`. */
  lemma {:induction false} SplitJoin(a: string, sep: char, b: string)
    requires sep !in a
    ensures Split(a + [sep] + b, sep) == [a] + Split(b, sep)
    decreases |a|
  {
    var s := a + [sep] + b;
    if |a| == 0 {
      assert s[1..] == b;
    } else {
      assert s[1..] == a[1..] + [sep] + b;
      assert sep !in a[1..];
      SplitJoin(a[1..], sep, b);
      assert [a[0]] + a[1..] == a;
    }
  }

  /** `socket.inet_ntoa`: the dotted-quad text of four octets. */
  function InetNtoa(o: seq<byte>): (s: string)
    requires |o| == 4
  {
    NatToDecimal(o[0] as nat) + "." + NatToDecimal(o[1] as nat) + "."
      + NatToDecimal(o[2] as nat) + "." + NatToDecimal(o[3] as nat)
  }

  predicate IsOctetText(t: string) { |t| > 0 && AllDigits(t) && DecimalValue(t) < 256 }

  /** `socket.inet_aton` on the dotted-quad form: four decimal fields, each below 256. */
  function InetAton(s: string): (r: Option<seq<byte>>)
    ensures r.Some? ==> |r.value| == 4
  {
    var parts := Split(s, '.');
    if |parts| == 4 && forall k :: 0 <= k < 4 ==> IsOctetText(parts[k]) then
      Some([DecimalValue(parts[0]) as byte, DecimalValue(parts[1]) as byte,
            DecimalValue(parts[2]) as byte, DecimalValue(parts[3]) as byte])
    else None
  }

  lemma NoDotInDecimal(n: nat)
    ensures '.' !in NatToDecimal(n) && ':' !in NatToDecimal(n)
  {
  }

  /** Splitting four dot-free fields joined by dots gives the four fields back. */
  lemma SplitDotted(d0: string, d1: string, d2: string, d3: string)
    requires '.' !in d0 && '.' !in d1 && '.' !in d2 && '.' !in d3
    ensures Split(d0 + "." + d1 + "." + d2 + "." + d3, '.') == [d0, d1, d2, d3]
  {
    assert d0 + "." + d1 + "." + d2 + "." + d3 == d0 + ['.'] + (d1 + ['.'] + (d2 + ['.'] + d3));
    SplitJoin(d0, '.', d1 + ['.'] + (d2 + ['.'] + d3));
    SplitJoin(d1, '.', d2 + ['.'] + d3);
    SplitJoin(d2, '.', d3);
    SplitNoSeparator(d3, '.');
  }

  lemma OctetText(b: byte)
    ensures IsOctetText(NatToDecimal(b as nat)) && DecimalValue(NatToDecimal(b as nat)) as byte == b
  {
    DecimalRoundTrip(b as nat);
  }

  lemma InetAtonOfFields(s: string, d0: string, d1: string, d2: string, d3: string)
    requires Split(s, '.') == [d0, d1, d2, d3]
    requires IsOctetText(d0) && IsOctetText(d1) && IsOctetText(d2) && IsOctetText(d3)
    ensures InetAton(s) == Some([DecimalValue(d0) as byte, DecimalValue(d1) as byte,
                                 DecimalValue(d2) as byte, DecimalValue(d3) as byte])
  {
    var parts := Split(s, '.');
    assert forall k :: 0 <= k < 4 ==> IsOctetText(parts[k]);
  }

  lemma InetNtoaFields(o: seq<byte>)
    requires |o| == 4
    ensures Split(InetNtoa(o), '.') == [NatToDecimal(o[0] as nat), NatToDecimal(o[1] as nat),
                                       NatToDecimal(o[2] as nat), NatToDecimal(o[3] as nat)]
  {
    NoDotInDecimal(o[0] as nat); NoDotInDecimal(o[1] as nat);
    NoDotInDecimal(o[2] as nat); NoDotInDecimal(o[3] as nat);
    SplitDotted(NatToDecimal(o[0] as nat), NatToDecimal(o[1] as nat),
                NatToDecimal(o[2] as nat), NatToDecimal(o[3] as nat));
  }

  /** The text `inet_ntoa` prints is parsed back by `inet_aton` to the same four octets. */
  lemma InetRoundTrip(o: seq<byte>)
    requires |o| == 4
    ensures InetAton(InetNtoa(o)) == Some(o)
  {
    var s := InetNtoa(o);
    InetNtoaFields(o);
    OctetText(o[0]); OctetText(o[1]); OctetText(o[2]); OctetText(o[3]);
    InetAtonOfFields(s, NatToDecimal(o[0] as nat), NatToDecimal(o[1] as nat),
                     NatToDecimal(o[2] as nat), NatToDecimal(o[3] as nat));
    assert [o[0], o[1], o[2], o[3]] == o;
  }
}
