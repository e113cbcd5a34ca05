/**
 * Network-order packing as done with Python's `struct` module in the SOCKS code:
 * `!H` (big-endian u16), `!I` (big-endian u32) and the ten-byte reply layout `!BBBBIH`
 * of section 6 of RFC 1928.
 */
module Wire {
  import opened Common

  const TWO16: nat := 0x1_0000
  const TWO32: nat := 0x1_0000_0000

  /** `struct.pack('!H', n)`: high byte first. */
  function Pack16(n: nat): (b: seq<byte>)
    requires n < TWO16
    ensures |b| == 2
  {
    [(n / 256) as byte, (n % 256) as byte]
  }

  /** `struct.unpack('!H', b)[0]`. */
  function Unpack16(b: seq<byte>): (n: nat)
    requires |b| == 2
    ensures n < TWO16
  {
    b[0] as nat * 256 + b[1] as nat
  }

  lemma Pack16RoundTrip(n: nat)
    requires n < TWO16
    ensures Unpack16(Pack16(n)) == n
  {
  }

  lemma Unpack16RoundTrip(b: seq<byte>)
    requires |b| == 2
    ensures Pack16(Unpack16(b)) == b
  {
  }

  /** `struct.pack('!I', n)`: the high half, then the low half, each big-endian. */
  function Pack32(n: nat): (b: seq<byte>)
    requires n < TWO32
    ensures |b| == 4
  {
    Pack16(n / TWO16) + Pack16(n % TWO16)
  }

  /** `struct.unpack('!I', b)[0]`. */
  function Unpack32(b: seq<byte>): (n: nat)
    requires |b| == 4
    ensures n < TWO32
  {
    Unpack16(b[..2]) * TWO16 + Unpack16(b[2..])
  }

  lemma Pack32RoundTrip(n: nat)
    requires n < TWO32
    ensures Unpack32(Pack32(n)) == n
  {
    var b := Pack32(n);
    assert b[..2] == Pack16(n / TWO16);
    assert b[2..] == Pack16(n % TWO16);
    Pack16RoundTrip(n / TWO16);
    Pack16RoundTrip(n % TWO16);
  }

  lemma Unpack32RoundTrip(b: seq<byte>)
    requires |b| == 4
    ensures Pack32(Unpack32(b)) == b
  {
    var n := Unpack32(b);
    var hi, lo := Unpack16(b[..2]), Unpack16(b[2..]);
    assert n / TWO16 == hi && n % TWO16 == lo;
    Unpack16RoundTrip(b[..2]);
    Unpack16RoundTrip(b[2..]);
    assert b[..2] + b[2..] == b;
  }

  /** `struct.pack("!BBBBIH", ver, rep, rsv, atyp, addr, port)`. */
  function PackReply(ver: byte, rep: byte, rsv: byte, atyp: byte, addr: nat, port: nat): (b: seq<byte>)
    requires addr < TWO32 && port < TWO16
    ensures |b| == 10
    ensures b[0] == ver && b[1] == rep && b[2] == rsv && b[3] == atyp
    ensures Unpack32(b[4..8]) == addr && Unpack16(b[8..]) == port
  {
    var r := [ver, rep, rsv, atyp] + Pack32(addr) + Pack16(port);
    assert r[4..8] == Pack32(addr) && r[8..] == Pack16(port);
    Pack32RoundTrip(addr);
    Pack16RoundTrip(port);
    r
  }

  /** The SOCKS version every server here speaks. */
  const SocksVersion: byte := 5

  /** REP 0x05, "connection refused" in section 6 of RFC 1928: the only failure code sent. */
  const ConnectionRefused: byte := 5

  /** `generate_failed_reply(address_type, error_number)`: version, the code, then zeros. */
  function FailedReply(atyp: byte, err: byte): (b: seq<byte>)
    ensures b == [SocksVersion, err, 0, atyp, 0, 0, 0, 0, 0, 0]
  {
    PackReply(SocksVersion, err, 0, atyp, 0, 0)
  }

  /** The method-selection reply: version 5, method 0x00 ("no authentication required"). */
  const MethodReply: seq<byte> := [SocksVersion, 0]
}
