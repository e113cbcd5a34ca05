/**
 * What the three SOCKS5 handlers share: the client's byte stream as a connection
 * object with a read cursor, the messages of sections 3 to 5 of RFC 1928 as the
 * handlers read them (greeting, method list, request header, address, port), and
 * `handle_sock_xfer`, which is the same function in both client backends.
 */
module Socks {
  import opened Common
  import opened Wire
  import Text

  /** The exceptions a handler can raise, named after what raises them in Python. */
  datatype Fault =
    | ShortRead          // `struct.unpack`, `inet_ntoa`, `ord` or `[0]` on fewer bytes than asked for
    | AssertionFailed    // an `assert` on the greeting or the request header
    | NameUnbound        // a local variable read before any branch assigned it
    | MissingAttribute   // `self.handle_error` looked up on the request handler
    | SocketClosed       // `sendall` on a request the handler already closed

  datatype Greeting = Greeting(version: byte, nmethods: byte)

  datatype Header = Header(version: byte, cmd: byte, rsv: byte, atyp: byte)

  /**
   * DST.ADDR as the handlers decode it: ATYP 1 gives four octets (turned into text by
   * `inet_ntoa`), ATYP 3 a length-prefixed name, and any other ATYP leaves `address`
   * unassigned.
   */
  datatype Address = IPv4(octets: seq<byte>) | DomainName(name: seq<byte>) | Unassigned

  /** A complete client message: the method list, the request header, DST.ADDR and DST.PORT. */
  datatype Request = Request(methods: seq<byte>, header: Header, address: Address, port: nat)

  /** How far decoding a client stream gets, in the order the handlers read it. */
  datatype Decoded =
    | GreetingShort
    | GreetingRejected(greeting: Greeting)
    | MethodsShort(greeting: Greeting)
    | HeaderShort(methods: seq<byte>)
    | HeaderRejected(methods: seq<byte>, header: Header)
    | AddressShort(methods: seq<byte>, header: Header)
    | PortShort(methods: seq<byte>, header: Header, address: Address)
    | Complete(request: Request, consumed: nat)

  function Min(a: nat, b: nat): nat { if a < b then a else b }

  /** What `recv(n)` returns at offset `pos`: `n` bytes, or whatever is left before end of stream. */
  function Take(s: seq<byte>, pos: nat, n: nat): (r: seq<byte>)
    requires pos <= |s|
    ensures |r| == Min(n, |s| - pos)
    ensures pos + n <= |s| ==> r == s[pos..pos + n]
  {
    s[pos..Min(pos + n, |s|)]
  }

  /**
   * The ten-byte reply the handlers' success path writes: `05 00 00 ATYP`, then the
   * bound address after `inet_ntoa`, `inet_aton` and `!I`, then the bound port.
   */
  function SuccessReply(atyp: byte, bind: seq<byte>, bindPort: nat): (b: seq<byte>)
    requires |bind| == 4 && bindPort < TWO16
    ensures |b| == 10
  {
    Text.InetRoundTrip(bind);
    var packed := Text.InetAton(Text.InetNtoa(bind)).value;
    PackReply(SocksVersion, 0, 0, atyp, Unpack32(packed), bindPort)
  }

  /** The success reply carries the bound address and port unchanged, in network order. */
  lemma SuccessReplyLayout(atyp: byte, bind: seq<byte>, bindPort: nat)
    requires |bind| == 4 && bindPort < TWO16
    ensures SuccessReply(atyp, bind, bindPort) == [SocksVersion, 0, 0, atyp] + bind + Pack16(bindPort)
  {
    Text.InetRoundTrip(bind);
    Unpack32RoundTrip(bind);
  }

  /** Reads DST.ADDR at `pos` for the given ATYP; None when the stream ends too early. */
  function AddressAt(input: seq<byte>, pos: nat, atyp: byte): (r: Option<(Address, nat)>)
    requires pos <= |input|
    ensures r.Some? ==> pos <= r.value.1 <= |input|
  {
    if atyp == 1 then
      if pos + 4 <= |input| then Some((IPv4(input[pos..pos + 4]), pos + 4)) else None
    else if atyp == 3 then
      if pos + 1 <= |input| then
        var name := Take(input, pos + 1, input[pos] as nat);
        Some((DomainName(name), pos + 1 + |name|))
      else None
    else Some((Unassigned, pos))
  }

  /** Decodes a client stream the way the handlers read it, stopping at the first failure. */
  function Decode(input: seq<byte>): (d: Decoded)
    ensures d.Complete? ==> d.consumed <= |input|
  {
    if |input| < 2 then GreetingShort
    else
      var g := Greeting(input[0], input[1]);
      if !(g.version == SocksVersion && g.nmethods > 0) then GreetingRejected(g)
      else
        var p := 2 + g.nmethods as nat;
        if |input| < p then MethodsShort(g)
        else DecodeRequest(input, input[2..p], p)
  }

  /** The part of `Decode` after the method list, which ends at `p`. */
  function DecodeRequest(input: seq<byte>, methods: seq<byte>, p: nat): (d: Decoded)
    requires p <= |input|
    ensures d.Complete? ==> d.consumed <= |input|
  {
    if |input| < p + 4 then HeaderShort(methods)
    else
      var h := Header(input[p], input[p + 1], input[p + 2], input[p + 3]);
      if h.version != SocksVersion then HeaderRejected(methods, h)
      else
        match AddressAt(input, p + 4, h.atyp)
        case None => AddressShort(methods, h)
        case Some((address, q)) =>
          if |input| < q + 2 then PortShort(methods, h, address)
          else Complete(Request(methods, h, address, Unpack16(input[q..q + 2])), q + 2)
  }

  /** Whether decoding stopped before the `05 00` method reply is written. */
  predicate BeforeMethodReply(d: Decoded) {
    d.GreetingShort? || d.GreetingRejected? || d.MethodsShort?
  }

  /** The bytes DST.ADDR occupies on the wire. */
  function AddressBytes(a: Address): seq<byte>
    requires a.DomainName? ==> |a.name| < 256
  {
    match a
    case IPv4(o) => o
    case DomainName(n) => [|n| as byte] + n
    case Unassigned => []
  }

  /** A request a conforming client can send: the ATYP agrees with the address form. */
  predicate WellFormed(r: Request) {
    && 0 < |r.methods| < 256
    && r.header.version == SocksVersion
    && r.port < TWO16
    && match r.address
       case IPv4(o) => r.header.atyp == 1 && |o| == 4
       case DomainName(n) => r.header.atyp == 3 && |n| < 256
       case Unassigned => r.header.atyp != 1 && r.header.atyp != 3
  }

  /** The client side: greeting, methods, request header, DST.ADDR, DST.PORT. */
  function Encode(r: Request): (b: seq<byte>)
    requires WellFormed(r)
  {
    [SocksVersion, |r.methods| as byte] + r.methods
      + [r.header.version, r.header.cmd, r.header.rsv, r.header.atyp]
      + AddressBytes(r.address) + Pack16(r.port)
  }

  /** Whatever follows a well-formed request (the relayed data) does not disturb its decoding. */
  lemma DecodeEncode(r: Request, rest: seq<byte>)
    requires WellFormed(r)
    ensures Decode(Encode(r) + rest) == Complete(r, |Encode(r)|)
  {
    var input := Encode(r) + rest;
    var n := |r.methods|;
    var p := 2 + n;
    var ab := AddressBytes(r.address);
    assert input[0] == SocksVersion && input[1] == n as byte;
    assert input[2..p] == r.methods;
    assert input[p..p + 4] == [r.header.version, r.header.cmd, r.header.rsv, r.header.atyp];
    assert input[p + 4..p + 4 + |ab|] == ab;
    var q := p + 4 + |ab|;
    assert input[q..q + 2] == Pack16(r.port);
    Unpack16RoundTrip(input[q..q + 2]);
    Pack16RoundTrip(r.port);
    match r.address
    case IPv4(o) =>
      assert AddressAt(input, p + 4, 1) == Some((IPv4(o), q));
    case DomainName(name) =>
      assert input[p + 4] == |name| as byte;
      assert input[p + 5..p + 5 + |name|] == name;
      assert AddressAt(input, p + 4, 3) == Some((DomainName(name), q));
    case Unassigned =>
  }

  /** A decoded DST.ADDR followed by a full port agrees with its ATYP and is the bytes it consumed. */
  lemma AddressAtBytes(input: seq<byte>, pos: nat, atyp: byte)
    requires pos <= |input| && AddressAt(input, pos, atyp).Some?
    requires AddressAt(input, pos, atyp).value.1 + 2 <= |input|
    ensures var (a, q) := AddressAt(input, pos, atyp).value;
            && (a.IPv4? <==> atyp == 1) && (a.DomainName? <==> atyp == 3)
            && (a.IPv4? ==> |a.octets| == 4)
            && (a.DomainName? ==> |a.name| < 256)
            && input[pos..q] == AddressBytes(a)
  {
    if atyp == 3 {
      var name := Take(input, pos + 1, input[pos] as nat);
      assert |name| == input[pos] as nat;
      assert input[pos..pos + 1 + |name|] == [input[pos]] + name;
    }
  }

  /** Where the pieces of a completely decoded request sit in the stream. */
  lemma DecodeCompleteParts(input: seq<byte>) returns (p: nat, q: nat)
    requires Decode(input).Complete?
    ensures p == 2 + input[1] as nat && p + 4 <= q && q + 2 == Decode(input).consumed <= |input|
    ensures var r := Decode(input).request;
            && r.methods == input[2..p] && input[0] == SocksVersion && input[1] > 0
            && r.header == Header(input[p], input[p + 1], input[p + 2], input[p + 3])
            && r.header.version == SocksVersion
            && AddressAt(input, p + 4, r.header.atyp) == Some((r.address, q))
            && r.port == Unpack16(input[q..q + 2])
  {
    p := 2 + input[1] as nat;
    q := Decode(input).consumed - 2;
  }

  /** A decoded request is well formed and is exactly the prefix of the stream it consumed. */
  lemma DecodeComplete(input: seq<byte>)
    requires Decode(input).Complete?
    ensures WellFormed(Decode(input).request)
    ensures Encode(Decode(input).request) == input[..Decode(input).consumed]
  {
    var r := Decode(input).request;
    var p, q := DecodeCompleteParts(input);
    AddressAtBytes(input, p + 4, r.header.atyp);
    Unpack16RoundTrip(input[q..q + 2]);
    assert input[..q + 2] == input[..2] + input[2..p] + input[p..p + 4] + input[p + 4..q] + input[q..q + 2];
  }

  /**
   * What the oracle standing for `remote.connect((address, port))` and `getsockname()`
   * answers: the local IPv4 address and port of the new socket, or a refusal.
   */
  datatype ConnectResult = Connected(bind: seq<byte>, bindPort: nat) | Refused

  predicate ValidConnect(c: ConnectResult) {
    c.Connected? ==> |c.bind| == 4 && c.bindPort < TWO16
  }

  /**
   * How a request handler ends: relaying to the server's fixed target (not SOCKS mode),
   * handing the request to `local_handler` with a decoded target, returning, or raising.
   */
  datatype Outcome = Relayed | Forwarded(address: Address, port: nat) | Finished | Raised(fault: Fault)

  /** The observable part of one SOCKS exchange: bytes written back, whether the handler closed the request itself, and how it ended. */
  datatype Run = Run(sent: seq<byte>, closed: bool, outcome: Outcome)

  /**
   * A client connection: the bytes the peer will send, how many `recv` calls have taken,
   * the bytes written back with `sendall`, and whether the request has been closed.
   */
  class Connection {
    const input: seq<byte>
    var pos: nat
    var sent: seq<byte>
    var closed: bool

    predicate Valid()
      reads this
    {
      pos <= |input|
    }

    constructor(input: seq<byte>)
      ensures Valid() && this.input == input && pos == 0 && sent == [] && !closed
    {
      this.input := input;
      pos := 0;
      sent := [];
      closed := false;
    }

    /** `recv(n)`: the next `n` bytes, fewer only once the peer has finished sending. */
    method Recv(n: nat) returns (data: seq<byte>)
      requires Valid()
      modifies this
      ensures Valid()
      ensures data == Take(input, old(pos), n) && pos == old(pos) + |data|
      ensures sent == old(sent) && closed == old(closed)
    {
      data := Take(input, pos, n);
      pos := pos + |data|;
    }

    /** `sendall(data)`: appends to what the peer has received; fails once the request is closed. */
    method SendAll(data: seq<byte>) returns (ok: bool)
      modifies this
      ensures ok == !old(closed)
      ensures sent == if ok then old(sent) + data else old(sent)
      ensures pos == old(pos) && closed == old(closed)
    {
      ok := !closed;
      if ok {
        sent := sent + data;
      }
    }

    /** `server.close_request(request)`. */
    method Close()
      modifies this
      ensures closed && pos == old(pos) && sent == old(sent)
    {
      closed := true;
    }
  }

  /**
   * `get_available_methods(n)`: `n` reads of one byte each; a read that comes back
   * empty makes `ord` raise, reported here as None.
   */
  method GetAvailableMethods(conn: Connection, n: nat) returns (methods: Option<seq<byte>>)
    requires conn.Valid()
    modifies conn
    ensures conn.Valid()
    ensures methods.Some? <==> old(conn.pos) + n <= |conn.input|
    ensures methods.Some? ==> methods.value == conn.input[old(conn.pos)..old(conn.pos) + n]
                              && conn.pos == old(conn.pos) + n
    ensures conn.sent == old(conn.sent) && conn.closed == old(conn.closed)
  {
    var acc: seq<byte> := [];
    var i := 0;
    while i < n
      invariant conn.Valid() && 0 <= i <= n
      invariant conn.pos == old(conn.pos) + i && i == |acc|
      invariant acc == conn.input[old(conn.pos)..conn.pos]
      invariant conn.sent == old(conn.sent) && conn.closed == old(conn.closed)
    {
      var b := conn.Recv(1);
      if |b| == 0 {
        return None;
      }
      acc := acc + b;
      i := i + 1;
    }
    return Some(acc);
  }

  /** Reads DST.ADDR for the given ATYP: four octets, or a length byte and that many bytes. */
  method ReadAddress(conn: Connection, atyp: byte) returns (r: Option<(Address, nat)>)
    requires conn.Valid()
    modifies conn
    ensures conn.Valid()
    ensures r == AddressAt(conn.input, old(conn.pos), atyp)
    ensures r.Some? ==> conn.pos == r.value.1
    ensures conn.sent == old(conn.sent) && conn.closed == old(conn.closed)
  {
    var start := conn.pos;
    if atyp == 1 {
      var octets := conn.Recv(4);
      if |octets| < 4 {
        return None;
      }
      return Some((IPv4(octets), conn.pos));
    } else if atyp == 3 {
      var length := conn.Recv(1);
      if |length| < 1 {
        return None;
      }
      var name := conn.Recv(length[0] as nat);
      return Some((DomainName(name), conn.pos));
    }
    return Some((Unassigned, conn.pos));
  }

  /** Reads the request header, DST.ADDR and DST.PORT that follow the method list. */
  method ReadRequestTail(conn: Connection, methods: seq<byte>) returns (d: Decoded)
    requires conn.Valid()
    modifies conn
    ensures conn.Valid()
    ensures d == DecodeRequest(conn.input, methods, old(conn.pos))
    ensures d.Complete? ==> conn.pos == d.consumed
    ensures conn.sent == old(conn.sent) && conn.closed == old(conn.closed)
  {
    var fields := conn.Recv(4);
    if |fields| < 4 {
      return HeaderShort(methods);
    }
    var h := Header(fields[0], fields[1], fields[2], fields[3]);
    if h.version != SocksVersion {
      return HeaderRejected(methods, h);
    }
    var address := ReadAddress(conn, h.atyp);
    if address.None? {
      return AddressShort(methods, h);
    }
    var portBytes := conn.Recv(2);
    if |portBytes| < 2 {
      return PortShort(methods, h, address.value.0);
    }
    return Complete(Request(methods, h, address.value.0, Unpack16(portBytes)), conn.pos);
  }

  /**
   * The reading the three handlers share: the greeting, the method list, the `05 00`
   * method reply, then the request. It stops where decoding stops.
   */
  method ReadRequest(conn: Connection) returns (d: Decoded)
    requires conn.Valid() && conn.pos == 0 && conn.sent == [] && !conn.closed
    modifies conn
    ensures conn.Valid() && !conn.closed
    ensures d == Decode(conn.input)
    ensures conn.sent == if BeforeMethodReply(d) then [] else MethodReply
  {
    var greeting := conn.Recv(2);
    if |greeting| < 2 {
      return GreetingShort;
    }
    var g := Greeting(greeting[0], greeting[1]);
    if !(g.version == SocksVersion && g.nmethods > 0) {
      return GreetingRejected(g);
    }
    var methods := GetAvailableMethods(conn, g.nmethods as nat);
    if methods.None? {
      return MethodsShort(g);
    }
    var written := conn.SendAll(MethodReply);
    d := ReadRequestTail(conn, methods.value);
  }

  /** `select.POLLIN`, as the ssh libraries export it. */
  const PollIn: int := 1

  /**
   * `handle_sock_xfer`: with the library's C poll, the revents words at the two indices
   * decide; otherwise it is membership of the socket in the ready list.
   */
  function HandleSockXfer<S(==)>(cPoll: bool, sock: S, ready: seq<S>, revents: seq<int>,
                                 selfIndex: nat, otherIndex: nat): (r: bool)
    requires cPoll ==> selfIndex < |revents| && otherIndex < |revents|
    ensures !cPoll ==> (r <==> sock in ready)
  {
    if cPoll then revents[selfIndex] % 2 == PollIn || revents[otherIndex] % 2 == 0
    else sock in ready
  }

  /** With C poll, a transfer is skipped exactly when this side has no input and the other side has. */
  lemma HandleSockXferSkips<S>(sock: S, ready: seq<S>, revents: seq<int>, selfIndex: nat, otherIndex: nat)
    requires selfIndex < |revents| && otherIndex < |revents|
    ensures !HandleSockXfer(true, sock, ready, revents, selfIndex, otherIndex)
            <==> revents[selfIndex] % 2 == 0 && revents[otherIndex] % 2 == 1
  {
  }
}
