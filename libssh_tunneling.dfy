/**
 * The tunnel server of the libssh client backend. Its `LocalPortServer` (construction,
 * `handle_error`) and `handle_sock_xfer` are the same code as the libssh2 backend's and
 * are modelled once, in `Libssh2Tunneling` and `Socks`; its request handler is a newer
 * SOCKS5 variant with explicit version checks and a fixed CONNECT reply.
 */
module LibsshTunneling {
  import opened Common
  import opened Wire
  import opened Socks
  import Libssh2Tunneling

  /** The reply sent to every CONNECT: success, ATYP 1, address and port all zero. */
  const ConnectReply: seq<byte> := PackReply(SocksVersion, 0, 0, 1, 0, 0)

  /**
   * The SOCKS exchange of this handler. A bad greeting reads `address_type` before it is
   * assigned; a bad request version gets REP 5; CONNECT gets the fixed reply and is
   * forwarded; any other command calls `handle_error` on the handler, which has none.
   */
  function Exchange(input: seq<byte>): (run: Run)
    ensures !run.closed
  {
    match Decode(input)
    case GreetingShort => Run([], false, Raised(ShortRead))
    case GreetingRejected(_) => Run([], false, Raised(NameUnbound))
    case MethodsShort(_) => Run([], false, Raised(ShortRead))
    case HeaderShort(_) => Run(MethodReply, false, Raised(ShortRead))
    case HeaderRejected(_, h) => Run(MethodReply + FailedReply(h.atyp, ConnectionRefused), false, Finished)
    case AddressShort(_, _) => Run(MethodReply, false, Raised(ShortRead))
    case PortShort(_, _, _) => Run(MethodReply, false, Raised(ShortRead))
    case Complete(r, _) =>
      if r.header.cmd == 1 then
        if r.address == Unassigned then Run(MethodReply + ConnectReply, false, Raised(NameUnbound))
        else Run(MethodReply + ConnectReply, false, Forwarded(r.address, r.port))
      else Run(MethodReply, false, Raised(MissingAttribute))
  }

  /** The SOCKS branch of this backend's `LocalPortServerHandler.handle`. */
  method SocksExchange(conn: Connection) returns (outcome: Outcome)
    requires conn.Valid() && conn.pos == 0 && conn.sent == [] && !conn.closed
    modifies conn
    ensures conn.Valid()
    ensures Run(conn.sent, conn.closed, outcome) == Exchange(conn.input)
  {
    var d := ReadRequest(conn);
    if d.GreetingRejected? {
      return Raised(NameUnbound);
    }
    if d.HeaderRejected? {
      var written := conn.SendAll(FailedReply(d.header.atyp, ConnectionRefused));
      return Finished;
    }
    if !d.Complete? {
      return Raised(ShortRead);
    }
    var r := d.request;
    if r.header.cmd == 1 {
      var written := conn.SendAll(ConnectReply);
      if r.address == Unassigned {
        return Raised(NameUnbound);
      }
      return Forwarded(r.address, r.port);
    }
    return Raised(MissingAttribute);
  }

  /** How `handle` ends for a server in the given mode. */
  function Handled(socksServer: bool, input: seq<byte>): Outcome {
    if socksServer then Exchange(input).outcome else Relayed
  }

  /**
   * `LocalPortServerHandler.handle`: a fixed-target relay or the SOCKS exchange; in
   * `finally` the request is closed and the server shut down if the tunnel was terminated.
   */
  method Handle(server: Libssh2Tunneling.LocalPortServer, conn: Connection) returns (outcome: Outcome)
    requires conn.Valid() && conn.pos == 0 && conn.sent == [] && !conn.closed
    modifies server, conn
    ensures outcome == Handled(server.socksServer, conn.input)
    ensures conn.sent == (if server.socksServer then Exchange(conn.input).sent else [])
    ensures conn.closed
    ensures server.terminate == old(server.terminate)
    ensures server.isShutdown == (old(server.isShutdown) || old(server.terminate))
  {
    if server.socksServer {
      outcome := SocksExchange(conn);
    } else {
      outcome := Relayed;
    }
    conn.Close();
    if server.terminate {
      server.Shutdown();
    }
  }

  /**
   * One request as `socketserver` runs it: `handle`, the server's `handle_error` when it
   * raised, then `shutdown_request`.
   */
  method ProcessRequest(server: Libssh2Tunneling.LocalPortServer, conn: Connection) returns (outcome: Outcome)
    requires conn.Valid() && conn.pos == 0 && conn.sent == [] && !conn.closed
    modifies server, conn
    ensures outcome == Handled(server.socksServer, conn.input)
    ensures conn.closed
    ensures server.terminate == (old(server.terminate) || (outcome.Raised? && server.autoTerminate))
    ensures server.isShutdown ==
              (old(server.isShutdown) || old(server.terminate) || (outcome.Raised? && server.autoTerminate))
  {
    outcome := Handle(server, conn);
    if outcome.Raised? {
      server.HandleError(conn);
    }
    conn.Close();
  }

  /** A greeting with the wrong version or no methods gets no reply at all. */
  lemma BadGreetingUnanswered(input: seq<byte>)
    requires |input| >= 2 && !(input[0] == SocksVersion && input[1] > 0)
    ensures Exchange(input) == Run([], false, Raised(NameUnbound))
  {
  }

  /** The method reply is `05 00` whatever methods the client offered. */
  lemma MethodsIgnored(r: Request, methods: seq<byte>, rest: seq<byte>)
    requires WellFormed(r) && 0 < |methods| < 256
    ensures Exchange(Encode(r) + rest) == Exchange(Encode(r.(methods := methods)) + rest)
  {
    DecodeEncode(r, rest);
    DecodeEncode(r.(methods := methods), rest);
  }

  /** A request header with a version other than 5 gets REP 5 and is not forwarded. */
  lemma BadRequestVersionRefused(input: seq<byte>)
    requires Decode(input).HeaderRejected?
    ensures Exchange(input) ==
              Run(MethodReply + [SocksVersion, ConnectionRefused, 0, Decode(input).header.atyp, 0, 0, 0, 0, 0, 0],
                  false, Finished)
  {
  }

  /**
   * A complete CONNECT is answered with `05 00 00 01` and six zero bytes, and is forwarded
   * to its decoded target when the ATYP gave one; any other command gets no reply and is
   * never forwarded.
   */
  lemma ConnectReplyFixed(input: seq<byte>)
    requires Decode(input).Complete?
    ensures var r := Decode(input).request;
            var run := Exchange(input);
            && (r.header.cmd == 1 ==> run.sent == MethodReply + [5, 0, 0, 1, 0, 0, 0, 0, 0, 0])
            && (r.header.cmd != 1 ==> run.sent == MethodReply)
            && (run.outcome.Forwarded? <==> r.header.cmd == 1 && (r.header.atyp == 1 || r.header.atyp == 3))
            && (run.outcome.Forwarded? ==> run.outcome == Forwarded(r.address, r.port))
  {
    DecodeComplete(input);
  }
}
