/**
 * The tunnel server of the libssh2 client backend: a `socketserver` TCP server per
 * local or dynamic tunnel, whose request handler either relays to a fixed target or,
 * when the tunnel has no target (a dynamic tunnel), speaks SOCKS5 to the client.
 */
module Libssh2Tunneling {
  import opened Common
  import opened Wire
  import opened Enums
  import opened Socks

  /** The SOCKS exchange as written: an exception in the CONNECT step raises again in `except`. */
  function ExchangeAsWritten(input: seq<byte>, connect: ConnectResult): (run: Run)
    requires ValidConnect(connect)
  {
    match Decode(input)
    case Complete(r, _) =>
      if r.header.cmd == 1 && r.address != Unassigned && connect.Connected? then
        Run(MethodReply + SuccessReply(r.header.atyp, connect.bind, connect.bindPort), false,
            Forwarded(r.address, r.port))
      else
        Run(MethodReply, r.header.cmd != 1, Raised(MissingAttribute))
    case _ => Front(Decode(input))
  }

  /**
   * The exchange up to the end of the request, when it does not get that far: nothing is
   * written before the method list has been read, `05 00` after it.
   */
  function Front(d: Decoded): (run: Run)
    requires !d.Complete?
  {
    match d
    case GreetingShort => Run([], false, Raised(ShortRead))
    case GreetingRejected(_) => Run([], false, Raised(AssertionFailed))
    case MethodsShort(_) => Run([], false, Raised(ShortRead))
    case HeaderShort(_) => Run(MethodReply, false, Raised(ShortRead))
    case HeaderRejected(_, _) => Run(MethodReply, false, Raised(AssertionFailed))
    case AddressShort(_, _) => Run(MethodReply, false, Raised(ShortRead))
    case PortShort(_, _, _) => Run(MethodReply, false, Raised(ShortRead))
  }

  /**
   * The SOCKS exchange with the failure reply of section 6 of RFC 1928 actually written
   * when the CONNECT step fails: the handler's `except` builds `05 05 00 ATYP` and zeros.
   */
  function Exchange(input: seq<byte>, connect: ConnectResult): (run: Run)
    requires ValidConnect(connect)
  {
    match Decode(input)
    case Complete(r, _) =>
      if r.header.cmd == 1 && r.address != Unassigned && connect.Connected? then
        Run(MethodReply + SuccessReply(r.header.atyp, connect.bind, connect.bindPort), false,
            Forwarded(r.address, r.port))
      else if r.header.cmd != 1 then
        Run(MethodReply, true, Raised(SocketClosed))
      else
        Run(MethodReply + FailedReply(r.header.atyp, ConnectionRefused), true, Finished)
    case _ => Front(Decode(input))
  }

  /**
   * The SOCKS branch of `LocalPortServerHandler.handle`, reading the stream step by step:
   * greeting, methods, `05 00`, request header, DST.ADDR, DST.PORT, then the CONNECT
   * attempt and its reply.
   */
  method SocksExchange(conn: Connection, connect: ConnectResult) returns (outcome: Outcome)
    requires conn.Valid() && conn.pos == 0 && conn.sent == [] && !conn.closed
    requires ValidConnect(connect)
    modifies conn
    ensures conn.Valid()
    ensures Run(conn.sent, conn.closed, outcome) == Exchange(conn.input, connect)
  {
    var d := ReadRequest(conn);
    if !d.Complete? {
      return Front(d).outcome;
    }
    var r := d.request;
    var cmd, atyp := r.header.cmd, r.header.atyp;
    var reply;
    if cmd == 1 && r.address != Unassigned && connect.Connected? {
      reply := SuccessReply(atyp, connect.bind, connect.bindPort);
    } else {
      if cmd != 1 {
        conn.Close();
      }
      reply := FailedReply(atyp, ConnectionRefused);
    }
    var written := conn.SendAll(reply);
    if !written {
      return Raised(SocketClosed);
    }
    if reply[1] == 0 && cmd == 1 {
      return Forwarded(r.address, r.port);
    }
    conn.Close();
    return Finished;
  }

  /**
   * The SOCKS branch as written, step by step: the same reading, but a CONNECT step that
   * fails raises again in `except`, so no failure reply is written.
   */
  method SocksExchangeAsWritten(conn: Connection, connect: ConnectResult) returns (outcome: Outcome)
    requires conn.Valid() && conn.pos == 0 && conn.sent == [] && !conn.closed
    requires ValidConnect(connect)
    modifies conn
    ensures conn.Valid()
    ensures Run(conn.sent, conn.closed, outcome) == ExchangeAsWritten(conn.input, connect)
  {
    var d := ReadRequest(conn);
    if !d.Complete? {
      return Front(d).outcome;
    }
    var r := d.request;
    if r.header.cmd == 1 && r.address != Unassigned && connect.Connected? {
      var written := conn.SendAll(SuccessReply(r.header.atyp, connect.bind, connect.bindPort));
      return Forwarded(r.address, r.port);
    }
    if r.header.cmd != 1 {
      conn.Close();
    }
    return Raised(MissingAttribute);
  }

  /**
   * `LocalPortServer`: the `terminate` event it shares with its tunnel's registry entry,
   * whether `shutdown` has been called, and the settings fixed at construction.
   */
  class LocalPortServer {
    var terminate: bool
    var isShutdown: bool
    const autoTerminate: bool
    const errorLevel: TunnelErrorLevel
    const remoteHost: Option<string>
    const remotePort: Option<int>
    const socksServer: bool

    /** SOCKS mode is on exactly when the tunnel was given neither a target host nor a port. */
    constructor(terminate: bool, remoteHost: Option<string>, remotePort: Option<int>,
                autoTerminateTunnels: bool, errorLevel: TunnelErrorLevel)
      ensures this.terminate == terminate && !isShutdown
      ensures autoTerminate == autoTerminateTunnels && this.errorLevel == errorLevel
      ensures this.remoteHost == remoteHost && this.remotePort == remotePort
      ensures socksServer <==> remoteHost.None? && remotePort.None?
    {
      this.terminate := terminate;
      isShutdown := false;
      autoTerminate := autoTerminateTunnels;
      this.errorLevel := errorLevel;
      this.remoteHost := remoteHost;
      this.remotePort := remotePort;
      socksServer := remoteHost.None? && remotePort.None?;
    }

    /** `socketserver`'s `shutdown`: the serving loop stops. */
    method Shutdown()
      modifies this
      ensures isShutdown && terminate == old(terminate)
    {
      isShutdown := true;
    }

    /**
     * `handle_error`: the request is always closed; the tunnel is terminated and the
     * server shut down only when auto-termination is on.
     */
    method HandleError(conn: Connection)
      modifies this, conn
      ensures terminate == (old(terminate) || autoTerminate)
      ensures isShutdown == (old(isShutdown) || autoTerminate)
      ensures conn.closed && conn.sent == old(conn.sent) && conn.pos == old(conn.pos)
    {
      if autoTerminate {
        terminate := true;
      }
      conn.Close();
      if autoTerminate {
        Shutdown();
      }
    }

    /**
     * One request as `socketserver` runs it: `handle`, then `handle_error` if it raised,
     * then `shutdown_request`.
     */
    method ProcessRequest(conn: Connection, connect: ConnectResult) returns (outcome: Outcome)
      requires conn.Valid() && conn.pos == 0 && conn.sent == [] && !conn.closed
      requires ValidConnect(connect)
      modifies this, conn
      ensures outcome == Handled(socksServer, conn.input, connect)
      ensures conn.sent == (if socksServer then Exchange(conn.input, connect).sent else [])
      ensures conn.closed
      ensures terminate == (old(terminate) || (outcome.Raised? && autoTerminate))
      ensures isShutdown == (old(isShutdown) || old(terminate) || (outcome.Raised? && autoTerminate))
    {
      outcome := Handle(this, conn, connect);
      if outcome.Raised? {
        HandleError(conn);
      }
      conn.Close();
    }
  }

  /** How `handle` ends for a server in the given mode. */
  function Handled(socksServer: bool, input: seq<byte>, connect: ConnectResult): Outcome
    requires ValidConnect(connect)
  {
    if socksServer then Exchange(input, connect).outcome else Relayed
  }

  /**
   * `LocalPortServerHandler.handle`: a fixed-target relay or the SOCKS exchange, then in
   * `finally` the request is closed and the server shut down if the tunnel was terminated.
   */
  method Handle(server: LocalPortServer, conn: Connection, connect: ConnectResult) returns (outcome: Outcome)
    requires conn.Valid() && conn.pos == 0 && conn.sent == [] && !conn.closed
    requires ValidConnect(connect)
    modifies server, conn
    ensures outcome == Handled(server.socksServer, conn.input, connect)
    ensures conn.sent == (if server.socksServer then Exchange(conn.input, connect).sent else [])
    ensures conn.closed
    ensures server.terminate == old(server.terminate)
    ensures server.isShutdown == (old(server.isShutdown) || old(server.terminate))
  {
    if server.socksServer {
      outcome := SocksExchange(conn, connect);
    } else {
      outcome := Relayed;
    }
    conn.Close();
    if server.terminate {
      server.Shutdown();
    }
  }

  /**
   * Nothing is written back before a valid greeting and its whole method list have been
   * read; after that the first two bytes written are always `05 00`.
   */
  lemma MethodReplyFollowsGreeting(input: seq<byte>, connect: ConnectResult)
    requires ValidConnect(connect)
    ensures var sent := Exchange(input, connect).sent;
            && (sent == [] <==> BeforeMethodReply(Decode(input)))
            && (sent != [] ==> && |input| >= 2 && input[0] == SocksVersion && input[1] > 0
                               && |input| >= 2 + input[1] as nat && sent[..2] == MethodReply)
  {
  }

  /**
   * The request is handed to `local_handler` exactly when it is a complete CONNECT with a
   * decoded address that the connection attempt reached; the client has then been sent
   * `05 00`, then `05 00 00 ATYP`, the bound address and the bound port.
   */
  lemma ForwardsOnlyConnected(input: seq<byte>, connect: ConnectResult)
    requires ValidConnect(connect)
    ensures var run := Exchange(input, connect);
            var d := Decode(input);
            && (run.outcome.Forwarded? <==>
                  d.Complete? && d.request.header.cmd == 1 && d.request.address != Unassigned
                  && connect.Connected?)
            && (run.outcome.Forwarded? ==>
                  && run.outcome == Forwarded(d.request.address, d.request.port)
                  && run.sent == MethodReply + [SocksVersion, 0, 0, d.request.header.atyp]
                                 + connect.bind + Pack16(connect.bindPort)
                  && !run.closed)
  {
    var d := Decode(input);
    if d.Complete? && connect.Connected? {
      SuccessReplyLayout(d.request.header.atyp, connect.bind, connect.bindPort);
    }
  }

  /** A CONNECT that cannot be made is answered with REP 5 and the request is closed. */
  lemma RefusedConnectIsAnswered(input: seq<byte>, connect: ConnectResult)
    requires ValidConnect(connect)
    requires Decode(input).Complete? && Decode(input).request.header.cmd == 1
    requires Decode(input).request.address == Unassigned || connect.Refused?
    ensures var run := Exchange(input, connect);
            && run.sent == MethodReply + [SocksVersion, ConnectionRefused, 0,
                                          Decode(input).request.header.atyp, 0, 0, 0, 0, 0, 0]
            && run.outcome == Finished && run.closed
  {
  }

  /**
   * As written, no failure reply is ever sent: every reply after `05 00` has status 0,
   * and a failed CONNECT ends in the handler raising instead.
   */
  lemma AsWrittenNeverRefuses(input: seq<byte>, connect: ConnectResult)
    requires ValidConnect(connect)
    ensures var run := ExchangeAsWritten(input, connect);
            && (|run.sent| > 2 ==> run.sent[3] == 0 && run.outcome.Forwarded?)
            && (Decode(input).Complete? && !run.outcome.Forwarded? ==> run.outcome == Raised(MissingAttribute))
  {
    var d := Decode(input);
    if d.Complete? && connect.Connected? {
      SuccessReplyLayout(d.request.header.atyp, connect.bind, connect.bindPort);
    }
  }

  /**
   * A client asking to CONNECT to 10.0.0.1:80, where the connection is refused: as written
   * it gets only `05 00` and the handler raises; the corrected exchange sends REP 5.
   */
  lemma RefusedConnectExample()
    ensures var r := Request([0], Header(5, 1, 0, 1), IPv4([10, 0, 0, 1]), 80);
            && WellFormed(r)
            && ExchangeAsWritten(Encode(r), Refused) == Run(MethodReply, false, Raised(MissingAttribute))
            && Exchange(Encode(r), Refused).sent == MethodReply + [5, 5, 0, 1, 0, 0, 0, 0, 0, 0]
  {
    var r := Request([0], Header(5, 1, 0, 1), IPv4([10, 0, 0, 1]), 80);
    DecodeEncode(r, []);
    assert Encode(r) + [] == Encode(r);
  }
}
