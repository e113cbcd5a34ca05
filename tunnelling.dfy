/**
 * The legacy tunnel server (`redssh/tunnelling.py`): the same SOCKS5 exchange as the
 * libssh2 backend, guarded by a check that the session's main channel is still open,
 * with a server that always terminates on an error.
 */
module Tunnelling {
  import opened Common
  import opened Enums
  import opened Socks
  import Libssh2Tunneling

  /**
   * `check_closed(session, chan)`: whether the main channel, or the given channel, reports
   * end of file. Each argument is what `_block(channel.eof)` returned: None when the
   * session's shutdown flag is set. The outer None of `chanEof` is "no channel given".
   */
  function CheckClosed(mainEof: Option<bool>, chanEof: Option<Option<bool>>): (closed: bool)
    ensures chanEof.None? ==> (closed <==> mainEof == Some(true))
  {
    if chanEof.None? then mainEof == Some(true)
    else mainEof == Some(true) || chanEof.value == Some(true)
  }

  /**
   * With a channel, the check is the check of the main channel or'ed with the same check
   * on that channel; and a session whose shutdown flag is set never reads as closed.
   */
  lemma CheckClosedWithChannel(mainEof: Option<bool>, chanEof: Option<bool>)
    ensures CheckClosed(mainEof, Some(chanEof)) == (CheckClosed(mainEof, None) || CheckClosed(chanEof, None))
    ensures !CheckClosed(None, Some(None))
  {
  }

  /** The legacy `LocalPortServer`: no auto-termination setting, errors always terminate. */
  class LocalPortServer {
    var terminate: bool
    var isShutdown: bool
    const errorLevel: TunnelErrorLevel
    const remoteHost: Option<string>
    const remotePort: Option<int>
    const socksServer: bool

    /** SOCKS mode is on exactly when the tunnel was given neither a target host nor a port. */
    constructor(terminate: bool, remoteHost: Option<string>, remotePort: Option<int>, errorLevel: TunnelErrorLevel)
      ensures this.terminate == terminate && !isShutdown && this.errorLevel == errorLevel
      ensures this.remoteHost == remoteHost && this.remotePort == remotePort
      ensures socksServer <==> remoteHost.None? && remotePort.None?
    {
      this.terminate := terminate;
      isShutdown := false;
      this.errorLevel := errorLevel;
      this.remoteHost := remoteHost;
      this.remotePort := remotePort;
      socksServer := remoteHost.None? && remotePort.None?;
    }

    method Shutdown()
      modifies this
      ensures isShutdown && terminate == old(terminate)
    {
      isShutdown := true;
    }

    /** `handle_error`: terminate the tunnel, close the request, shut the server down. */
    method HandleError(conn: Connection)
      modifies this, conn
      ensures terminate && isShutdown
      ensures conn.closed && conn.sent == old(conn.sent) && conn.pos == old(conn.pos)
    {
      terminate := true;
      conn.Close();
      Shutdown();
    }

    /**
     * One request as `socketserver` runs it: `handle`, `handle_error` when it raised,
     * then `shutdown_request`. The three channel readings are the oracles of `Handle`.
     */
    method ProcessRequest(conn: Connection, connect: ConnectResult, entryEof: Option<bool>,
                          exitMainEof: Option<bool>, exitChanEof: Option<bool>)
      returns (outcome: Outcome)
      requires conn.Valid() && conn.pos == 0 && conn.sent == [] && !conn.closed
      requires ValidConnect(connect)
      modifies this, conn
      ensures outcome == Handled(socksServer, CheckClosed(entryEof, None), conn.input, connect)
      ensures conn.closed
      ensures terminate == (old(terminate) || outcome.Raised?)
      ensures isShutdown == (old(isShutdown) || old(terminate) || outcome.Raised?
                             || CheckClosed(exitMainEof, Some(exitChanEof)))
    {
      outcome := Handle(this, conn, connect, entryEof, exitMainEof, exitChanEof);
      if outcome.Raised? {
        HandleError(conn);
      }
      conn.Close();
    }

    /**
     * `ProcessRequest` over the handler as written: a CONNECT that cannot be made raises,
     * and `handle_error` then ends the whole tunnel.
     */
    method ProcessRequestAsWritten(conn: Connection, connect: ConnectResult, entryEof: Option<bool>,
                                   exitMainEof: Option<bool>, exitChanEof: Option<bool>)
      returns (outcome: Outcome)
      requires conn.Valid() && conn.pos == 0 && conn.sent == [] && !conn.closed
      requires ValidConnect(connect)
      modifies this, conn
      ensures outcome == HandledAsWritten(socksServer, CheckClosed(entryEof, None), conn.input, connect)
      ensures conn.closed
      ensures terminate == (old(terminate) || outcome.Raised?)
      ensures isShutdown == (old(isShutdown) || old(terminate) || outcome.Raised?
                             || CheckClosed(exitMainEof, Some(exitChanEof)))
      ensures (socksServer && !CheckClosed(entryEof, None) && RefusedConnect(conn.input, connect))
              ==> terminate && isShutdown
    {
      outcome := HandleAsWritten(this, conn, connect, entryEof, exitMainEof, exitChanEof);
      if outcome.Raised? {
        HandleError(conn);
      }
      conn.Close();
      if socksServer && !CheckClosed(entryEof, None) && RefusedConnect(conn.input, connect) {
        RefusedConnectEndsTunnel(conn.input, connect);
      }
    }
  }

  /**
   * How `handle` ends: the fixed-target relay or the SOCKS exchange, but only while the
   * main channel is open; otherwise it does nothing.
   */
  function Handled(socksServer: bool, mainClosed: bool, input: seq<byte>, connect: ConnectResult): (o: Outcome)
    requires ValidConnect(connect)
    ensures mainClosed ==> o == Finished
    ensures o.Forwarded? ==> socksServer
  {
    if mainClosed then Finished
    else if socksServer then Libssh2Tunneling.Exchange(input, connect).outcome
    else Relayed
  }

  /**
   * `LocalPortServerHandler.handle`. `entryEof` is the main channel's end-of-file reading
   * before the branch; `exitMainEof` and `exitChanEof` are the two readings `finally`
   * takes, which shuts the server down if the tunnel was terminated or the channel closed.
   */
  method Handle(server: LocalPortServer, conn: Connection, connect: ConnectResult, entryEof: Option<bool>,
                exitMainEof: Option<bool>, exitChanEof: Option<bool>)
    returns (outcome: Outcome)
    requires conn.Valid() && conn.pos == 0 && conn.sent == [] && !conn.closed
    requires ValidConnect(connect)
    modifies server, conn
    ensures outcome == Handled(server.socksServer, CheckClosed(entryEof, None), conn.input, connect)
    ensures conn.sent == (if server.socksServer && !CheckClosed(entryEof, None)
                          then Libssh2Tunneling.Exchange(conn.input, connect).sent else [])
    ensures conn.closed == (server.socksServer && !CheckClosed(entryEof, None)
                            && Libssh2Tunneling.Exchange(conn.input, connect).closed)
    ensures server.terminate == old(server.terminate)
    ensures server.isShutdown == (old(server.isShutdown) || old(server.terminate)
                                  || CheckClosed(exitMainEof, Some(exitChanEof)))
  {
    if !server.socksServer && !CheckClosed(entryEof, None) {
      outcome := Relayed;
    } else if server.socksServer && !CheckClosed(entryEof, None) {
      outcome := Libssh2Tunneling.SocksExchange(conn, connect);
    } else {
      outcome := Finished;
    }
    if server.terminate || CheckClosed(exitMainEof, Some(exitChanEof)) {
      server.Shutdown();
    }
  }

  /** How `handle` as written ends: the same as `Handled`, over the exchange as written. */
  function HandledAsWritten(socksServer: bool, mainClosed: bool, input: seq<byte>, connect: ConnectResult): (o: Outcome)
    requires ValidConnect(connect)
    ensures mainClosed ==> o == Finished
    ensures o.Forwarded? ==> socksServer
  {
    if mainClosed then Finished
    else if socksServer then Libssh2Tunneling.ExchangeAsWritten(input, connect).outcome
    else Relayed
  }

  /** `LocalPortServerHandler.handle` as written: `Handle` with the exchange as written. */
  method HandleAsWritten(server: LocalPortServer, conn: Connection, connect: ConnectResult, entryEof: Option<bool>,
                         exitMainEof: Option<bool>, exitChanEof: Option<bool>)
    returns (outcome: Outcome)
    requires conn.Valid() && conn.pos == 0 && conn.sent == [] && !conn.closed
    requires ValidConnect(connect)
    modifies server, conn
    ensures outcome == HandledAsWritten(server.socksServer, CheckClosed(entryEof, None), conn.input, connect)
    ensures conn.sent == (if server.socksServer && !CheckClosed(entryEof, None)
                          then Libssh2Tunneling.ExchangeAsWritten(conn.input, connect).sent else [])
    ensures conn.closed == (server.socksServer && !CheckClosed(entryEof, None)
                            && Libssh2Tunneling.ExchangeAsWritten(conn.input, connect).closed)
    ensures server.terminate == old(server.terminate)
    ensures server.isShutdown == (old(server.isShutdown) || old(server.terminate)
                                  || CheckClosed(exitMainEof, Some(exitChanEof)))
  {
    if !server.socksServer && !CheckClosed(entryEof, None) {
      outcome := Relayed;
    } else if server.socksServer && !CheckClosed(entryEof, None) {
      outcome := Libssh2Tunneling.SocksExchangeAsWritten(conn, connect);
    } else {
      outcome := Finished;
    }
    if server.terminate || CheckClosed(exitMainEof, Some(exitChanEof)) {
      server.Shutdown();
    }
  }

  /** A complete CONNECT request whose target has no address or refuses the connection. */
  predicate RefusedConnect(input: seq<byte>, connect: ConnectResult) {
    && Decode(input).Complete?
    && Decode(input).request.header.cmd == 1
    && (Decode(input).request.address == Unassigned || connect.Refused?)
  }

  /**
   * As written, a CONNECT that cannot be made makes the legacy handler raise, and the
   * legacy `handle_error` always terminates the tunnel and shuts its server down; the
   * corrected handler answers it with REP 5 and finishes normally, leaving the tunnel up.
   */
  lemma RefusedConnectEndsTunnel(input: seq<byte>, connect: ConnectResult)
    requires ValidConnect(connect) && RefusedConnect(input, connect)
    ensures HandledAsWritten(true, false, input, connect) == Raised(MissingAttribute)
    ensures Handled(true, false, input, connect) == Finished
  {
  }
}
