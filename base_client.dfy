/**
 * The tunnel registry every client keeps (`BaseClient.tunnels`): for each tunnel kind, a
 * table from the tunnel's option string to the record of its thread, its `terminate`
 * event, its server and its port. Threads, events and servers are records of the state the
 * registry can observe; the port the operating system picks for port 0 is a parameter.
 */
module BaseClient {
  import opened Common
  import opened Enums
  import opened Text

  /** A tunnel's thread: its name, whether it is running, whether it has been joined. */
  datatype ThreadState = ThreadState(name: string, alive: bool, joined: bool)

  /** A tunnel's `socketserver` server: whether `shutdown` has been called on it. */
  datatype ServerState = ServerState(isShutdown: bool)

  /** The `(thread, event, server, port)` record kept for one tunnel; `terminate` is the event. */
  datatype TunnelHandle = TunnelHandle(thread: ThreadState, terminate: bool, server: Option<ServerState>, port: Option<int>)

  /** The whole registry: one table per tunnel kind. */
  type Tables = map<TunnelType, map<string, TunnelHandle>>

  /** The four empty tables a client starts with and `exit` restores. */
  function EmptyTables(): (t: Tables)
    ensures HasAllKinds(t) && forall kind :: kind in t ==> t[kind] == map[]
  {
    map[Local := map[], Remote := map[], Dynamic := map[], X11 := map[]]
  }

  predicate HasAllKinds(t: Tables) {
    Local in t && Remote in t && Dynamic in t && X11 in t
  }

  /** The option string of a local or remote tunnel: `bind:port:host:remote_port`. */
  function LocalKey(bind: string, port: int, host: string, remotePort: int): string {
    bind + ":" + IntToDecimal(port) + ":" + host + ":" + IntToDecimal(remotePort)
  }

  /** The option string of a dynamic tunnel: `bind:port`. */
  function DynamicKey(bind: string, port: int): string {
    bind + ":" + IntToDecimal(port)
  }

  lemma NoColonInDecimal(i: int)
    ensures ':' !in IntToDecimal(i)
  {
  }

  /** Without a colon in the address or host, a local key splits back into its four fields. */
  lemma LocalKeyFields(bind: string, port: int, host: string, remotePort: int)
    requires ':' !in bind && ':' !in host
    ensures Split(LocalKey(bind, port, host, remotePort), ':') ==
              [bind, IntToDecimal(port), host, IntToDecimal(remotePort)]
  {
    var p, rp := IntToDecimal(port), IntToDecimal(remotePort);
    NoColonInDecimal(port);
    NoColonInDecimal(remotePort);
    var tail1 := host + [':'] + rp;
    var tail2 := p + [':'] + tail1;
    assert LocalKey(bind, port, host, remotePort) == bind + [':'] + tail2;
    SplitNoSeparator(rp, ':');
    SplitJoin(host, ':', rp);
    SplitJoin(p, ':', tail1);
    SplitJoin(bind, ':', tail2);
  }

  /** In `a:t` the colon sits right after `a`. */
  lemma ColonAt(a: string, t: string)
    ensures |a| < |a + ":" + t| && (a + ":" + t)[|a|] == ':'
  {
  }

  /** Two texts joined by a colon, whose first parts hold no colon, split at that colon alike. */
  lemma FirstFieldEqual(a1: string, t1: string, a2: string, t2: string)
    requires ':' !in a1 && ':' !in a2
    requires a1 + ":" + t1 == a2 + ":" + t2
    ensures a1 == a2 && t1 == t2
  {
    ColonAt(a1, t1);
    ColonAt(a2, t2);
    var s := a1 + ":" + t1;
    if |a1| < |a2| {
      assert false;
    } else if |a2| < |a1| {
      assert false;
    }
    assert a1 == s[..|a1|] == a2;
    assert t1 == s[|a1| + 1..] == t2;
  }

  /** Two texts joined by a colon, whose last parts hold no colon, split at that colon alike. */
  lemma LastFieldEqual(a1: string, d1: string, a2: string, d2: string)
    requires ':' !in d1 && ':' !in d2
    requires a1 + ":" + d1 == a2 + ":" + d2
    ensures a1 == a2 && d1 == d2
  {
    ColonAt(a1, d1);
    ColonAt(a2, d2);
    var s := a1 + ":" + d1;
    if |d1| < |d2| {
      assert false;
    } else if |d2| < |d1| {
      assert false;
    }
    assert a1 == s[..|a1|] == a2;
    assert d1 == s[|a1| + 1..] == d2;
  }

  /**
   * Tunnels whose bind addresses have no colon share a key only if all four fields agree;
   * the target host may hold colons (an IPv6 address), since the remote port is the text
   * after the last colon.
   */
  lemma LocalKeyInjective(b1: string, p1: int, h1: string, r1: int, b2: string, p2: int, h2: string, r2: int)
    requires ':' !in b1 && ':' !in b2
    requires LocalKey(b1, p1, h1, r1) == LocalKey(b2, p2, h2, r2)
    ensures b1 == b2 && p1 == p2 && h1 == h2 && r1 == r2
  {
    var d1, d2 := IntToDecimal(p1), IntToDecimal(p2);
    var e1, e2 := IntToDecimal(r1), IntToDecimal(r2);
    NoColonInDecimal(p1);
    NoColonInDecimal(p2);
    NoColonInDecimal(r1);
    NoColonInDecimal(r2);
    assert LocalKey(b1, p1, h1, r1) == b1 + ":" + (d1 + ":" + (h1 + ":" + e1));
    assert LocalKey(b2, p2, h2, r2) == b2 + ":" + (d2 + ":" + (h2 + ":" + e2));
    FirstFieldEqual(b1, d1 + ":" + (h1 + ":" + e1), b2, d2 + ":" + (h2 + ":" + e2));
    FirstFieldEqual(d1, h1 + ":" + e1, d2, h2 + ":" + e2);
    LastFieldEqual(h1, e1, h2, e2);
    IntToDecimalInjective(p1, p2);
    IntToDecimalInjective(r1, r2);
  }

  /**
   * Dynamic tunnels share a key only if address and port agree, whatever the address
   * holds: the port is the text after the last colon.
   */
  lemma DynamicKeyInjective(b1: string, p1: int, b2: string, p2: int)
    requires DynamicKey(b1, p1) == DynamicKey(b2, p2)
    ensures b1 == b2 && p1 == p2
  {
    NoColonInDecimal(p1);
    NoColonInDecimal(p2);
    LastFieldEqual(b1, IntToDecimal(p1), b2, IntToDecimal(p2));
    IntToDecimalInjective(p1, p2);
  }

  /** A tunnel thread's name: the kind's value, a colon, then the option string. */
  function ThreadName(kind: TunnelType, key: string): string {
    TunnelTypeValue(kind) + ":" + key
  }

  /** The thread name determines the tunnel's kind and option string. */
  lemma ThreadNameInjective(k1: TunnelType, key1: string, k2: TunnelType, key2: string)
    requires ThreadName(k1, key1) == ThreadName(k2, key2)
    ensures k1 == k2 && key1 == key2
  {
    var v1, v2 := TunnelTypeValue(k1), TunnelTypeValue(k2);
    SplitJoin(v1, ':', key1);
    SplitJoin(v2, ':', key2);
    assert ThreadName(k1, key1) == v1 + [':'] + key1;
    assert ThreadName(k2, key2) == v2 + [':'] + key2;
    assert v1 == v2;
    TunnelTypeValueInjective(k1, k2);
    assert key1 == ThreadName(k1, key1)[|v1| + 1..];
  }

  /** A freshly started tunnel: a running, unjoined thread named after its key, an unset event. */
  function NewHandle(kind: TunnelType, key: string, server: bool, port: Option<int>): TunnelHandle {
    TunnelHandle(ThreadState(ThreadName(kind, key), true, false), false,
                 if server then Some(ServerState(false)) else None, port)
  }

  /**
   * What the registry guarantees about its tables: all four kinds are present, every
   * thread is named after its kind and key, and only remote tunnels have no server.
   */
  predicate Consistent(t: Tables) {
    && HasAllKinds(t)
    && (forall kind, key :: kind in t && key in t[kind] ==> t[kind][key].thread.name == ThreadName(kind, key))
    && (forall kind, key :: kind in t && key in t[kind] ==>
          (t[kind][key].server.None? <==> kind == Remote) && (t[kind][key].port.None? <==> kind == Remote))
  }

  /** `__shutdown_thread__`: set the event, shut the server down if any, join the thread if alive. */
  function StopHandle(h: TunnelHandle): (s: TunnelHandle)
    ensures s.terminate && !s.thread.alive && s.thread.name == h.thread.name && s.port == h.port
    ensures s.server.Some? <==> h.server.Some?
    ensures s.server.Some? ==> s.server.value.isShutdown
    ensures s.thread.joined <==> h.thread.joined || h.thread.alive
  {
    h.(thread := h.thread.(alive := false, joined := h.thread.joined || h.thread.alive),
       terminate := true,
       server := if h.server.Some? then Some(ServerState(true)) else None)
  }

  /** Stopping a tunnel twice is stopping it once. */
  lemma StopIdempotent(h: TunnelHandle)
    ensures StopHandle(StopHandle(h)) == StopHandle(h)
  {
  }

  /** The result of opening a tunnel: the new tables and what the call returned. */
  datatype Opened = Opened(tables: Tables, port: Option<int>)

  /**
   * `local_tunnel`: only with a string host and an int port; an existing key starts
   * nothing and returns the port as given; port 0 is replaced by the bound port in both
   * the key and the result.
   */
  function OpenLocal(t: Tables, localPort: int, remoteHost: Option<string>, remotePort: Option<int>,
                     bind: string, boundPort: int): (r: Opened)
    requires Consistent(t)
    ensures Consistent(r.tables)
  {
    if remoteHost.None? || remotePort.None? then Opened(t, None)
    else
      var key := LocalKey(bind, localPort, remoteHost.value, remotePort.value);
      if key in t[Local] then Opened(t, Some(localPort))
      else
        var port := if localPort == 0 then boundPort else localPort;
        var key' := LocalKey(bind, port, remoteHost.value, remotePort.value);
        Opened(t[Local := t[Local][key' := NewHandle(Local, key', true, Some(port))]], Some(port))
  }

  /** `remote_tunnel`: a new key gets a thread and event, with no server and no port. */
  function OpenRemote(t: Tables, localPort: int, remoteHost: string, remotePort: int, bind: string): (r: Tables)
    requires Consistent(t)
    ensures Consistent(r)
  {
    var key := LocalKey(bind, localPort, remoteHost, remotePort);
    if key in t[Remote] then t
    else t[Remote := t[Remote][key := NewHandle(Remote, key, false, None)]]
  }

  /** `dynamic_tunnel`: keyed by `bind:port`, with the same port-0 rule as a local tunnel. */
  function OpenDynamic(t: Tables, localPort: int, bind: string, boundPort: int): (r: Opened)
    requires Consistent(t)
    ensures Consistent(r.tables) && r.port.Some?
  {
    var key := DynamicKey(bind, localPort);
    if key in t[Dynamic] then Opened(t, Some(localPort))
    else
      var port := if localPort == 0 then boundPort else localPort;
      var key' := DynamicKey(bind, port);
      Opened(t[Dynamic := t[Dynamic][key' := NewHandle(Dynamic, key', true, Some(port))]], Some(port))
  }

  /**
   * The option string `tunnel_is_alive` and `shutdown_tunnel` look up: `bind:port` for a
   * dynamic tunnel, the four-part key when both remote fields are given, otherwise none.
   */
  function KeyFor(kind: TunnelType, sport: int, rhost: Option<string>, rport: Option<int>, bind: string): Option<string> {
    if kind == Dynamic then Some(DynamicKey(bind, sport))
    else if rhost.Some? && rport.Some? then Some(LocalKey(bind, sport, rhost.value, rport.value))
    else None
  }

  /** `tunnel_is_alive`: False without the remote fields, None for an unknown key, else the thread's liveness. */
  function IsAlive(t: Tables, kind: TunnelType, sport: int, rhost: Option<string>, rport: Option<int>, bind: string): (r: Option<bool>)
    requires HasAllKinds(t)
    ensures kind != Dynamic && (rhost.None? || rport.None?) ==> r == Some(false)
    ensures kind == Dynamic ==>
              && (r.Some? <==> DynamicKey(bind, sport) in t[Dynamic])
              && (r.Some? ==> r.value == t[Dynamic][DynamicKey(bind, sport)].thread.alive)
    ensures kind != Dynamic && rhost.Some? && rport.Some? ==>
              var key := LocalKey(bind, sport, rhost.value, rport.value);
              && (r.Some? <==> key in t[kind])
              && (r.Some? ==> r.value == t[kind][key].thread.alive)
  {
    match KeyFor(kind, sport, rhost, rport, bind)
    case None => Some(false)
    case Some(key) => if key in t[kind] then Some(t[kind][key].thread.alive) else None
  }

  /** The tables after `shutdown_tunnel`, and the record it stopped. */
  datatype ShutDown = ShutDown(tables: Tables, stopped: Option<TunnelHandle>)

  /** `shutdown_tunnel`: stop the record under the key and delete exactly that entry. */
  function Shutdown(t: Tables, kind: TunnelType, sport: int, rhost: Option<string>, rport: Option<int>, bind: string): (r: ShutDown)
    requires HasAllKinds(t)
    ensures HasAllKinds(r.tables)
  {
    match KeyFor(kind, sport, rhost, rport, bind)
    case None => ShutDown(t, None)
    case Some(key) =>
      if key in t[kind] then ShutDown(t[kind := t[kind] - {key}], Some(StopHandle(t[kind][key])))
      else ShutDown(t, None)
  }

  function StopTable(m: map<string, TunnelHandle>): map<string, TunnelHandle> {
    map key | key in m :: StopHandle(m[key])
  }

  /** `close_tunnels`: every record of every kind stopped, none removed. */
  function StopAll(t: Tables): (r: Tables)
    ensures r.Keys == t.Keys
  {
    map kind | kind in t :: StopTable(t[kind])
  }

  /** The position of each kind in the table order `close_tunnels` walks. */
  function KindIndex(kind: TunnelType): nat {
    match kind
    case Local => 0
    case Remote => 1
    case Dynamic => 2
    case X11 => 3
  }

  /** The tables once `close_tunnels` has stopped the kinds before position `i`. */
  function PartlyStopped(t: Tables, i: nat): (r: Tables)
    ensures r.Keys == t.Keys
  {
    map kind | kind in t :: if KindIndex(kind) < i then StopTable(t[kind]) else t[kind]
  }

  lemma PartlyStoppedStep(t: Tables, i: nat, kind: TunnelType)
    requires kind in t && KindIndex(kind) == i
    ensures PartlyStopped(t, i)[kind := StopTable(t[kind])] == PartlyStopped(t, i + 1)
  {
  }

  lemma PartlyStoppedAll(t: Tables)
    ensures PartlyStopped(t, 4) == StopAll(t)
  {
  }

  lemma StopAllConsistent(t: Tables)
    requires Consistent(t)
    ensures Consistent(StopAll(t))
  {
  }

  /**
   * A local tunnel opens only with both a host and a port; then the call returns the port,
   * the bound one for port 0; the new entry's key is built from that port and holds a
   * running thread and a live server; an existing key changes nothing; no other kind's
   * table and no other key changes.
   */
  lemma OpenLocalSpec(t: Tables, localPort: int, remoteHost: Option<string>, remotePort: Option<int>,
                      bind: string, boundPort: int)
    requires Consistent(t)
    ensures var r := OpenLocal(t, localPort, remoteHost, remotePort, bind, boundPort);
            && (remoteHost.None? || remotePort.None? ==> r == Opened(t, None))
            && (remoteHost.Some? && remotePort.Some? ==>
                  var key := LocalKey(bind, localPort, remoteHost.value, remotePort.value);
                  var port := if key in t[Local] || localPort != 0 then localPort else boundPort;
                  var key' := LocalKey(bind, port, remoteHost.value, remotePort.value);
                  && r.port == Some(port)
                  && (key in t[Local] ==> r.tables == t)
                  && (key !in t[Local] ==>
                        && r.tables[Local][key'] == NewHandle(Local, key', true, Some(port))
                        && r.tables[Local].Keys == t[Local].Keys + {key'}
                        && (forall k :: k in t[Local] && k != key' ==> r.tables[Local][k] == t[Local][k])))
            && (forall kind :: kind in t && kind != Local ==> r.tables[kind] == t[kind])
  {
  }

  /** Opening the same local tunnel again, on a port other than 0, changes nothing and returns that port. */
  lemma {:induction false} OpenLocalIdempotent(t: Tables, localPort: int, remoteHost: string, remotePort: int,
                                               bind: string, boundPort: int, boundPort': int)
    requires Consistent(t) && localPort != 0
    ensures var once := OpenLocal(t, localPort, Some(remoteHost), Some(remotePort), bind, boundPort);
            OpenLocal(once.tables, localPort, Some(remoteHost), Some(remotePort), bind, boundPort')
              == Opened(once.tables, Some(localPort))
  {
    var key := LocalKey(bind, localPort, remoteHost, remotePort);
    var once := OpenLocal(t, localPort, Some(remoteHost), Some(remotePort), bind, boundPort);
    assert key in once.tables[Local];
  }

  /**
   * With port 0, when the operating system binds a port other than 0: the key with port 0
   * is not stored, and each call whose bound port is new adds one entry.
   */
  lemma OpenLocalPortZero(t: Tables, remoteHost: string, remotePort: int, bind: string, boundPort: int)
    requires Consistent(t) && boundPort != 0
    requires LocalKey(bind, 0, remoteHost, remotePort) !in t[Local]
    requires LocalKey(bind, boundPort, remoteHost, remotePort) !in t[Local]
    ensures var r := OpenLocal(t, 0, Some(remoteHost), Some(remotePort), bind, boundPort);
            && r.port == Some(boundPort)
            && LocalKey(bind, 0, remoteHost, remotePort) !in r.tables[Local]
            && LocalKey(bind, boundPort, remoteHost, remotePort) in r.tables[Local]
            && |r.tables[Local]| == |t[Local]| + 1
  {
    var suffix := remoteHost + ":" + IntToDecimal(remotePort);
    assert LocalKey(bind, 0, remoteHost, remotePort) == bind + ":" + (IntToDecimal(0) + ":" + suffix);
    assert LocalKey(bind, boundPort, remoteHost, remotePort) == bind + ":" + (IntToDecimal(boundPort) + ":" + suffix);
    PortFieldsDiffer(bind, suffix, 0, boundPort);
  }

  /** Keys that differ only in the port field, after a common prefix, differ. */
  lemma PortFieldsDiffer(prefix: string, suffix: string, p: int, q: int)
    requires p != q
    ensures prefix + ":" + (IntToDecimal(p) + ":" + suffix) != prefix + ":" + (IntToDecimal(q) + ":" + suffix)
  {
    var a, b := IntToDecimal(p) + ":" + suffix, IntToDecimal(q) + ":" + suffix;
    if prefix + ":" + a == prefix + ":" + b {
      assert a == (prefix + ":" + a)[|prefix| + 1..];
      assert b == (prefix + ":" + b)[|prefix| + 1..];
      NoColonInDecimal(p);
      NoColonInDecimal(q);
      SplitJoin(IntToDecimal(p), ':', suffix);
      SplitJoin(IntToDecimal(q), ':', suffix);
      assert IntToDecimal(p) + [':'] + suffix == a;
      assert IntToDecimal(q) + [':'] + suffix == b;
      assert Split(a, ':')[0] == IntToDecimal(p);
      assert Split(b, ':')[0] == IntToDecimal(q);
      IntToDecimalInjective(p, q);
    }
  }

  /** A remote tunnel is stored under its four-part key with no server and no port; an existing key changes nothing. */
  lemma OpenRemoteSpec(t: Tables, localPort: int, remoteHost: string, remotePort: int, bind: string)
    requires Consistent(t)
    ensures var key := LocalKey(bind, localPort, remoteHost, remotePort);
            var r := OpenRemote(t, localPort, remoteHost, remotePort, bind);
            && key in r[Remote] && r[Remote][key].server.None? && r[Remote][key].port.None?
            && (key in t[Remote] ==> r == t)
            && (key !in t[Remote] ==> r[Remote][key].thread.alive && r[Remote].Keys == t[Remote].Keys + {key})
            && (forall kind :: kind in t && kind != Remote ==> r[kind] == t[kind])
  {
  }

  /** A dynamic tunnel is keyed `bind:port` with the bound port for port 0; an existing key changes nothing. */
  lemma OpenDynamicSpec(t: Tables, localPort: int, bind: string, boundPort: int)
    requires Consistent(t)
    ensures var r := OpenDynamic(t, localPort, bind, boundPort);
            var key := DynamicKey(bind, localPort);
            && (key in t[Dynamic] ==> r == Opened(t, Some(localPort)))
            && (key !in t[Dynamic] ==>
                  var port := if localPort == 0 then boundPort else localPort;
                  && r.port == Some(port)
                  && DynamicKey(bind, port) in r.tables[Dynamic]
                  && r.tables[Dynamic][DynamicKey(bind, port)].server == Some(ServerState(false)))
            && (forall kind :: kind in t && kind != Dynamic ==> r.tables[kind] == t[kind])
  {
  }

  /**
   * Shutting a tunnel down stops the record and deletes exactly its entry; an unknown key
   * or missing remote fields change nothing. Afterwards `tunnel_is_alive` answers None.
   */
  lemma ShutdownSpec(t: Tables, kind: TunnelType, sport: int, rhost: Option<string>, rport: Option<int>, bind: string)
    requires HasAllKinds(t)
    ensures var r := Shutdown(t, kind, sport, rhost, rport, bind);
            var key := KeyFor(kind, sport, rhost, rport, bind);
            && (key.None? || key.value !in t[kind] ==> r == ShutDown(t, None))
            && (key.Some? && key.value in t[kind] ==>
                  && r.tables[kind] == t[kind] - {key.value}
                  && r.stopped == Some(StopHandle(t[kind][key.value]))
                  && (forall other :: other in t && other != kind ==> r.tables[other] == t[other])
                  && IsAlive(r.tables, kind, sport, rhost, rport, bind).None?)
  {
    var key := KeyFor(kind, sport, rhost, rport, bind);
    if key.Some? && key.value in t[kind] {
      var r := Shutdown(t, kind, sport, rhost, rport, bind);
      assert r.tables == t[kind := t[kind] - {key.value}];
      assert key.value !in r.tables[kind];
    }
  }

  lemma ShutdownConsistent(t: Tables, kind: TunnelType, sport: int, rhost: Option<string>, rport: Option<int>, bind: string)
    requires Consistent(t)
    ensures Consistent(Shutdown(t, kind, sport, rhost, rport, bind).tables)
  {
  }

  /** After `close_tunnels` every tunnel is still listed, and every listed tunnel reports it is not alive. */
  lemma CloseThenNotAlive(t: Tables, kind: TunnelType, sport: int, rhost: Option<string>, rport: Option<int>, bind: string)
    requires Consistent(t)
    ensures var key := KeyFor(kind, sport, rhost, rport, bind);
            && (key.Some? ==> (key.value in StopAll(t)[kind] <==> key.value in t[kind]))
            && IsAlive(StopAll(t), kind, sport, rhost, rport, bind) != Some(true)
  {
  }

  /** `close_tunnels` twice, as `exit` calls it, is `close_tunnels` once. */
  lemma StopAllIdempotent(t: Tables)
    ensures StopAll(StopAll(t)) == StopAll(t)
  {
    forall kind | kind in t
      ensures StopAll(StopAll(t))[kind] == StopAll(t)[kind]
    {
      forall key | key in t[kind]
        ensures StopAll(StopAll(t))[kind][key] == StopAll(t)[kind][key]
      {
        StopIdempotent(t[kind][key]);
      }
    }
  }

  /** A new client knows no tunnel: every lookup with a complete key answers None, any other False. */
  lemma NewClientKnowsNoTunnel(kind: TunnelType, sport: int, rhost: Option<string>, rport: Option<int>, bind: string)
    ensures IsAlive(EmptyTables(), kind, sport, rhost, rport, bind)
              == if kind != Dynamic && (rhost.None? || rport.None?) then Some(false) else None
  {
  }

  /** A local tunnel just opened on a port other than 0 reports alive under the same arguments. */
  lemma OpenedLocalIsAlive(t: Tables, localPort: int, remoteHost: string, remotePort: int, bind: string, boundPort: int)
    requires Consistent(t) && localPort != 0
    requires LocalKey(bind, localPort, remoteHost, remotePort) !in t[Local]
    ensures IsAlive(OpenLocal(t, localPort, Some(remoteHost), Some(remotePort), bind, boundPort).tables,
                    Local, localPort, Some(remoteHost), Some(remotePort), bind) == Some(true)
  {
  }

  /** How opening a tunnel ends as written. */
  datatype AsWritten = Completed(tables: Tables, port: Option<int>) | NameTypeError

  /**
   * `local_tunnel` as written: naming the thread adds a plain `Enum` member to a string,
   * which raises TypeError, so a new key never reaches the table.
   */
  function LocalTunnelAsWritten(t: Tables, localPort: int, remoteHost: Option<string>, remotePort: Option<int>,
                                bind: string): AsWritten
    requires HasAllKinds(t)
  {
    if remoteHost.None? || remotePort.None? then Completed(t, None)
    else if LocalKey(bind, localPort, remoteHost.value, remotePort.value) in t[Local] then Completed(t, Some(localPort))
    else NameTypeError
  }

  /** `remote_tunnel` as written: the same naming step raises for every new key. */
  function RemoteTunnelAsWritten(t: Tables, localPort: int, remoteHost: string, remotePort: int, bind: string): AsWritten
    requires HasAllKinds(t)
  {
    if LocalKey(bind, localPort, remoteHost, remotePort) in t[Remote] then Completed(t, None) else NameTypeError
  }

  /** `dynamic_tunnel` as written: the same naming step raises for every new key. */
  function DynamicTunnelAsWritten(t: Tables, localPort: int, bind: string): AsWritten
    requires HasAllKinds(t)
  {
    if DynamicKey(bind, localPort) in t[Dynamic] then Completed(t, Some(localPort)) else NameTypeError
  }

  /**
   * As written, no tunnel is ever registered: from empty tables, the first `local_tunnel`
   * with a host and port, the first `remote_tunnel` and the first `dynamic_tunnel` all
   * raise, and a call that completes leaves the tables as they were.
   */
  lemma AsWrittenNeverRegisters(t: Tables, localPort: int, remoteHost: Option<string>, remotePort: Option<int>,
                                host: string, rport: int, bind: string)
    requires HasAllKinds(t)
    ensures var l := LocalTunnelAsWritten(t, localPort, remoteHost, remotePort, bind);
            var r := RemoteTunnelAsWritten(t, localPort, host, rport, bind);
            var d := DynamicTunnelAsWritten(t, localPort, bind);
            && (l.Completed? ==> l.tables == t)
            && (r.Completed? ==> r.tables == t)
            && (d.Completed? ==> d.tables == t)
            && (remoteHost.Some? && remotePort.Some? ==>
                  LocalTunnelAsWritten(EmptyTables(), localPort, remoteHost, remotePort, bind) == NameTypeError)
            && RemoteTunnelAsWritten(EmptyTables(), localPort, host, rport, bind) == NameTypeError
            && DynamicTunnelAsWritten(EmptyTables(), localPort, bind) == NameTypeError
  {
  }

  /** `local_tunnel(9999, 'localhost', 8888)` on a new client: as written it raises; corrected it opens. */
  lemma LocalTunnelExample()
    ensures LocalTunnelAsWritten(EmptyTables(), 9999, Some("localhost"), Some(8888), "127.0.0.1") == NameTypeError
    ensures var r := OpenLocal(EmptyTables(), 9999, Some("localhost"), Some(8888), "127.0.0.1", 0);
            r.port == Some(9999) && LocalKey("127.0.0.1", 9999, "localhost", 8888) in r.tables[Local]
  {
  }

  /** A client's tunnel registry and the session flags `exit` resets. */
  class Client {
    var tunnels: Tables
    var pastLogin: bool
    var shutdownAll: bool
    const autoTerminateTunnels: bool

    ghost predicate Valid()
      reads this
    {
      Consistent(tunnels)
    }

    /** `__init__`: four empty tables, not logged in, shutdown flag clear. */
    constructor(autoTerminateTunnels: bool)
      ensures Valid() && tunnels == EmptyTables() && !pastLogin && !shutdownAll
      ensures this.autoTerminateTunnels == autoTerminateTunnels
    {
      tunnels := EmptyTables();
      pastLogin := false;
      shutdownAll := false;
      this.autoTerminateTunnels := autoTerminateTunnels;
    }

    /** `local_tunnel`; `boundPort` is the port the operating system bound when asked for port 0. */
    method LocalTunnel(localPort: int, remoteHost: Option<string>, remotePort: Option<int>, bind: string, boundPort: int)
      returns (r: Option<int>)
      requires Valid()
      modifies this
      ensures Valid()
      ensures Opened(tunnels, r) == OpenLocal(old(tunnels), localPort, remoteHost, remotePort, bind, boundPort)
      ensures pastLogin == old(pastLogin) && shutdownAll == old(shutdownAll)
    {
      if remoteHost.Some? && remotePort.Some? {
        var key := LocalKey(bind, localPort, remoteHost.value, remotePort.value);
        if key !in tunnels[Local] {
          var port := localPort;
          if localPort == 0 {
            port := boundPort;
            key := LocalKey(bind, port, remoteHost.value, remotePort.value);
          }
          var handle := TunnelHandle(ThreadState(ThreadName(Local, key), true, false), false, Some(ServerState(false)), Some(port));
          tunnels := tunnels[Local := tunnels[Local][key := handle]];
          return Some(port);
        }
        return Some(localPort);
      }
      return None;
    }

    /** `remote_tunnel`: returns None in every case. */
    method RemoteTunnel(localPort: int, remoteHost: string, remotePort: int, bind: string)
      requires Valid()
      modifies this
      ensures Valid()
      ensures tunnels == OpenRemote(old(tunnels), localPort, remoteHost, remotePort, bind)
      ensures pastLogin == old(pastLogin) && shutdownAll == old(shutdownAll)
    {
      var key := LocalKey(bind, localPort, remoteHost, remotePort);
      if key !in tunnels[Remote] {
        var handle := TunnelHandle(ThreadState(ThreadName(Remote, key), true, false), false, None, None);
        tunnels := tunnels[Remote := tunnels[Remote][key := handle]];
      }
    }

    /** `dynamic_tunnel`; `boundPort` as for `LocalTunnel`. */
    method DynamicTunnel(localPort: int, bind: string, boundPort: int) returns (port: int)
      requires Valid()
      modifies this
      ensures Valid()
      ensures Opened(tunnels, Some(port)) == OpenDynamic(old(tunnels), localPort, bind, boundPort)
      ensures pastLogin == old(pastLogin) && shutdownAll == old(shutdownAll)
    {
      port := localPort;
      var key := DynamicKey(bind, localPort);
      if key !in tunnels[Dynamic] {
        if localPort == 0 {
          port := boundPort;
          key := DynamicKey(bind, port);
        }
        var handle := TunnelHandle(ThreadState(ThreadName(Dynamic, key), true, false), false, Some(ServerState(false)), Some(port));
        tunnels := tunnels[Dynamic := tunnels[Dynamic][key := handle]];
      }
    }

    /** `tunnel_is_alive`. */
    function TunnelIsAlive(kind: TunnelType, sport: int, rhost: Option<string>, rport: Option<int>, bind: string): (r: Option<bool>)
      requires Valid()
      reads this
      ensures kind != Dynamic && (rhost.None? || rport.None?) ==> r == Some(false)
      ensures r == Some(true) ==> exists key :: key in tunnels[kind] && tunnels[kind][key].thread.alive
    {
      IsAlive(tunnels, kind, sport, rhost, rport, bind)
    }

    /** `shutdown_tunnel`; `stopped` is the record it stopped, shared with the tunnel's thread and server. */
    method ShutdownTunnel(kind: TunnelType, sport: int, rhost: Option<string>, rport: Option<int>, bind: string)
      returns (stopped: Option<TunnelHandle>)
      requires Valid()
      modifies this
      ensures Valid()
      ensures ShutDown(tunnels, stopped) == Shutdown(old(tunnels), kind, sport, rhost, rport, bind)
      ensures pastLogin == old(pastLogin) && shutdownAll == old(shutdownAll)
    {
      ShutdownConsistent(tunnels, kind, sport, rhost, rport, bind);
      var key := KeyFor(kind, sport, rhost, rport, bind);
      stopped := None;
      if key.Some? && key.value in tunnels[kind] {
        stopped := Some(StopHandle(tunnels[kind][key.value]));
        tunnels := tunnels[kind := tunnels[kind] - {key.value}];
      }
    }

    /** The inner loop of `close_tunnels`: stop every record of one kind. */
    method StopKind(kind: TunnelType)
      requires kind in tunnels
      modifies this
      ensures tunnels == old(tunnels)[kind := StopTable(old(tunnels)[kind])]
      ensures pastLogin == old(pastLogin) && shutdownAll == old(shutdownAll)
    {
      ghost var table := tunnels[kind];
      var m := tunnels[kind];
      var pending := m.Keys;
      while pending != {}
        invariant pending <= table.Keys && m.Keys == table.Keys
        invariant forall key :: key in table ==> m[key] == if key in pending then table[key] else StopHandle(table[key])
        decreases pending
      {
        var key :| key in pending;
        m := m[key := StopHandle(m[key])];
        pending := pending - {key};
      }
      assert m == StopTable(table);
      tunnels := tunnels[kind := m];
    }

    /** `close_tunnels`: stop every record of every kind, in table order, removing none. */
    method CloseTunnels()
      requires Valid()
      modifies this
      ensures Valid()
      ensures tunnels == StopAll(old(tunnels))
      ensures pastLogin == old(pastLogin) && shutdownAll == old(shutdownAll)
    {
      ghost var start := tunnels;
      StopAllConsistent(start);
      var kinds := [Local, Remote, Dynamic, X11];
      var i := 0;
      while i < |kinds|
        invariant 0 <= i <= |kinds|
        invariant tunnels == PartlyStopped(start, i)
        invariant pastLogin == old(pastLogin) && shutdownAll == old(shutdownAll)
      {
        assert KindIndex(kinds[i]) == i;
        PartlyStoppedStep(start, i, kinds[i]);
        StopKind(kinds[i]);
        i := i + 1;
      }
      PartlyStoppedAll(start);
    }

    /**
     * `exit`: only when logged in; set the shutdown flag, close the tunnels twice, then
     * clear the flag, reset the tables and mark the session logged out. `stopped` is the
     * registry as it was left by the closing, before the reset.
     */
    method Exit() returns (stopped: Tables)
      requires Valid()
      modifies this
      ensures Valid()
      ensures old(pastLogin) ==> tunnels == EmptyTables() && !pastLogin && !shutdownAll && stopped == StopAll(old(tunnels))
      ensures !old(pastLogin) ==> tunnels == old(tunnels) && pastLogin == old(pastLogin)
                                  && shutdownAll == old(shutdownAll) && stopped == old(tunnels)
    {
      stopped := tunnels;
      if pastLogin {
        shutdownAll := true;
        CloseTunnels();
        CloseTunnels();
        StopAllIdempotent(old(tunnels));
        stopped := tunnels;
        shutdownAll := false;
        tunnels := EmptyTables();
        pastLogin := false;
      }
    }
  }
}
