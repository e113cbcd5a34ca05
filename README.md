# RedSSH core, modelled in Dafny

RedSSH is a Python SSH client library with two backends: one over libssh2 (`ssh2-python`) and one over libssh (`ssh-python`). This project models four parts of it:

- **The tunnel registry.** Every client keeps it in `BaseClient.tunnels`. Each tunnel kind has a table from the tunnel's option string to a `(thread, terminate event, server, port)` record. `local_tunnel`, `remote_tunnel`, `dynamic_tunnel`, `tunnel_is_alive`, `shutdown_tunnel`, `close_tunnels` and `exit` drive it.
- **The non-blocking adapters** of both backends:
  - `_block` retries a call while it answers "try again";
  - `_block_write` hands a write primitive the unwritten suffix of a byte string until every byte is taken (data given as `str` is not modelled; see "## Left out");
  - `_read_iter` is a generator that yields `data[0:size]` for each positive read.

  The library primitive is a script of results. The session's shutdown flag is a parameter, fixed for the duration of one call.
- **The SOCKS5 handshake** of the three tunnel servers: the libssh2 backend's, the libssh backend's, and the legacy `redssh/tunnelling.py`. It covers sections 3 to 6 of RFC 1928: method selection, the request, the address types IPv4 and domain name, and the replies. The client's stream is a `Connection` object with a read cursor. `recv(n)` takes the next `n` bytes from a byte sequence, or fewer only at the end of the stream (see "## Left out"). Each handler is a method that reads the stream step by step. It is proved equal to a function over the whole stream, and that function is related to an encoder of well-formed requests.
- **Authentication.** This covers:
  - the ordered procedures `_auth` of both backends, where the server's answers are a parameter;
  - `_auth_get_supported`, the libssh bitmask filter;
  - `check_host_key`, the libssh2 host-key policy table;
  - the check at the start of `connect`;
  - the `read`/`send` guards.

Module layout: one module per source file. `BaseClient`, `LibSSH2Client`, `LibSSHClient`, `Libssh2Tunneling`, `LibsshTunneling`, `Tunnelling` and `Enums` follow the source. Four modules hold what several files share:

- `Adapters`: the specification of the three adapters, and the `connect` check.
- `Socks`: the SOCKS messages, the `Connection` class and the shared reading steps.
- `Wire`: `struct` packing in network order.
- `Text`: `str(int)`, `str.split` and dotted-quad text.

Where the project's documentation and the code disagree, the model follows the code. Two defects in the code are modelled both ways (see "## Findings"):

- The tunnel-opening operations of `Client` and the SOCKS handlers of the libssh2 and legacy tunnel servers model the corrected code. Their as-written twins are `LocalTunnelAsWritten`, `RemoteTunnelAsWritten` and `DynamicTunnelAsWritten`, then `ExchangeAsWritten` with `SocksExchangeAsWritten`, and `HandledAsWritten`, `HandleAsWritten` and `ProcessRequestAsWritten`.

Other differences between documentation and code:

- `tunnel_is_alive` answers None, not False, for a key that is not registered. This includes a tunnel after `shutdown_tunnel`.
- `close_tunnels` stops every tunnel but removes none. Only `exit` empties the tables.
- The libssh2 and legacy handlers send the bound address and port in their CONNECT reply. Only the libssh handler sends an all-zero address.

## Model

| member | source | states |
|---|---|---|
| Enums.TunnelTypeValueInjective | redssh/enums.py:26-30 | the four tunnel kinds carry distinct, colon-free string values |
| Text.IntToDecimalRoundTrip | redssh/clients/base_client.py:133 | `int(str(i)) == i` for every int, negative ones included |
| Text.IntToDecimalInjective | redssh/clients/base_client.py:133 | distinct ports have distinct `str` texts in an option string |
| Text.SplitJoin | redssh/clients/base_client.py:133 | splitting `a + sep + b` at `sep`, when `a` holds no separator, gives `a` followed by the pieces of `b` |
| Text.InetRoundTrip | redssh/clients/libssh2/tunneling.py:100 | the dotted-quad text `inet_ntoa` gives for four octets is parsed back by `inet_aton` to the same four octets |
| Wire.Pack16RoundTrip | redssh/clients/libssh2/tunneling.py:105 | unpacking `!H` after packing it gives the port back |
| Wire.Unpack16RoundTrip | redssh/clients/libssh2/tunneling.py:105 | packing `!H` after unpacking two bytes gives the bytes back |
| Wire.Pack32RoundTrip | redssh/clients/libssh2/tunneling.py:113-115 | unpacking `!I` after packing it gives the number back |
| Wire.Unpack32RoundTrip | redssh/clients/libssh2/tunneling.py:113 | packing `!I` after unpacking four bytes gives the bytes back |
| Wire.PackReply | redssh/clients/libssh2/tunneling.py:115 | `!BBBBIH` packs 10 bytes: the four single bytes in place, then an address and a port that unpack to the values given |
| Wire.FailedReply | redssh/clients/libssh2/tunneling.py:135-136 | `generate_failed_reply` is version 5, the error code, 0, the ATYP, then six zero bytes |
| Socks.SuccessReplyLayout | redssh/clients/libssh2/tunneling.py:113-115 | the success reply is `05 00 00 ATYP`, then the bound address's four octets unchanged, then the bound port big-endian |
| Socks.DecodeEncode | redssh/clients/libssh2/tunneling.py:91-105 | decoding a well-formed client message followed by any further bytes yields that message and consumes exactly its encoding |
| Socks.DecodeComplete | redssh/clients/libssh2/tunneling.py:91-105 | a completely decoded request is well formed, and its encoding is exactly the prefix of the stream that was consumed |
| Socks.Connection.Recv | redssh/clients/libssh2/tunneling.py:91 | `recv(n)` returns the next `n` bytes, or what is left at the end of the stream, and advances the cursor by what it returned |
| Socks.Connection.SendAll | redssh/clients/libssh2/tunneling.py:96 | `sendall` appends the data to what the peer received, unless the request is closed |
| Socks.GetAvailableMethods | redssh/clients/libssh2/tunneling.py:129-133 | `n` one-byte reads succeed exactly when at least `n` bytes remain, and return those bytes in order |
| Socks.ReadAddress | redssh/clients/libssh2/tunneling.py:99-104 | ATYP 1 reads four octets; ATYP 3 reads a length byte and that many bytes; any other ATYP reads nothing; the result equals the stream-level decoder |
| Socks.ReadRequestTail | redssh/clients/libssh2/tunneling.py:97-105 | reading the header, the address and the port step by step equals the stream-level decoder, and the cursor ends at what it consumed |
| Socks.ReadRequest | redssh/clients/libssh2/tunneling.py:91-105 | the shared reading equals the decoder of the whole stream; `05 00` is written exactly once the greeting and the whole method list are read |
| Socks.HandleSockXfer | redssh/clients/libssh2/tunneling.py:39-43 | without C poll, `handle_sock_xfer` is exactly membership of the socket in the ready list |
| Socks.HandleSockXferSkips | redssh/clients/libssh2/tunneling.py:41 | with C poll, the transfer is skipped exactly when this side has no input and the other side has |
| Libssh2Tunneling.SocksExchange | redssh/clients/libssh2/tunneling.py:89-123 | corrected code (the failure reply is sent; as-written twin `SocksExchangeAsWritten`): the handler's SOCKS branch, read step by step, writes, closes and ends exactly as the exchange function says |
| Libssh2Tunneling.SocksExchangeAsWritten | redssh/clients/libssh2/tunneling.py:89-123 | the SOCKS branch as written, read step by step, writes, closes and ends exactly as `ExchangeAsWritten` says: a CONNECT that cannot be made raises AttributeError with no reply |
| Libssh2Tunneling.LocalPortServer.constructor | redssh/clients/libssh2/tunneling.py:49-60 | SOCKS mode holds exactly when neither a target host nor a target port was given |
| Libssh2Tunneling.LocalPortServer.HandleError | redssh/clients/libssh2/tunneling.py:67-80 | `handle_error` always closes the request; it sets `terminate` and shuts the server down exactly when auto-termination is on |
| Libssh2Tunneling.LocalPortServer.ProcessRequest | redssh/clients/libssh2/tunneling.py:84-127 | corrected code (as-written exchange: `SocksExchangeAsWritten`): a handled request is always closed; a raising handler terminates the tunnel only under auto-termination; the server is shut down when the tunnel was terminated |
| Libssh2Tunneling.Handle | redssh/clients/libssh2/tunneling.py:84-127 | corrected code (as-written exchange: `SocksExchangeAsWritten`): `handle` writes the SOCKS bytes only in SOCKS mode, always closes the request in `finally`, and shuts the server down exactly when `terminate` was set |
| Libssh2Tunneling.MethodReplyFollowsGreeting | redssh/clients/libssh2/tunneling.py:91-96 | nothing is written before a valid greeting and its whole method list are read; after that the first two bytes written are `05 00` |
| Libssh2Tunneling.ForwardsOnlyConnected | redssh/clients/libssh2/tunneling.py:106-121 | the request reaches `local_handler` exactly when it is a complete CONNECT whose address was decoded and reached; the client then got `05 00` and the 10-byte success reply |
| Libssh2Tunneling.RefusedConnectIsAnswered | redssh/clients/libssh2/tunneling.py:116-118 | a CONNECT that cannot be made gets `05 05 00 ATYP` and six zero bytes, and is not forwarded |
| Libssh2Tunneling.AsWrittenNeverRefuses | redssh/clients/libssh2/tunneling.py:116-118 | as written, no failure reply is ever sent: a failed CONNECT ends with the handler raising |
| Libssh2Tunneling.RefusedConnectExample | redssh/clients/libssh2/tunneling.py:116-118 | a refused CONNECT to 10.0.0.1:80 gets only `05 00` as written, and the REP 5 reply when corrected |
| LibsshTunneling.SocksExchange | redssh/clients/libssh/tunneling.py:89-116 | the newer SOCKS branch, read step by step, writes and ends exactly as its exchange function says |
| LibsshTunneling.Handle | redssh/clients/libssh/tunneling.py:84-120 | `handle` writes the SOCKS bytes only in SOCKS mode, always closes the request, and shuts the server down exactly when `terminate` was set |
| LibsshTunneling.ProcessRequest | redssh/clients/libssh/tunneling.py:84-120 | a request is always closed; a raising handler leads to the server's `handle_error`, which terminates only under auto-termination |
| LibsshTunneling.BadGreetingUnanswered | redssh/clients/libssh/tunneling.py:93-96 | a greeting with version other than 5 or no methods gets no reply, and the handler raises on the unassigned `address_type` |
| LibsshTunneling.MethodsIgnored | redssh/clients/libssh/tunneling.py:97-98 | the exchange does not depend on which methods the client offered |
| LibsshTunneling.BadRequestVersionRefused | redssh/clients/libssh/tunneling.py:99-103 | a request header whose version is not 5 gets `05 05 00 ATYP` and zeros, and is not forwarded |
| LibsshTunneling.ConnectReplyFixed | redssh/clients/libssh/tunneling.py:104-116 | a CONNECT gets `05 00 00 01` and six zero bytes, and is forwarded when its ATYP gave an address; any other command gets no reply, and the handler raises and never forwards |
| Tunnelling.CheckClosed | redssh/tunnelling.py:37-41 | without a channel, the check is "the main channel reports end of file" |
| Tunnelling.CheckClosedWithChannel | redssh/tunnelling.py:37-41 | with a channel, the check is the main channel's check or that channel's; a session whose shutdown flag is set never reads as closed |
| Tunnelling.LocalPortServer.constructor | redssh/tunnelling.py:48-57 | SOCKS mode holds exactly when neither a target host nor a target port was given |
| Tunnelling.LocalPortServer.HandleError | redssh/tunnelling.py:63-74 | `handle_error` always sets `terminate`, closes the request and shuts the server down |
| Tunnelling.LocalPortServer.ProcessRequest | redssh/tunnelling.py:77-119 | corrected code (as-written twin `ProcessRequestAsWritten`): a handled request is closed, and a raising handler always terminates the tunnel and shuts the server down |
| Tunnelling.Handled | redssh/tunnelling.py:80-82 | corrected code (as-written twin `HandledAsWritten`): once the main channel is closed the handler does nothing; only SOCKS mode forwards to a decoded target |
| Tunnelling.Handle | redssh/tunnelling.py:77-119 | corrected code (as-written twin `HandleAsWritten`): the SOCKS bytes are written only in SOCKS mode with the main channel open; the server is shut down when `terminate` is set or a channel has closed |
| Tunnelling.HandledAsWritten | redssh/tunnelling.py:80-119 | as written: once the main channel is closed the handler does nothing; only SOCKS mode forwards, over the exchange as written |
| Tunnelling.HandleAsWritten | redssh/tunnelling.py:77-119 | as written: the bytes, the close and the outcome are those of the exchange as written, in SOCKS mode with the main channel open; the server is shut down when `terminate` is set or a channel has closed |
| Tunnelling.LocalPortServer.ProcessRequestAsWritten | redssh/tunnelling.py:63-119 | as written: the request is closed; a raising handler terminates the tunnel and shuts the server down; in particular a refused CONNECT in SOCKS mode ends the whole tunnel |
| Tunnelling.RefusedConnectEndsTunnel | redssh/tunnelling.py:109-111 | a complete CONNECT whose target has no address or refuses makes the handler as written raise, while the corrected handler finishes normally |
| Adapters.FirstFromIsFirst | redssh/clients/libssh2/redsshlibssh2.py:98-103 | `_block` returns the first result that is not "try again", every earlier call returned "try again", and it gets no answer exactly when every result is "try again" |
| Adapters.ForwardedKwargs | redssh/clients/libssh2/redsshlibssh2.py:91-97 | `_select_timeout` reaches the call only when it equals the marker string; every other keyword argument passes unchanged |
| Adapters.Block | redssh/clients/libssh2/redsshlibssh2.py:89-103 | under shutdown nothing is called; otherwise the first result that is not "try again", with one wait per call; a call that raises ends the retries and its exception escapes |
| Adapters.WriteSuffixes | redssh/clients/libssh2/redsshlibssh2.py:105-114 | for byte-string data, `_block_write` hands over `data[total:]` call after call, the total is what the calls took, and it returns only once the total reaches `len(data)`; a call that raises ends the loop with its exception before `len(data)` was reached, and the bytes taken before it are never reported |
| Adapters.ReadIterShape | redssh/clients/libssh2/redsshlibssh2.py:116-147 | the chunks are `data[0:size]` of the positive reads, in order; every read but the last kept the loop going; the loop is left unanswered only when the script ran out; an impatient loop never retried twice in a row; a loop that returned on its own did so on a stopping read: size 0 or a negative size other than "try again", a second "try again" in a row when impatient, or end of file right after data when that stops it |
| Adapters.ReadFromStops | redssh/clients/libssh2/redsshlibssh2.py:128-147 | from any read on, a loop that returns on its own does so on a stopping read, judged by what the read before it was |
| Adapters.ConnectGate | redssh/clients/libssh2/redsshlibssh2.py:296-298 | `connect` raises exactly when nothing is offered, even after login; otherwise it logs in exactly when not yet logged in |
| LibSSH2Client.Block | redssh/clients/libssh2/redsshlibssh2.py:89-103 | `_block` with `LIBSSH2_ERROR_EAGAIN` (-37) as the "try again" code |
| LibSSH2Client.BlockWrite | redssh/clients/libssh2/redsshlibssh2.py:105-114 | the loop produces exactly the write specification, including an exception from a call, with one wait before each call |
| LibSSH2Client.ReadIter | redssh/clients/libssh2/redsshlibssh2.py:116-147 | the generator yields exactly the read specification, with one wait before each read |
| LibSSH2Client.TryNext | redssh/clients/libssh2/redsshlibssh2.py:149-154 | one attempt is appended to those made, and succeeds exactly when the session is authenticated after it |
| LibSSH2Client.Auth | redssh/clients/libssh2/redsshlibssh2.py:156-192 | the attempts follow the plan (agent, then existing key files, then password, then keyboard-interactive); they stop at the first success; a failure tried the whole plan and reports its de-duplicated names |
| LibSSH2Client.CheckHostKey | redssh/clients/libssh2/redsshlibssh2.py:229-264 | `none` does nothing; it raises exactly when the policy is `strict` and the check fails; the auto-add policies add and save exactly when the check fails; the warning policies print exactly when it fails |
| LibSSH2Client.SessionRead | redssh/clients/libssh2/redsshlibssh2.py:347-360 | before login, an empty list; after it, `_read_iter` with `max_read` -1 |
| LibSSH2Client.SessionSend | redssh/clients/libssh2/redsshlibssh2.py:362-374 | before login, 0; after it, `_block_write` |
| LibSSH2Client.ReadPatience | redssh/clients/libssh2/redsshlibssh2.py:131 | with `max_read` left at -1, `read` gives up on a persisting "try again" exactly when it does not block |
| LibSSHClient.Block | redssh/clients/libssh/redsshlibssh.py:87-101 | `_block` with `SSH_AGAIN` (-2) as the "try again" code |
| LibSSHClient.BlockWrite | redssh/clients/libssh/redsshlibssh.py:103-113 | the loop produces exactly the write specification, including an exception from a call, waiting only after a call that returned `SSH_AGAIN` |
| LibSSHClient.ReadIter | redssh/clients/libssh/redsshlibssh.py:115-148 | the generator yields exactly the read specification, where end of file after data stops it; no wait comes before the first read |
| LibSSHClient.EofAfterDataStops | redssh/clients/libssh/redsshlibssh.py:140-145 | an end-of-file exception ends the iteration only right after data; elsewhere it escapes |
| LibSSHClient.SupportedMethodsExact | redssh/clients/libssh/redsshlibssh.py:182-192 | `_auth_get_supported` lists exactly the members whose bit the mask sets, in strictly increasing value order, never `UNKNOWN` |
| LibSSHClient.FilterMembers | redssh/clients/libssh/redsshlibssh.py:189-191 | the filter keeps exactly the members whose bit is set |
| LibSSHClient.FilterIncreasing | redssh/clients/libssh/redsshlibssh.py:189-191 | the filter keeps the enum's order |
| LibSSHClient.AuthAttempt | redssh/clients/libssh/redsshlibssh.py:194-198 | `_auth_attempt` returns the call's answer, and None exactly when the call raised |
| LibSSHClient.Auth | redssh/clients/libssh/redsshlibssh.py:150-180 | the agent is tried when allowed, the key file otherwise, never both; the key attempt uses exactly the given path and passphrase, and is made exactly when a path is given, public-key login is supported, the agent is not allowed and the import succeeds; a failed import raises before any attempt; the password only when given and supported, and last; success exactly when the last attempt succeeded; otherwise the failure names the attempts |
| LibSSHClient.SessionRead | redssh/clients/libssh/redsshlibssh.py:319-331 | before login, an empty list; after it, `_read_iter` |
| LibSSHClient.SessionSend | redssh/clients/libssh/redsshlibssh.py:333-344 | before login, 0; after it, `_block_write` |
| BaseClient.EmptyTables | redssh/clients/base_client.py:67-72 | the four kinds, each with an empty table |
| BaseClient.LocalKeyFields | redssh/clients/base_client.py:133 | without colons in the address and host, a local option string splits back into its four fields |
| BaseClient.LocalKeyInjective | redssh/clients/base_client.py:133 | when both bind addresses are free of colons, two local tunnels share an option string only if all four fields agree; the target host may hold colons (an IPv6 literal) |
| BaseClient.DynamicKeyInjective | redssh/clients/base_client.py:201 | for any bind addresses, two dynamic tunnels share an option string only if address and port agree |
| BaseClient.ThreadNameInjective | redssh/clients/base_client.py:148 | a thread name determines the tunnel's kind and option string |
| BaseClient.StopHandle | redssh/clients/base_client.py:94-99 | the event is set, a server if any is shut down, the thread is no longer alive, and it is joined if it was alive |
| BaseClient.StopIdempotent | redssh/clients/base_client.py:94-99 | stopping a tunnel twice is stopping it once |
| BaseClient.OpenLocalSpec | redssh/clients/base_client.py:132-156 | opens only with a string host and an int port; returns the port, the bound one for port 0; the new record is under the key built from that port; an existing key changes nothing; nothing else changes |
| BaseClient.OpenLocalIdempotent | redssh/clients/base_client.py:133-156 | opening the same local tunnel again on a port other than 0 changes nothing and returns the port |
| BaseClient.OpenLocalPortZero | redssh/clients/base_client.py:151-156 | with port 0, the key with port 0 is never stored, and a call with a new bound port adds exactly one entry |
| BaseClient.OpenRemoteSpec | redssh/clients/base_client.py:173-183 | a remote tunnel is stored under its four-part key with no server and no port; an existing key changes nothing |
| BaseClient.OpenDynamicSpec | redssh/clients/base_client.py:201-224 | a dynamic tunnel is keyed `bind:port` with the bound port for port 0, which it returns; an existing key changes nothing |
| BaseClient.ShutdownSpec | redssh/clients/base_client.py:293-303 | the record under the key is stopped and exactly that entry is deleted; an unknown key or missing remote fields change nothing; afterwards `tunnel_is_alive` answers None |
| BaseClient.CloseThenNotAlive | redssh/clients/base_client.py:254-313 | after `close_tunnels` every tunnel is still listed and reports not alive |
| BaseClient.StopAllIdempotent | redssh/clients/base_client.py:321-322 | closing the tunnels twice is closing them once |
| BaseClient.IsAlive | redssh/clients/base_client.py:254-263 | any kind but dynamic (local, remote or X11) without `rhost` or `rport` answers False; otherwise the answer is None exactly when the option string (`bind:port`, or the four-part key) is absent, and the stored thread's liveness when it is present |
| BaseClient.NewClientKnowsNoTunnel | redssh/clients/base_client.py:254-263 | on a new client's empty tables every lookup answers None, except an incomplete one for any kind but dynamic (local, remote or X11), which answers False |
| BaseClient.OpenedLocalIsAlive | redssh/clients/base_client.py:254-263 | a local tunnel just opened on a port other than 0 reports alive |
| BaseClient.AsWrittenNeverRegisters | redssh/clients/base_client.py:148-216 | as written, opening any new tunnel raises TypeError, and a call that completes leaves the tables unchanged |
| BaseClient.LocalTunnelExample | redssh/clients/base_client.py:148 | `local_tunnel(9999, 'localhost', 8888)` on a new client raises as written, and opens when corrected |
| BaseClient.Client.constructor | redssh/clients/base_client.py:60-85 | four empty tables, not logged in, shutdown flag clear |
| BaseClient.Client.TunnelIsAlive | redssh/clients/base_client.py:254-263 | an incomplete lookup for any kind but dynamic (local, remote or X11) answers False, and True only when some tunnel of that kind has a live thread |
| BaseClient.Client.LocalTunnel | redssh/clients/base_client.py:112-156 | corrected code (as-written twin `LocalTunnelAsWritten`): the tables and the returned port are those of the local-tunnel specification |
| BaseClient.Client.RemoteTunnel | redssh/clients/base_client.py:158-183 | corrected code (as-written twin `RemoteTunnelAsWritten`): the tables are those of the remote-tunnel specification |
| BaseClient.Client.DynamicTunnel | redssh/clients/base_client.py:185-224 | corrected code (as-written twin `DynamicTunnelAsWritten`): the tables and the returned port are those of the dynamic-tunnel specification |
| BaseClient.Client.ShutdownTunnel | redssh/clients/base_client.py:265-303 | the tables are those of the shutdown specification, and the record stopped is returned |
| BaseClient.Client.StopKind | redssh/clients/base_client.py:311-313 | every record of one kind is stopped and none is removed |
| BaseClient.Client.CloseTunnels | redssh/clients/base_client.py:306-313 | every record of every kind is stopped, none is removed, and the login flags are unchanged |
| BaseClient.Client.Exit | redssh/clients/base_client.py:315-347 | only when logged in: the tunnels are closed, then the tables are reset to four empty ones and both flags are cleared; otherwise nothing changes |

## Left out

- Threads, `select`, `_block_select`, the session lock and `socketserver` serving loops. The shutdown flag is fixed for one adapter call. A thread's liveness and an event are booleans in a record. `Thread.join` is modelled as the thread having stopped.
- Handles are values, so the `terminate` event a server and a registry record share is not modelled as one aliased object.
- The byte pumps (`local_handler`, `remote_tunnel_server`, `remote_handle`), the SSH transport, key files, the known-hosts store and the keepalive thread. Their results are parameters: the script, the server's answers, the set of existing key files, and the bound port for port 0. A tunnel server that fails to bind is not modelled.
- Select timeouts and the keepalive interval are floats. The `float(_select_timeout)` conversion in `_block` is left out; only which keyword arguments reach the call is modelled.
- `inet_aton` is modelled on the four-field dotted-quad text only. Its other accepted forms (fewer fields, hexadecimal, octal) are not modelled.
- Printing at the warning and debug error levels, and the `socketserver` default error report.
- In `exit`, the keepalive thread, the SFTP/SCP objects, the socket close and the attribute deletions are not modelled. `_block(channel.close)` and `_block(session.disconnect)` run while the shutdown flag is set, so `_block` skips them.
- The `Auth_Method` member values (0, 1, 2, 4, 8, 0x10, 0x20) come from the libssh header `ssh_auth_e`. That header is not part of this model.
- The libssh backend's `check_host_key` only returns early for `none`. Its remaining body is an unfinished placeholder, so it is not modelled.
- `tunnel_type in enums.TunnelType` in `tunnel_is_alive` and `shutdown_tunnel` always holds here, because the kind is a datatype.
- LibSSH2Client.ReadIter: `waits` counts only waits that a read followed. A wait at the end of a script that ran out is not counted.
- LibSSH2Client.Auth: when `userauth_list` does not return a list, the final raise names `auth_types_tried`, which is unbound. The model reports this as `TriedUnbound` rather than the NameError's text.
- BaseClient.LocalKeyInjective: assumes both bind addresses are free of colons. The tunnel servers bind IPv4 `TCPServer` sockets, so a bind address is a host name or a dotted quad. With a colon in the bind address, `LocalKey("h:1", 2, "x", 3) == LocalKey("h", 1, "2:x", 3)`.
- Adapters.WriteSuffixes, LibSSH2Client.SessionSend, LibSSHClient.SessionSend, and `send` and `_block_write` of both backends: only bytes data is modelled, where `len(data)`, the slice `data[total_written:]` and the primitive's count are all in bytes. For a `str`, which `send` documents as its argument, the loop compares a byte count with `len(data)` in characters and slices by it. So non-ASCII text can end early: `send("éa")` whose first write takes only the two bytes of "é" stops with a total of 2 and never sends "a". The model does not capture this.
- Short reads from `recv(n)` before the end of the stream are not modelled: `recv(n)` returns fewer than `n` bytes only when the stream has fewer left. A TCP `recv` can return fewer mid-stream, and the following `struct.unpack` or `ord` would then fail.
- Tunnelling.Handle: the `check_closed` readings are oracle parameters, one per call of `_block(channel.eof)`.
- Host-based authentication and `look_for_keys` are commented out or unimplemented in both `_auth` methods. They appear only in the `connect` check.

## Findings

| source | as written | input that shows it | evidently intended | confidence | as-written member | corrected member |
|---|---|---|---|---|---|---|
| redssh/clients/base_client.py:148 | thread name is `enums.TunnelType.local + ':' + option_string`, adding a plain `Enum` member to a string (also lines 154, 179, 216, 222) | `local_tunnel(9999, 'localhost', 8888)` on a new client raises TypeError before the tunnel is registered | name the thread with the kind's value, `'local:' + option_string`, and register the tunnel | medium, not executed; the reading rests on redssh/enums.py, where `TunnelType` is a plain `Enum`. Against it: redssh/clients/__init__.py:26 imports `SSHClient` from `redssh.enums`, which that file does not define, so the clients may load a different enums module; and tests/test_tunnels.py:39-41 and 48-50 expect `local_tunnel(0, ...)` and `dynamic_tunnel(0)` to return working ports | BaseClient.AsWrittenNeverRegisters | BaseClient.OpenLocalSpec |
| redssh/clients/libssh2/tunneling.py:117 | the `except` branch calls `self.handle_error` on the request handler, which has no such method | a CONNECT to 10.0.0.1:80 that the network refuses: the handler raises AttributeError and the REP 5 reply is never sent | send the failure reply `05 05 00 ATYP` and zeros built on the next line | high, not executed | Libssh2Tunneling.RefusedConnectExample | Libssh2Tunneling.RefusedConnectIsAnswered |
| redssh/tunnelling.py:110 | the legacy handler's `except` branch calls `self.handle_error`, which the handler lacks, so the AttributeError reaches the server's `handle_error`, which always sets `terminate` and shuts the server down | in SOCKS mode, a CONNECT to 10.0.0.1:80 that the network refuses ends the whole local tunnel instead of getting a REP 5 reply | answer that request with `05 05 00 ATYP` and zeros and keep serving | high, not executed | Tunnelling.RefusedConnectEndsTunnel | Libssh2Tunneling.RefusedConnectIsAnswered |
