# Session state machine of the intercepting proxy, in Dafny

This project models `core/Session.js` of the transparent proxy: the object that
owns one client connection and its upstream connection. It holds the
client-facing socket (`_src`), the upstream-facing socket (`_dst`), the tunnel
record `{ADDRESS, PORT, UPSTREAM}`, the authentication latch (`user`,
`authenticated`) and the `_updated` guard. That guard makes the TLS upgrade
(`_updateSockets`) complete at most once.

Modules:

- `JsValues` (`js_values.dfy`): `Option`, write payloads and JavaScript
  truthiness. An empty string and null/undefined are falsy. A Buffer is truthy
  even when empty. It also holds the key pair and the `KEYS || DEFAULT_KEYS`
  fallback.
- `Sockets` (`sockets.dfy`): a socket reduced to what the session observes. That
  is its `destroyed` flag, a count of `destroy()` calls, the log of written
  chunks, `_host`, the server name set on it, and for a TLS wrapper the socket it
  wraps, its TLS options and its listeners. The module also holds the guarded
  helpers `socketWrite` and `socketDestroy`.
- `SessionSpec` (`session_spec.dfy`): the control state (user, authenticated,
  tunnel, updated) as a value. It defines the effect `Apply` of each session
  operation, `Run` over a sequence of operations, and the lemmas about any such
  trace: the authentication latch, the last-writer rule for the tunnel record,
  persistence of every latch, and at most one completed upgrade per session.
- `Sessions` (`session.dfy`): the `Session` class. Every method says what it does
  to the sockets and fields. Every method that changes state also states
  `ControlState() == Apply(old(ControlState()), op)` for its operation, so the
  trace lemmas of `SessionSpec` apply to any sequence of calls.
- `SessionExamples` (`session_examples.dfy`): client methods proved from the
  class's contracts alone. They show that destroy is idempotent, that writes
  after destroy are dropped, that the upgrade completes once, that a retry after
  a failed upgrade wraps the client socket again, and how the tunnel
  and authentication records read back.

The upgrade is modelled with its failure path. `_updateSockets` installs the
client-facing wrapper (line 187) before it evaluates
`this._dst._host || this._tunnel.UPSTREAM.host` (line 199). That expression
throws a TypeError when there is no upstream-facing socket, or when `_host` is
falsy and no UPSTREAM was recorded. So a failed upgrade leaves the session with
the new client-facing wrapper, the old upstream-facing socket and the guard still
down. `UpdateSockets` returns `ThrewTypeError` in that case. It does not take a
precondition, because the source does not demand one of its callers.

Both TLS wrappers are built with `rejectUnauthorized: false` and
`requestCert: false`. Only the client-facing one is a server and carries a key
pair. The model records these options on each wrapper.

## Model

| member | source | states |
|---|---|---|
| `Sockets.SocketWrite` | core/Session.js:13-17 | a present, undestroyed socket gets exactly `data` appended to its log when `data` is truthy; in every other case the socket is unchanged |
| `Sockets.SocketDestroy` | core/Session.js:23-27 | a present, live socket becomes destroyed with one more destroy call; an already destroyed one is left unchanged |
| `JsValues.EffectiveKeys` | core/Session.js:171-173 | the supplied key pair is used when given, the default pair otherwise |
| `Sessions.Session.constructor` | core/Session.js:34-44 | the id is the argument; no sockets, empty tunnel, no user, not authenticated, not HTTPS, not upgraded |
| `Sessions.Session.ClientRequestWrite` | core/Session.js:50-53 | appends `data` to `_dst`'s log exactly when `_dst` is present, live and `data` truthy, with every other field of `_dst` (including `_host`) unchanged; otherwise `_dst` is unchanged; `_src` (when a different object) is unchanged; returns the same session |
| `Sessions.Session.ClientResponseWrite` | core/Session.js:59-62 | the same guard towards `_src`, with every other field of `_src` unchanged when it writes; `_dst` (when a different object) is unchanged; returns the same session |
| `Sessions.Session.Destroy` | core/Session.js:68-76 | afterwards every present socket is destroyed and its log, `_host` and server name are unchanged; each socket's destroy count grows by one only if it was live, so a second call (or the same socket in both fields) destroys nothing again; safe with null sockets |
| `Sessions.Session.IsAuthenticated` | core/Session.js:82-84 | returns the `authenticated` flag |
| `Sessions.Session.SetResponseSocket` | core/Session.js:108-112 | `_src` becomes the argument with a fresh, plain, live mirror socket with an empty log; `_dst`, its mirror and the control state are unchanged |
| `Sessions.Session.SetRequestSocket` | core/Session.js:119-124 | `_dst` becomes the argument with a fresh, plain, live mirror socket with an empty log; `_src`, its mirror and the control state are unchanged |
| `Sessions.Session.GetId` | core/Session.js:130-132 | returns the id fixed at construction |
| `Sessions.Session.SetUserAuthentication` | core/Session.js:138-144 | a truthy name sets `authenticated` and `user`; a falsy one changes neither; sockets and tunnel untouched |
| `Sessions.Session.SetTunnelOpt` | core/Session.js:150-160 | a falsy options object changes nothing; otherwise ADDRESS and PORT take host and port, and UPSTREAM is replaced only by a truthy upstream, else kept |
| `Sessions.Session.UpdateSockets` | core/Session.js:171-204 | a call after a completed upgrade changes nothing; otherwise the call installs a fresh TLS server wrapper over the old `_src` with the effective keys and the client listeners, live, never destroyed, with an empty log, no `_host` and no server name; then either installs a fresh, live, never destroyed TLS client wrapper with an empty log and no `_host` over the old `_dst`, with one server-name call carrying `_host` or else UPSTREAM.host, and raises the guard, or throws with `_dst` and the guard unchanged, so a call after a failed one wraps `_src` again |
| `Sessions.Session.GetTunnelStats` | core/Session.js:210-212 | returns the recorded tunnel record |
| `Sessions.WrapperListeners` | core/Session.js:183-185 | a wrapper has exactly three listeners: data with the data callback, then close and error, both with the close callback |
| `Sessions.ClientFacingTls` | core/Session.js:176-182 | the client-facing wrapper is a TLS server with the key pair and does not check or request peer certificates |
| `Sessions.UpstreamFacingTls` | core/Session.js:189-193 | the upstream-facing wrapper is a TLS client that does not check or request certificates and carries no key pair |
| `SessionSpec.WithTunnelOptions` | core/Session.js:150-160 | the tunnel record after `setTunnelOpt`: unchanged for falsy options, else host/port copied and UPSTREAM overwritten only by a truthy upstream |
| `SessionSpec.ServerName` | core/Session.js:199 | a server name exists exactly when there is an upstream socket whose `_host` is truthy or an UPSTREAM is recorded; it is `_host` when truthy, else UPSTREAM.host |
| `SessionSpec.WithUser` | core/Session.js:138-144 | a truthy name authenticates and records the user; a falsy name leaves the state as it was |
| `SessionSpec.Upgraded` | core/Session.js:175-201 | the guard rises exactly when the upgrade completes (not yet upgraded and a server name exists); nothing else changes |
| `SessionSpec.Apply` | core/Session.js:68-204 | no operation clears `authenticated` or drops a recorded UPSTREAM, and `updated` rises exactly when the operation completes an upgrade |
| `SessionSpec.AuthenticationTrace` | core/Session.js:138-144 | after any sequence of operations the session is authenticated iff it was before or some call passed a truthy name, and the user is the last such name |
| `SessionSpec.TunnelTrace` | core/Session.js:150-160 | after any sequence of operations ADDRESS/PORT are those of the last truthy options and UPSTREAM that of the last truthy upstream, or the earlier values when there was none |
| `SessionSpec.LatchesPersist` | core/Session.js:138-201 | whatever holds after a prefix of a trace (authenticated, upgraded, UPSTREAM recorded) still holds at its end: `isAuthenticated()` is monotone |
| `SessionSpec.UpgradeAtMostOnce` | core/Session.js:175-201 | in any trace the upgrade completes exactly once if the trace ends upgraded from a state that was not, and never otherwise |
| `SessionSpec.UpstreamEnablesUpgrade` | core/Session.js:189-201 | once some call recorded an UPSTREAM, an upgrade with an upstream socket present always succeeds |
| `SessionExamples.DestroyTwice` | core/Session.js:68-76 | over two destroys each present socket receives at most one destroy call in all, exactly one if it was live |
| `SessionExamples.WritesAfterDestroy` | core/Session.js:13-17 | writes in either direction after `destroy()` leave every log unchanged |
| `SessionExamples.UpgradeTwice` | core/Session.js:175-204 | after a successful upgrade a second one returns normally and keeps the wrappers; a single server-name call was made |
| `SessionExamples.AcceptorSequence` | core/Session.js:108-204 | a session driven through attach, tunnel, login, upgrade, write and a falsy login ends, by the trace lemmas, authenticated exactly for a truthy name, with the tunnel of the options given, and upgraded exactly when a server name was available |
| `SessionExamples.UpgradedTeardown` | core/Session.js:68-76 | after a completed upgrade, `destroy()` run twice destroys each wrapper exactly once and not the sockets they wrap |
| `SessionExamples.FailedUpgradeTeardown` | core/Session.js:68-76 | after an upgrade that threw, `destroy()` run twice destroys the client-facing wrapper and the original upstream socket exactly once each, and not the wrapped client socket |
| `SessionExamples.TunnelStatsWithUpstream` | core/Session.js:150-160 | options `{a, 443, {b, 8443}}` read back as `{ADDRESS: a, PORT: 443, UPSTREAM: {b, 8443}}` |
| `SessionExamples.TunnelStatsWithoutUpstream` | core/Session.js:150-160 | options without upstream read back with no UPSTREAM, and a later falsy options object changes nothing |
| `SessionExamples.AuthenticationExamples` | core/Session.js:138-144 | `bob` authenticates; `""` and a missing name do not, and do not undo an earlier authentication |
| `SessionExamples.ServerNameFromUpstream` | core/Session.js:189-200 | with no `_host`, the server name is UPSTREAM.host, set once across two upgrades |
| `SessionExamples.FailedUpgradeRetried` | core/Session.js:175-201 | two upgrades that both fail on the server name leave `_src` wrapped twice over the original socket, with the guard still down |
| `SessionExamples.UpgradeWithoutServerName` | core/Session.js:187-199 | with neither `_host` nor UPSTREAM the upgrade throws after the client-facing socket was wrapped, and the guard stays down |

## Left out

- `setRequest` and `setResponse` (lines 86-101) are not modelled. They bridge Node's HTTP parser to Promises on emitted events, which is asynchronous behaviour of a library this model cannot see.
- The `http.request` hook-up in `setRequestSocket` (line 122) is left out for the same reason. The model keeps only the fresh mirror sockets it creates.
- TLS handshakes, certificates and event delivery are not modelled. A wrapper is a new socket that records what it wraps, its options, its listeners and its server name.
- `DEFAULT_KEYS`, `EVENTS` and `parseDataToObject` come from `lib/`, which is not part of this model. The default pair is the opaque value `DefaultKeys`.
- Real socket I/O is not modelled. `write` only appends to a log and `destroy` only sets a flag and counts the call.
- The TLS wrapper constructor is taken never to throw. Only the server-name expression of line 199 can throw in the model.
- Values are typed. A user name is a string or absent, tunnel fields are strings, numbers or absent, and a payload is a string, a Buffer or absent. Other JavaScript values (numbers, `false`, objects passed as a name) are not modelled.
- A socket's `_host` is a string with `""` standing for unset. The model does not distinguish null, undefined and the empty string there, because the code only tests it for truthiness.
- A tunnel field that was never set and one set to `undefined` are both `None`. The model does not distinguish a missing key from an undefined value.
- Sessions.Session.GetTunnelStats: returns the record as a value. The source returns the live `_tunnel` object, and later changes a caller makes through that reference are not modelled.
- SessionSpec.UpgradeAtMostOnce: counts completed upgrades only. A call that throws at line 199 has already replaced `_src` (line 187) and leaves `_updated` unset, so a retry wraps the already wrapped client socket again; `SessionExamples.FailedUpgradeRetried` shows this, and the lemma does not bound the number of `_src` replacements.
- `setTunnelOpt` stores the caller's `upstream` object by reference (line 156), so a later change the caller makes to that object alters `UPSTREAM` and the server name chosen at line 199. The model stores a copy of the value.
- `_updateSockets` destructures `callbacksObject` (line 172), so a missing callbacks object throws a TypeError before anything changes. The `Callbacks` argument of the model is always present, so that case is not modelled.
- `isHttps` is initialised to false and no operation in this file changes it. The model keeps it and proves that every method leaves it unchanged.
