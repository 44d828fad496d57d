/** The control state of a session (who is authenticated, the tunnel target and
    whether the TLS upgrade has happened), how each session operation changes it,
    and what any sequence of operations does to it. */
module SessionSpec {
  import opened JsValues

  /** The upstream target of a tunnel, `{host, port}`. */
  datatype Upstream = Upstream(host: string, port: int)

  /** The argument of `setTunnelOpt`; a missing field is None. */
  datatype TunnelOptions = TunnelOptions(host: Option<string>, port: Option<int>, upstream: Option<Upstream>)

  /** The tunnel record `{ADDRESS, PORT, UPSTREAM}`; a field never set, or set to
      undefined, is None. */
  datatype Tunnel = Tunnel(address: Option<string>, port: Option<int>, upstream: Option<Upstream>)

  const EmptyTunnel: Tunnel := Tunnel(None, None, None)

  /** `_tunnel` after `setTunnelOpt(options)`. */
  function WithTunnelOptions(t: Tunnel, options: Option<TunnelOptions>): (r: Tunnel)
    ensures options.None? ==> r == t
    ensures options.Some? ==> r.address == options.value.host && r.port == options.value.port
    ensures r.upstream == if options.Some? && options.value.upstream.Some? then options.value.upstream else t.upstream
  {
    match options
    case None => t
    case Some(o) =>
      Tunnel(o.host, o.port, if o.upstream.Some? then o.upstream else t.upstream)
  }

  /** The Server Name Indication value chosen for the upstream wrapper:
      `this._dst._host || this._tunnel.UPSTREAM.host`. `dstHost` is None when there
      is no upstream-facing socket. None as a result means the expression throws a
      TypeError (reading `_host` of null, or `host` of a missing UPSTREAM). */
  function ServerName(dstHost: Option<string>, upstream: Option<Upstream>): (r: Option<string>)
    ensures r.Some? <==> dstHost.Some? && (dstHost.value != "" || upstream.Some?)
    ensures r.Some? && dstHost.value != "" ==> r.value == dstHost.value
    ensures r.Some? && dstHost.value == "" ==> r.value == upstream.value.host
  {
    match dstHost
    case None => None
    case Some(h) =>
      if h != "" then Some(h)
      else match upstream
        case Some(u) => Some(u.host)
        case None => None
  }

  /** The part of a session that its operations decide, apart from its sockets. */
  datatype Control = Control(user: Option<string>, authenticated: bool, tunnel: Tunnel, updated: bool)

  /** A newly constructed session. */
  const Initial: Control := Control(None, false, EmptyTunnel, false)

  /** The session operations that change state. An upgrade carries what it reads
      of the upstream-facing socket: its `_host`, or None when there is none. */
  datatype Op =
    | RequestWrite
    | ResponseWrite
    | Destroy
    | SetResponseSocket
    | SetRequestSocket
    | SetUserAuthentication(username: Option<string>)
    | SetTunnelOpt(options: Option<TunnelOptions>)
    | UpdateSockets(dstHost: Option<string>)

  /** `setUserAuthentication(name)`: a truthy name latches authentication. */
  function WithUser(c: Control, name: Option<string>): (r: Control)
    ensures IsTruthyName(name) ==> r.authenticated && r.user == name
    ensures !IsTruthyName(name) ==> r == c
    ensures r.tunnel == c.tunnel && r.updated == c.updated
  {
    if IsTruthyName(name) then c.(user := name, authenticated := true) else c
  }

  /** Whether `_updateSockets` completes in control state `c`: it swaps both
      sockets and raises the guard. A call that throws while choosing the server
      name does not complete, although it has already replaced `_src`. */
  predicate CompletesUpgrade(c: Control, op: Op)
  {
    op.UpdateSockets? && !c.updated && ServerName(op.dstHost, c.tunnel.upstream).Some?
  }

  /** The guard flag after `_updateSockets`: it is raised when the upgrade
      completes, and nothing else in the control state changes. */
  function Upgraded(c: Control, dstHost: Option<string>): (r: Control)
    ensures r.updated <==> c.updated || CompletesUpgrade(c, UpdateSockets(dstHost))
    ensures r.user == c.user && r.authenticated == c.authenticated && r.tunnel == c.tunnel
  {
    if CompletesUpgrade(c, UpdateSockets(dstHost)) then c.(updated := true) else c
  }

  /** The effect of one operation. No operation clears `authenticated` or removes
      a recorded UPSTREAM, and `updated` rises exactly when the operation completes
      an upgrade and never falls. */
  function Apply(c: Control, op: Op): (r: Control)
    ensures c.authenticated ==> r.authenticated
    ensures r.updated == (c.updated || CompletesUpgrade(c, op))
    ensures c.tunnel.upstream.Some? ==> r.tunnel.upstream.Some?
  {
    match op
    case SetUserAuthentication(name) => WithUser(c, name)
    case SetTunnelOpt(options) => c.(tunnel := WithTunnelOptions(c.tunnel, options))
    case UpdateSockets(dstHost) => Upgraded(c, dstHost)
    case _ => c
  }

  /** The control state after performing `ops` in order, starting from `c`. */
  function Run(c: Control, ops: seq<Op>): Control
    decreases |ops|
  {
    if ops == [] then c else Apply(Run(c, ops[..|ops| - 1]), ops[|ops| - 1])
  }

  /** How many operations of `ops` complete an upgrade. */
  function Upgrades(c: Control, ops: seq<Op>): nat
    decreases |ops|
  {
    if ops == [] then 0
    else
      var before := ops[..|ops| - 1];
      Upgrades(c, before) + if CompletesUpgrade(Run(c, before), ops[|ops| - 1]) then 1 else 0
  }

  /** The index of the last element of `s` satisfying `p`, or -1 if there is none. */
  function LastIndex<T>(s: seq<T>, p: T -> bool): (k: int)
    ensures -1 <= k < |s|
    ensures k >= 0 ==> p(s[k])
    ensures forall j :: k < j < |s| ==> !p(s[j])
    decreases |s|
  {
    if s == [] then -1
    else if p(s[|s| - 1]) then |s| - 1
    else LastIndex(s[..|s| - 1], p)
  }

  predicate IsAuthentication(op: Op)
  {
    op.SetUserAuthentication? && IsTruthyName(op.username)
  }

  predicate IsTunnelSetting(op: Op)
  {
    op.SetTunnelOpt? && op.options.Some?
  }

  predicate IsUpstreamSetting(op: Op)
  {
    op.SetTunnelOpt? && op.options.Some? && op.options.value.upstream.Some?
  }

  lemma RunSnoc(c: Control, ops: seq<Op>, op: Op)
    ensures Run(c, ops + [op]) == Apply(Run(c, ops), op)
  {
  }

  /** Authentication is a latch: after any sequence of operations the session is
      authenticated exactly when it was before or some operation passed a truthy
      name, and the user is the last such name (or the earlier user if none). */
  lemma {:induction false} AuthenticationTrace(c: Control, ops: seq<Op>)
    ensures var k := LastIndex(ops, IsAuthentication);
      && Run(c, ops).authenticated == (c.authenticated || k >= 0)
      && Run(c, ops).user == (if k >= 0 then ops[k].username else c.user)
    decreases |ops|
  {
    if ops != [] {
      AuthenticationTrace(c, ops[..|ops| - 1]);
    }
  }

  /** After any sequence of operations, ADDRESS and PORT are those of the last
      truthy options, and UPSTREAM is that of the last options carrying a truthy
      upstream; fields no such call set keep their earlier values. */
  lemma {:induction false} TunnelTrace(c: Control, ops: seq<Op>)
    ensures var k := LastIndex(ops, IsTunnelSetting);
      && Run(c, ops).tunnel.address == (if k >= 0 then ops[k].options.value.host else c.tunnel.address)
      && Run(c, ops).tunnel.port == (if k >= 0 then ops[k].options.value.port else c.tunnel.port)
    ensures var u := LastIndex(ops, IsUpstreamSetting);
      Run(c, ops).tunnel.upstream == (if u >= 0 then ops[u].options.value.upstream else c.tunnel.upstream)
    decreases |ops|
  {
    if ops != [] {
      TunnelTrace(c, ops[..|ops| - 1]);
    }
  }

  /** Whatever is latched after a prefix of a trace is still latched at its end:
      `isAuthenticated()` is monotone, the upgrade flag is never lowered and a
      recorded UPSTREAM is never dropped. */
  lemma {:induction false} LatchesPersist(c: Control, ops: seq<Op>, n: nat)
    requires n <= |ops|
    ensures Run(c, ops[..n]).authenticated ==> Run(c, ops).authenticated
    ensures Run(c, ops[..n]).updated ==> Run(c, ops).updated
    ensures Run(c, ops[..n]).tunnel.upstream.Some? ==> Run(c, ops).tunnel.upstream.Some?
    decreases |ops|
  {
    if n == |ops| {
      assert ops[..n] == ops;
    } else {
      var before := ops[..|ops| - 1];
      assert before[..n] == ops[..n];
      LatchesPersist(c, before, n);
    }
  }

  /** The upgrade completes at most once in any trace: exactly once if the trace
      ends upgraded from a state that was not, and never otherwise. Calls that
      throw are not counted here; each of them still replaces `_src`. */
  lemma {:induction false} UpgradeAtMostOnce(c: Control, ops: seq<Op>)
    ensures Upgrades(c, ops) == if !c.updated && Run(c, ops).updated then 1 else 0
    decreases |ops|
  {
    if ops != [] {
      var before := ops[..|ops| - 1];
      UpgradeAtMostOnce(c, before);
      // the flag, once raised, stays raised, so a trace that starts upgraded never completes another
      assert before[..0] == [];
      LatchesPersist(c, before, 0);
    }
  }

  /** Once some earlier `setTunnelOpt` recorded an upstream, an upgrade with an
      upstream-facing socket present cannot fail for want of a server name. */
  lemma {:induction false} UpstreamEnablesUpgrade(c: Control, ops: seq<Op>, dstHost: string)
    requires exists i :: 0 <= i < |ops| && IsUpstreamSetting(ops[i])
    ensures Run(c, ops + [UpdateSockets(Some(dstHost))]).updated
  {
    TunnelTrace(c, ops);
    RunSnoc(c, ops, UpdateSockets(Some(dstHost)));
  }
}
