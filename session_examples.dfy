/** Clients of `Sessions.Session` that establish, from its contracts alone, the
    behaviour the proxy relies on: destroy is idempotent, writes after destroy are
    dropped, the upgrade completes once, and the tunnel and authentication records
    read back as set. */
module SessionExamples {
  import opened JsValues
  import opened Sockets
  import opened SessionSpec
  import opened Sessions

  /** Destroying twice destroys each present socket exactly once in all. */
  method DestroyTwice(s: Session)
    modifies s.src, s.dst
    ensures s.dst != null ==>
      s.dst.destroyed && s.dst.destroyCalls == old(s.dst.destroyCalls) + if old(s.dst.destroyed) then 0 else 1
    ensures s.src != null && s.src != s.dst ==>
      s.src.destroyed && s.src.destroyCalls == old(s.src.destroyCalls) + if old(s.src.destroyed) then 0 else 1
  {
    var _ := s.Destroy();
    var _ := s.Destroy();
  }

  /** After `destroy()`, writes in either direction leave every socket's log as it was. */
  method WritesAfterDestroy(s: Session, toUpstream: Payload, toClient: Payload)
    modifies s.src, s.dst
    ensures s.dst != null ==> s.dst.destroyed && s.dst.written == old(s.dst.written)
    ensures s.src != null ==> s.src.destroyed && s.src.written == old(s.src.written)
  {
    var _ := s.Destroy();
    var _ := s.ClientRequestWrite(toUpstream);
    var _ := s.ClientResponseWrite(toClient);
  }

  /** A second upgrade leaves the wrappers installed by the first in place. */
  method UpgradeTwice(s: Session, callbacks: Callbacks, keys: Option<KeyPair>)
    returns (first: Outcome, second: Outcome)
    modifies s
    ensures first == Returned ==> second == Returned && s.updated
    ensures first == Returned && !old(s.updated) ==>
      s.dst != null && s.dst.inner == old(s.dst) && s.dst.serverNameCalls == 1
    ensures first == Returned && !old(s.updated) ==>
      s.src != null && s.src.inner == old(s.src)
  {
    first := s.UpdateSockets(callbacks, keys);
    if first == Returned {
      assert s.updated;
    }
    var src, dst := s.src, s.dst;
    second := s.UpdateSockets(callbacks, keys);
    if first == Returned {
      assert s.src == src && s.dst == dst;
    }
  }

  /** The calls `AcceptorSequence` makes, as a trace. */
  function AcceptorOps(name: Option<string>, options: Option<TunnelOptions>, host: Option<string>): seq<Op>
  {
    [Op.SetResponseSocket, Op.SetRequestSocket, Op.SetTunnelOpt(options), Op.SetUserAuthentication(name),
     Op.UpdateSockets(host), Op.RequestWrite, Op.SetUserAuthentication(None)]
  }

  /** What the trace lemmas give for that trace from a new session. */
  lemma AcceptorTraceFacts(name: Option<string>, options: Option<TunnelOptions>, upstreamHost: string)
    ensures var r := Run(Initial, AcceptorOps(name, options, Some(upstreamHost)));
      && r.authenticated == IsTruthyName(name)
      && r.user == (if IsTruthyName(name) then name else None)
      && r.tunnel == WithTunnelOptions(EmptyTunnel, options)
      && (r.updated <==> upstreamHost != "" || (options.Some? && options.value.upstream.Some?))
  {
    var ops := AcceptorOps(name, options, Some(upstreamHost));
    var before := ops[..4];
    assert ops[..6][..5] == ops[..5] && ops[..5][..4] == before;
    assert before[..3][..2] == before[..2] && before[..2][..1] == before[..1] && before[..1][..0] == [];
    AuthenticationTrace(Initial, ops);
    TunnelTrace(Initial, ops);
    TunnelTrace(Initial, before);
    // the last three calls neither authenticate nor set the tunnel
    assert LastIndex(ops, IsAuthentication) == LastIndex(before, IsAuthentication);
    assert LastIndex(ops, IsTunnelSetting) == LastIndex(before, IsTunnelSetting);
    assert LastIndex(ops, IsUpstreamSetting) == LastIndex(before, IsUpstreamSetting);
    assert LastIndex(before, IsUpstreamSetting) == LastIndex(before[..3], IsUpstreamSetting);
    // no upgrade was attempted before the fifth call, and the last two do not attempt one
    assert Run(Initial, before[..1]) == Initial;
    assert !Run(Initial, before[..2]).updated;
    assert !Run(Initial, before).updated;
    assert Run(Initial, ops).updated == Run(Initial, ops[..5]).updated;
  }

  /** The first half of `AcceptorSequence`: a new session gets both sockets, the
      tunnel options and the login; `ops` records the calls. */
  method AttachAndLogin(name: Option<string>, options: Option<TunnelOptions>, upstreamHost: string)
    returns (s: Session, ghost ops: seq<Op>)
    ensures fresh(s) && s.dst != null && fresh(s.dst) && s.DstHost() == Some(upstreamHost)
    ensures ops == AcceptorOps(name, options, Some(upstreamHost))[..4]
    ensures s.ControlState() == Run(Initial, ops)
  {
    s := new Session("session-9");
    ops := [];
    var client := new Socket.Open("");
    var upstream := new Socket.Open(upstreamHost);
    var _ := s.SetResponseSocket(client);
    RunSnoc(Initial, ops, Op.SetResponseSocket);
    ops := ops + [Op.SetResponseSocket];
    var _ := s.SetRequestSocket(upstream);
    RunSnoc(Initial, ops, Op.SetRequestSocket);
    ops := ops + [Op.SetRequestSocket];
    var _ := s.SetTunnelOpt(options);
    RunSnoc(Initial, ops, Op.SetTunnelOpt(options));
    ops := ops + [Op.SetTunnelOpt(options)];
    var _ := s.SetUserAuthentication(name);
    RunSnoc(Initial, ops, Op.SetUserAuthentication(name));
    ops := ops + [Op.SetUserAuthentication(name)];
  }

  /** A session driven as the acceptor drives it. The ghost trace `ops` records
      each call, and after every call the control state equals `Run` of the trace
      so far; the final facts then follow from the trace lemmas. */
  method AcceptorSequence(name: Option<string>, options: Option<TunnelOptions>, upstreamHost: string, data: Payload)
    returns (authenticated: bool, user: Option<string>, tunnel: Tunnel, upgraded: bool)
    ensures authenticated == IsTruthyName(name)
    ensures user == if IsTruthyName(name) then name else None
    ensures tunnel == WithTunnelOptions(EmptyTunnel, options)
    ensures upgraded <==> upstreamHost != "" || (options.Some? && options.value.upstream.Some?)
  {
    var s: Session;
    ghost var ops: seq<Op>;
    s, ops := AttachAndLogin(name, options, upstreamHost);
    ghost var host := s.DstHost();
    var _ := s.UpdateSockets(Callbacks(1, 2, 3), None);
    RunSnoc(Initial, ops, Op.UpdateSockets(host));
    ops := ops + [Op.UpdateSockets(host)];
    var _ := s.ClientRequestWrite(data);
    RunSnoc(Initial, ops, Op.RequestWrite);
    ops := ops + [Op.RequestWrite];
    var _ := s.SetUserAuthentication(None);
    RunSnoc(Initial, ops, Op.SetUserAuthentication(None));
    ops := ops + [Op.SetUserAuthentication(None)];

    assert ops == AcceptorOps(name, options, Some(upstreamHost));
    AcceptorTraceFacts(name, options, upstreamHost);
    authenticated := s.IsAuthenticated();
    user := s.user;
    tunnel := s.GetTunnelStats();
    upgraded := s.updated;
  }

  /** Tearing down an intercepted connection after a completed upgrade:
      `destroy()`, run twice, destroys each wrapper exactly once and leaves the
      sockets they wrap alone. */
  method UpgradedTeardown() returns (srcCalls: nat, dstCalls: nat, wrappedDestroyed: bool)
    ensures srcCalls == 1 && dstCalls == 1 && !wrappedDestroyed
  {
    var s := new Session("session-10");
    var client := new Socket.Open("");
    var upstream := new Socket.Open("example.org");
    var _ := s.SetResponseSocket(client);
    var _ := s.SetRequestSocket(upstream);
    var _ := s.UpdateSockets(Callbacks(1, 2, 3), None);
    var _ := s.Destroy();
    var _ := s.Destroy();
    srcCalls, dstCalls := s.src.destroyCalls, s.dst.destroyCalls;
    wrappedDestroyed := client.destroyed || upstream.destroyed;
  }

  /** The same teardown after an upgrade that failed on the server name: the
      client-facing wrapper and the original upstream socket are each destroyed
      exactly once. */
  method FailedUpgradeTeardown() returns (srcCalls: nat, dstCalls: nat, wrappedDestroyed: bool)
    ensures srcCalls == 1 && dstCalls == 1 && !wrappedDestroyed
  {
    var s := new Session("session-11");
    var client := new Socket.Open("");
    var upstream := new Socket.Open("");
    var _ := s.SetResponseSocket(client);
    var _ := s.SetRequestSocket(upstream);
    var _ := s.UpdateSockets(Callbacks(1, 2, 3), None);
    var _ := s.Destroy();
    var _ := s.Destroy();
    srcCalls, dstCalls := s.src.destroyCalls, s.dst.destroyCalls;
    wrappedDestroyed := client.destroyed;
  }

  /** Setting a tunnel target with an upstream and reading it back. */
  method TunnelStatsWithUpstream() returns (stats: Tunnel)
    ensures stats == Tunnel(Some("a"), Some(443), Some(Upstream("b", 8443)))
  {
    var s := new Session("session-1");
    var _ := s.SetTunnelOpt(Some(TunnelOptions(Some("a"), Some(443), Some(Upstream("b", 8443)))));
    stats := s.GetTunnelStats();
  }

  /** Without an upstream the record has no UPSTREAM; a falsy options object
      afterwards changes nothing. */
  method TunnelStatsWithoutUpstream() returns (stats: Tunnel)
    ensures stats == Tunnel(Some("a"), Some(443), None)
  {
    var s := new Session("session-2");
    var _ := s.SetTunnelOpt(Some(TunnelOptions(Some("a"), Some(443), None)));
    var _ := s.SetTunnelOpt(None);
    stats := s.GetTunnelStats();
  }

  /** `bob` authenticates; the empty name and a missing name do not, and do not
      undo an earlier authentication either. */
  method AuthenticationExamples() returns (bob: bool, empty: bool, missing: bool, stillBob: bool)
    ensures bob && !empty && !missing && stillBob
  {
    var s1 := new Session("session-3");
    var _ := s1.SetUserAuthentication(Some("bob"));
    bob := s1.IsAuthenticated();
    var _ := s1.SetUserAuthentication(Some(""));
    var _ := s1.SetUserAuthentication(None);
    stillBob := s1.IsAuthenticated();
    stillBob := stillBob && s1.user == Some("bob");

    var s2 := new Session("session-4");
    var _ := s2.SetUserAuthentication(Some(""));
    empty := s2.IsAuthenticated();

    var s3 := new Session("session-5");
    var _ := s3.SetUserAuthentication(None);
    missing := s3.IsAuthenticated();
  }

  /** An upgrade whose upstream socket has no `_host` takes the server name from
      the tunnel's UPSTREAM; a second upgrade sets no further server name. */
  method ServerNameFromUpstream() returns (name: Option<string>, calls: nat, id: string)
    ensures name == Some("b") && calls == 1 && id == "session-6"
  {
    var s := new Session("session-6");
    var client := new Socket.Open("");
    var upstream := new Socket.Open("");
    var _ := s.SetResponseSocket(client);
    var _ := s.SetRequestSocket(upstream);
    var _ := s.SetTunnelOpt(Some(TunnelOptions(Some("a"), Some(443), Some(Upstream("b", 8443)))));
    var _ := s.UpdateSockets(Callbacks(1, 2, 3), None);
    var _ := s.UpdateSockets(Callbacks(1, 2, 3), None);
    name := s.dst.serverName;
    calls := s.dst.serverNameCalls;
    id := s.GetId();
  }

  /** A retry after a failed upgrade wraps the client-facing socket again: the
      guard is only raised once the whole upgrade completes. */
  method FailedUpgradeRetried() returns (outer: Socket?, inner: Socket?, client: Socket, guard: bool)
    ensures outer != null && inner != null && outer.inner == inner && inner.inner == client
    ensures outer.origin.TlsWrapped? && inner.origin.TlsWrapped? && !guard
  {
    var s := new Session("session-8");
    client := new Socket.Open("");
    var upstream := new Socket.Open("");
    var _ := s.SetResponseSocket(client);
    var _ := s.SetRequestSocket(upstream);
    var _ := s.UpdateSockets(Callbacks(1, 2, 3), None);
    inner := s.src;
    var _ := s.UpdateSockets(Callbacks(1, 2, 3), None);
    outer := s.src;
    guard := s.updated;
  }

  /** With neither a `_host` nor an UPSTREAM the upgrade throws after the
      client-facing socket was already replaced, and the guard stays down. */
  method UpgradeWithoutServerName() returns (outcome: Outcome, clientWrapped: bool, upstreamKept: bool, guard: bool)
    ensures outcome == ThrewTypeError && clientWrapped && upstreamKept && !guard
  {
    var s := new Session("session-7");
    var client := new Socket.Open("");
    var upstream := new Socket.Open("");
    var _ := s.SetResponseSocket(client);
    var _ := s.SetRequestSocket(upstream);
    outcome := s.UpdateSockets(Callbacks(1, 2, 3), None);
    clientWrapped := s.src != null && s.src.inner == client && s.src.origin.TlsWrapped?;
    upstreamKept := s.dst == upstream;
    guard := s.updated;
  }
}
