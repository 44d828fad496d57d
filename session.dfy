/** The per-connection session of the intercepting proxy: the client-facing and
    upstream-facing sockets, the tunnel record, the authentication latch and the
    once-only TLS upgrade. Every method that changes the control state is tied to
    `SessionSpec.Apply`, so the trace lemmas there hold of any sequence of calls. */
module Sessions {
  import opened JsValues
  import opened Sockets
  import opened SessionSpec

  /** The callbacks passed to `_updateSockets`. */
  datatype Callbacks = Callbacks(onDataFromClient: HandlerId, onDataFromUpstream: HandlerId, onClose: HandlerId)

  /** How a call ended: it returned the session, or it threw a TypeError. */
  datatype Outcome = Returned | ThrewTypeError

  /** `.on(DATA, onData).on(CLOSE, onClose).on(ERROR, onClose)`. */
  function WrapperListeners(onData: HandlerId, onClose: HandlerId): (r: seq<Listener>)
    ensures |r| == 3 && r[0].event == Data && r[0].handler == onData
    ensures r[1].event == Close && r[2].event == Error
    ensures forall i :: 0 < i < |r| ==> r[i].handler == onClose
  {
    [On(Data, onData), On(Close, onClose), On(Error, onClose)]
  }

  /** Both wrappers neither verify the peer's certificate nor ask for one; only
      the client-facing one acts as a server, with the given key pair. */
  function ClientFacingTls(keys: KeyPair): (o: TlsOptions)
    ensures o.isServer && !o.rejectUnauthorized && !o.requestCert && o.keys == Some(keys)
  {
    TlsOptions(true, false, false, Some(keys))
  }

  function UpstreamFacingTls(): (o: TlsOptions)
    ensures !o.isServer && !o.rejectUnauthorized && !o.requestCert && o.keys == None
  {
    TlsOptions(false, false, false, None)
  }

  class Session {
    const id: string
    /** `_src`: the client-facing socket, which receives responses. */
    var src: Socket?
    /** `_dst`: the upstream-facing socket, which receives requests. */
    var dst: Socket?
    var srcMirror: Socket?
    var dstMirror: Socket?
    var tunnel: Tunnel
    var user: Option<string>
    var authenticated: bool
    var isHttps: bool
    /** `_updated`: undefined, hence false, until the upgrade has happened. */
    var updated: bool

    /** The control state, as `SessionSpec` describes it. */
    function ControlState(): Control
      reads this
    {
      Control(user, authenticated, tunnel, updated)
    }

    /** What `_updateSockets` reads of the upstream-facing socket. */
    function DstHost(): Option<string>
      reads this, dst
    {
      if dst == null then None else Some(dst.host)
    }

    constructor(id: string)
      ensures this.id == id
      ensures src == null && dst == null && srcMirror == null && dstMirror == null
      ensures tunnel == EmptyTunnel && user == None && !authenticated && !isHttps && !updated
      ensures ControlState() == Initial
    {
      this.id := id;
      src := null;
      dst := null;
      srcMirror := null;
      dstMirror := null;
      tunnel := EmptyTunnel;
      user := None;
      authenticated := false;
      isHttps := false;
      updated := false;
    }

    /** Forwards `data` to the upstream-facing socket if it is present and live
        and `data` is truthy; the client-facing socket is not touched unless it is
        the same object. */
    method ClientRequestWrite(data: Payload) returns (self: Session)
      modifies dst
      ensures self == this
      ensures dst != null && !old(dst.destroyed) && IsTruthy(data) ==>
        dst.written == old(dst.written) + [data] && dst.destroyed == old(dst.destroyed)
        && dst.destroyCalls == old(dst.destroyCalls) && dst.host == old(dst.host)
        && dst.serverName == old(dst.serverName) && dst.serverNameCalls == old(dst.serverNameCalls)
      ensures dst != null && (old(dst.destroyed) || !IsTruthy(data)) ==> unchanged(dst)
      ensures src != null && src != dst ==> unchanged(src)
      ensures ControlState() == Apply(old(ControlState()), Op.RequestWrite)
    {
      SocketWrite(dst, data);
      self := this;
    }

    /** The same guard, towards the client-facing socket. */
    method ClientResponseWrite(data: Payload) returns (self: Session)
      modifies src
      ensures self == this
      ensures src != null && !old(src.destroyed) && IsTruthy(data) ==>
        src.written == old(src.written) + [data] && src.destroyed == old(src.destroyed)
        && src.destroyCalls == old(src.destroyCalls) && src.host == old(src.host)
        && src.serverName == old(src.serverName) && src.serverNameCalls == old(src.serverNameCalls)
      ensures src != null && (old(src.destroyed) || !IsTruthy(data)) ==> unchanged(src)
      ensures dst != null && dst != src ==> unchanged(dst)
      ensures ControlState() == Apply(old(ControlState()), Op.ResponseWrite)
    {
      SocketWrite(src, data);
      self := this;
    }

    /** Destroys every present socket that is not destroyed yet. A second call, or
        a pair where both fields hold the same socket, destroys nothing again. */
    method Destroy() returns (self: Session)
      modifies src, dst
      ensures self == this
      ensures dst != null ==> dst.destroyed && dst.written == old(dst.written)
      ensures src != null ==> src.destroyed && src.written == old(src.written)
      ensures dst != null ==>
        dst.destroyCalls == old(dst.destroyCalls) + if old(dst.destroyed) then 0 else 1
      ensures src != null && src != dst ==>
        src.destroyCalls == old(src.destroyCalls) + if old(src.destroyed) then 0 else 1
      ensures dst != null ==>
        dst.host == old(dst.host) && dst.serverName == old(dst.serverName)
        && dst.serverNameCalls == old(dst.serverNameCalls)
      ensures src != null ==>
        src.host == old(src.host) && src.serverName == old(src.serverName)
        && src.serverNameCalls == old(src.serverNameCalls)
      ensures ControlState() == Apply(old(ControlState()), Op.Destroy)
    {
      if dst != null {
        SocketDestroy(dst);
      }
      if src != null {
        SocketDestroy(src);
      }
      self := this;
    }

    method IsAuthenticated() returns (r: bool)
      ensures r == authenticated
    {
      r := authenticated;
    }

    /** Installs the client-facing socket and a fresh mirror socket for it. */
    method SetResponseSocket(socket: Socket?) returns (self: Session)
      modifies this
      ensures self == this
      ensures src == socket && srcMirror != null && fresh(srcMirror)
      ensures srcMirror.origin == Plain && !srcMirror.destroyed && srcMirror.written == []
      ensures dst == old(dst) && dstMirror == old(dstMirror) && isHttps == old(isHttps)
      ensures ControlState() == Apply(old(ControlState()), Op.SetResponseSocket)
    {
      src := socket;
      srcMirror := new Socket.Open("");
      self := this;
    }

    /** Installs the upstream-facing socket and a fresh mirror socket for it. */
    method SetRequestSocket(socket: Socket?) returns (self: Session)
      modifies this
      ensures self == this
      ensures dst == socket && dstMirror != null && fresh(dstMirror)
      ensures dstMirror.origin == Plain && !dstMirror.destroyed && dstMirror.written == []
      ensures src == old(src) && srcMirror == old(srcMirror) && isHttps == old(isHttps)
      ensures ControlState() == Apply(old(ControlState()), Op.SetRequestSocket)
    {
      dst := socket;
      dstMirror := new Socket.Open("");
      self := this;
    }

    method GetId() returns (r: string)
      ensures r == id
    {
      r := id;
    }

    /** A truthy name latches `authenticated` and records the user; a falsy one
        changes nothing. */
    method SetUserAuthentication(username: Option<string>) returns (self: Session)
      modifies this
      ensures self == this
      ensures IsTruthyName(username) ==> authenticated && user == username
      ensures !IsTruthyName(username) ==> user == old(user) && authenticated == old(authenticated)
      ensures src == old(src) && dst == old(dst) && srcMirror == old(srcMirror) && dstMirror == old(dstMirror)
      ensures isHttps == old(isHttps)
      ensures ControlState() == Apply(old(ControlState()), Op.SetUserAuthentication(username))
    {
      if IsTruthyName(username) {
        authenticated := true;
        user := username;
      }
      self := this;
    }

    /** Records the tunnel target; a falsy `options` changes nothing, and UPSTREAM
        is only overwritten by a truthy upstream. */
    method SetTunnelOpt(options: Option<TunnelOptions>) returns (self: Session)
      modifies this
      ensures self == this
      ensures options.Some? ==> tunnel.address == options.value.host && tunnel.port == options.value.port
      ensures options.Some? && options.value.upstream.Some? ==> tunnel.upstream == options.value.upstream
      ensures options.None? || options.value.upstream.None? ==> tunnel.upstream == old(tunnel.upstream)
      ensures options.None? ==> tunnel == old(tunnel)
      ensures src == old(src) && dst == old(dst) && srcMirror == old(srcMirror) && dstMirror == old(dstMirror)
      ensures isHttps == old(isHttps)
      ensures ControlState() == Apply(old(ControlState()), Op.SetTunnelOpt(options))
    {
      if options.Some? {
        var o := options.value;
        var upstream := if o.upstream.Some? then o.upstream else tunnel.upstream;
        tunnel := Tunnel(o.host, o.port, upstream);
      }
      self := this;
    }

    /** Swaps both sockets for TLS wrappers; once a call completes, later calls
        change nothing. The client-facing wrapper is installed first; choosing the
        server name for the upstream-facing one can then throw, which leaves the
        session with the new client-facing socket, the old upstream-facing one,
        and the guard still down, so a retry wraps the client side again. */
    method UpdateSockets(callbacks: Callbacks, keys: Option<KeyPair>) returns (outcome: Outcome)
      modifies this
      ensures tunnel == old(tunnel) && user == old(user) && authenticated == old(authenticated)
      ensures isHttps == old(isHttps)
      ensures ControlState() == Apply(old(ControlState()), Op.UpdateSockets(old(DstHost())))
      ensures old(updated) ==>
        && outcome == Returned
        && src == old(src) && dst == old(dst) && srcMirror == old(srcMirror) && dstMirror == old(dstMirror)
      ensures !old(updated) ==>
        && src != null && fresh(src) && src.inner == old(src)
        && src.origin == TlsWrapped(ClientFacingTls(EffectiveKeys(keys)))
        && src.listeners == WrapperListeners(callbacks.onDataFromClient, callbacks.onClose)
        && !src.destroyed && src.destroyCalls == 0 && src.written == []
        && src.host == "" && src.serverName == None && src.serverNameCalls == 0
        && srcMirror != null && fresh(srcMirror)
      ensures !old(updated) ==>
        var name := ServerName(old(DstHost()), tunnel.upstream);
        if name.Some? then
          && outcome == Returned && updated
          && dst != null && fresh(dst) && dst.inner == old(dst)
          && dst.origin == TlsWrapped(UpstreamFacingTls())
          && dst.listeners == WrapperListeners(callbacks.onDataFromUpstream, callbacks.onClose)
          && dst.serverName == name && dst.serverNameCalls == 1
          && !dst.destroyed && dst.destroyCalls == 0 && dst.written == [] && dst.host == ""
          && dstMirror != null && fresh(dstMirror)
        else
          && outcome == ThrewTypeError && !updated
          && dst == old(dst) && dstMirror == old(dstMirror)
    {
      var effectiveKeys := EffectiveKeys(keys);
      if !updated {
        var srcSocket := new Socket.Wrap(src, ClientFacingTls(effectiveKeys),
          WrapperListeners(callbacks.onDataFromClient, callbacks.onClose));
        var _ := SetResponseSocket(srcSocket);
        var dstSocket := new Socket.Wrap(dst, UpstreamFacingTls(),
          WrapperListeners(callbacks.onDataFromUpstream, callbacks.onClose));
        var name := ServerName(DstHost(), tunnel.upstream);
        if name.None? {
          outcome := ThrewTypeError;
          return;
        }
        dstSocket.SetServername(name.value);
        var _ := SetRequestSocket(dstSocket);
        updated := true;
      }
      outcome := Returned;
    }

    /** Returns the tunnel record as it stands. */
    method GetTunnelStats() returns (stats: Tunnel)
      ensures stats == tunnel
    {
      stats := tunnel;
    }
  }
}
