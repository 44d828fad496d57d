/** The transport endpoints the session holds, reduced to what the session code
    observes of them, and the two guarded helpers that write to and destroy one. */
module Sockets {
  import opened JsValues

  /** The identity of a callback function handed in by the caller. */
  type HandlerId = nat

  datatype Event = Data | Close | Error

  /** One `socket.on(event, handler)` registration. */
  datatype Listener = On(event: Event, handler: HandlerId)

  /** The options a TLS wrapper is constructed with. */
  datatype TlsOptions = TlsOptions(
    isServer: bool,
    rejectUnauthorized: bool,
    requestCert: bool,
    keys: Option<KeyPair>)

  /** How a socket came to be: a plain endpoint, or a TLS wrapper over `inner`. */
  datatype Origin = Plain | TlsWrapped(options: TlsOptions)

  class Socket {
    /** Node's `socket.destroyed`. */
    var destroyed: bool
    /** How many times `destroy()` has been called on this socket. */
    var destroyCalls: nat
    /** Every chunk passed to `write()`, in order. */
    var written: seq<Payload>
    /** Node's `socket._host`, the host the endpoint connected to; "" when unset. */
    var host: string
    /** The Server Name Indication value set by `setServername`, if any. */
    var serverName: Option<string>
    var serverNameCalls: nat
    const origin: Origin
    /** The socket a TLS wrapper was built over (null for a plain socket). */
    const inner: Socket?
    /** The event listeners attached when the socket was set up. */
    const listeners: seq<Listener>

    /** A plain endpoint, as `new net.Socket()` or an accepted connection. */
    constructor Open(host: string)
      ensures !destroyed && destroyCalls == 0 && written == []
      ensures this.host == host && serverName == None && serverNameCalls == 0
      ensures origin == Plain && inner == null && listeners == []
    {
      destroyed := false;
      destroyCalls := 0;
      written := [];
      this.host := host;
      serverName := None;
      serverNameCalls := 0;
      origin := Plain;
      inner := null;
      listeners := [];
    }

    /** `new tls.TLSSocket(inner, options).on(...)...`: a new, live wrapper. */
    constructor Wrap(inner: Socket?, options: TlsOptions, listeners: seq<Listener>)
      ensures !destroyed && destroyCalls == 0 && written == []
      ensures host == "" && serverName == None && serverNameCalls == 0
      ensures origin == TlsWrapped(options) && this.inner == inner && this.listeners == listeners
    {
      destroyed := false;
      destroyCalls := 0;
      written := [];
      host := "";
      serverName := None;
      serverNameCalls := 0;
      origin := TlsWrapped(options);
      this.inner := inner;
      this.listeners := listeners;
    }

    method Write(data: Payload)
      modifies this
      ensures written == old(written) + [data]
      ensures destroyed == old(destroyed) && destroyCalls == old(destroyCalls)
      ensures host == old(host) && serverName == old(serverName) && serverNameCalls == old(serverNameCalls)
    {
      written := written + [data];
    }

    method Destroy()
      modifies this
      ensures destroyed && destroyCalls == old(destroyCalls) + 1
      ensures written == old(written)
      ensures host == old(host) && serverName == old(serverName) && serverNameCalls == old(serverNameCalls)
    {
      destroyed := true;
      destroyCalls := destroyCalls + 1;
    }

    method SetServername(name: string)
      modifies this
      ensures serverName == Some(name) && serverNameCalls == old(serverNameCalls) + 1
      ensures destroyed == old(destroyed) && destroyCalls == old(destroyCalls)
      ensures written == old(written) && host == old(host)
    {
      serverName := Some(name);
      serverNameCalls := serverNameCalls + 1;
    }
  }

  /** Writes `data` only to a socket that is present and live, and only when
      `data` is truthy; in every other case no socket changes. */
  method SocketWrite(socket: Socket?, data: Payload)
    modifies socket
    ensures socket != null && !old(socket.destroyed) && IsTruthy(data) ==>
      && socket.written == old(socket.written) + [data]
      && socket.destroyed == old(socket.destroyed)
      && socket.destroyCalls == old(socket.destroyCalls)
      && socket.host == old(socket.host)
      && socket.serverName == old(socket.serverName)
      && socket.serverNameCalls == old(socket.serverNameCalls)
    ensures socket != null && (old(socket.destroyed) || !IsTruthy(data)) ==> unchanged(socket)
  {
    if socket != null && !socket.destroyed && IsTruthy(data) {
      socket.Write(data);
    }
  }

  /** Destroys a socket that is present and not yet destroyed; a destroyed one is
      left alone, so `destroy()` reaches each socket at most once through here. */
  method SocketDestroy(socket: Socket?)
    modifies socket
    ensures socket != null && !old(socket.destroyed) ==>
      && socket.destroyed
      && socket.destroyCalls == old(socket.destroyCalls) + 1
      && socket.written == old(socket.written)
      && socket.host == old(socket.host)
      && socket.serverName == old(socket.serverName)
      && socket.serverNameCalls == old(socket.serverNameCalls)
    ensures socket != null && old(socket.destroyed) ==> unchanged(socket)
  {
    if socket != null && !socket.destroyed {
      socket.Destroy();
    }
  }
}
