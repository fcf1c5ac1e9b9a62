/** The sing-box configuration document both scripts write (index.js:92-127,
    app.js:83-104), as a structured value rather than JSON text, and the
    reading of it that says what the proxy ends up serving. */
module SingBoxConfig {
  import opened Basics

  datatype LogOptions = LogOptions(level: string, timestamp: bool)

  datatype User = User(uuid: string, flow: string)

  /** The transport block; only index.js sets `early_data_header_name`. */
  datatype Transport = Transport(kind: string, path: string, earlyDataHeaderName: Option<string>)

  datatype Inbound = Inbound(
    kind: string,
    tag: string,
    listen: string,
    listenPort: int,
    users: seq<User>,
    transport: Transport)

  datatype Outbound = Outbound(kind: string, tag: string)

  datatype Config = Config(log: LogOptions, inbounds: seq<Inbound>, outbounds: seq<Outbound>)

  const Loopback := "127.0.0.1"

  /** The two baseline outbound policies. */
  const BaselineOutbounds := [Outbound("direct", "direct"), Outbound("block", "block")]

  /** No inbound listens anywhere but on loopback, so the proxy is reached
      only through the tunnel client. */
  predicate BindsLoopbackOnly(c: Config) {
    forall i :: 0 <= i < |c.inbounds| ==> c.inbounds[i].listen == Loopback
  }

  /** What one VLESS-over-WebSocket inbound accepts. */
  datatype Endpoint = Endpoint(port: int, uuid: string, wsPath: string)

  /** The endpoint a document serves, when it has the shape both scripts
      write: a single VLESS inbound on loopback with one user and no flow, a
      WebSocket transport, and exactly the `direct` and `block` outbounds. */
  function Served(c: Config): (r: Option<Endpoint>)
    ensures r.Some? ==> BindsLoopbackOnly(c) && |c.inbounds| == 1
  {
    if |c.inbounds| != 1 || c.outbounds != BaselineOutbounds then None
    else
      var ib := c.inbounds[0];
      if ib.kind == "vless" && ib.listen == Loopback && |ib.users| == 1 && ib.users[0].flow == ""
         && ib.transport.kind == "ws"
      then Some(Endpoint(ib.listenPort, ib.users[0].uuid, ib.transport.path))
      else None
  }
}
