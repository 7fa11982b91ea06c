/** The values that travel on an Eggtunnel control or data connection. */
module Wire {

  type byte = x: int | 0 <= x < 0x100
  type u16 = x: int | 0 <= x < 0x1_0000
  type u32 = x: int | 0 <= x < 0x1_0000_0000
  type u64 = x: int | 0 <= x < 0x1_0000_0000_0000_0000

  const U64_MAX: u64 := 0xffff_ffff_ffff_ffff

  type Bytes = seq<byte>

  /** Session and Connection identifiers and addresses are sixteen raw bytes. */
  type Octets16 = s: Bytes | |s| == 16 witness seq(16, i => 0)

  type SessionId = Octets16
  type ConnectionId = Octets16
  type ServiceId = u64

  /** Text is held as its bytes; which bytes are valid text is decided by the codec. */
  type Text = Bytes

  datatype Option<+T> = None | Some(value: T)

  datatype Version = Version(major: u16, minor: u16)

  datatype RequestedBind =
    | Loopback(port: u16)
    | Ip(address: Octets16, port: u16)

  datatype EffectiveBind = EffectiveBind(address: Octets16, port: u16)

  datatype TcpTarget = TcpTarget(host: Text, port: u16)

  datatype Message =
    | ClientHello(version: Version, capabilities: seq<u16>)
    | ServerHello(version: Version, capabilities: seq<u16>)
    | Auth(token: Bytes)
    | AuthOk(sessionId: SessionId)
    | RegisterService(serviceId: ServiceId, name: Text, requestedBind: RequestedBind, target: TcpTarget)
    | RegisterAck(serviceId: ServiceId, effectiveBind: EffectiveBind)
    | UnregisterService(serviceId: ServiceId)
    | Open(serviceId: ServiceId, connectionId: ConnectionId)
    | OpenReject(connectionId: ConnectionId, code: u16)
    | Ping(nonce: u64)
    | Pong(nonce: u64)
    | Drain(deadlineMs: u32)
    | Error(code: u16, diagnostic: Text)
    | DataHello(sessionId: SessionId, serviceId: ServiceId, connectionId: ConnectionId)
    | RegisterReject(serviceId: ServiceId, code: u16, diagnostic: Text)

  const CAPABILITY_REGISTER_REJECT: u16 := 1
  const CAPABILITY_DRAIN_DEADLINE: u16 := 2

  /** The errors an embedder can observe. */
  datatype TunnelError =
    | Configuration
    | Io
    | Tls
    | Protocol
    | Authentication
    | Authorization
    | Disconnected
    | Cancelled
    | Timeout
    | Target
    | ResourceExhausted
    | ServiceAlreadyExists
    | PeerClosed
}
