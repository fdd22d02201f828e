/** The parts of a node's configuration that several components read. */
module Configs {
  import opened Common

  datatype Core = SingBox | Xray | Unspecified

  datatype Protocol =
    | Vless(flow: string)
    | Hysteria2(password: string)
    | Socks
    | Shadowsocks(password: string)
    | Tunnel
    | TProxy
    | Wireguard
    | ReverseProxy(tag: string, portalUser: string)
    | Naiveproxy
    | Trojan
    | TrustTunnel

  datatype Account = Account(id: string, token: string, expiryTime: int)

  /** `rest` stands for the transport and TLS fields, which matter here only for equality. `sockets` are the local
      sockets that serving the inbound takes: what `listen`, `port` and the transport come to on the host. */
  datatype Inbound = Inbound(
    name: string, listen: string, port: int, sockets: set<string>, enabled: bool, core: Core, protocol: Protocol,
    rest: string, accounts: seq<Account>)

  /** The settings of a TrustTunnel client. */
  datatype ClientConfig = ClientConfig(
    hostname: string, addresses: seq<string>, username: string, password: string, certificatePem: string,
    skipVerification: bool, upstreamProtocol: string, antiDpi: bool, customSni: string)

  /** `client` is None where the message carries none; `rest` stands for the fields of other outbounds. */
  datatype Outbound = Outbound(tag: string, isTrustTunnel: bool, client: Option<ClientConfig>, rest: string)

  /** Rules and DNS matter here only for equality. */
  datatype Settings = Settings(outbounds: seq<Outbound>, rules: string, dns: string)

  /** `certificates` matters here only through the outcome of synchronising it. */
  datatype Config = Config(
    inbounds: seq<Inbound>, accounts: seq<Account>, settings: Settings, certificates: string, masterKey: string)
}
