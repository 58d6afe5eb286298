/** The values exchanged with Cloudflare: rules, tunnel configurations and DNS records. */
module Domain {

  /** A Go pointer to a value: nil, or the value. */
  datatype Option<+T> = None | Some(value: T)

  /** CloudflareTunnelSettings. */
  datatype Settings = Settings(
    nameOverride: string,
    catchAllRule: string,
    caPool: Option<string>,
    noTLSVerify: bool,
    tlsTimeoutSeconds: int,
    http2Origin: bool,
    disableChunkedEncoding: bool,
    connectTimeoutSeconds: int,
    noHappyEyeballs: bool,
    proxyType: string,
    keepAliveTimeoutSeconds: int,
    keepAliveConnections: int)

  /** cloudflare.OriginRequestConfig, with durations in nanoseconds. */
  datatype OriginRequest = OriginRequest(
    httpHostHeader: string,
    originServerName: string,
    caPool: Option<string>,
    noTLSVerify: bool,
    tlsTimeout: int,
    http2Origin: bool,
    disableChunkedEncoding: bool,
    connectTimeout: int,
    noHappyEyeballs: bool,
    proxyType: string,
    keepAliveTimeout: int,
    keepAliveConnections: int)

  const SECOND := 1_000_000_000

  function ToOriginRequest(s: Settings, hostname: string): OriginRequest {
    OriginRequest(hostname, hostname, s.caPool, s.noTLSVerify, s.tlsTimeoutSeconds * SECOND, s.http2Origin,
                  s.disableChunkedEncoding, s.connectTimeoutSeconds * SECOND, s.noHappyEyeballs, s.proxyType,
                  s.keepAliveTimeoutSeconds * SECOND, s.keepAliveConnections)
  }

  /** The settings an origin request shows, and the hostname it is for; the two settings it does not show are
      given. Some origin requests show none. */
  function Shown(o: OriginRequest, nameOverride: string, catchAllRule: string): Option<(Settings, string)> {
    if o.httpHostHeader != o.originServerName || o.tlsTimeout % SECOND != 0 || o.connectTimeout % SECOND != 0
       || o.keepAliveTimeout % SECOND != 0 then None
    else Some((Settings(nameOverride := nameOverride, catchAllRule := catchAllRule, caPool := o.caPool,
                        noTLSVerify := o.noTLSVerify, tlsTimeoutSeconds := o.tlsTimeout / SECOND,
                        http2Origin := o.http2Origin, disableChunkedEncoding := o.disableChunkedEncoding,
                        connectTimeoutSeconds := o.connectTimeout / SECOND, noHappyEyeballs := o.noHappyEyeballs,
                        proxyType := o.proxyType, keepAliveTimeoutSeconds := o.keepAliveTimeout / SECOND,
                        keepAliveConnections := o.keepAliveConnections),
               o.originServerName))
  }

  /** A rule's origin request carries every setting but the name and the catch-all, and nothing else. */
  lemma OriginRequestRoundTrip(o: OriginRequest, s: Settings, hostname: string)
    ensures o == ToOriginRequest(s, hostname) <==> Shown(o, s.nameOverride, s.catchAllRule) == Some((s, hostname))
  {
  }

  /** cloudflare.UnvalidatedIngressRule. */
  datatype Rule = Rule(hostname: string, path: string, service: string, origin: Option<OriginRequest>)

  /** A tunnel's remote configuration; `rest` stands for every field other than the rule list. */
  datatype Config = Config(ingress: seq<Rule>, rest: string)

  /** A host of an Ingress, and whether one of its TLS blocks names it. */
  datatype Host = Host(name: string, tls: bool)

  function HostNames(hosts: seq<Host>): set<string> {
    set i | 0 <= i < |hosts| :: hosts[i].name
  }

  /** The content of a DNS record, without the identifier the zone gives it. */
  datatype RecordData = RecordData(rtype: string, name: string, content: string, proxied: bool, ttl: nat,
                                   comment: string)

  /** domain.DNSRecord; the empty identifier marks the zero value that a failed lookup returns. */
  datatype DNSRecord = DNSRecord(id: string, data: RecordData)

  const CNAME := "CNAME"
  const TUNNEL_DOMAIN := ".cfargotunnel.com"
  const COMMENT_HEAD := "{\"managed-by\":\"cloudflare-tunnel-operator\",\"tunnelID\":\""
  const COMMENT_TAIL := "\"}"
  const NO_RECORD := DNSRecord("", RecordData("", "", "", false, 0, ""))

  /** The CNAME target of a tunnel. */
  function Target(tunnelID: string): string {
    tunnelID + TUNNEL_DOMAIN
  }

  /** The JSON text of a DNSComment, for tunnel identifiers that need no escaping. */
  function Comment(tunnelID: string): string {
    COMMENT_HEAD + tunnelID + COMMENT_TAIL
  }

  /** The record that AddDNS and UpdateDNS write. */
  function Managed(tunnelID: string, hostname: string): RecordData {
    RecordData(CNAME, hostname, Target(tunnelID), true, 1, Comment(tunnelID))
  }

  predicate HealthyData(d: RecordData, tunnelID: string) {
    d.rtype == CNAME && d.proxied && d.content == Target(tunnelID)
  }

  predicate Healthy(r: DNSRecord, tunnelID: string) {
    r.id != "" && HealthyData(r.data, tunnelID)
  }

  /** Reads a comment back: the tunnel it names, if the operator could have written it. */
  function Owner(comment: string): Option<string> {
    var h, t := |COMMENT_HEAD|, |COMMENT_TAIL|;
    if |comment| >= h + t && comment[..h] == COMMENT_HEAD && comment[|comment| - t..] == COMMENT_TAIL
    then Some(comment[h..|comment| - t])
    else None
  }

  /** Both encodings are injective: a comment names one tunnel, and so does a target. */
  lemma CommentNamesOneTunnel(comment: string, tunnelID: string)
    ensures Owner(comment) == Some(tunnelID) <==> comment == Comment(tunnelID)
  {
    var h, t := |COMMENT_HEAD|, |COMMENT_TAIL|;
    var c := Comment(tunnelID);
    assert c[..h] == COMMENT_HEAD;
    assert c[|c| - t..] == COMMENT_TAIL;
    assert c[h..|c| - t] == tunnelID;
    if Owner(comment) == Some(tunnelID) {
      assert comment == comment[..h] + comment[h..|comment| - t] + comment[|comment| - t..];
    }
  }

  lemma TargetInjective(a: string, b: string)
    requires Target(a) == Target(b)
    ensures a == b
  {
    assert Target(a)[..|Target(a)| - |TUNNEL_DOMAIN|] == a;
    assert Target(b)[..|Target(b)| - |TUNNEL_DOMAIN|] == b;
  }
}
