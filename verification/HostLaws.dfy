/** The hosts of an Ingress enter the rule list as sets: order, repetition and grouping cannot show. */
module HostLaws {
  import opened Domain
  import opened World
  import opened IngressFields
  import opened Rules
  import opened RuleLaws

  lemma {:induction false} TLSMembers(tls: seq<seq<string>>, h: string)
    ensures h in TLSHosts(tls) <==> exists i :: 0 <= i < |tls| && h in tls[i]
  {
    if tls != [] {
      var n := |tls| - 1;
      TLSMembers(tls[..n], h);
      if i :| 0 <= i < |tls| && h in tls[i] && i != n {
        assert h in tls[..n][i];
      }
    }
  }

  ghost predicate NamedByTLS(ing: Ingress, h: string) {
    exists i :: 0 <= i < |ing.tls| && h in ing.tls[i]
  }

  /** Two ingresses name the same non-empty hosts, and agree on which of those their TLS blocks name. */
  ghost predicate SameHosts(a: Ingress, b: Ingress) {
    forall h :: h != "" ==>
      (h in a.rules <==> h in b.rules) && (h in a.rules ==> (NamedByTLS(a, h) <==> NamedByTLS(b, h)))
  }

  lemma HostsLookup(ing: Ingress, h: string)
    ensures LastHost(Hosts(ing), h) == if h in ing.rules then Some(Host(h, NamedByTLS(ing, h))) else None
  {
    var hosts := Hosts(ing);
    LastHostFound(hosts, h);
    TLSMembers(ing.tls, h);
    if h in ing.rules {
      var i :| 0 <= i < |ing.rules| && ing.rules[i] == h;
      assert hosts[i].name in HostNames(hosts);
    }
  }

  /** Reads an endpoint back: the address, and whether it is reached by TLS. */
  function ReadEndpoint(service: string): Option<(string, bool)> {
    var n := |service|;
    if n >= 12 && service[..8] == "https://" && service[n - 4..] == ":443" then Some((service[8..n - 4], true))
    else if n >= 10 && service[..7] == "http://" && service[n - 3..] == ":80" then Some((service[7..n - 3], false))
    else None
  }

  lemma EndpointRoundTrip(service: string, ip: string, tls: bool)
    ensures service == Endpoint(ip, tls) <==> ReadEndpoint(service) == Some((ip, tls))
  {
    var n := |service|;
    if service == Endpoint(ip, tls) {
      var h, t := if tls then 8 else 7, if tls then 4 else 3;
      assert service[..h] == if tls then "https://" else "http://";
      assert service[n - t..] == if tls then ":443" else ":80";
      assert service[h..n - t] == ip;
      assert service[4] == if tls then 's' else ':';
      assert n >= 12 ==> service[..8][4] == service[4];
    }
    if ReadEndpoint(service) == Some((ip, tls)) {
      var h, t := if tls then 8 else 7, if tls then 4 else 3;
      assert service == service[..h] + service[h..n - t] + service[n - t..];
    }
  }

  lemma SameHostsSameList(a: Ingress, b: Ingress, ip: string, s: Settings, list: seq<Rule>)
    requires SameHosts(a, b)
    ensures Append(list, Hosts(a), ip, s) == Append(list, Hosts(b), ip, s)
  {
    AppendRefines(list, Hosts(a), ip, s);
    AppendRefines(list, Hosts(b), ip, s);
    forall h ensures LastRule(Append(list, Hosts(a), ip, s), h) == LastRule(Append(list, Hosts(b), ip, s), h) {
      HostsLookup(a, h);
      HostsLookup(b, h);
    }
    SameLookupSameList(Append(list, Hosts(a), ip, s), Append(list, Hosts(b), ip, s));
  }

  lemma SameListSameHosts(a: Ingress, b: Ingress, ip: string, s: Settings)
    requires Append([], Hosts(a), ip, s) == Append([], Hosts(b), ip, s)
    ensures SameHosts(a, b)
  {
    AppendRefines([], Hosts(a), ip, s);
    AppendRefines([], Hosts(b), ip, s);
    EndpointRoundTrip(Endpoint(ip, true), ip, true);
    EndpointRoundTrip(Endpoint(ip, true), ip, false);
    forall h | h != ""
      ensures (h in a.rules <==> h in b.rules) && (h in a.rules ==> (NamedByTLS(a, h) <==> NamedByTLS(b, h)))
    {
      HostsLookup(a, h);
      HostsLookup(b, h);
      assert LastRule(Append([], Hosts(a), ip, s), h) == Published(h, None, Hosts(a), ip, s);
      assert LastRule(Append([], Hosts(b), ip, s), h) == Published(h, None, Hosts(b), ip, s);
    }
  }

  /** Publishing either of two ingresses at one address writes the same list, on every list, exactly when
      they have the same hosts. */
  lemma HostListAbstraction(a: Ingress, b: Ingress, ip: string, s: Settings)
    ensures SameHosts(a, b) <==> forall list :: Append(list, Hosts(a), ip, s) == Append(list, Hosts(b), ip, s)
  {
    if SameHosts(a, b) {
      forall list ensures Append(list, Hosts(a), ip, s) == Append(list, Hosts(b), ip, s) {
        SameHostsSameList(a, b, ip, s, list);
      }
    } else if forall list :: Append(list, Hosts(a), ip, s) == Append(list, Hosts(b), ip, s) {
      SameListSameHosts(a, b, ip, s);
    }
  }
}
