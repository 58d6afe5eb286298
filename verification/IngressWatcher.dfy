/** The Ingress reconciler as the operator runs it: a mutex, the remote client, and loops over hosts. */
module IngressWatcher {
  import opened Domain
  import opened World
  import opened IngressFields
  import opened CloudflareClient
  import P = Protocol
  import Rules
  import RuleLaws
  import Z = ZoneLaws
  import R = Recovery
  import I = Invariant
  import IngressSafety

  /** The write of a rule list for hosts of these names: one configuration changes, and only in its rules, which
      end in the catch-all, carry the other hostnames over, and follow the reference update of each hostname. */
  ghost predicate Rewritten(a: State, b: State, tunnelID: string, names: set<string>, s: Settings,
                            update: (string, Option<Rule>) -> Option<Rule>)
  {
    tunnelID in a.remote && tunnelID in b.remote &&
    b == a.(remote := a.remote[tunnelID := a.remote[tunnelID].(ingress := b.remote[tunnelID].ingress)]) &&
    RuleLaws.Rewrites(b.remote[tunnelID].ingress, a.remote[tunnelID].ingress, names, s) &&
    forall h :: RuleLaws.LastRule(b.remote[tunnelID].ingress, h) ==
                update(h, RuleLaws.LastRule(a.remote[tunnelID].ingress, h))
  }

  class IngressReconciler {
    const env: Env
    const manager: Client
    var locked: bool

    ghost predicate Valid()
      reads this
    {
      manager.env == env && !locked
    }

    constructor (env: Env)
      ensures Valid() && this.env == env
    {
      this.env := env;
      manager := new Client(env);
      locked := false;
    }

    method Lock()
      requires !locked
      modifies `locked
      ensures locked
    {
      locked := true;
    }

    method Unlock()
      requires locked
      modifies `locked
      ensures !locked
    {
      locked := false;
    }

    /** The fold of the remote list into a map: a later rule replaces an earlier one of the same hostname. */
    method CollectRules(list: seq<Rule>, s: Settings) returns (rules: map<string, Rule>)
      ensures rules == Rules.ByHostname(list, s)
    {
      rules := map[];
      for i := 0 to |list|
        invariant rules == Rules.ByHostname(list[..i], s)
      {
        assert list[..i + 1][..i] == list[..i];
        rules := rules[list[i].hostname := Rule(list[i].hostname, list[i].path, list[i].service,
                                                Some(ToOriginRequest(s, list[i].hostname)))];
      }
      assert list[..|list|] == list;
    }

    /** The entries of these hosts are set, a later host replacing an earlier one of the same name. */
    method OverlayHosts(collected: map<string, Rule>, hosts: seq<Host>, ip: string, s: Settings)
      returns (rules: map<string, Rule>)
      ensures rules == Rules.Overlay(collected, hosts, ip, s)
    {
      rules := collected;
      for i := 0 to |hosts|
        invariant rules == Rules.Overlay(collected, hosts[..i], ip, s)
      {
        assert hosts[..i + 1][..i] == hosts[..i];
        rules := rules[hosts[i].name := Rule(hosts[i].name, "", Rules.Endpoint(ip, hosts[i].tls),
                                             Some(ToOriginRequest(s, hosts[i].name)))];
      }
      assert hosts[..|hosts|] == hosts;
    }

    /** The entries of these hosts are deleted, whoever they belong to. */
    method DeleteHosts(collected: map<string, Rule>, hosts: seq<Host>) returns (rules: map<string, Rule>)
      ensures rules == collected - HostNames(hosts)
    {
      rules := collected;
      for i := 0 to |hosts|
        invariant rules == collected - HostNames(hosts[..i])
      {
        assert HostNames(hosts[..i + 1]) == HostNames(hosts[..i]) + {hosts[i].name} by {
          assert hosts[..i + 1][i] == hosts[i];
          assert forall j :: 0 <= j < i ==> hosts[..i + 1][j] == hosts[..i][j];
        }
        rules := rules - {hosts[i].name};
      }
      assert hosts[..|hosts|] == hosts;
    }

    method AppendCloudflareTunnelConfig(tunnelID: string, hosts: seq<Host>, ip: string, s: Settings) returns (ok: bool)
      requires Valid()
      modifies this, env
      ensures Valid()
      ensures (env.w, ok) == P.AppendConfig(old(env.w), tunnelID, hosts, ip, s)
      ensures ok ==> Rewritten(old(env.w).state, env.w.state, tunnelID, HostNames(hosts), s,
                               (h, prior) => RuleLaws.Published(h, prior, hosts, ip, s))
    {
      if tunnelID in env.w.state.remote {
        RuleLaws.AppendRefines(env.w.state.remote[tunnelID].ingress, hosts, ip, s);
      }
      Lock();
      var got := env.Call(w => GetConfig(w, tunnelID));
      if !got.Found? {
        Unlock();
        return false;
      }
      var config := got.value;
      var rules := CollectRules(config.ingress, s);
      rules := OverlayHosts(rules, hosts, ip, s);
      rules := rules["" := Rule("", "", s.catchAllRule, None)];
      var list := Rules.SortedFunc(rules);
      config := config.(ingress := list);
      ok := env.Call(w => PutConfig(w, tunnelID, config));
      Unlock();
    }

    method RemoveCloudflareTunnelConfig(tunnelID: string, hosts: seq<Host>, s: Settings) returns (ok: bool)
      requires Valid()
      modifies this, env
      ensures Valid()
      ensures (env.w, ok) == P.RemoveConfig(old(env.w), tunnelID, hosts, s)
      ensures ok ==> Rewritten(old(env.w).state, env.w.state, tunnelID, HostNames(hosts), s,
                               (h, prior) => RuleLaws.Withdrawn(h, prior, hosts, s))
    {
      if tunnelID in env.w.state.remote {
        RuleLaws.RemoveRefines(env.w.state.remote[tunnelID].ingress, hosts, s);
      }
      Lock();
      var got := env.Call(w => GetConfig(w, tunnelID));
      if !got.Found? {
        Unlock();
        return false;
      }
      var config := got.value;
      var rules := CollectRules(config.ingress, s);
      rules := DeleteHosts(rules, hosts);
      rules := rules["" := Rule("", "", s.catchAllRule, None)];
      var list := Rules.SortedFunc(rules);
      config := config.(ingress := list);
      ok := env.Call(w => PutConfig(w, tunnelID, config));
      Unlock();
    }

    method AppendDNSRecord(tunnelID: string, host: Host) returns (ok: bool)
      requires Valid()
      modifies this, env
      ensures Valid()
      ensures (env.w, ok) == P.AppendDNS(old(env.w), tunnelID, host.name)
      ensures Z.ValidZone(old(env.w).state.zone) ==>
        Z.NameMoved(old(env.w).state.zone, env.w.state.zone, host.name,
                    Z.PublishedRecord(tunnelID, host.name, Z.RecordAt(old(env.w).state.zone, host.name)), ok,
                    {host.name}) &&
        (ok ==> Z.Routed(env.w.state.zone, host.name, tunnelID)) &&
        (Z.Routed(old(env.w).state.zone, host.name, tunnelID) ==> env.w.state == old(env.w).state)
    {
      if Z.ValidZone(env.w.state.zone) {
        Z.AppendDNSEffect(env.w, tunnelID, host.name, {host.name});
      }
      Lock();
      var record := manager.GetDNS(host.name);
      if !record.Found? {
        ok := false;
      } else if record.value.id == "" {
        ok := manager.AddDNS(tunnelID, host.name);
      } else if !Healthy(record.value, tunnelID) {
        ok := manager.UpdateDNS(tunnelID, host.name, record.value);
      } else {
        ok := true;
      }
      Unlock();
    }

    method RemoveDNSRecord(host: Host) returns (ok: bool)
      requires Valid()
      modifies this, env
      ensures Valid()
      ensures (env.w, ok) == P.RemoveDNS(old(env.w), host.name)
      ensures Z.ValidZone(old(env.w).state.zone) ==>
        Z.NameMoved(old(env.w).state.zone, env.w.state.zone, host.name, None, ok, {host.name})
    {
      if Z.ValidZone(env.w.state.zone) {
        Z.RemoveDNSEffect(env.w, host.name, {host.name});
      }
      Lock();
      var record := manager.GetDNS(host.name);
      if !record.Found? {
        ok := false;
      } else if record.value.id == "" {
        ok := true;
      } else {
        ok := manager.DeleteDNS(record.value.id);
      }
      Unlock();
    }

    /** Finds a tunnel the name can mean: the named one, or for a name with an empty part any labelled default.
        Only the default can be missing without an error. */
    method GetCloudflareTunnel(name: Key) returns (found: P.Resolution)
      modifies env
      ensures (env.w, found) == P.Resolve(old(env.w), name)
      ensures env.w.state == old(env.w).state
      ensures found.NoDefault? ==> WantsDefault(name) && Defaults(env.w.state.tunnels) == {}
      ensures found.Resolved? ==>
        exists k :: k in R.Candidates(env.w.state.tunnels, name) && k in env.w.state.tunnels &&
                    found.tunnel == env.w.state.tunnels[k]
    {
      R.ResolveEffect(env.w, name);
      if WantsDefault(name) {
        var first := env.Call(w => ListDefault(w));
        found := match first case Found(o) => P.Resolved(o) case NotFound => P.NoDefault case Failed => P.Unresolved;
      } else {
        var got := env.Call(w => GetTunnel(w, name));
        found := if got.Found? then P.Resolved(got.value) else P.Unresolved;
      }
    }

    /** The rule list first, then the DNS record of each host; any failure ends the pass. */
    method WithdrawHosts(tunnelID: string, hosts: seq<Host>, s: Settings) returns (ok: bool)
      requires Valid()
      modifies this, env
      ensures Valid()
      ensures (env.w, ok) == P.Withdraw(old(env.w), tunnelID, hosts, s)
    {
      ok := RemoveCloudflareTunnelConfig(tunnelID, hosts, s);
      if !ok {
        return;
      }
      ghost var written := env.w;
      for i := 0 to |hosts|
        invariant Valid()
        invariant P.RemoveEachDNS(env.w, hosts[i..]) == P.RemoveEachDNS(written, hosts)
      {
        assert hosts[i..][1..] == hosts[i + 1..];
        ok := RemoveDNSRecord(hosts[i]);
        if !ok {
          return;
        }
      }
      ok := true;
    }

    method PublishHosts(tunnelID: string, hosts: seq<Host>, ip: string, s: Settings) returns (ok: bool)
      requires Valid()
      modifies this, env
      ensures Valid()
      ensures (env.w, ok) == P.Publish(old(env.w), tunnelID, hosts, ip, s)
    {
      ok := AppendCloudflareTunnelConfig(tunnelID, hosts, ip, s);
      if !ok {
        return;
      }
      ghost var written := env.w;
      for i := 0 to |hosts|
        invariant Valid()
        invariant P.AppendEachDNS(env.w, tunnelID, hosts[i..]) == P.AppendEachDNS(written, tunnelID, hosts)
      {
        assert hosts[i..][1..] == hosts[i + 1..];
        ok := AppendDNSRecord(tunnelID, hosts[i]);
        if !ok {
          return;
        }
      }
      ok := true;
    }

    /** A success means that the stored Ingress may be let go: no default tunnel exists, or a tunnel it can mean
        is being deleted or has been cleared of it. */
    method FinalizeIngress(ing: Ingress) returns (ok: bool)
      requires Valid()
      modifies this, env
      ensures Valid()
      ensures (env.w, ok) == P.Finalize(old(env.w), ing)
      ensures var w := old(env.w);
        I.Safe(w) && w.actor.IngressActor? && I.HoldsIngress(w.state, w.actor.key) ==>
          I.Keeps(w, env.w) && IngressSafety.SameObjects(w.state, env.w.state) && (ok ==> I.Released(env.w.state, ing))
    {
      if I.Safe(env.w) && env.w.actor.IngressActor? && I.HoldsIngress(env.w.state, env.w.actor.key) {
        IngressSafety.FinalizeSafe(env.w, ing);
      }
      var name := TunnelName(ing.annotations);
      if name.None? {
        return false;
      }
      var found := GetCloudflareTunnel(name.value);
      if found.NoDefault? {
        return true;
      }
      if found.Unresolved? {
        return false;
      }
      if found.tunnel.deleting {
        return true;
      }
      var tunnelID := found.tunnel.status.tunnelID;
      if tunnelID == "" {
        return false;
      }
      var hosts := GetHosts(ing);
      ok := WithdrawHosts(tunnelID, hosts, found.tunnel.settings);
    }

    /** The part of Reconcile that follows the finalizer. */
    method Sync(ing: Ingress) returns (ok: bool)
      requires Valid()
      modifies this, env
      ensures Valid()
      ensures (env.w, ok) == P.Sync(old(env.w), ing)
    {
      var name := TunnelName(ing.annotations);
      if name.None? {
        return false;
      }
      var found := GetCloudflareTunnel(name.value);
      if !found.Resolved? {
        return found.NoDefault?;
      }
      if found.tunnel.deleting {
        return false;
      }
      var tunnelID := found.tunnel.status.tunnelID;
      if tunnelID == "" || |ing.addresses| == 0 || ing.addresses[0].Unparsable? {
        return false;
      }
      var hosts := GetHosts(ing);
      if Ignored(ing.annotations) {
        ok := WithdrawHosts(tunnelID, hosts, found.tunnel.settings);
      } else {
        ok := PublishHosts(tunnelID, hosts, ing.addresses[0].ip, found.tunnel.settings);
      }
    }

    method Reconcile(key: Key) returns (ok: bool)
      requires Valid()
      modifies this, env
      ensures Valid()
      ensures (env.w, ok) == P.ReconcileIngress(old(env.w), key)
      ensures I.Safe(old(env.w)) && old(env.w).actor == IngressActor(key) ==> I.Keeps(old(env.w), env.w)
    {
      if I.Safe(env.w) && env.w.actor == IngressActor(key) {
        IngressSafety.ReconcileIngressSafe(env.w, key);
      }
      var got := env.Call(w => GetIngress(w, key));
      if !got.Found? {
        return got.NotFound?;
      }
      var ing := got.value;

      if ing.deleting {
        if FINALIZER in ing.finalizers {
          ok := FinalizeIngress(ing);
          if !ok {
            return;
          }
          ing := ing.(finalizers := ing.finalizers - {FINALIZER});
          ok := env.Call(w => PutIngress(w, key, ing));
          return;
        }
        return true;
      }

      if FINALIZER !in ing.finalizers {
        ing := ing.(finalizers := ing.finalizers + {FINALIZER});
        ok := env.Call(w => PutIngress(w, key, ing));
        if !ok {
          return;
        }
      }

      ok := Sync(ing);
    }
  }
}
