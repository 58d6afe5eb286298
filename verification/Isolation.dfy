/** Ingresses with disjoint hosts do not disturb one another, over whole runs. */
module Isolation {
  import opened Domain
  import opened World
  import opened IngressFields
  import opened Protocol
  import opened ZoneLaws
  import opened RuleLaws
  import opened Recovery
  import opened Outcome
  import opened HostLaws
  import opened Invariant
  import opened IngressFrames
  import opened Accounting
  import opened Runs
  import IngressSafety
  import Rules

  /** Host h is served through tunnel t: the tunnel exists and has exactly one rule for the host, with this path
      and service, and the host has a proxied CNAME that points at the tunnel. */
  ghost predicate ServedAt(s: State, t: string, h: string, path: string, service: string) {
    t in s.remote && Routed(s.zone, h, t) &&
    exists r :: OnlyRule(s.remote[t].ingress, h, r) && r.path == path && r.service == service
  }

  lemma OnlyIsLast(list: seq<Rule>, h: string, r: Rule)
    requires OnlyRule(list, h, r)
    ensures LastRule(list, h) == Some(r)
  {
    LastRuleFound(list, h);
  }

  // ----- One step -----

  lemma WorkKeepsRule(p: Plan, c: Config, h: string, r: Rule)
    requires h != "" && h !in HostNames(p.hosts) && OnlyRule(c.ingress, h, r)
    ensures OnlyRule(GoalConfig(p, c).ingress, h, Rules.Rederive(r, p.settings))
  {
    OnlyIsLast(c.ingress, h, r);
    AppendRefines(c.ingress, p.hosts, p.ip, p.settings);
    RemoveRefines(c.ingress, p.hosts, p.settings);
    LastHostFound(p.hosts, h);
    SortedLookup(GoalConfig(p, c).ingress, h);
  }

  /** Another Ingress may be reconciled in any way. */
  lemma IngressIsolated(w: World, key: Key, t: string, h: string, path: string, service: string)
    requires ValidZone(w.state.zone) && h != "" && ServedAt(w.state, t, h, path, service)
    requires key in w.state.ingresses ==> h !in w.state.ingresses[key].rules
    ensures var s1 := ReconcileIngress(w, key).0.state;
      ServedAt(s1, t, h, path, service) && RecordAt(s1.zone, h) == RecordAt(w.state.zone, h)
  {
    var s1 := ReconcileIngress(w, key).0.state;
    IngressFrame(w, key);
    var r :| OnlyRule(w.state.remote[t].ingress, h, r) && r.path == path && r.service == service;
    if p :| Worked(w.state, s1, key, p) {
      assert h !in HostNames(p.hosts);
      if p.tunnelID == t && s1.remote != w.state.remote {
        WorkKeepsRule(p, w.state.remote[t], h, r);
      }
    }
  }

  lemma {:induction false} DeleteEachKeeps(w: World, ids: seq<string>)
    ensures var s1 := DeleteEach(w, ids).0.state;
      s1 == w.state.(zone := s1.zone) &&
      (forall id :: id in s1.zone ==> id in w.state.zone && s1.zone[id] == w.state.zone[id]) &&
      forall id :: id in w.state.zone && id !in ids ==> id in s1.zone
    decreases |ids|
  {
    if ids != [] {
      var (m, ok) := DeleteDNS(w, ids[0]);
      if ok { DeleteEachKeeps(m, ids[1..]); }
    }
  }

  /** DeleteAllDNS, however far it gets, spares every record whose comment is not the tunnel's. */
  lemma DeleteAllKeeps(w: World, t: string)
    ensures var s1 := DeleteAllDNS(w, t).0.state;
      s1 == w.state.(zone := s1.zone) &&
      (forall id :: id in s1.zone ==> id in w.state.zone && s1.zone[id] == w.state.zone[id]) &&
      forall id :: id in w.state.zone && id !in CnamesCommented(w.state.zone, Comment(t)) ==> id in s1.zone
  {
    var matches := CnamesCommented(w.state.zone, Comment(t));
    var (m, got) := ListMatches(w, matches);
    if got.Found? {
      DeleteEachKeeps(m, got.value);
      forall id | id in got.value ensures id in matches {
        assert id in (set x | x in got.value);
      }
    }
  }

  /** Records that point at one tunnel do not carry the comment of another. */
  lemma RoutedIsSpared(w: World, other: string, t: string, h: string)
    requires Inv(w.state) && t in w.state.remote && other != t
    requires Routed(w.state.zone, h, t)
    ensures RecordAt(DeleteAllDNS(w, other).0.state.zone, h) == RecordAt(w.state.zone, h)
  {
    var z, z1 := w.state.zone, DeleteAllDNS(w, other).0.state.zone;
    DeleteAllKeeps(w, other);
    var id :| id in z && IsCname(z[id], h);
    RecordAtIs(z, id);
    CommentNamesOneTunnel(z[id].comment, other);
    if z[id].comment == Comment(other) { TargetInjective(t, other); }
    assert id in z1;
    RecordAtIs(z1, id);
  }

  lemma ServedOn(a: State, b: State, t: string, h: string, path: string, service: string)
    requires ServedAt(a, t, h, path, service)
    requires t in b.remote && b.remote[t] == a.remote[t] && RecordAt(b.zone, h) == RecordAt(a.zone, h)
    ensures ServedAt(b, t, h, path, service)
  {
  }

  lemma DismantleTouches(w: World, key: Key, o: TunnelObject)
    ensures var s1 := Dismantle(w, key, o).0.state;
      s1.zone == DeleteAllDNS(w, o.status.tunnelID).0.state.zone &&
      (s1.remote == w.state.remote || s1.remote == w.state.remote - {o.status.tunnelID})
  {
    var t := o.status.tunnelID;
    DeleteAllKeeps(w, t);
    var (w1, cleared) := DeleteAllDNS(w, t);
    var (w2, gone) := DeleteRemote(w1, t);
    if !cleared {
      assert Dismantle(w, key, o).0 == w1;
    } else if !gone {
      assert Dismantle(w, key, o).0 == w2;
    } else {
      assert Dismantle(w, key, o).0 == PutTunnel(w2, key, o.(finalizers := o.finalizers - {FINALIZER})).0;
    }
  }

  lemma DismantleIsolated(w: World, key: Key, o: TunnelObject, t: string, h: string, path: string, service: string)
    requires Inv(w.state) && ServedAt(w.state, t, h, path, service) && o.status.tunnelID != t
    ensures var s1 := Dismantle(w, key, o).0.state;
      ServedAt(s1, t, h, path, service) && RecordAt(s1.zone, h) == RecordAt(w.state.zone, h)
  {
    DismantleTouches(w, key, o);
    RoutedIsSpared(w, o.status.tunnelID, t, h);
    ServedOn(w.state, Dismantle(w, key, o).0.state, t, h, path, service);
  }

  /** A tunnel object may be reconciled in any way, unless it is the one that deletes the tunnel. */
  lemma TunnelIsolated(w: World, key: Key, t: string, h: string, path: string, service: string)
    requires Inv(w.state) && ServedAt(w.state, t, h, path, service)
    requires key in w.state.tunnels && w.state.tunnels[key].deleting ==> RecordedID(w.state, key) != t
    ensures var s1 := ReconcileTunnel(w, key).0.state;
      ServedAt(s1, t, h, path, service) && RecordAt(s1.zone, h) == RecordAt(w.state.zone, h)
  {
    if Live(w.state, key) {
      ReconcileAccount(w, key);
      ServedOn(w.state, ReconcileTunnel(w, key).0.state, t, h, path, service);
    } else {
      var (m, got) := GetTunnel(w, key);
      if got.Found? && FINALIZER in got.value.finalizers {
        DismantleIsolated(m, key, got.value, t, h, path, service);
      }
    }
  }

  // ----- Whole runs -----

  /** The step concerns neither the host nor the life of the tunnel: an Ingress that is reconciled does not have
      the host, and a tunnel object that is reconciled for its deletion has another tunnel. */
  ghost predicate Apart(s: State, step: Step, t: string, h: string) {
    match step
    case SyncIngress(key, _) => key in s.ingresses ==> h !in s.ingresses[key].rules
    case SyncTunnel(key, _) => key in s.tunnels && s.tunnels[key].deleting ==> RecordedID(s, key) != t
    case _ => true
  }

  ghost predicate AllApart(w: World, steps: seq<Step>, t: string, h: string)
    decreases |steps|
  {
    steps == [] ||
    (AllApart(w, steps[..|steps| - 1], t, h) && Apart(Run(w, steps[..|steps| - 1]).state, steps[|steps| - 1], t, h))
  }

  lemma TakeIsolated(w: World, step: Step, t: string, h: string, path: string, service: string)
    requires Safe(w) && h != "" && ServedAt(w.state, t, h, path, service) && Apart(w.state, step, t, h)
    ensures var s1 := Take(w, step).state;
      ServedAt(s1, t, h, path, service) && RecordAt(s1.zone, h) == RecordAt(w.state.zone, h)
  {
    match step
    case SyncIngress(key, script) =>
      IngressIsolated(w.(script := script, actor := IngressActor(key)), key, t, h, path, service);
    case SyncTunnel(key, script) =>
      TunnelIsolated(w.(script := script, actor := TunnelActor(key)), key, t, h, path, service);
    case ApplyIngress(_, _, _, _, _, _) =>
    case RemoveIngress(_) =>
    case ApplyTunnel(_, _, _, _, _) =>
    case RemoveTunnel(_) =>
    case ChangeCluster(_, _, _) =>
  }

  /** A host that is served stays served, by the same record, whatever happens to other ingresses and tunnels. */
  lemma {:induction false} StaysServed(w: World, steps: seq<Step>, t: string, h: string, path: string, service: string)
    requires Safe(w) && h != "" && ServedAt(w.state, t, h, path, service) && AllApart(w, steps, t, h)
    ensures var s1 := Run(w, steps).state;
      ServedAt(s1, t, h, path, service) && RecordAt(s1.zone, h) == RecordAt(w.state.zone, h)
    decreases |steps|
  {
    if steps != [] {
      var n := |steps| - 1;
      StaysServed(w, steps[..n], t, h, path, service);
      RunSafe(w, steps[..n]);
      TakeIsolated(Run(w, steps[..n]), steps[n], t, h, path, service);
    }
  }

  /** What an Ingress asks for one of its hosts. */
  function Wanted(ing: Ingress, h: string): string
    requires ing.addresses != [] && ing.addresses[0].Parsed?
  {
    Rules.Endpoint(ing.addresses[0].ip, h in TLSHosts(ing.tls))
  }

  lemma PublishedServes(a: State, b: State, key: Key, k: Key, h: string)
    requires key in a.ingresses && Serves(a, a.ingresses[key], k) && PublishedThrough(a, b, key, k)
    requires h in a.ingresses[key].rules && h != ""
    ensures ServedAt(b, a.tunnels[k].status.tunnelID, h, "", Wanted(a.ingresses[key], h))
  {
    TLSMembers(a.ingresses[key].tls, h);
  }

  /** After a successful publication its hosts stay served through the tunnel that was chosen: later steps of
      ingresses without such a host, crashed ones included, cannot take its rule or its record away while the
      tunnel is not deleted. */
  lemma PublicationSurvives(w: World, key: Key)
    requires Safe(w) && w.actor == IngressActor(key) && key in w.state.ingresses && !w.state.ingresses[key].deleting
    requires !Ignored(w.state.ingresses[key].annotations) && !NoDefaultMeant(w.state, w.state.ingresses[key])
    requires ReconcileIngress(w, key).1
    ensures var w1, ing := ReconcileIngress(w, key).0, w.state.ingresses[key];
      exists k :: Serves(w.state, ing, k) &&
        forall h, steps :: h in ing.rules && h != "" && AllApart(w1, steps, w.state.tunnels[k].status.tunnelID, h) ==>
          ServedAt(Run(w1, steps).state, w.state.tunnels[k].status.tunnelID, h, "", Wanted(ing, h)) &&
          RecordAt(Run(w1, steps).state.zone, h) == RecordAt(w1.state.zone, h)
  {
    PublishOutcome(w, key);
    IngressSafety.ReconcileIngressSafe(w, key);
    var w1, ing := ReconcileIngress(w, key).0, w.state.ingresses[key];
    var k :| Serves(w.state, ing, k) && PublishedThrough(w.state, w1.state, key, k);
    forall h, steps | h in ing.rules && h != "" && AllApart(w1, steps, w.state.tunnels[k].status.tunnelID, h)
      ensures ServedAt(Run(w1, steps).state, w.state.tunnels[k].status.tunnelID, h, "", Wanted(ing, h))
      ensures RecordAt(Run(w1, steps).state.zone, h) == RecordAt(w1.state.zone, h)
    {
      PublishedServes(w.state, w1.state, key, k, h);
      StaysServed(w1, steps, w.state.tunnels[k].status.tunnelID, h, "", Wanted(ing, h));
    }
  }
}
