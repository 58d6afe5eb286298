/** What a successful Ingress reconcile leaves behind, host by host. */
module Outcome {
  import opened Domain
  import opened World
  import opened IngressFields
  import opened Protocol
  import opened ZoneLaws
  import opened Recovery
  import opened RuleLaws
  import opened HostLaws
  import Rules

  /** Exactly one rule of the list has this hostname, and it is this one. */
  ghost predicate OnlyRule(list: seq<Rule>, h: string, r: Rule) {
    r in list && r.hostname == h &&
    (forall i :: 0 <= i < |list| && list[i].hostname == h ==> list[i] == r) &&
    (forall i, j :: 0 <= i < |list| && 0 <= j < |list| && list[i].hostname == h == list[j].hostname ==> i == j)
  }

  ghost predicate NoRule(list: seq<Rule>, h: string) {
    forall i :: 0 <= i < |list| ==> list[i].hostname != h
  }

  lemma SortedLookup(list: seq<Rule>, h: string)
    requires Rules.StrictlySorted(list)
    ensures LastRule(list, h).Some? ==> OnlyRule(list, h, LastRule(list, h).value)
    ensures LastRule(list, h).None? ==> NoRule(list, h)
  {
    LastRuleFound(list, h);
    forall i | 0 <= i < |list| && list[i].hostname == h
      ensures LastRule(list, h) == Some(list[i])
      ensures forall j :: 0 <= j < |list| && list[j].hostname == h ==> i == j
    {
      LookupMember(list, list[i]);
      forall j | 0 <= j < |list| && list[j].hostname == h ensures i == j {
        assert i < j ==> Rules.RuleOrder(list[i], list[j]) < 0;
        assert j < i ==> Rules.RuleOrder(list[j], list[i]) < 0;
        Rules.RuleOrderTotal(list[i], list[j]);
        Rules.RuleOrderTotal(list[j], list[i]);
      }
    }
  }

  /** The rule list has been rewritten for hosts of these names: it ends in the catch-all and carries the rules of
      other hostnames over. Other tunnels keep their configuration, and this one every field but the list. */
  ghost predicate RulesFramed(a: State, b: State, tunnelID: string, names: set<string>, s: Settings)
    requires tunnelID in a.remote && tunnelID in b.remote
  {
    b.remote.Keys == a.remote.Keys &&
    (forall t :: t in a.remote && t != tunnelID ==> b.remote[t] == a.remote[t]) &&
    b.remote[tunnelID].rest == a.remote[tunnelID].rest &&
    Rewrites(b.remote[tunnelID].ingress, a.remote[tunnelID].ingress, names, s)
  }

  /** Every record that is not a CNAME of one of these names is as it was. */
  ghost predicate RecordsFramed(a: State, b: State, names: set<string>) {
    Others(b.zone, names) == Others(a.zone, names) && ValidZone(b.zone)
  }

  /** Nothing but this Ingress, the tunnel configurations and the zone may differ. */
  ghost predicate ObjectsFramed(a: State, b: State, key: Key) {
    b == a.(ingresses := b.ingresses, remote := b.remote, zone := b.zone) && b.ingresses - {key} == a.ingresses - {key}
  }

  /** The Ingress has been published through tunnel object k: every host has exactly one rule, which points at
      its endpoint, and a proxied CNAME that points at the tunnel, which is the record it had if that was one. */
  ghost predicate PublishedThrough(a: State, b: State, key: Key, k: Key)
    requires key in a.ingresses && Serves(a, a.ingresses[key], k)
  {
    var ing, o := a.ingresses[key], a.tunnels[k];
    var t := o.status.tunnelID;
    ObjectsFramed(a, b, key) && b.ingresses == Held(a, key).ingresses && t in b.remote &&
    RulesFramed(a, b, t, HostNames(Hosts(ing)), o.settings) && RecordsFramed(a, b, HostNames(Hosts(ing))) &&
    forall h :: h in ing.rules && h != "" ==>
      OnlyRule(b.remote[t].ingress, h,
               Rule(h, "", Rules.Endpoint(ing.addresses[0].ip, NamedByTLS(ing, h)),
                    Some(ToOriginRequest(o.settings, h)))) &&
      Routed(b.zone, h, t) && (Routed(a.zone, h, t) ==> RecordAt(b.zone, h) == RecordAt(a.zone, h)) &&
      (!Routed(a.zone, h, t) ==> OwnRecord(RecordAt(b.zone, h).value, h, t))
  }

  lemma PublishedByGoal(a: State, b: State, p: Plan, k: Key)
    requires Eligible(a, p, k) && !p.withdraw && Complete(p, a, b)
    ensures PublishedThrough(a, b, p.key, k)
  {
    var ing := a.ingresses[p.key];
    var before, list := a.remote[p.tunnelID].ingress, b.remote[p.tunnelID].ingress;
    AppendRefines(before, p.hosts, p.ip, p.settings);
    forall h | h in ing.rules && h != ""
      ensures OnlyRule(list, h,
                       Rule(h, "", Rules.Endpoint(p.ip, NamedByTLS(ing, h)), Some(ToOriginRequest(p.settings, h))))
      ensures Routed(b.zone, h, p.tunnelID)
      ensures Routed(a.zone, h, p.tunnelID) ==> RecordAt(b.zone, h) == RecordAt(a.zone, h)
      ensures !Routed(a.zone, h, p.tunnelID) ==> OwnRecord(RecordAt(b.zone, h).value, h, p.tunnelID)
    {
      PublishedRecordRoutes(a.zone, b.zone, h, p.tunnelID);
      HostsLookup(ing, h);
      LastHostFound(p.hosts, h);
      SortedLookup(list, h);
    }
  }

  /** What a successful reconcile of a live Ingress that is not ignored leaves behind, whatever tunnels there
      are to choose from: it has been published through one of them, unless there is none to choose. */
  lemma PublishOutcome(w: World, key: Key)
    requires key in w.state.ingresses && !w.state.ingresses[key].deleting &&
      !Ignored(w.state.ingresses[key].annotations)
    requires ValidZone(w.state.zone) && ReconcileIngress(w, key).1
    ensures var s1, ing := ReconcileIngress(w, key).0.state, w.state.ingresses[key];
      if NoDefaultMeant(w.state, ing) then s1 == Held(w.state, key)
      else exists k :: Serves(w.state, ing, k) && PublishedThrough(w.state, s1, key, k)
  {
    var (w1, ok) := ReconcileIngress(w, key);
    ReconcileEffect(w, key);
    if p, k :| Eligible(w.state, p, k) && p.key == key && Attempted(p, w, w1, ok) {
      PublishedByGoal(w.state, w1.state, p, k);
    }
  }

  /** What withdrawing leaves: no rule and no CNAME for any of the hosts. */
  ghost predicate Gone(a: State, b: State, tunnelID: string, hosts: seq<Host>, s: Settings)
    requires tunnelID in a.remote && tunnelID in b.remote
  {
    RulesFramed(a, b, tunnelID, HostNames(hosts), s) && RecordsFramed(a, b, HostNames(hosts)) &&
    forall h :: h in HostNames(hosts) && h != "" ==> NoRule(b.remote[tunnelID].ingress, h) && RecordAt(b.zone, h).None?
  }

  lemma GoneByGoal(p: Plan, a: State, b: State)
    requires p.tunnelID in a.remote && p.withdraw && Passed(p, a, b.(ingresses := a.ingresses))
    ensures Gone(a, b, p.tunnelID, p.hosts, p.settings)
  {
    var before := a.remote[p.tunnelID].ingress;
    var list := b.remote[p.tunnelID].ingress;
    RemoveRefines(before, p.hosts, p.settings);
    forall h | h in HostNames(p.hosts) && h != "" ensures NoRule(list, h) {
      SortedLookup(list, h);
    }
  }

  /** The Ingress has been withdrawn from tunnel object k. */
  ghost predicate WithdrawnFrom(a: State, b: State, key: Key, k: Key)
    requires key in a.ingresses && k in a.tunnels && a.tunnels[k].status.tunnelID in a.remote
  {
    var ing, o := a.ingresses[key], a.tunnels[k];
    ObjectsFramed(a, b, key) && o.status.tunnelID in b.remote && Gone(a, b, o.status.tunnelID, Hosts(ing), o.settings)
  }

  lemma WithdrawnByGoal(a: State, b: State, p: Plan, k: Key)
    requires Eligible(a, p, k) && p.withdraw && Complete(p, a, b)
    ensures WithdrawnFrom(a, b, p.key, k)
  {
    GoneByGoal(p, a, b);
  }

  /** What a successful reconcile of an ignored Ingress leaves behind. */
  lemma IgnoreOutcome(w: World, key: Key)
    requires key in w.state.ingresses && !w.state.ingresses[key].deleting && Ignored(w.state.ingresses[key].annotations)
    requires ValidZone(w.state.zone) && ReconcileIngress(w, key).1
    ensures var s1, ing := ReconcileIngress(w, key).0.state, w.state.ingresses[key];
      s1.ingresses == Held(w.state, key).ingresses &&
      if NoDefaultMeant(w.state, ing) then s1 == Held(w.state, key)
      else exists k :: Serves(w.state, ing, k) && WithdrawnFrom(w.state, s1, key, k)
  {
    var (w1, ok) := ReconcileIngress(w, key);
    ReconcileEffect(w, key);
    if p, k :| Eligible(w.state, p, k) && p.key == key && Attempted(p, w, w1, ok) {
      WithdrawnByGoal(w.state, w1.state, p, k);
    }
  }

  // ----- Finalization -----

  /** The plan that a finalization through tunnel object k carries out. */
  function LeavingPlan(s: State, key: Key, k: Key): Plan
    requires key in s.ingresses && k in s.tunnels
  {
    Plan(key, s.tunnels[k].status.tunnelID, Hosts(s.ingresses[key]), "", s.tunnels[k].settings, true)
  }

  /** A tunnel object that the Ingress can mean and that does not stand in the way of letting it go: it is
      being deleted itself, or its tunnel exists. */
  predicate LetsGo(s: State, ing: Ingress, k: Key) {
    Means(s, ing, k) && (s.tunnels[k].deleting ||
                         (s.tunnels[k].status.tunnelID != "" && s.tunnels[k].status.tunnelID in s.remote))
  }

  /** A finalization that passes over the hosts of a live tunnel. */
  ghost predicate Leaves(s: State, key: Key, k: Key) {
    key in s.ingresses && LetsGo(s, s.ingresses[key], k) && !s.tunnels[k].deleting
  }

  /** The finalization of an Ingress changes nothing, or makes a withdrawing pass on one of the tunnels it can
      mean. It succeeds without a pass when no default tunnel exists or a tunnel it can mean is being deleted. */
  lemma FinalizeEffect(w: World, key: Key)
    requires key in w.state.ingresses && ValidZone(w.state.zone)
    ensures var (w1, ok) := Finalize(w, w.state.ingresses[key]);
      var ing := w.state.ingresses[key];
      (w1.state == w.state && Quiet(w, w1) &&
       (ok ==> NoDefaultMeant(w.state, ing) || exists k :: Means(w.state, ing, k) && w.state.tunnels[k].deleting)) ||
      exists k :: Leaves(w.state, key, k) && PassDone(LeavingPlan(w.state, key, k), w, w1, ok)
  {
    var ing := w.state.ingresses[key];
    if TunnelName(ing.annotations).Some? {
      var name := TunnelName(ing.annotations).value;
      ResolveEffect(w, name);
      var (m, found) := Resolve(w, name);
      if found.Resolved? {
        var k :| k in Candidates(w.state.tunnels, name) && k in w.state.tunnels && found.tunnel == w.state.tunnels[k];
        FinalizePass(w, m, key, k);
      } else {
        assert Finalize(w, ing) == (m, found.NoDefault?);
      }
    }
  }

  lemma FinalizePass(w: World, m: World, key: Key, k: Key)
    requires key in w.state.ingresses && ValidZone(w.state.zone)
    requires Means(w.state, w.state.ingresses[key], k) && m.state == w.state && Quiet(w, m)
    requires Resolve(w, TunnelName(w.state.ingresses[key].annotations).value) == (m, Resolved(w.state.tunnels[k]))
    ensures var (w1, ok) := Finalize(w, w.state.ingresses[key]);
      (w1.state == w.state && Quiet(w, w1) && (ok ==> w.state.tunnels[k].deleting)) ||
      (Leaves(w.state, key, k) && PassDone(LeavingPlan(w.state, key, k), w, w1, ok))
  {
    var ing, o := w.state.ingresses[key], w.state.tunnels[k];
    if o.deleting || o.status.tunnelID == "" {
      assert Finalize(w, ing) == (m, o.deleting);
    } else {
      var p := LeavingPlan(w.state, key, k);
      var (w1, ok) := RunPass(m, p);
      PassEffect(m, p);
      assert Finalize(w, ing) == (w1, ok);
      if p.tunnelID in w.state.remote {
        PassAfter(p, w, m, w1, ok);
      } else {
        QuietOn(w, m, w1);
      }
    }
  }

  /** The stored Ingress objects once one has lost its finalizer, which may have been all that kept it. */
  function LetGo(s: State, key: Key): map<Key, Ingress>
    requires key in s.ingresses
  {
    var bare := s.ingresses[key].(finalizers := s.ingresses[key].finalizers - {FINALIZER});
    if bare.deleting && bare.finalizers == {} then s.ingresses - {key} else s.ingresses[key := bare]
  }

  /** A successful reconcile of an Ingress that is being deleted drops the finalizer. It has withdrawn the
      Ingress from a live tunnel that it can mean, or has changed nothing else because no default tunnel exists
      or a tunnel that it can mean is being deleted. */
  lemma FinalizeOutcome(w: World, key: Key)
    requires key in w.state.ingresses && w.state.ingresses[key].deleting &&
      FINALIZER in w.state.ingresses[key].finalizers
    requires ValidZone(w.state.zone) && ReconcileIngress(w, key).1
    ensures var s1, ing := ReconcileIngress(w, key).0.state, w.state.ingresses[key];
      s1.ingresses == LetGo(w.state, key) &&
      ((s1 == w.state.(ingresses := s1.ingresses) &&
        (NoDefaultMeant(w.state, ing) || exists k :: Means(w.state, ing, k) && w.state.tunnels[k].deleting)) ||
       exists k :: Leaves(w.state, key, k) && WithdrawnFrom(w.state, s1, key, k))
  {
    var w1 := GetIngress(w, key).0;
    var (m, ok) := Finalize(w1, w.state.ingresses[key]);
    FinalizeEffect(w1, key);
    var s1 := ReconcileIngress(w, key).0.state;
    assert m.state.ingresses == w.state.ingresses && s1 == m.state.(ingresses := LetGo(w.state, key));
    if k :| Leaves(w.state, key, k) && PassDone(LeavingPlan(w.state, key, k), w1, m, ok) {
      WithdrawnByPass(w.state, m.state, s1, key, k);
    }
  }

  lemma WithdrawnByPass(a: State, m: State, b: State, key: Key, k: Key)
    requires Leaves(a, key, k) && Passed(LeavingPlan(a, key, k), a, m) && b == m.(ingresses := LetGo(a, key))
    ensures WithdrawnFrom(a, b, key, k)
  {
    GoneByGoal(LeavingPlan(a, key, k), a, b);
  }
}
