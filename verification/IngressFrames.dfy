/** What an Ingress reconcile can touch, however its calls are answered. */
module IngressFrames {
  import opened Domain
  import opened World
  import opened IngressFields
  import opened Protocol
  import opened ZoneLaws
  import opened Recovery
  import opened Outcome

  // ----- Its calls are its own -----

  lemma OneExtends(w: World, t: string, withdraw: bool, name: string)
    ensures Extends(w, OneDNS(w, t, withdraw, name).0)
  {
  }

  lemma {:induction false} EachExtends(w: World, t: string, withdraw: bool, hosts: seq<Host>)
    ensures Extends(w, EachDNS(w, t, withdraw, hosts).0)
    decreases |hosts|
  {
    if hosts != [] {
      OneExtends(w, t, withdraw, hosts[0].name);
      var (m, ok) := OneDNS(w, t, withdraw, hosts[0].name);
      if ok {
        EachExtends(m, t, withdraw, hosts[1..]);
        ExtendsOn(w, m, EachDNS(m, t, withdraw, hosts[1..]).0);
      }
    }
  }

  lemma PassExtends(w: World, p: Plan)
    ensures Extends(w, RunPass(w, p).0)
  {
    var (m, ok) := ConfigStep(w, p);
    assert Extends(w, m);
    if ok {
      EachExtends(m, p.tunnelID, p.withdraw, p.hosts);
      ExtendsOn(w, m, EachDNS(m, p.tunnelID, p.withdraw, p.hosts).0);
    }
  }

  lemma SyncExtends(w: World, ing: Ingress)
    ensures Extends(w, Sync(w, ing).0)
  {
    if TunnelName(ing.annotations).Some? {
      var (m, found) := Resolve(w, TunnelName(ing.annotations).value);
      if found.Resolved? && !found.tunnel.deleting && ing.addresses != [] && ing.addresses[0].Parsed? {
        var o := found.tunnel;
        var p := Plan(Key("", ""), o.status.tunnelID, Hosts(ing), ing.addresses[0].ip, o.settings,
                      Ignored(ing.annotations));
        PassExtends(m, p);
        ExtendsOn(w, m, RunPass(m, p).0);
      }
    }
  }

  lemma FinalizeExtends(w: World, ing: Ingress)
    ensures Extends(w, Finalize(w, ing).0)
  {
    if TunnelName(ing.annotations).Some? {
      var (m, found) := Resolve(w, TunnelName(ing.annotations).value);
      if found.Resolved? && !found.tunnel.deleting {
        var p := Plan(Key("", ""), found.tunnel.status.tunnelID, Hosts(ing), "", found.tunnel.settings, true);
        PassExtends(m, p);
        ExtendsOn(w, m, RunPass(m, p).0);
      }
    }
  }

  lemma IngressExtends(w: World, key: Key)
    ensures Extends(w, ReconcileIngress(w, key).0)
  {
    var (m, got) := GetIngress(w, key);
    if got.Found? {
      var ing := got.value;
      if ing.deleting {
        FinalizeExtends(m, ing);
        var n := Finalize(m, ing).0;
        ExtendsOn(w, m, n);
        ExtendsOn(w, n, PutIngress(n, key, ing.(finalizers := ing.finalizers - {FINALIZER})).0);
      } else {
        var n := PutIngress(m, key, WithFinalizer(ing)).0;
        ExtendsOn(w, m, n);
        SyncExtends(m, ing);
        SyncExtends(n, WithFinalizer(ing));
        ExtendsOn(w, m, Sync(m, ing).0);
        ExtendsOn(w, n, Sync(n, WithFinalizer(ing)).0);
      }
    }
  }

  // ----- What it can change -----

  /** The rule lists, and after them the zone, may have moved on the way of this plan, which concerns the hosts of the
      Ingress. */
  ghost predicate Worked(a: State, b: State, key: Key, p: Plan) {
    key in a.ingresses && p.hosts == Hosts(a.ingresses[key]) && p.tunnelID in a.remote &&
    (b.remote == a.remote || b.remote == a.remote[p.tunnelID := GoalConfig(p, a.remote[p.tunnelID])]) &&
    RulesFirst(p, a, b) && Moved(a.zone, b.zone, p.tunnelID, p.withdraw, HostNames(p.hosts))
  }

  ghost predicate OnlyWorked(a: State, b: State, key: Key) {
    ObjectsFramed(a, b, key) && ((b.remote == a.remote && b.zone == a.zone) || exists p :: Worked(a, b, key, p))
  }

  lemma FinalizeFrame(w: World, m: World, key: Key)
    requires key in w.state.ingresses && w.state.ingresses[key].deleting &&
      FINALIZER in w.state.ingresses[key].finalizers
    requires ValidZone(w.state.zone) && GetIngress(w, key) == (m, Found(w.state.ingresses[key]))
    ensures OnlyWorked(w.state, ReconcileIngress(w, key).0.state, key)
  {
    var ing := w.state.ingresses[key];
    var (n, done) := Finalize(m, ing);
    FinalizeEffect(m, key);
    if k :| Leaves(m.state, key, k) && PassDone(LeavingPlan(m.state, key, k), m, n, done) {
      assert Worked(w.state, n.state, key, LeavingPlan(m.state, key, k));
    }
    assert OnlyWorked(w.state, n.state, key) && n.state.ingresses == w.state.ingresses;
    if done {
      LetGoWorked(w.state, n, key);
    } else {
      assert ReconcileIngress(w, key).0 == n;
    }
  }

  lemma LetGoWorked(a: State, n: World, key: Key)
    requires OnlyWorked(a, n.state, key) && key in a.ingresses && n.state.ingresses == a.ingresses
    ensures var bare := a.ingresses[key].(finalizers := a.ingresses[key].finalizers - {FINALIZER});
      OnlyWorked(a, PutIngress(n, key, bare).0.state, key)
  {
    var bare := a.ingresses[key].(finalizers := a.ingresses[key].finalizers - {FINALIZER});
    var b := PutIngress(n, key, bare).0.state;
    assert b == n.state.(ingresses := b.ingresses) && b.ingresses - {key} == a.ingresses - {key};
    if p :| Worked(a, n.state, key, p) {
      assert Worked(a, b, key, p);
    }
  }

  lemma AttemptedWorked(p: Plan, k: Key, w: World, w1: World, ok: bool)
    requires Eligible(w.state, p, k) && Attempted(p, w, w1, ok)
    ensures ObjectsFramed(w.state, w1.state, p.key) && Worked(w.state, w1.state, p.key, p)
  {
  }

  lemma LiveFrame(w: World, key: Key)
    requires key in w.state.ingresses && !w.state.ingresses[key].deleting && ValidZone(w.state.zone)
    ensures OnlyWorked(w.state, ReconcileIngress(w, key).0.state, key)
  {
    var (w1, ok) := ReconcileIngress(w, key);
    ReconcileEffect(w, key);
    if p, k :| Eligible(w.state, p, k) && p.key == key && Attempted(p, w, w1, ok) {
      AttemptedWorked(p, k, w, w1, ok);
    } else {
      assert Held(w.state, key).ingresses - {key} == w.state.ingresses - {key};
    }
  }

  lemma IngressFrame(w: World, key: Key)
    requires ValidZone(w.state.zone)
    ensures OnlyWorked(w.state, ReconcileIngress(w, key).0.state, key)
  {
    var (m, got) := GetIngress(w, key);
    if got.Found? {
      if !got.value.deleting {
        LiveFrame(w, key);
      } else if FINALIZER in got.value.finalizers {
        FinalizeFrame(w, m, key);
      }
    }
  }
}
