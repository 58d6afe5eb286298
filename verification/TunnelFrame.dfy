/** What a CloudflareTunnel reconcile leaves as it was, however its calls are answered. */
module TunnelFrame {
  import opened Domain
  import opened World
  import opened Protocol
  import opened ZoneLaws
  import StatusLaws
  import opened Accounting

  function LabelValue(labels: Option<map<string, string>>, l: string): Option<string> {
    if labels.Some? && l in labels.value then Some(labels.value[l]) else None
  }

  /** Labels are as they were, but the webhook may have set the default label to what Spec.Default says. */
  ghost predicate LabelsKept(o: TunnelObject, o1: TunnelObject) {
    (forall l :: l != DEFAULT_LABEL ==> LabelValue(o1.labels, l) == LabelValue(o.labels, l)) &&
    (o1.labels == o.labels || LabelValue(o1.labels, DEFAULT_LABEL) == Some(if o.isDefault then "true" else "false"))
  }

  /** What users wrote on the object, apart from its finalizers. */
  ghost predicate SpecKept(o: TunnelObject, o1: TunnelObject) {
    o1.settings == o.settings && o1.isDefault == o.isDefault && o1.deleting == o.deleting && LabelsKept(o, o1)
  }

  /** Every other object is as it was, and so are the zone and all that belongs to other objects; children of
      this one do not go away, and its deployment keeps its replicas. */
  predicate OwnOnly(a: State, b: State, key: Key) {
    b.ingresses == a.ingresses && b.zone == a.zone && OthersKept(a, b, key) &&
    b.secrets - {key} == a.secrets - {key} && a.secrets.Keys <= b.secrets.Keys &&
    b.services - {key} == a.services - {key} && a.services <= b.services &&
    b.deployments - {key} == a.deployments - {key} &&
    (key in a.deployments ==> key in b.deployments && b.deployments[key] == a.deployments[key])
  }

  /** Of the object itself only the status may differ. */
  predicate StatusOnly(a: State, b: State, key: Key) {
    key in a.tunnels && key in b.tunnels && OwnOnly(a, b, key) &&
    b.tunnels[key] == a.tunnels[key].(status := b.tunnels[key].status)
  }

  lemma StatusOnlyOn(a: State, b: State, c: State, key: Key)
    requires StatusOnly(a, b, key) && StatusOnly(b, c, key)
    ensures StatusOnly(a, c, key)
  {
  }

  // ----- A live object -----

  lemma PutStatusFrame(w: World, key: Key, status: Status)
    requires key in w.state.tunnels
    ensures StatusOnly(w.state, PutStatus(w, key, status).0.state, key)
  {
  }

  lemma StatusFrame(w: World, key: Key, status: Status)
    requires key in w.state.tunnels
    ensures StatusOnly(w.state, UpdateStatus(w, key, status).0.state, key)
  {
    if status.tunnelID != "" {
      StatusLaws.InspectEffect(w, key);
      var (w1, seen) := Inspect(w, key);
      if seen.Some? {
        PutStatusFrame(w1, key, status.(conditions := Describe(seen.value, status.conditions)));
      }
    }
  }

  /** After a stretch that touched children only, the status is written. */
  lemma ThenStatusFrame(a: State, w: World, key: Key, status: Status)
    requires StatusOnly(a, w.state, key)
    ensures StatusOnly(a, UpdateStatus(w, key, status).0.state, key)
  {
    StatusFrame(w, key, status);
    StatusOnlyOn(a, w.state, UpdateStatus(w, key, status).0.state, key);
  }

  lemma DeploymentFrame(w: World, key: Key)
    requires key in w.state.tunnels
    ensures StatusOnly(w.state, ApplyDeployment(w, key).0.state, key)
  {
  }

  lemma ServiceFrame(w: World, key: Key)
    requires key in w.state.tunnels
    ensures StatusOnly(w.state, ApplyService(w, key).0.state, key)
  {
  }

  lemma ChildrenFrame(w: World, key: Key, status: Status)
    requires key in w.state.tunnels
    ensures StatusOnly(w.state, ApplyChildren(w, key, status).0.state, key)
  {
    var (w1, deployed) := ApplyDeployment(w, key);
    DeploymentFrame(w, key);
    var end := w1;
    if deployed {
      var (w2, served) := ApplyService(w1, key);
      ServiceFrame(w1, key);
      StatusOnlyOn(w.state, w1.state, w2.state, key);
      end := w2;
      if served {
        var (w3, monitored) := ApplyOther(w2, key, Monitor);
        end := if monitored then ApplyOther(w3, key, Budget).0 else w3;
      }
    }
    assert ApplyChildren(w, key, status).0 == UpdateStatus(end, key, status).0;
    ThenStatusFrame(w.state, end, key, status);
  }

  lemma SecretFrame(a: State, w: World, key: Key, token: string)
    requires key in a.tunnels && OnlyRemote(a, w.state)
    ensures StatusOnly(a, w.state, key) && StatusOnly(a, ApplySecret(w, key, token).0.state, key)
  {
  }

  lemma ProvisionFrame(w: World, key: Key, o: TunnelObject)
    requires key in w.state.tunnels
    ensures StatusOnly(w.state, Provision(w, key, o).0.state, key)
  {
    EnsureTunnelAccount(w, key, o);
    var (w1, ready) := EnsureTunnel(w, key, o);
    if ready.NotReady? {
      SecretFrame(w.state, w1, key, "");
      ThenStatusFrame(w.state, w1, key, o.status);
      assert Provision(w, key, o).0 == UpdateStatus(w1, key, o.status).0;
    } else {
      ReadyFrame(w, w1, key, o, ready);
    }
  }

  lemma ReadyFrame(w: World, w1: World, key: Key, o: TunnelObject, ready: Ready)
    requires key in w.state.tunnels && (w1, ready) == EnsureTunnel(w, key, o) && ready.Ready?
    requires OnlyRemote(w.state, w1.state)
    ensures StatusOnly(w.state, Provision(w, key, o).0.state, key)
  {
    var (w2, stored) := ApplySecret(w1, key, ready.token);
    SecretFrame(w.state, w1, key, ready.token);
    if !stored {
      ThenStatusFrame(w.state, w2, key, o.status);
      assert Provision(w, key, o).0 == UpdateStatus(w2, key, o.status).0;
    } else {
      var status := o.status.(tunnelID := ready.id, tunnelName := ready.name);
      var (w3, ok) := PutStatus(w2, key, status);
      PutStatusFrame(w2, key, status);
      StatusOnlyOn(w.state, w2.state, w3.state, key);
      ChildrenFrame(w3, key, status);
      StatusOnlyOn(w.state, w3.state, ApplyChildren(w3, key, status).0.state, key);
      assert Provision(w, key, o).0 == if ok then ApplyChildren(w3, key, status).0 else w3;
    }
  }

  lemma PutTunnelFrame(w: World, key: Key, o: TunnelObject, kept: TunnelObject)
    requires key in w.state.tunnels && o == w.state.tunnels[key] && kept == o.(finalizers := kept.finalizers)
    ensures var s1 := PutTunnel(w, key, kept).0.state;
      s1 == w.state.(tunnels := s1.tunnels) && OthersKept(w.state, s1, key)
    ensures var s1 := PutTunnel(w, key, kept).0.state;
      key in s1.tunnels ==>
        SpecKept(o, s1.tunnels[key]) && s1.tunnels[key].status == o.status &&
        s1.tunnels[key].finalizers == if Arrives(w) then kept.finalizers else o.finalizers
    ensures var s1 := PutTunnel(w, key, kept).0.state;
      key !in s1.tunnels <==> Arrives(w) && o.deleting && kept.finalizers == {}
  {
  }

  /** However the calls of its reconcile are answered, a live object stays stored with what users wrote on it. It
      keeps the finalizers of others and gets that of the operator, at the latest when the reconcile succeeds. */
  lemma LiveFrame(w: World, key: Key)
    requires Live(w.state, key)
    ensures var (w1, r) := ReconcileTunnel(w, key);
      var o := w.state.tunnels[key];
      OwnOnly(w.state, w1.state, key) && key in w1.state.tunnels && SpecKept(o, w1.state.tunnels[key]) &&
      (w1.state.tunnels[key].finalizers == o.finalizers ||
       w1.state.tunnels[key].finalizers == o.finalizers + {FINALIZER}) &&
      (r.ok ==> w1.state.tunnels[key].finalizers == o.finalizers + {FINALIZER})
  {
    var (w1, got) := GetTunnel(w, key);
    if got.Found? {
      var o := got.value;
      if FINALIZER in o.finalizers {
        assert o.finalizers + {FINALIZER} == o.finalizers;
        ProvisionFrame(w1, key, o);
      } else {
        var kept := o.(finalizers := o.finalizers + {FINALIZER});
        var (w2, ok) := PutTunnel(w1, key, kept);
        PutTunnelFrame(w1, key, o, kept);
        ProvisionFrame(w2, key, kept);
      }
    }
  }

  // ----- An object that is being deleted -----

  /** An object that is being deleted is left alone without the operator's finalizer. With it, the reconcile
      changes the zone, the remote tunnels and that finalizer only: the object keeps the finalizers of others, and
      goes only if there are none. */
  lemma DeletionFrame(w: World, key: Key)
    requires key in w.state.tunnels && w.state.tunnels[key].deleting
    ensures var (w1, r) := ReconcileTunnel(w, key);
      var o, s1 := w.state.tunnels[key], w1.state;
      var others := o.finalizers - {FINALIZER};
      s1 == w.state.(zone := s1.zone, remote := s1.remote, tunnels := s1.tunnels) && OthersKept(w.state, s1, key) &&
      (FINALIZER !in o.finalizers ==> s1 == w.state) &&
      (others != {} ==> key in s1.tunnels) &&
      (key in s1.tunnels ==>
         SpecKept(o, s1.tunnels[key]) && s1.tunnels[key].status == o.status &&
         (s1.tunnels[key].finalizers == o.finalizers || s1.tunnels[key].finalizers == others) &&
         (r.ok ==> s1.tunnels[key].finalizers == others)) &&
      (r.ok && FINALIZER in o.finalizers ==> (key in s1.tunnels <==> others != {}))
  {
    var (w1, got) := GetTunnel(w, key);
    var o := w.state.tunnels[key];
    if got.Found? && FINALIZER in o.finalizers {
      DismantleFrame(w1, key, o);
    } else {
      assert FINALIZER !in o.finalizers ==> o.finalizers - {FINALIZER} == o.finalizers;
    }
  }

  lemma DismantleFrame(w: World, key: Key, o: TunnelObject)
    requires key in w.state.tunnels && o == w.state.tunnels[key] && o.deleting
    ensures var (w1, r) := Dismantle(w, key, o);
      var s1, others := w1.state, o.finalizers - {FINALIZER};
      s1 == w.state.(zone := s1.zone, remote := s1.remote, tunnels := s1.tunnels) && OthersKept(w.state, s1, key) &&
      (key in s1.tunnels ==>
         SpecKept(o, s1.tunnels[key]) && s1.tunnels[key].status == o.status &&
         (s1.tunnels[key].finalizers == o.finalizers || s1.tunnels[key].finalizers == others) &&
         (r.ok ==> s1.tunnels[key].finalizers == others)) &&
      (key !in s1.tunnels ==> others == {}) && (r.ok && others == {} ==> key !in s1.tunnels)
  {
    var t := o.status.tunnelID;
    DeleteAllFrame(w, t);
    var (w1, cleared) := DeleteAllDNS(w, t);
    var (w2, gone) := DeleteRemote(w1, t);
    var bare := o.(finalizers := o.finalizers - {FINALIZER});
    PutTunnelFrame(w2, key, o, bare);
    if !cleared {
      assert Dismantle(w, key, o) == (w1, Result(false, false));
    } else if !gone {
      assert Dismantle(w, key, o) == (w2, Result(false, false));
    } else {
      var (w3, ok) := PutTunnel(w2, key, bare);
      assert Dismantle(w, key, o) == (w3, Result(ok, false));
    }
  }

  lemma DeleteAllFrame(w: World, t: string)
    ensures var s1 := DeleteAllDNS(w, t).0.state; s1 == w.state.(zone := s1.zone)
  {
    var (w1, got) := ListMatches(w, CnamesCommented(w.state.zone, Comment(t)));
    if got.Found? { DeleteEachEffect(w1, got.value); }
  }
}
