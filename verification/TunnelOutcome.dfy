/** What a successful CloudflareTunnel reconcile leaves behind. */
module TunnelOutcome {
  import opened Domain
  import opened World
  import opened Protocol
  import opened ZoneLaws
  import opened StatusLaws
  import opened Invariant
  import opened TunnelSafety
  import opened Accounting
  import opened TunnelFrame
  import opened TunnelCalls
  import TunnelAnswers

  /** A live object that has been provisioned: it holds its finalizer, its tunnel exists and is recorded under
      the name the settings ask for, its children exist, and its conditions tell the truth. */
  ghost predicate Provisioned(s: State, key: Key) {
    HoldsTunnel(s, key) && Live(s, key) && var o := s.tunnels[key];
    o.status.tunnelID in s.remote && GoesBy(key, o.settings, o.status.tunnelName) &&
    AllPresent(s, key) && Truthful(s, key, o.status.conditions)
  }

  /** The secret of a provisioned object holds the token of its tunnel: the one that was stored, if an identifier
      was recorded with a token, and else the last acknowledged answer to a token call, which was about the tunnel
      that is recorded now. */
  ghost predicate TokenHeld(w: World, w1: World, key: Key)
    requires key in w.state.tunnels && key in w1.state.tunnels
  {
    key in w1.state.secrets &&
    if RecordedID(w.state, key) != "" && HasToken(w.state, key) then w1.state.secrets[key] == w.state.secrets[key]
    else TokenRead(w, w1, RecordedID(w1.state, key), w1.state.secrets[key])
  }

  lemma ChildrenOutcome(w: World, key: Key, status: Status)
    requires Live(w.state, key) && w.state.tunnels[key].status == status && status.tunnelID != "" &&
      UniqueTypes(status.conditions)
    requires key in w.state.secrets && ApplyChildren(w, key, status).1.ok
    ensures var (w1, r) := ApplyChildren(w, key, status);
      w1.state.tunnels.Keys == w.state.tunnels.Keys && w1.state.secrets == w.state.secrets &&
        w1.state.remote == w.state.remote &&
      AllPresent(w1.state, key) && (r.requeue <==> !Serving(w1.state, key)) &&
      w1.state.tunnels[key] == w.state.tunnels[key].(status := w1.state.tunnels[key].status) &&
      w1.state.tunnels[key].status == status.(conditions := w1.state.tunnels[key].status.conditions) &&
      Truthful(w1.state, key, w1.state.tunnels[key].status.conditions)
  {
    var w1 := ApplyDeployment(w, key).0;
    var w2 := ApplyService(w1, key).0;
    var w3 := ApplyOther(w2, key, Monitor).0;
    var w4 := ApplyOther(w3, key, Budget).0;
    assert ApplyChildren(w, key, status) == UpdateStatus(w4, key, status);
    StatusWrite(w4, key, status);
  }

  /** Provision succeeds only through its whole chain of calls. */
  lemma ProvisionOutcome(w: World, key: Key, o: TunnelObject)
    requires Provisioning(w, key) && o.status == w.state.tunnels[key].status &&
      o.settings == w.state.tunnels[key].settings
    requires Provision(w, key, o).1.ok
    ensures var (w1, r) := Provision(w, key, o);
      Provisioned(w1.state, key) && (r.requeue <==> !Serving(w1.state, key))
  {
    EnsureTunnelSafe(w, key, o);
    EnsureTunnelAccount(w, key, o);
    var (w1, ready) := EnsureTunnel(w, key, o);
    var w2 := ApplySecret(w1, key, ready.token).0;
    var status := o.status.(tunnelID := ready.id, tunnelName := ready.name);
    var w3 := PutStatus(w2, key, status).0;
    assert Provision(w, key, o) == ApplyChildren(w3, key, status);
    assert w3.state.tunnels[key] == w.state.tunnels[key].(status := status);
    ChildrenOutcome(w3, key, status);
  }

  lemma FinalizerAdded(w: World, key: Key)
    requires Safe(w) && w.actor == TunnelActor(key) && Live(w.state, key)
    ensures var kept := w.state.tunnels[key].(finalizers := w.state.tunnels[key].finalizers + {FINALIZER});
      var (w1, ok) := PutTunnel(w, key, kept);
      ok ==> (Provisioning(w1, key) && w1.state == w.state.(tunnels := w1.state.tunnels) &&
              w1.state.tunnels[key] == kept.(labels := w1.state.tunnels[key].labels))
  {
    var kept := w.state.tunnels[key].(finalizers := w.state.tunnels[key].finalizers + {FINALIZER});
    SpendKeeps(w, WriteTunnel(key, kept), PutTunnel(w, key, kept).0.state);
  }

  /** The first calls of a reconcile of a live object leave it ready to be provisioned, with its finalizer. */
  lemma ReachesProvision(w: World, key: Key) returns (m: World, o: TunnelObject)
    requires Safe(w) && w.actor == TunnelActor(key) && Live(w.state, key) && ReconcileTunnel(w, key).1.ok
    ensures Provisioning(m, key) && ReconcileTunnel(w, key) == Provision(m, key, o)
    ensures m.state == w.state.(tunnels := m.state.tunnels)
    ensures o.status == m.state.tunnels[key].status == w.state.tunnels[key].status &&
      o.settings == m.state.tunnels[key].settings
  {
    m, o := GetTunnel(w, key).0, w.state.tunnels[key];
    SpendKeeps(w, ReadObject(key), w.state);
    if FINALIZER !in o.finalizers {
      FinalizerAdded(m, key);
      o := o.(finalizers := o.finalizers + {FINALIZER});
      m := PutTunnel(m, key, o).0;
    }
  }

  /** A successful reconcile of a live object provisions it, with each of its five children applied and the token of
      its tunnel in its secret, and asks to be requeued exactly when no replica is available. It adds the operator's
      finalizer and leaves what else users and other controllers wrote on the object. */
  lemma LiveOutcome(w: World, key: Key)
    requires Safe(w) && w.actor == TunnelActor(key) && Live(w.state, key) && ReconcileTunnel(w, key).1.ok
    ensures var (w1, r) := ReconcileTunnel(w, key);
      Provisioned(w1.state, key) && TokenHeld(w, w1, key) && (forall child :: Applied(w, w1, key, child)) &&
      (r.requeue <==> !Serving(w1.state, key)) && OwnOnly(w.state, w1.state, key) &&
      var o, o1 := w.state.tunnels[key], w1.state.tunnels[key];
      SpecKept(o, o1) && o1.finalizers == o.finalizers + {FINALIZER} &&
      OtherTypesKept(o1.status.conditions, o.status.conditions)
  {
    var m, o := ReachesProvision(w, key);
    ProvisionOutcome(m, key, o);
    ReconcileInOrder(w, key);
    LiveFrame(w, key);
    TunnelAnswers.LiveReports(w, key);
  }

  /** A success of the deleting path went through its three calls. */
  lemma DismantleChain(w: World, key: Key, o: TunnelObject)
    requires Dismantle(w, key, o).1.ok
    ensures var t := o.status.tunnelID;
      var bare := o.(finalizers := o.finalizers - {FINALIZER});
      var w1 := DeleteAllDNS(w, t).0;
      var w2 := DeleteRemote(w1, t).0;
      DeleteAllDNS(w, t).1 && w2.state == w1.state.(remote := w1.state.remote - {t}) &&
      Dismantle(w, key, o).0 == PutTunnel(w2, key, bare).0 && PutTunnel(w2, key, bare).1
  {
  }

  /** Such a success has removed the tunnel and exactly its records. */
  lemma DeletionClears(w: World, key: Key)
    requires Safe(w) && w.actor == TunnelActor(key) && HoldsTunnel(w.state, key) && w.state.tunnels[key].deleting
    requires ReconcileTunnel(w, key).1.ok
    ensures var s, s1 := w.state, ReconcileTunnel(w, key).0.state;
      var t := RecordedID(s, key);
      s1.remote == s.remote - {t} && NoneOwned(s1, t) &&
      (forall id :: id in s1.zone ==> id in s.zone && s1.zone[id] == s.zone[id]) &&
      forall id :: id in s.zone ==>
        (id !in s1.zone <==> s.zone[id].rtype == CNAME && s.zone[id].comment == Comment(t))
  {
    var w1 := GetTunnel(w, key).0;
    SpendKeeps(w, ReadObject(key), w.state);
    var o := w.state.tunnels[key];
    assert ReconcileTunnel(w, key) == Dismantle(w1, key, o);
    DismantleChain(w1, key, o);
    DeleteAllSafe(w1, key, o.status.tunnelID);
    DeleteAllExact(w1, o.status.tunnelID);
  }

  /** A successful reconcile of an object being deleted, whose finalizer was stored, has removed exactly the
      records of its tunnel, then the tunnel, then the finalizer. The object goes if that was its last finalizer, and
      is otherwise left with the others and with all that users wrote on it. */
  lemma DeletionOutcome(w: World, key: Key)
    requires Safe(w) && w.actor == TunnelActor(key) && HoldsTunnel(w.state, key) && w.state.tunnels[key].deleting
    requires ReconcileTunnel(w, key).1.ok
    ensures var s, s1 := w.state, ReconcileTunnel(w, key).0.state;
      var t := RecordedID(s, key);
      s1.remote == s.remote - {t} && !HoldsTunnel(s1, key) && NoneOwned(s1, t) &&
      (forall id :: id in s1.zone ==> id in s.zone && s1.zone[id] == s.zone[id]) &&
      (forall id :: id in s.zone ==>
       (id !in s1.zone <==> s.zone[id].rtype == CNAME && s.zone[id].comment == Comment(t))) &&
      OthersKept(s, s1, key) &&
      var o, others := s.tunnels[key], s.tunnels[key].finalizers - {FINALIZER};
      (key in s1.tunnels <==> others != {}) &&
      (key in s1.tunnels ==> SpecKept(o, s1.tunnels[key]) && s1.tunnels[key].finalizers == others)
  {
    DeletionClears(w, key);
    DeletionFrame(w, key);
  }
}
