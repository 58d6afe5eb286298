/** Every step of a CloudflareTunnel reconcile keeps the joint invariant. */
module TunnelSafety {
  import opened Domain
  import opened World
  import opened Protocol
  import opened ZoneLaws
  import opened StatusLaws
  import opened Invariant

  /** A tunnel reconcile at work on a live object. */
  ghost predicate Provisioning(w: World, key: Key) {
    Safe(w) && w.actor == TunnelActor(key) && HoldsTunnel(w.state, key) && !w.state.tunnels[key].deleting
  }

  /** An identifier the object may record: its tunnel exists and no other object has it. */
  ghost predicate Claimable(s: State, key: Key, id: string) {
    id in s.remote && forall j :: j in s.tunnels && j != key ==> s.tunnels[j].status.tunnelID != id
  }

  // ----- Status writes -----

  lemma StatusKeepsInv(s: State, key: Key, status: Status)
    requires Inv(s) && HoldsTunnel(s, key) && Claimable(s, key, status.tunnelID) && Sound(status.conditions)
    ensures Inv(WithStatus(s, key, status)) && HoldsTunnel(WithStatus(s, key, status), key)
    ensures Claimable(WithStatus(s, key, status), key, status.tunnelID)
    ensures WithStatus(s, key, status).tunnels[key].deleting == s.tunnels[key].deleting
  {
  }

  lemma PutStatusSafe(w: World, key: Key, status: Status)
    requires Provisioning(w, key) && Claimable(w.state, key, status.tunnelID) && Sound(status.conditions)
    ensures var w1 := PutStatus(w, key, status).0; Provisioning(w1, key) && Claimable(w1.state, key, status.tunnelID)
  {
    StatusKeepsInv(w.state, key, status);
    SpendKeeps(w, WriteStatus(key, status), PutStatus(w, key, status).0.state);
  }

  lemma InspectSafe(w: World, key: Key)
    requires Safe(w) && w.actor == TunnelActor(key)
    ensures Keeps(w, Inspect(w, key).0) && Inspect(w, key).0.state == w.state
  {
    SpendKeeps(w, ReadObject(key), w.state);
    var w1 := GetSecret(w, key).0;
    SpendKeeps(w1, ReadObject(key), w.state);
    var w2 := GetService(w1, key).0;
    SpendKeeps(w2, ReadObject(key), w.state);
  }

  lemma UpdateStatusSafe(w: World, key: Key, status: Status)
    requires Provisioning(w, key) && Sound(status.conditions)
    requires status.tunnelID != "" ==> Claimable(w.state, key, status.tunnelID)
    ensures Provisioning(UpdateStatus(w, key, status).0, key)
  {
    if status.tunnelID != "" {
      InspectSafe(w, key);
      InspectEffect(w, key);
      var (w1, seen) := Inspect(w, key);
      if seen.Some? {
        DescribeTruthful(w.state, key, status.conditions);
        PutStatusSafe(w1, key, status.(conditions := Describe(seen.value, status.conditions)));
      }
    }
  }

  // ----- Provisioning -----

  lemma MakeTunnelSafe(w: World, key: Key, name: string)
    requires Provisioning(w, key)
    ensures var (w1, ready) := MakeTunnel(w, name);
      Provisioning(w1, key) && w1.state.tunnels == w.state.tunnels && w.state.remote.Keys <= w1.state.remote.Keys &&
      (ready.Ready? ==> ready.id != "" && Claimable(w1.state, key, ready.id))
  {
    var (w1, created) := CreateRemote(w, name);
    SpendKeeps(w, CreateTunnel(name), w1.state);
    if created.Found? {
      SpendKeeps(w1, ReadToken(created.value), w1.state);
    }
  }

  lemma EnsureTunnelSafe(w: World, key: Key, o: TunnelObject)
    requires Provisioning(w, key) && o.status == w.state.tunnels[key].status
    ensures var (w1, ready) := EnsureTunnel(w, key, o);
      Provisioning(w1, key) && w1.state.tunnels == w.state.tunnels && w.state.remote.Keys <= w1.state.remote.Keys &&
      (ready.Ready? ==> ready.id != "" && Claimable(w1.state, key, ready.id))
  {
    var name := RemoteName(key, o.settings);
    var (w1, secret) := GetSecret(w, key);
    SpendKeeps(w, ReadObject(key), w.state);
    if !secret.Failed? {
      var id := o.status.tunnelID;
      if id == "" {
        MakeTunnelSafe(w1, key, name);
      } else if secret.NotFound? || secret.value == "" {
        var (w2, fetched) := GetToken(w1, id);
        SpendKeeps(w1, ReadToken(id), w.state);
        if fetched.NotFound? { MakeTunnelSafe(w2, key, name); }
      }
    }
  }

  /** Applying a child changes nothing the invariant reads. */
  lemma ChildKeeps(w: World, w1: World, key: Key, child: Child, id: string)
    requires Provisioning(w, key) && Claimable(w.state, key, id)
    requires w1 == Spend(w, ApplyChild(key, child), w1.state)
    requires w1.state == w.state.(secrets := w1.state.secrets, services := w1.state.services,
                                  deployments := w1.state.deployments)
    ensures Provisioning(w1, key) && Claimable(w1.state, key, id) && w1.state.tunnels == w.state.tunnels
  {
    SpendKeeps(w, ApplyChild(key, child), w1.state);
  }

  lemma ApplyChildrenSafe(w: World, key: Key, status: Status)
    requires Provisioning(w, key) && Claimable(w.state, key, status.tunnelID) && Sound(status.conditions)
    ensures Keeps(w, ApplyChildren(w, key, status).0)
  {
    var (w1, deployed) := ApplyDeployment(w, key);
    ChildKeeps(w, w1, key, Cloudflared, status.tunnelID);
    UpdateStatusSafe(w1, key, status);
    if deployed {
      var (w2, served) := ApplyService(w1, key);
      ChildKeeps(w1, w2, key, Metrics, status.tunnelID);
      UpdateStatusSafe(w2, key, status);
      if served {
        var (w3, monitored) := ApplyOther(w2, key, Monitor);
        ChildKeeps(w2, w3, key, Monitor, status.tunnelID);
        UpdateStatusSafe(w3, key, status);
        if monitored {
          var (w4, _) := ApplyOther(w3, key, Budget);
          ChildKeeps(w3, w4, key, Budget, status.tunnelID);
          UpdateStatusSafe(w4, key, status);
        }
      }
    }
  }

  lemma ProvisionSafe(w: World, key: Key, o: TunnelObject)
    requires Provisioning(w, key) && o.status == w.state.tunnels[key].status
    ensures Keeps(w, Provision(w, key, o).0)
  {
    EnsureTunnelSafe(w, key, o);
    var (w1, ready) := EnsureTunnel(w, key, o);
    assert o.status.tunnelID != "" ==> Claimable(w1.state, key, o.status.tunnelID);
    if ready.NotReady? {
      UpdateStatusSafe(w1, key, o.status);
    } else {
      var (w2, stored) := ApplySecret(w1, key, ready.token);
      ChildKeeps(w1, w2, key, TokenSecret, ready.id);
      if !stored {
        UpdateStatusSafe(w2, key, o.status);
      } else {
        var status := o.status.(tunnelID := ready.id, tunnelName := ready.name);
        PutStatusSafe(w2, key, status);
        var (w3, ok) := PutStatus(w2, key, status);
        if ok { ApplyChildrenSafe(w3, key, status); }
      }
    }
  }

  // ----- Dismantling -----

  /** A tunnel reconcile at work on an object that is being deleted. */
  ghost predicate Dismantling(w: World, key: Key) {
    Safe(w) && w.actor == TunnelActor(key) && HoldsTunnel(w.state, key) && w.state.tunnels[key].deleting
  }

  lemma DroppingKeepsInv(s: State, id: string)
    requires Inv(s)
    ensures Inv(s.(zone := s.zone - {id}))
  {
  }

  /** The deleting loop only removes records, and a success has removed all it was given. */
  lemma {:induction false} DeleteEachSafe(w: World, key: Key, ids: seq<string>)
    requires Dismantling(w, key)
    ensures var (w1, ok) := DeleteEach(w, ids);
      Dismantling(w1, key) && w1.state == w.state.(zone := w1.state.zone) &&
      (forall id :: id in w1.state.zone ==> id in w.state.zone && w1.state.zone[id] == w.state.zone[id]) &&
      (ok ==> forall id :: id in ids ==> id !in w1.state.zone)
    decreases |ids|
  {
    if ids != [] {
      var (w1, ok) := DeleteDNS(w, ids[0]);
      DroppingKeepsInv(w.state, ids[0]);
      SpendKeeps(w, DeleteRecord(ids[0]), w1.state);
      if ok {
        DeleteEachSafe(w1, key, ids[1..]);
        assert ids == [ids[0]] + ids[1..];
      }
    }
  }

  /** Once DeleteAllDNS has succeeded no operator-written CNAME names the tunnel. */
  lemma DeleteAllSafe(w: World, key: Key, t: string)
    requires Dismantling(w, key)
    ensures var (w1, ok) := DeleteAllDNS(w, t);
      Dismantling(w1, key) && w1.state == w.state.(zone := w1.state.zone) && (ok ==> NoneOwned(w1.state, t))
  {
    var matches := CnamesCommented(w.state.zone, Comment(t));
    var (w1, got) := ListMatches(w, matches);
    SpendKeeps(w, ListRecords, w.state);
    if got.Found? {
      DeleteEachSafe(w1, key, got.value);
      var (w2, ok) := DeleteEach(w1, got.value);
      if ok {
        forall id | id in matches ensures id in got.value {
          assert id in (set x | x in got.value);
        }
        forall id | id in w2.state.zone && w2.state.zone[id].rtype == CNAME
          ensures Owner(w2.state.zone[id].comment) != Some(t)
        {
          CommentNamesOneTunnel(w2.state.zone[id].comment, t);
        }
      }
    }
  }

  lemma TunnelGoneKeepsInv(s: State, key: Key)
    requires Inv(s) && HoldsTunnel(s, key) && s.tunnels[key].deleting && NoneOwned(s, s.tunnels[key].status.tunnelID)
    ensures Inv(s.(remote := s.remote - {s.tunnels[key].status.tunnelID}))
  {
  }

  lemma ReleaseKeepsInv(w: World, key: Key)
    requires Dismantling(w, key)
    ensures var o := w.state.tunnels[key];
      Inv(PutTunnel(w, key, o.(finalizers := o.finalizers - {FINALIZER})).0.state)
  {
  }

  predicate Deletes(e: Event, actor: Actor, id: string) {
    e.actor == actor && e.reply.fault.Pass? && e.call == DeleteRecord(id) && id in e.before.zone
  }

  lemma {:induction false} DeleteEachTrace(w: World, ids: seq<string>)
    requires DeleteEach(w, ids).1
    ensures var w1 := DeleteEach(w, ids).0;
      w1.actor == w.actor && w.trace <= w1.trace && |w1.trace| == |w.trace| + |ids| &&
      forall i :: 0 <= i < |ids| ==> Deletes(w1.trace[|w.trace| + i], w.actor, ids[i])
    decreases |ids|
  {
    if ids != [] {
      var m := DeleteDNS(w, ids[0]).0;
      DeleteEachTrace(m, ids[1..]);
      var w1 := DeleteEach(m, ids[1..]).0;
      assert DeleteEach(w, ids).0 == w1;
      assert Deletes(m.trace[|w.trace|], w.actor, ids[0]);
      forall i | 0 <= i < |ids| ensures Deletes(w1.trace[|w.trace| + i], w.actor, ids[i]) {
        if i == 0 {
          assert w1.trace[|w.trace|] == m.trace[|w.trace|];
        } else {
          assert Deletes(w1.trace[|m.trace| + (i - 1)], w.actor, ids[1..][i - 1]);
        }
      }
    }
  }

  lemma AssembleDismantles(es: seq<Event>, ids: seq<string>, actor: Actor, t: string)
    requires |es| == |ids| + 2 && es[0].actor == es[|ids| + 1].actor == actor
    requires es[0].reply.fault.Pass? && es[0].reply.listing == ids && es[0].call.ListRecords?
    requires IsListing(ids, CnamesCommented(es[0].before.zone, Comment(t)))
    requires forall i :: 0 <= i < |ids| ==> Deletes(es[i + 1], actor, ids[i])
    requires es[|ids| + 1].reply.fault.Pass? && es[|ids| + 1].call == DeleteTunnel(t)
    ensures Dismantles(es, actor, t)
  {
    forall i | 0 <= i < |es| ensures es[i].actor == actor && es[i].reply.fault.Pass? {
      assert 0 < i <= |ids| ==> Deletes(es[(i - 1) + 1], actor, ids[i - 1]);
    }
  }

  /** The calls of a reconcile that has deleted a tunnel's records and then the tunnel. */
  lemma DismantleTrace(w: World, t: string)
    requires DeleteAllDNS(w, t).1 && DeleteRemote(DeleteAllDNS(w, t).0, t).1
    ensures var w2 := DeleteRemote(DeleteAllDNS(w, t).0, t).0;
      w.trace <= w2.trace && Dismantles(w2.trace[|w.trace|..], w.actor, t)
  {
    var (m, got) := ListMatches(w, CnamesCommented(w.state.zone, Comment(t)));
    var w1 := DeleteEach(m, got.value).0;
    var w2 := DeleteRemote(w1, t).0;
    DeleteEachTrace(m, got.value);
    ListedTrace(w, m, w1, w2, got.value, t);
  }

  lemma ListedTrace(w: World, m: World, w1: World, w2: World, ids: seq<string>, t: string)
    requires m == Spend(w, ListRecords, w.state) && Answered(w) && Head(w).listing == ids
    requires IsListing(ids, CnamesCommented(w.state.zone, Comment(t)))
    requires w1.actor == w.actor && m.trace <= w1.trace && |w1.trace| == |m.trace| + |ids|
    requires forall i :: 0 <= i < |ids| ==> Deletes(w1.trace[|m.trace| + i], w.actor, ids[i])
    requires w2 == Spend(w1, DeleteTunnel(t), w2.state) && Answered(w1)
    ensures w.trace <= w2.trace && Dismantles(w2.trace[|w.trace|..], w.actor, t)
  {
    var es := w2.trace[|w.trace|..];
    assert es[0] == m.trace[|w.trace|];
    forall i | 0 <= i < |ids| ensures Deletes(es[i + 1], w.actor, ids[i]) {
      assert es[i + 1] == w1.trace[|m.trace| + i];
    }
    AssembleDismantles(es, ids, w.actor, t);
  }

  lemma DropPermitted(w: World, w2: World, key: Key, bare: TunnelObject)
    requires Dismantling(w, key) && w2.actor == w.actor && w.trace <= w2.trace && |w.trace| < |w2.trace|
    requires w2.state.tunnels == w.state.tunnels
    requires var t := w.state.tunnels[key].status.tunnelID;
      t !in w2.state.remote && NoneOwned(w2.state, t) && Dismantles(w2.trace[|w.trace|..], w.actor, t)
    ensures Permitted(PutTunnel(w2, key, bare).0.trace, |w2.trace|)
  {
    var trace := PutTunnel(w2, key, bare).0.trace;
    assert trace[|w.trace|..|w2.trace|] == w2.trace[|w.trace|..];
  }

  lemma DismantleSafe(w: World, key: Key)
    requires Dismantling(w, key)
    ensures Keeps(w, Dismantle(w, key, w.state.tunnels[key]).0)
  {
    var o := w.state.tunnels[key];
    var t := o.status.tunnelID;
    DeleteAllSafe(w, key, t);
    var (w1, cleared) := DeleteAllDNS(w, t);
    if cleared {
      var (w2, gone) := DeleteRemote(w1, t);
      TunnelGoneKeepsInv(w1.state, key);
      SpendKeeps(w1, DeleteTunnel(t), w2.state);
      if gone {
        var bare := o.(finalizers := o.finalizers - {FINALIZER});
        ReleaseKeepsInv(w2, key);
        DismantleTrace(w, t);
        DropPermitted(w, w2, key, bare);
        SpendKeeps(w2, WriteTunnel(key, bare), PutTunnel(w2, key, bare).0.state);
      }
    }
  }

  // ----- The whole reconcile -----

  /** A whole tunnel reconcile, however its calls are answered, keeps the invariant and makes no call that
      its guard forbids. */
  lemma ReconcileTunnelSafe(w: World, key: Key)
    requires Safe(w) && w.actor == TunnelActor(key)
    ensures Keeps(w, ReconcileTunnel(w, key).0)
  {
    var (w1, got) := GetTunnel(w, key);
    SpendKeeps(w, ReadObject(key), w.state);
    if got.Found? {
      var o := got.value;
      if o.deleting {
        if FINALIZER in o.finalizers { DismantleSafe(w1, key); }
      } else if FINALIZER in o.finalizers {
        ProvisionSafe(w1, key, o);
      } else {
        var kept := o.(finalizers := o.finalizers + {FINALIZER});
        var (w2, ok) := PutTunnel(w1, key, kept);
        SpendKeeps(w1, WriteTunnel(key, kept), w2.state);
        if ok { ProvisionSafe(w2, key, kept); }
      }
    }
  }
}
