/** Every step of an Ingress reconcile keeps the joint invariant. */
module IngressSafety {
  import opened Domain
  import opened World
  import opened IngressFields
  import opened Protocol
  import opened ZoneLaws
  import opened StatusLaws
  import opened Recovery
  import opened Outcome
  import opened Invariant

  /** An Ingress reconcile at work on a tunnel: its finalizer is stored and the tunnel exists. */
  ghost predicate Working(w: World, t: string) {
    Safe(w) && w.actor.IngressActor? && HoldsIngress(w.state, w.actor.key) && t in w.state.remote
  }

  /** What a pass does not touch. */
  ghost predicate SameObjects(a: State, b: State) {
    b.ingresses == a.ingresses && b.tunnels == a.tunnels && b.remote.Keys == a.remote.Keys && b.issued == a.issued
  }

  lemma WritingKeepsNoDangling(s: State, id: string, t: string, name: string)
    requires NoDangling(s) && t in s.remote
    ensures NoDangling(s.(zone := s.zone[id := Managed(t, name)]))
  {
    CommentNamesOneTunnel(Comment(t), t);
  }

  lemma WritingKeepsInv(s: State, id: string, t: string, name: string)
    requires Inv(s) && t in s.remote && ValidZone(s.zone[id := Managed(t, name)])
    ensures Inv(s.(zone := s.zone[id := Managed(t, name)]))
  {
    WritingKeepsNoDangling(s, id, t, name);
  }

  lemma ConfiguringKeepsInv(s: State, t: string, c: Config)
    requires Inv(s) && t in s.remote
    ensures Inv(s.(remote := s.remote[t := c])) && SameObjects(s, s.(remote := s.remote[t := c]))
  {
    assert s.remote[t := c].Keys == s.remote.Keys;
  }

  lemma LookupSafe(w: World, t: string, name: string)
    requires Working(w, t)
    ensures var w1 := GetDNS(w, name).0; Working(w1, t) && w1.actor == w.actor && w1.state == w.state
  {
    SpendKeeps(w, ListRecords, w.state);
  }

  /** The two writes of a publishing step. */
  lemma WriteSafe(w: World, w1: World, t: string, name: string, id: string, call: Call)
    requires Working(w, t) && (call.AddRecord? || call.UpdateRecord?) && ValidZone(w1.state.zone)
    requires w1 == Spend(w, call, w1.state)
    requires w1.state == w.state || w1.state == w.state.(zone := w.state.zone[id := Managed(t, name)])
    ensures Keeps(w, w1) && SameObjects(w.state, w1.state)
  {
    if w1.state != w.state { WritingKeepsInv(w.state, id, t, name); }
    SpendKeeps(w, call, w1.state);
  }

  lemma AppendSafe(w: World, t: string, name: string)
    requires Working(w, t)
    ensures var w1 := AppendDNS(w, t, name).0; Keeps(w, w1) && SameObjects(w.state, w1.state)
  {
    LookupSafe(w, t, name);
    GetDNSFinds(w, name);
    var (w1, got) := GetDNS(w, name);
    if got.Found? && got.value.id == "" {
      AddMoves(w1, t, name, {name});
      WriteSafe(w1, AddDNS(w1, t, name).0, t, name, Head(w1).id, AddRecord(Managed(t, name)));
    } else if got.Found? && !Healthy(got.value, t) {
      UpdateMoves(w1, t, name, got.value, {name});
      WriteSafe(w1, UpdateDNS(w1, t, name, got.value).0, t, name, got.value.id,
                UpdateRecord(got.value.id, Managed(t, name)));
    }
  }

  lemma RemoveSafe(w: World, t: string, name: string)
    requires Working(w, t)
    ensures var w1 := RemoveDNS(w, name).0; Keeps(w, w1) && SameObjects(w.state, w1.state)
  {
    LookupSafe(w, t, name);
    GetDNSFinds(w, name);
    var (w1, got) := GetDNS(w, name);
    if got.Found? && got.value.id != "" {
      RemoveDNSEffect(w, name, {name});
      SpendKeeps(w1, DeleteRecord(got.value.id), DeleteDNS(w1, got.value.id).0.state);
    }
  }

  lemma OneSafe(w: World, t: string, withdraw: bool, name: string)
    requires Working(w, t)
    ensures var w1 := OneDNS(w, t, withdraw, name).0; Keeps(w, w1) && SameObjects(w.state, w1.state)
  {
    if withdraw { RemoveSafe(w, t, name); } else { AppendSafe(w, t, name); }
  }

  lemma {:induction false} EachSafe(w: World, t: string, withdraw: bool, hosts: seq<Host>)
    requires Working(w, t)
    ensures var w1 := EachDNS(w, t, withdraw, hosts).0; Keeps(w, w1) && SameObjects(w.state, w1.state)
    decreases |hosts|
  {
    if hosts != [] {
      OneSafe(w, t, withdraw, hosts[0].name);
      var (w1, ok) := OneDNS(w, t, withdraw, hosts[0].name);
      if ok { EachSafe(w1, t, withdraw, hosts[1..]); }
    }
  }

  lemma ConfigSafe(w: World, p: Plan)
    requires Working(w, p.tunnelID)
    ensures var w1 := ConfigStep(w, p).0; Keeps(w, w1) && SameObjects(w.state, w1.state)
  {
    var goal := GoalConfig(p, w.state.remote[p.tunnelID]);
    var (w1, got) := GetConfig(w, p.tunnelID);
    SpendKeeps(w, ReadConfig(p.tunnelID), w.state);
    ConfiguringKeepsInv(w.state, p.tunnelID, goal);
    if got.Found? {
      var w2 := PutConfig(w1, p.tunnelID, goal).0;
      SpendKeeps(w1, WriteConfig(p.tunnelID, goal), w2.state);
      assert ConfigStep(w, p).0 == w2;
    }
  }

  lemma PassSafe(w: World, p: Plan)
    requires Working(w, p.tunnelID)
    ensures var w1 := RunPass(w, p).0; Keeps(w, w1) && SameObjects(w.state, w1.state)
  {
    ConfigSafe(w, p);
    var (w1, ok) := ConfigStep(w, p);
    if ok {
      EachSafe(w1, p.tunnelID, p.withdraw, p.hosts);
      assert RunPass(w, p) == EachDNS(w1, p.tunnelID, p.withdraw, p.hosts);
    } else {
      assert RunPass(w, p) == (w1, false);
    }
  }

  lemma ResolveSafe(w: World, name: Key)
    requires Safe(w) && w.actor.IngressActor?
    ensures Keeps(w, Resolve(w, name).0)
  {
    SpendKeeps(w, ListDefaults, w.state);
    SpendKeeps(w, ReadObject(name), w.state);
  }

  lemma SyncSafe(w: World, ing: Ingress)
    requires Safe(w) && w.actor.IngressActor? && HoldsIngress(w.state, w.actor.key)
    ensures Keeps(w, Sync(w, ing).0)
  {
    if TunnelName(ing.annotations).Some? {
      var name := TunnelName(ing.annotations).value;
      ResolveSafe(w, name);
      ResolveEffect(w, name);
      var (w1, found) := Resolve(w, name);
      if found.Resolved? && !found.tunnel.deleting && found.tunnel.status.tunnelID != "" &&
         ing.addresses != [] && ing.addresses[0].Parsed?
      {
        var o := found.tunnel;
        var p := Plan(w.actor.key, o.status.tunnelID, Hosts(ing), ing.addresses[0].ip, o.settings,
                      Ignored(ing.annotations));
        PassSafe(w1, p);
        assert Sync(w, ing) == RunPass(w1, p);
      } else {
        assert Sync(w, ing).0 == w1;
      }
    }
  }

  lemma GoneIsCleared(a: State, b: State, t: string, ing: Ingress, settings: Settings)
    requires t in a.remote && t in b.remote && Gone(a, b, t, Hosts(ing), settings)
    ensures Cleared(b, t, ing)
  {
    forall h | h in ing.rules && h != "" ensures NoRule(b.remote[t].ingress, h) && RecordAt(b.zone, h).None? {
      var i :| 0 <= i < |ing.rules| && ing.rules[i] == h;
      assert Hosts(ing)[i].name in HostNames(Hosts(ing));
    }
  }

  /** A withdrawing pass that succeeds clears the tunnel of the Ingress. */
  lemma WithdrawSafe(w: World, ing: Ingress, p: Plan)
    requires Working(w, p.tunnelID) && p.key == w.actor.key && p.withdraw && p.hosts == Hosts(ing)
    ensures var (w1, ok) := RunPass(w, p);
      Keeps(w, w1) && SameObjects(w.state, w1.state) && (ok ==> Cleared(w1.state, p.tunnelID, ing))
  {
    PassSafe(w, p);
    PassEffect(w, p);
    var (w1, ok) := RunPass(w, p);
    if ok {
      GoneByGoal(p, w.state, w1.state);
      GoneIsCleared(w.state, w1.state, p.tunnelID, ing, p.settings);
    }
  }

  /** A finalization that succeeds has a reason to let the Ingress go. */
  lemma FinalizeSafe(w: World, ing: Ingress)
    requires Safe(w) && w.actor.IngressActor? && HoldsIngress(w.state, w.actor.key)
    ensures var (w1, ok) := Finalize(w, ing);
      Keeps(w, w1) && SameObjects(w.state, w1.state) && (ok ==> Released(w1.state, ing))
  {
    if TunnelName(ing.annotations).Some? {
      var name := TunnelName(ing.annotations).value;
      ResolveSafe(w, name);
      ResolveEffect(w, name);
      var (w1, found) := Resolve(w, name);
      if found.Resolved? {
        var k :| k in Candidates(w.state.tunnels, name) && k in w.state.tunnels && found.tunnel == w.state.tunnels[k];
        var o := found.tunnel;
        if !o.deleting && o.status.tunnelID != "" {
          var p := Plan(w.actor.key, o.status.tunnelID, Hosts(ing), "", o.settings, true);
          WithdrawSafe(w1, ing, p);
          assert Finalize(w, ing) == RunPass(w1, p);
          assert k in Candidates(RunPass(w1, p).0.state.tunnels, name);
        } else {
          assert Finalize(w, ing) == (w1, o.deleting);
        }
      } else {
        assert Finalize(w, ing) == (w1, found.NoDefault?);
      }
    }
  }

  /** A whole Ingress reconcile, however its calls are answered, keeps the invariant and makes no call that
      its guard forbids. */
  lemma ReconcileIngressSafe(w: World, key: Key)
    requires Safe(w) && w.actor == IngressActor(key)
    ensures Keeps(w, ReconcileIngress(w, key).0)
  {
    var (w1, got) := GetIngress(w, key);
    SpendKeeps(w, ReadObject(key), w.state);
    if got.Found? {
      var ing := got.value;
      if ing.deleting {
        if FINALIZER in ing.finalizers {
          FinalizeSafe(w1, ing);
          var (w2, ok) := Finalize(w1, ing);
          if ok {
            var bare := ing.(finalizers := ing.finalizers - {FINALIZER});
            SpendKeeps(w2, WriteIngress(key, bare), PutIngress(w2, key, bare).0.state);
          }
        }
      } else if FINALIZER in ing.finalizers {
        SyncSafe(w1, ing);
      } else {
        var (w2, ok) := PutIngress(w1, key, WithFinalizer(ing));
        SpendKeeps(w1, WriteIngress(key, WithFinalizer(ing)), w2.state);
        if ok {
          SyncSafe(w2, WithFinalizer(ing));
        }
      }
    }
  }

  lemma OrphanDangles(s: State, id: string, t: string, name: string)
    requires t !in s.remote && id in s.zone && s.zone[id] == Managed(t, name)
    ensures !NoDangling(s)
  {
    CommentNamesOneTunnel(Comment(t), t);
  }

  lemma AppendWrites(w: World, t: string, name: string) returns (id: string)
    ensures var w1 := AppendDNS(w, t, name).0;
      w1.state == w.state || w1.state == w.state.(zone := w.state.zone[id := Managed(t, name)])
  {
    var (w1, got) := GetDNS(w, name);
    id := if got.Found? && got.value.id != "" then got.value.id else Head(w1).id;
  }

  /** Why the invariant is one of whole reconciles: a DNS step that succeeds keeps it if and only if its tunnel
      still exists or it had nothing to write. DeleteAllDNS and DeleteTunnel do not take the mutex, so they
      may come between the reading of the tunnel object and this step. */
  lemma LateAppendDangles(w: World, t: string, name: string)
    requires ValidZone(w.state.zone) && NoDangling(w.state) && AppendDNS(w, t, name).1
    ensures NoDangling(AppendDNS(w, t, name).0.state) <==>
      t in w.state.remote || RecordAt(w.state.zone, name) == PublishedRecord(t, name, RecordAt(w.state.zone, name))
  {
    var s1 := AppendDNS(w, t, name).0.state;
    AppendDNSEffect(w, t, name, {name});
    if t in w.state.remote {
      var id := AppendWrites(w, t, name);
      WritingKeepsNoDangling(w.state, id, t, name);
    } else if RecordAt(w.state.zone, name) != PublishedRecord(t, name, RecordAt(w.state.zone, name)) {
      var id :| id in s1.zone && IsCname(s1.zone[id], name);
      RecordAtIs(s1.zone, id);
      OrphanDangles(s1, id, t, name);
    }
  }
}
