/** What follows a call that failed: in an Ingress reconcile nothing, in a CloudflareTunnel reconcile at most the
    report of the status. */
module Halting {
  import opened Domain
  import opened World
  import opened IngressFields
  import opened Protocol
  import opened Recovery

  /** The call was not acknowledged. ErrTunnelNotFound as the answer to a token call is not a failure of it. */
  predicate Fails(e: Event) {
    !e.reply.fault.Pass? && !(e.call.ReadToken? && e.reply.fault.Missing?)
  }

  ghost predicate NoneFails(w: World, w1: World) {
    w.trace <= w1.trace && forall i :: |w.trace| <= i < |w1.trace| ==> !Fails(w1.trace[i])
  }

  /** No call but the last one failed. */
  ghost predicate Stops(w: World, w1: World) {
    w.trace <= w1.trace && forall i :: |w.trace| <= i < |w1.trace| - 1 ==> !Fails(w1.trace[i])
  }

  /** One part of a reconcile: it stops at the first failure, and goes on only if there was none. */
  ghost predicate Part(w: World, w1: World, ok: bool) {
    Stops(w, w1) && (ok ==> NoneFails(w, w1))
  }

  lemma PartsOn(a: World, b: World, c: World, ok: bool)
    requires NoneFails(a, b) && Part(b, c, ok)
    ensures Part(a, c, ok)
  {
    assert forall i :: |a.trace| <= i < |b.trace| ==> c.trace[i] == b.trace[i];
  }

  lemma OnePart(w: World, call: Call, after: State, ok: bool)
    requires ok ==> Answered(w) || (call.ReadToken? && Head(w).fault.Missing?)
    ensures Part(w, Spend(w, call, after), ok)
  {
  }

  // ----- Ingress -----

  lemma OneDNSPart(w: World, t: string, withdraw: bool, name: string)
    ensures var (w1, ok) := OneDNS(w, t, withdraw, name); Part(w, w1, ok)
  {
    var (m, got) := GetDNS(w, name);
    OnePart(w, ListRecords, w.state, got.Found?);
    var (w1, ok) := OneDNS(w, t, withdraw, name);
    if got.Found? && w1 != m {
      assert w1 == Spend(m, w1.trace[|m.trace|].call, w1.state);
      OnePart(m, w1.trace[|m.trace|].call, w1.state, ok);
      PartsOn(w, m, w1, ok);
    }
  }

  lemma {:induction false} EachDNSPart(w: World, t: string, withdraw: bool, hosts: seq<Host>)
    ensures var (w1, ok) := EachDNS(w, t, withdraw, hosts); Part(w, w1, ok)
    decreases |hosts|
  {
    if hosts != [] {
      OneDNSPart(w, t, withdraw, hosts[0].name);
      var (m, ok) := OneDNS(w, t, withdraw, hosts[0].name);
      if ok {
        EachDNSPart(m, t, withdraw, hosts[1..]);
        var (e, done) := EachDNS(m, t, withdraw, hosts[1..]);
        PartsOn(w, m, e, done);
      }
    }
  }

  lemma PassPart(w: World, p: Plan)
    ensures var (w1, ok) := RunPass(w, p); Part(w, w1, ok)
  {
    var (m, got) := GetConfig(w, p.tunnelID);
    OnePart(w, ReadConfig(p.tunnelID), w.state, got.Found?);
    if got.Found? {
      var (n, ok) := PutConfig(m, p.tunnelID, GoalConfig(p, got.value));
      OnePart(m, WriteConfig(p.tunnelID, GoalConfig(p, got.value)), n.state, ok);
      PartsOn(w, m, n, ok);
      assert ConfigStep(w, p) == (n, ok);
      if ok {
        EachDNSPart(n, p.tunnelID, p.withdraw, p.hosts);
        var (e, done) := EachDNS(n, p.tunnelID, p.withdraw, p.hosts);
        PartsOn(w, n, e, done);
      }
    }
  }

  lemma ResolvePart(w: World, name: Key)
    ensures var (w1, found) := Resolve(w, name); Part(w, w1, !found.Unresolved?)
  {
  }

  lemma SyncPart(w: World, ing: Ingress)
    ensures var (w1, ok) := Sync(w, ing); Part(w, w1, ok)
  {
    if TunnelName(ing.annotations).Some? {
      var name := TunnelName(ing.annotations).value;
      ResolvePart(w, name);
      var (m, found) := Resolve(w, name);
      if found.Resolved? && !found.tunnel.deleting && found.tunnel.status.tunnelID != "" && ing.addresses != [] &&
        ing.addresses[0].Parsed?
      {
        var o := found.tunnel;
        var p := Plan(Key("", ""), o.status.tunnelID, Hosts(ing), ing.addresses[0].ip, o.settings,
                      Ignored(ing.annotations));
        PassPart(m, p);
        PartsOn(w, m, RunPass(m, p).0, RunPass(m, p).1);
        assert Sync(w, ing) == RunPass(m, p);
      }
    }
  }

  lemma FinalizePart(w: World, ing: Ingress)
    ensures var (w1, ok) := Finalize(w, ing); Part(w, w1, ok)
  {
    if TunnelName(ing.annotations).Some? {
      var name := TunnelName(ing.annotations).value;
      ResolvePart(w, name);
      var (m, found) := Resolve(w, name);
      if found.Resolved? && !found.tunnel.deleting && found.tunnel.status.tunnelID != "" {
        var p := Plan(Key("", ""), found.tunnel.status.tunnelID, Hosts(ing), "", found.tunnel.settings, true);
        PassPart(m, p);
        PartsOn(w, m, RunPass(m, p).0, RunPass(m, p).1);
        assert Finalize(w, ing) == RunPass(m, p);
      }
    }
  }

  /** However the calls of an Ingress reconcile are answered, it makes none after one that failed, and it succeeds
      only if none did. */
  lemma IngressStops(w: World, key: Key)
    ensures var (w1, ok) := ReconcileIngress(w, key); Stops(w, w1) && (ok ==> NoneFails(w, w1))
  {
    var (m, got) := GetIngress(w, key);
    OnePart(w, ReadObject(key), w.state, !got.Failed?);
    if got.Found? {
      var ing := got.value;
      if ing.deleting && FINALIZER in ing.finalizers {
        FinalizePart(m, ing);
        var (n, ok) := Finalize(m, ing);
        PartsOn(w, m, n, ok);
        if ok {
          var bare := ing.(finalizers := ing.finalizers - {FINALIZER});
          var (e, done) := PutIngress(n, key, bare);
          OnePart(n, WriteIngress(key, bare), e.state, done);
          PartsOn(w, n, e, done);
        }
      } else if !ing.deleting && FINALIZER in ing.finalizers {
        SyncPart(m, ing);
        PartsOn(w, m, Sync(m, ing).0, Sync(m, ing).1);
      } else if !ing.deleting {
        HoldingPart(w, m, key, ing);
      }
    }
  }

  lemma HoldingPart(w: World, m: World, key: Key, ing: Ingress)
    requires NoneFails(w, m) && GetIngress(w, key) == (m, Found(ing)) && !ing.deleting && FINALIZER !in ing.finalizers
    ensures var (w1, ok) := ReconcileIngress(w, key); Part(w, w1, ok)
  {
    var kept := WithFinalizer(ing);
    var (n, ok) := PutIngress(m, key, kept);
    OnePart(m, WriteIngress(key, kept), n.state, ok);
    PartsOn(w, m, n, ok);
    if ok {
      SyncPart(n, kept);
      PartsOn(w, n, Sync(n, kept).0, Sync(n, kept).1);
    }
  }

  // ----- CloudflareTunnel -----

  /** The calls of a status report. */
  predicate Reports(call: Call) {
    call.ReadObject? || call.WriteStatus?
  }

  ghost predicate OnlyReports(w: World, w1: World) {
    w.trace <= w1.trace && forall i :: |w.trace| <= i < |w1.trace| ==> Reports(w1.trace[i].call)
  }

  /** Nothing but a report follows a call that failed. */
  ghost predicate Halts(w: World, w1: World) {
    w.trace <= w1.trace &&
    forall i, j :: |w.trace| <= i < j < |w1.trace| && Fails(w1.trace[i]) ==> Reports(w1.trace[j].call)
  }

  lemma StatusReportsOnly(w: World, key: Key, status: Status)
    ensures OnlyReports(w, UpdateStatus(w, key, status).0)
  {
    var w1 := GetSecret(w, key).0;
    var w2 := GetService(w1, key).0;
    var w3 := GetDeployment(w2, key).0;
    assert OnlyReports(w, w1) && OnlyReports(w, w2) && OnlyReports(w, w3);
    var (m, seen) := Inspect(w, key);
    assert OnlyReports(w, m);
    if seen.Some? {
      var full := status.(conditions := Describe(seen.value, status.conditions));
      assert OnlyReports(w, PutStatus(m, key, full).0);
    }
  }

  /** A stretch that stops at the first failure, and then the report. */
  lemma ThenHalts(a: World, w: World, key: Key, status: Status)
    requires Stops(a, w)
    ensures Halts(a, UpdateStatus(w, key, status).0)
  {
    StatusReportsOnly(w, key, status);
    var w1 := UpdateStatus(w, key, status).0;
    assert forall i :: |a.trace| <= i < |w.trace| ==> w1.trace[i] == w.trace[i];
  }

  lemma StopsHalts(a: World, w: World)
    requires Stops(a, w)
    ensures Halts(a, w)
  {
  }

  lemma HaltsOn(a: World, b: World, c: World)
    requires NoneFails(a, b) && Halts(b, c)
    ensures Halts(a, c)
  {
    assert forall i :: |a.trace| <= i < |b.trace| ==> c.trace[i] == b.trace[i];
  }

  lemma ChildrenHalt(w: World, key: Key, status: Status)
    ensures Halts(w, ApplyChildren(w, key, status).0)
  {
    var (w1, deployed) := ApplyDeployment(w, key);
    OnePart(w, ApplyChild(key, Cloudflared), w1.state, deployed);
    var end := w1;
    if deployed {
      var (w2, served) := ApplyService(w1, key);
      OnePart(w1, ApplyChild(key, Metrics), w2.state, served);
      PartsOn(w, w1, w2, served);
      end := w2;
      if served {
        var (w3, monitored) := ApplyOther(w2, key, Monitor);
        OnePart(w2, ApplyChild(key, Monitor), w3.state, monitored);
        PartsOn(w, w2, w3, monitored);
        end := w3;
        if monitored {
          var (w4, budgeted) := ApplyOther(w3, key, Budget);
          OnePart(w3, ApplyChild(key, Budget), w4.state, budgeted);
          PartsOn(w, w3, w4, budgeted);
          end := w4;
        }
      }
    }
    ThenHalts(w, end, key, status);
    assert ApplyChildren(w, key, status).0 == UpdateStatus(end, key, status).0;
  }

  lemma MakePart(w: World, name: string)
    ensures var (w1, ready) := MakeTunnel(w, name); Part(w, w1, ready.Ready?)
  {
    var (w1, created) := CreateRemote(w, name);
    OnePart(w, CreateTunnel(name), w1.state, created.Found?);
    if created.Found? {
      var (w2, token) := GetToken(w1, created.value);
      OnePart(w1, ReadToken(created.value), w1.state, token.Found?);
      PartsOn(w, w1, w2, token.Found?);
    }
  }

  lemma EnsurePart(w: World, key: Key, o: TunnelObject)
    ensures var (w1, ready) := EnsureTunnel(w, key, o); Part(w, w1, ready.Ready?)
  {
    var name := RemoteName(key, o.settings);
    var id := o.status.tunnelID;
    var (w1, secret) := GetSecret(w, key);
    OnePart(w, ReadObject(key), w.state, !secret.Failed?);
    if !secret.Failed? {
      if id == "" {
        MakePart(w1, name);
        PartsOn(w, w1, MakeTunnel(w1, name).0, MakeTunnel(w1, name).1.Ready?);
      } else if secret.NotFound? || secret.value == "" {
        var (w2, fetched) := GetToken(w1, id);
        OnePart(w1, ReadToken(id), w.state, !fetched.Failed?);
        PartsOn(w, w1, w2, !fetched.Failed?);
        if fetched.NotFound? {
          MakePart(w2, name);
          PartsOn(w, w2, MakeTunnel(w2, name).0, MakeTunnel(w2, name).1.Ready?);
        }
      }
    }
  }

  lemma ProvisionHalts(w: World, key: Key, o: TunnelObject)
    ensures Halts(w, Provision(w, key, o).0)
  {
    EnsurePart(w, key, o);
    var (w1, ready) := EnsureTunnel(w, key, o);
    if ready.NotReady? {
      ThenHalts(w, w1, key, o.status);
      assert Provision(w, key, o).0 == UpdateStatus(w1, key, o.status).0;
    } else {
      var (w2, stored) := ApplySecret(w1, key, ready.token);
      OnePart(w1, ApplyChild(key, TokenSecret), w2.state, stored);
      PartsOn(w, w1, w2, stored);
      if !stored {
        ThenHalts(w, w2, key, o.status);
        assert Provision(w, key, o).0 == UpdateStatus(w2, key, o.status).0;
      } else {
        RecordHalts(w, w2, key, o.status.(tunnelID := ready.id, tunnelName := ready.name), Provision(w, key, o).0);
      }
    }
  }

  lemma RecordHalts(a: World, w: World, key: Key, status: Status, end: World)
    requires NoneFails(a, w)
    requires var (w1, ok) := PutStatus(w, key, status); end == if ok then ApplyChildren(w1, key, status).0 else w1
    ensures Halts(a, end)
  {
    var (w1, ok) := PutStatus(w, key, status);
    OnePart(w, WriteStatus(key, status), w1.state, ok);
    PartsOn(a, w, w1, ok);
    if ok {
      ChildrenHalt(w1, key, status);
      HaltsOn(a, w1, end);
    } else {
      StopsHalts(a, w1);
    }
  }

  lemma {:induction false} DeleteEachPart(w: World, ids: seq<string>)
    ensures var (w1, ok) := DeleteEach(w, ids); Part(w, w1, ok)
    decreases |ids|
  {
    if ids != [] {
      var (m, ok) := DeleteDNS(w, ids[0]);
      OnePart(w, DeleteRecord(ids[0]), m.state, ok);
      if ok {
        DeleteEachPart(m, ids[1..]);
        PartsOn(w, m, DeleteEach(m, ids[1..]).0, DeleteEach(m, ids[1..]).1);
      }
    }
  }

  lemma DeleteAllPart(w: World, t: string)
    ensures var (w1, ok) := DeleteAllDNS(w, t); Part(w, w1, ok)
  {
    var (m, got) := ListMatches(w, CnamesCommented(w.state.zone, Comment(t)));
    OnePart(w, ListRecords, w.state, got.Found?);
    if got.Found? {
      DeleteEachPart(m, got.value);
      PartsOn(w, m, DeleteEach(m, got.value).0, DeleteEach(m, got.value).1);
    }
  }

  lemma DismantlePart(w: World, key: Key, o: TunnelObject)
    ensures var (w1, r) := Dismantle(w, key, o); Part(w, w1, r.ok)
  {
    var t := o.status.tunnelID;
    DeleteAllPart(w, t);
    var (w1, cleared) := DeleteAllDNS(w, t);
    if cleared {
      var (w2, gone) := DeleteRemote(w1, t);
      OnePart(w1, DeleteTunnel(t), w2.state, gone);
      PartsOn(w, w1, w2, gone);
      if gone {
        var bare := o.(finalizers := o.finalizers - {FINALIZER});
        var (w3, ok) := PutTunnel(w2, key, bare);
        OnePart(w2, WriteTunnel(key, bare), w3.state, ok);
        PartsOn(w, w2, w3, ok);
      }
    }
  }

  /** However the calls of a CloudflareTunnel reconcile are answered, nothing but the report of the status follows
      one that failed, and in a deletion nothing at all. */
  lemma TunnelHalts(w: World, key: Key)
    ensures Halts(w, ReconcileTunnel(w, key).0)
    ensures key in w.state.tunnels && w.state.tunnels[key].deleting ==> Stops(w, ReconcileTunnel(w, key).0)
  {
    var (w1, got) := GetTunnel(w, key);
    OnePart(w, ReadObject(key), w.state, !got.Failed?);
    StopsHalts(w, w1);
    if got.Found? {
      var o := got.value;
      if o.deleting {
        DismantlePart(w1, key, o);
        PartsOn(w, w1, Dismantle(w1, key, o).0, Dismantle(w1, key, o).1.ok);
        StopsHalts(w, Dismantle(w1, key, o).0);
      } else if FINALIZER in o.finalizers {
        ProvisionHalts(w1, key, o);
        HaltsOn(w, w1, Provision(w1, key, o).0);
      } else {
        LiveHalts(w, w1, key, o);
      }
    }
  }

  lemma LiveHalts(w: World, w1: World, key: Key, o: TunnelObject)
    requires NoneFails(w, w1) && GetTunnel(w, key) == (w1, Found(o)) && !o.deleting && FINALIZER !in o.finalizers
    ensures Halts(w, ReconcileTunnel(w, key).0)
  {
    var kept := o.(finalizers := o.finalizers + {FINALIZER});
    var (w2, ok) := PutTunnel(w1, key, kept);
    OnePart(w1, WriteTunnel(key, kept), w2.state, ok);
    PartsOn(w, w1, w2, ok);
    if ok {
      ProvisionHalts(w2, key, kept);
      HaltsOn(w, w2, Provision(w2, key, kept).0);
    } else {
      StopsHalts(w, w2);
    }
  }
}
