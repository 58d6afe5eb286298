/** The calls of a CloudflareTunnel reconcile in their order: the token first, then the secret that holds it, then
    the identifier, then the other children. */
module TunnelCalls {
  import opened Domain
  import opened World
  import opened Protocol
  import opened Accounting

  /** The last acknowledged answer to a token call since w was about this tunnel, and said this. */
  ghost predicate TokenRead(w: World, w1: World, id: string, token: string) {
    exists i :: |w.trace| <= i < |w1.trace| &&
      w1.trace[i].call == ReadToken(id) && w1.trace[i].reply.fault.Pass? && w1.trace[i].reply.id == token &&
      forall j :: i < j < |w1.trace| ==> !w1.trace[j].call.ReadToken?
  }

  /** This call stored a status under an identifier the object had before, or when its secret held the token that
      had been read for it. */
  ghost predicate Backed(w: World, w1: World, key: Key, i: nat)
    requires i < |w1.trace| && w1.trace[i].call.WriteStatus?
  {
    var e := w1.trace[i];
    var id := e.call.status.tunnelID;
    (key in w.state.tunnels && RecordedID(w.state, key) == id) ||
    (key in e.before.secrets &&
     exists j :: |w.trace| <= j < i && w1.trace[j].call == ReadToken(id) && w1.trace[j].reply.fault.Pass? &&
                 w1.trace[j].reply.id == e.before.secrets[key])
  }

  ghost predicate AllBacked(w: World, w1: World, key: Key) {
    w.trace <= w1.trace && forall i :: |w.trace| <= i < |w1.trace| && w1.trace[i].call.WriteStatus? ==>
      Backed(w, w1, key, i)
  }

  /** This child of the object was applied, and that was acknowledged. */
  ghost predicate Applied(w: World, w1: World, key: Key, child: Child) {
    exists i :: |w.trace| <= i < |w1.trace| &&
      w1.trace[i].call == ApplyChild(key, child) && w1.trace[i].reply.fault.Pass?
  }

  lemma AppliedOn(a: World, b: World, c: World, d: World, key: Key, child: Child)
    requires a.trace <= b.trace && b.trace <= c.trace && c.trace <= d.trace && Applied(b, c, key, child)
    ensures Applied(a, d, key, child)
  {
    var i :| |b.trace| <= i < |c.trace| &&
      c.trace[i].call == ApplyChild(key, child) && c.trace[i].reply.fault.Pass?;
    assert d.trace[i] == c.trace[i];
  }

  /** A stretch of calls that neither asks for tokens nor makes tunnels nor touches secrets, and writes the status
      under this identifier only. */
  ghost predicate Plain(w: World, w1: World, id: string) {
    w.trace <= w1.trace && w1.state.secrets == w.state.secrets &&
    forall i :: |w.trace| <= i < |w1.trace| ==>
      !w1.trace[i].call.ReadToken? && !w1.trace[i].call.CreateTunnel? &&
      w1.trace[i].before.secrets == w.state.secrets &&
      (w1.trace[i].call.WriteStatus? ==> w1.trace[i].call.status.tunnelID == id)
  }

  lemma PlainOn(a: World, b: World, c: World, id: string)
    requires Plain(a, b, id) && Plain(b, c, id)
    ensures Plain(a, c, id)
  {
    forall i | |a.trace| <= i < |c.trace|
      ensures !c.trace[i].call.ReadToken? && !c.trace[i].call.CreateTunnel? &&
        c.trace[i].before.secrets == a.state.secrets &&
        (c.trace[i].call.WriteStatus? ==> c.trace[i].call.status.tunnelID == id)
    {
      assert i < |b.trace| ==> c.trace[i] == b.trace[i];
    }
  }

  lemma OnePlain(w: World, call: Call, after: State, id: string)
    requires !call.ReadToken? && !call.CreateTunnel? && (call.WriteStatus? ==> call.status.tunnelID == id)
    requires after.secrets == w.state.secrets
    ensures Plain(w, Spend(w, call, after), id)
  {
  }

  lemma StatusPlain(w: World, key: Key, status: Status)
    ensures Plain(w, UpdateStatus(w, key, status).0, status.tunnelID)
  {
    if status.tunnelID != "" {
      var id := status.tunnelID;
      var w1 := GetSecret(w, key).0;
      OnePlain(w, ReadObject(key), w.state, id);
      var w2 := GetService(w1, key).0;
      OnePlain(w1, ReadObject(key), w.state, id);
      PlainOn(w, w1, w2, id);
      var w3 := GetDeployment(w2, key).0;
      OnePlain(w2, ReadObject(key), w.state, id);
      PlainOn(w, w2, w3, id);
      var (m, seen) := Inspect(w, key);
      if seen.Some? {
        var full := status.(conditions := Describe(seen.value, status.conditions));
        var w4 := PutStatus(m, key, full).0;
        OnePlain(m, WriteStatus(key, full), w4.state, id);
        PlainOn(w, m, w4, id);
      }
    }
  }

  lemma ThenStatusPlain(a: World, w: World, key: Key, status: Status)
    requires Plain(a, w, status.tunnelID)
    ensures Plain(a, UpdateStatus(w, key, status).0, status.tunnelID)
  {
    StatusPlain(w, key, status);
    PlainOn(a, w, UpdateStatus(w, key, status).0, status.tunnelID);
  }

  /** The children after the secret: on success each has been applied. */
  lemma ChildrenCalls(w: World, key: Key, status: Status)
    ensures var (w1, r) := ApplyChildren(w, key, status);
      Plain(w, w1, status.tunnelID) &&
      (r.ok ==> forall child :: child != TokenSecret ==> Applied(w, w1, key, child))
  {
    var id := status.tunnelID;
    var (w1, deployed) := ApplyDeployment(w, key);
    OnePlain(w, ApplyChild(key, Cloudflared), w1.state, id);
    var (w2, served) := ApplyService(w1, key);
    OnePlain(w1, ApplyChild(key, Metrics), w2.state, id);
    var (w3, monitored) := ApplyOther(w2, key, Monitor);
    OnePlain(w2, ApplyChild(key, Monitor), w3.state, id);
    var (w4, budgeted) := ApplyOther(w3, key, Budget);
    OnePlain(w3, ApplyChild(key, Budget), w4.state, id);
    PlainOn(w, w1, w2, id);
    PlainOn(w, w2, w3, id);
    PlainOn(w, w3, w4, id);
    var end := if !deployed then w1 else if !served then w2 else if !monitored then w3 else w4;
    ThenStatusPlain(w, end, key, status);
    var (last, r) := ApplyChildren(w, key, status);
    assert last == UpdateStatus(end, key, status).0;
    if r.ok {
      StatusPlain(w4, key, status);
      AllApplied(w, w1, w2, w3, w4, last, key);
    }
  }

  lemma AllApplied(w: World, w1: World, w2: World, w3: World, w4: World, last: World, key: Key)
    requires (w1, true) == ApplyDeployment(w, key) && (w2, true) == ApplyService(w1, key)
    requires (w3, true) == ApplyOther(w2, key, Monitor) && (w4, true) == ApplyOther(w3, key, Budget)
    requires w4.trace <= last.trace
    ensures forall child :: child != TokenSecret ==> Applied(w, last, key, child)
  {
    var n := |w.trace|;
    assert last.trace[n].call == ApplyChild(key, Cloudflared) && last.trace[n].reply.fault.Pass?;
    assert last.trace[n + 1].call == ApplyChild(key, Metrics) && last.trace[n + 1].reply.fault.Pass?;
    assert last.trace[n + 2].call == ApplyChild(key, Monitor) && last.trace[n + 2].reply.fault.Pass?;
    assert last.trace[n + 3].call == ApplyChild(key, Budget) && last.trace[n + 3].reply.fault.Pass?;
  }

  // ----- The whole reconcile of a live object -----

  /** What the calls of a reconcile of a live object say. */
  ghost predicate InOrder(w: World, w1: World, key: Key, ok: bool)
    requires key in w.state.tunnels
  {
    AllBacked(w, w1, key) &&
    (forall i :: |w.trace| <= i < |w1.trace| && w1.trace[i].call.CreateTunnel? ==>
       GoesBy(key, w.state.tunnels[key].settings, w1.trace[i].call.name)) &&
    (ok ==>
       key in w1.state.tunnels && key in w1.state.secrets && (forall child :: Applied(w, w1, key, child)) &&
       if RecordedID(w.state, key) != "" && HasToken(w.state, key) then w1.state.secrets[key] == w.state.secrets[key]
       else TokenRead(w, w1, RecordedID(w1.state, key), w1.state.secrets[key]))
  }

  /** Calls before the order begins: a read of the object, and the write of its finalizer. */
  ghost predicate Preliminary(a: World, w: World, key: Key) {
    a.trace <= w.trace && w.state.secrets == a.state.secrets && key in a.state.tunnels && key in w.state.tunnels &&
    RecordedID(w.state, key) == RecordedID(a.state, key) &&
    w.state.tunnels[key].settings == a.state.tunnels[key].settings &&
    forall i :: |a.trace| <= i < |w.trace| ==> !w.trace[i].call.WriteStatus? && !w.trace[i].call.CreateTunnel?
  }

  lemma InOrderAfter(a: World, w: World, w1: World, key: Key, ok: bool)
    requires Preliminary(a, w, key) && InOrder(w, w1, key, ok)
    ensures InOrder(a, w1, key, ok)
  {
    assert forall i :: |a.trace| <= i < |w.trace| ==> w1.trace[i] == w.trace[i];
    forall i | |a.trace| <= i < |w1.trace| && w1.trace[i].call.WriteStatus?
      ensures Backed(a, w1, key, i)
    {
      assert Backed(w, w1, key, i);
    }
    if ok {
      forall child ensures Applied(a, w1, key, child) {
        AppliedOn(a, w, w1, w1, key, child);
      }
    }
  }

  lemma PreliminaryCall(a: World, w: World, call: Call, after: State, key: Key)
    requires Preliminary(a, w, key) && !call.WriteStatus? && !call.CreateTunnel?
    requires after.secrets == w.state.secrets && key in after.tunnels &&
      RecordedID(after, key) == RecordedID(w.state, key) &&
      after.tunnels[key].settings == w.state.tunnels[key].settings
    ensures Preliminary(a, Spend(w, call, after), key) && InOrder(a, Spend(w, call, after), key, false)
  {
  }

  /** From the token to the end, when the calls that follow it are plain. */
  lemma TokenThenPlain(w: World, w1: World, m: World, end: World, key: Key, o: TunnelObject, ready: Ready, id: string)
    requires key in w.state.tunnels && o.status == w.state.tunnels[key].status &&
      o.settings == w.state.tunnels[key].settings
    requires HandedOn(w, w1, key, o, ready)
    requires WritesNoStatus(w, w1)
    requires m == w1 || (ready.Ready? && m == ApplySecret(w1, key, ready.token).0)
    requires Plain(m, end, id)
    requires id == RecordedID(w.state, key) || (ready.Ready? && id == ready.id && ApplySecret(w1, key, ready.token).1)
    requires id != RecordedID(w.state, key) ==> m != w1
    requires ready.Ready? ==>
      (ready.id == RecordedID(w.state, key) || !(RecordedID(w.state, key) != "" && HasToken(w.state, key)))
    ensures AllBacked(w, end, key)
    ensures forall i :: |w.trace| <= i < |end.trace| && end.trace[i].call.CreateTunnel? ==>
      GoesBy(key, o.settings, end.trace[i].call.name)
  {
    assert forall i :: |w.trace| <= i < |w1.trace| ==> end.trace[i] == w1.trace[i];
    assert forall i :: |w1.trace| <= i < |m.trace| ==> end.trace[i] == m.trace[i] && m.trace[i].call.ApplyChild?;
    forall i | |w.trace| <= i < |end.trace| && end.trace[i].call.WriteStatus?
      ensures Backed(w, end, key, i)
    {
      assert i >= |m.trace|;
      if id != RecordedID(w.state, key) {
        var j := |w1.trace| - 1;
        assert end.trace[j] == w1.trace[j];
        assert end.trace[i].before.secrets[key] == ready.token;
      }
    }
    forall i | |w.trace| <= i < |end.trace| && end.trace[i].call.CreateTunnel?
      ensures GoesBy(key, o.settings, end.trace[i].call.name)
    {
      assert i < |m.trace|;
    }
  }

  ghost predicate WritesNoStatus(w: World, w1: World) {
    w.trace <= w1.trace && forall i :: |w.trace| <= i < |w1.trace| ==> !w1.trace[i].call.WriteStatus?
  }

  lemma MakeWritesNothing(w: World, m: World, name: string)
    requires WritesNoStatus(w, m)
    ensures WritesNoStatus(w, MakeTunnel(m, name).0)
  {
  }

  lemma EnsureWritesNothing(w: World, key: Key, o: TunnelObject)
    ensures WritesNoStatus(w, EnsureTunnel(w, key, o).0)
  {
    var name := RemoteName(key, o.settings);
    var (w1, secret) := GetSecret(w, key);
    assert WritesNoStatus(w, w1);
    if !secret.Failed? {
      if o.status.tunnelID == "" {
        MakeWritesNothing(w, w1, name);
      } else if !HasToken(w.state, key) {
        var (w2, fetched) := GetToken(w1, o.status.tunnelID);
        assert WritesNoStatus(w, w2);
        MakeWritesNothing(w, w2, name);
      }
    }
  }

  /** The end of a successful reconcile: the secret holds the token that was handed on. */
  lemma SecretHolds(w: World, w1: World, w2: World, end: World, key: Key, o: TunnelObject, ready: Ready)
    requires HandedOn(w, w1, key, o, ready) && ready.Ready? && (w2, true) == ApplySecret(w1, key, ready.token)
    requires Plain(w2, end, ready.id)
    ensures key in end.state.secrets && Applied(w, end, key, TokenSecret) &&
      if o.status.tunnelID != "" && HasToken(w.state, key) then end.state.secrets[key] == w.state.secrets[key]
      else TokenRead(w, end, ready.id, end.state.secrets[key])
  {
    var n := |w1.trace|;
    assert end.trace[n] == w2.trace[n];
    if !(o.status.tunnelID != "" && HasToken(w.state, key)) {
      assert end.trace[n - 1] == w1.trace[n - 1];
      forall j | n - 1 < j < |end.trace| ensures !end.trace[j].call.ReadToken? {
        assert j == n ==> end.trace[j] == w2.trace[j];
      }
    }
  }

  lemma ProvisionInOrder(w: World, key: Key, o: TunnelObject)
    requires Live(w.state, key) && o.status == w.state.tunnels[key].status &&
      o.settings == w.state.tunnels[key].settings
    ensures var (w1, r) := Provision(w, key, o); InOrder(w, w1, key, r.ok)
  {
    EnsureTunnelAccount(w, key, o);
    EnsureWritesNothing(w, key, o);
    var (w1, ready) := EnsureTunnel(w, key, o);
    var (end, r) := Provision(w, key, o);
    if ready.NotReady? {
      StatusPlain(w1, key, o.status);
      assert (end, r.ok) == (UpdateStatus(w1, key, o.status).0, false);
      TokenThenPlain(w, w1, w1, end, key, o, ready, o.status.tunnelID);
    } else {
      ReadyInOrder(w, w1, key, o, ready);
    }
  }

  lemma ReadyInOrder(w: World, w1: World, key: Key, o: TunnelObject, ready: Ready)
    requires Live(w.state, key) && o.status == w.state.tunnels[key].status &&
      o.settings == w.state.tunnels[key].settings
    requires (w1, ready) == EnsureTunnel(w, key, o) && ready.Ready?
    requires TunnelEnsured(w, w1, key, o.status.tunnelID, ready) && HandedOn(w, w1, key, o, ready)
    requires WritesNoStatus(w, w1)
    ensures var (end, r) := Provision(w, key, o); InOrder(w, end, key, r.ok)
  {
    var (w2, stored) := ApplySecret(w1, key, ready.token);
    if !stored {
      var end := UpdateStatus(w2, key, o.status).0;
      assert Provision(w, key, o).0 == end && !Provision(w, key, o).1.ok;
      UnstoredInOrder(w, w1, w2, key, o, ready);
    } else {
      var status := o.status.(tunnelID := ready.id, tunnelName := ready.name);
      var (w3, ok) := PutStatus(w2, key, status);
      assert Provision(w, key, o) == if ok then ApplyChildren(w3, key, status) else (w3, Result(false, false));
      if ok {
        RecordedInOrder(w, w1, w2, w3, key, o, ready, status);
      } else {
        OnePlain(w2, WriteStatus(key, status), w3.state, ready.id);
        TokenThenPlain(w, w1, w2, w3, key, o, ready, ready.id);
      }
    }
  }

  /** The secret could not be applied: the status is written under the identifier the object had. */
  lemma UnstoredInOrder(w: World, w1: World, w2: World, key: Key, o: TunnelObject, ready: Ready)
    requires Live(w.state, key) && o.status == w.state.tunnels[key].status &&
      o.settings == w.state.tunnels[key].settings
    requires TunnelEnsured(w, w1, key, o.status.tunnelID, ready) && HandedOn(w, w1, key, o, ready) && ready.Ready?
    requires WritesNoStatus(w, w1) && w2 == ApplySecret(w1, key, ready.token).0
    ensures InOrder(w, UpdateStatus(w2, key, o.status).0, key, false)
  {
    StatusPlain(w2, key, o.status);
    TokenThenPlain(w, w1, w2, UpdateStatus(w2, key, o.status).0, key, o, ready, o.status.tunnelID);
  }

  /** The identifier has been recorded: what is left is to apply the children. */
  lemma RecordedInOrder(w: World, w1: World, w2: World, w3: World, key: Key, o: TunnelObject, ready: Ready,
                        status: Status)
    requires Live(w.state, key) && o.status == w.state.tunnels[key].status &&
      o.settings == w.state.tunnels[key].settings
    requires TunnelEnsured(w, w1, key, o.status.tunnelID, ready) && HandedOn(w, w1, key, o, ready) && ready.Ready?
    requires WritesNoStatus(w, w1)
    requires (w2, true) == ApplySecret(w1, key, ready.token) && (w3, true) == PutStatus(w2, key, status)
    requires status.tunnelID == ready.id
    ensures var (end, r) := ApplyChildren(w3, key, status); InOrder(w, end, key, r.ok)
  {
    var (end, r) := ApplyChildren(w3, key, status);
    OnePlain(w2, WriteStatus(key, status), w3.state, ready.id);
    ChildrenCalls(w3, key, status);
    ChildrenSteady(w3, key, status);
    PlainOn(w2, w3, end, ready.id);
    TokenThenPlain(w, w1, w2, end, key, o, ready, ready.id);
    if r.ok {
      SecretHolds(w, w1, w2, end, key, o, ready);
      forall child ensures Applied(w, end, key, child) {
        if child != TokenSecret { AppliedOn(w, w3, end, end, key, child); }
      }
    }
  }

  /** However the calls of a reconcile of a live object are answered: a tunnel it makes gets the object's name, and a
      new identifier is stored only while the secret holds the token that was read for it. When it succeeds, each
      of the five children has been applied, and the secret holds the token it held, if an identifier was recorded
      with a token, or the one last read for the tunnel that is recorded now. */
  lemma ReconcileInOrder(w: World, key: Key)
    requires Live(w.state, key)
    ensures var (w1, r) := ReconcileTunnel(w, key); InOrder(w, w1, key, r.ok)
  {
    var (w1, got) := GetTunnel(w, key);
    PreliminaryCall(w, w, ReadObject(key), w.state, key);
    if got.Found? {
      var o := got.value;
      if FINALIZER in o.finalizers {
        ProvisionInOrder(w1, key, o);
        InOrderAfter(w, w1, Provision(w1, key, o).0, key, Provision(w1, key, o).1.ok);
      } else {
        var kept := o.(finalizers := o.finalizers + {FINALIZER});
        var (w2, ok) := PutTunnel(w1, key, kept);
        PreliminaryCall(w, w1, WriteTunnel(key, kept), w2.state, key);
        if ok {
          ProvisionInOrder(w2, key, kept);
          InOrderAfter(w, w2, Provision(w2, key, kept).0, key, Provision(w2, key, kept).1.ok);
        }
      }
    }
  }
}
