/** The identity of a CloudflareTunnel object: what one reconcile creates and which tunnel it records. */
module Accounting {
  import opened Domain
  import opened World
  import opened Protocol
  import Convergence

  /** No call is answered with ErrTunnelNotFound, as is the case with the real client, whose wrapping hides it. */
  ghost predicate NoMissing(script: seq<Reply>) {
    forall i :: 0 <= i < |script| ==> !script[i].fault.Missing?
  }

  predicate Live(s: State, key: Key) {
    key in s.tunnels && !s.tunnels[key].deleting
  }

  function RecordedID(s: State, key: Key): string
    requires key in s.tunnels
  {
    s.tunnels[key].status.tunnelID
  }

  /** The secret of the object holds a token. */
  predicate HasToken(s: State, key: Key) {
    key in s.secrets && s.secrets[key] != ""
  }

  // ----- What the calls of a reconcile say -----

  predicate Arrived(e: Event) {
    e.reply.fault.Pass? || e.reply.fault.Lose?
  }

  /** A tunnel came into being through this call; its identifier is the one in the reply. */
  predicate MakesTunnel(e: Event) {
    e.call.CreateTunnel? && Arrived(e) && FreshTunnel(e.before, e.reply.id)
  }

  /** This call stored a status of the object. */
  predicate StoresStatus(e: Event, key: Key) {
    e.call.WriteStatus? && e.call.key == key && Arrived(e) && key in e.before.tunnels
  }

  predicate StoresID(e: Event, key: Key, id: string) {
    StoresStatus(e, key) && e.call.status.tunnelID == id
  }

  /** None of the calls made a tunnel, and none wrote another identifier than this one. */
  ghost predicate Uneventful(w: World, w1: World, id: string) {
    Extends(w, w1) &&
    forall i :: |w.trace| <= i < |w1.trace| ==>
      !MakesTunnel(w1.trace[i]) && (w1.trace[i].call.WriteStatus? ==> w1.trace[i].call.status.tunnelID == id)
  }

  lemma UneventfulOn(a: World, b: World, c: World, id: string)
    requires Uneventful(a, b, id) && Uneventful(b, c, id)
    ensures Uneventful(a, c, id)
  {
    ExtendsOn(a, b, c);
    forall i | |a.trace| <= i < |c.trace|
      ensures !MakesTunnel(c.trace[i]) && (c.trace[i].call.WriteStatus? ==> c.trace[i].call.status.tunnelID == id)
    {
      assert i < |b.trace| ==> c.trace[i] == b.trace[i];
    }
  }

  // ----- Steps that leave the identity alone -----

  /** Only this tunnel object may differ. */
  predicate OthersKept(a: State, b: State, key: Key) {
    b.tunnels - {key} == a.tunnels - {key}
  }

  /** The object keeps its identity and no tunnel is created. */
  ghost predicate Steady(w: World, w1: World, key: Key) {
    Live(w1.state, key) && key in w.state.tunnels && RecordedID(w1.state, key) == RecordedID(w.state, key) &&
    w1.state.issued == w.state.issued && w1.state.remote == w.state.remote && w1.state.zone == w.state.zone &&
    OthersKept(w.state, w1.state, key) && (NoMissing(w.script) ==> NoMissing(w1.script)) &&
    Uneventful(w, w1, RecordedID(w.state, key))
  }

  lemma SteadyOn(a: World, b: World, c: World, key: Key)
    requires Steady(a, b, key) && Steady(b, c, key)
    ensures Steady(a, c, key)
  {
    UneventfulOn(a, b, c, RecordedID(a.state, key));
  }

  /** One call that is no creation of a tunnel. */
  lemma CallSteady(w: World, call: Call, after: State, key: Key)
    requires Live(w.state, key) && Live(after, key) && RecordedID(after, key) == RecordedID(w.state, key)
    requires after.issued == w.state.issued && after.remote == w.state.remote && after.zone == w.state.zone
    requires OthersKept(w.state, after, key)
    requires !call.CreateTunnel? && (call.WriteStatus? ==> call.status.tunnelID == RecordedID(w.state, key))
    ensures Steady(w, Spend(w, call, after), key)
  {
  }

  lemma StatusSteady(w: World, key: Key, status: Status)
    requires Live(w.state, key) && (status.tunnelID == "" || status.tunnelID == RecordedID(w.state, key))
    ensures Steady(w, UpdateStatus(w, key, status).0, key)
  {
    if status.tunnelID != "" {
      InspectSteady(w, key);
      var (w1, seen) := Inspect(w, key);
      if seen.Some? {
        var full := status.(conditions := Describe(seen.value, status.conditions));
        var w2 := PutStatus(w1, key, full).0;
        CallSteady(w1, WriteStatus(key, full), w2.state, key);
        SteadyOn(w, w1, w2, key);
      }
    }
  }

  lemma InspectSteady(w: World, key: Key)
    requires Live(w.state, key)
    ensures Steady(w, Inspect(w, key).0, key) && Inspect(w, key).0.state == w.state
  {
    var w1 := GetSecret(w, key).0;
    CallSteady(w, ReadObject(key), w.state, key);
    var w2 := GetService(w1, key).0;
    CallSteady(w1, ReadObject(key), w.state, key);
    SteadyOn(w, w1, w2, key);
    var w3 := GetDeployment(w2, key).0;
    CallSteady(w2, ReadObject(key), w.state, key);
    SteadyOn(w, w2, w3, key);
  }

  lemma ChildrenSteady(w: World, key: Key, status: Status)
    requires Live(w.state, key) && status.tunnelID == RecordedID(w.state, key)
    ensures Steady(w, ApplyChildren(w, key, status).0, key)
  {
    var (w1, deployed) := ApplyDeployment(w, key);
    CallSteady(w, ApplyChild(key, Cloudflared), w1.state, key);
    var end := w1;
    if deployed {
      var (w2, served) := ApplyService(w1, key);
      CallSteady(w1, ApplyChild(key, Metrics), w2.state, key);
      SteadyOn(w, w1, w2, key);
      end := w2;
      if served {
        var (w3, monitored) := ApplyOther(w2, key, Monitor);
        CallSteady(w2, ApplyChild(key, Monitor), w3.state, key);
        SteadyOn(w, w2, w3, key);
        end := w3;
        if monitored {
          end := ApplyOther(w3, key, Budget).0;
          CallSteady(w3, ApplyChild(key, Budget), end.state, key);
          SteadyOn(w, w3, end, key);
        }
      }
    }
    StatusSteady(end, key, status);
    SteadyOn(w, end, UpdateStatus(end, key, status).0, key);
  }

  // ----- Creating a tunnel -----

  /** A tunnel comes into being, under an identifier never issued before. */
  ghost predicate CreatesOne(a: set<string>, b: set<string>, id: string) {
    id != "" && id !in a && b == a + {id}
  }

  ghost predicate CreatesAtMostOne(a: set<string>, b: set<string>) {
    b == a || exists id :: CreatesOne(a, b, id)
  }

  /** The tunnel objects are untouched, and so is everything else but the remote tunnels. */
  ghost predicate OnlyRemote(a: State, b: State) {
    b == a.(remote := b.remote, issued := b.issued)
  }

  /** The zone is as it was, and so is every tunnel there was. */
  ghost predicate Spared(a: State, b: State) {
    b.zone == a.zone && forall t :: t in a.remote && t in a.issued ==> t in b.remote && b.remote[t] == a.remote[t]
  }

  lemma MakeTunnelAccount(w: World, name: string)
    ensures var (w1, ready) := MakeTunnel(w, name);
      OnlyRemote(w.state, w1.state) && Spared(w.state, w1.state) && (NoMissing(w.script) ==> NoMissing(w1.script)) &&
      CreatesAtMostOne(w.state.issued, w1.state.issued) &&
        (ready.Ready? ==> CreatesOne(w.state.issued, w1.state.issued, ready.id))
  {
    var (w1, created) := CreateRemote(w, name);
    if FreshTunnel(w.state, Head(w).id) && Arrives(w) {
      assert CreatesOne(w.state.issued, w1.state.issued, Head(w).id);
    }
  }

  /** The second call, which asks for the token, is answered with ErrTunnelNotFound. */
  predicate TokenMissing(w: World) {
    |w.script| > 1 && w.script[1].fault.Missing?
  }

  /** What reconcileTunnel does: a recorded identifier is reused and nothing is created, unless no token is
      stored and the token call reports ErrTunnelNotFound; a stored token is used again. */
  ghost predicate TunnelEnsured(w: World, w1: World, key: Key, id: string, ready: Ready) {
    OnlyRemote(w.state, w1.state) && Spared(w.state, w1.state) && CreatesAtMostOne(w.state.issued, w1.state.issued) &&
    (ready.Ready? ==>
       CreatesOne(w.state.issued, w1.state.issued, ready.id) ||
         (ready.id == id != "" && w1.state.issued == w.state.issued)) &&
    (id != "" && (HasToken(w.state, key) || !TokenMissing(w)) ==>
       w1.state.issued == w.state.issued && (ready.Ready? ==> ready.id == id)) &&
    (id != "" && HasToken(w.state, key) && ready.Ready? ==> ready.token == w.state.secrets[key])
  }

  /** A tunnel of this object goes by the name in its settings, or by the object's own if they give none. */
  predicate GoesBy(key: Key, s: Settings, name: string) {
    (s.nameOverride != "" ==> name == s.nameOverride) && (s.nameOverride == "" ==> name == key.name)
  }

  /** The last call asked for the token of this tunnel, and this was the acknowledged reply. */
  predicate JustRead(w: World, w1: World, id: string, token: string) {
    |w1.trace| > |w.trace| && var e := w1.trace[|w1.trace| - 1];
    e.call == ReadToken(id) && e.reply.fault.Pass? && e.reply.id == token
  }

  /** What reconcileTunnel hands on: the name that every tunnel it creates gets, and with it the stored token of
      the recorded tunnel, or if no identifier or no token is stored, the one it has just read. */
  ghost predicate HandedOn(w: World, w1: World, key: Key, o: TunnelObject, ready: Ready) {
    w.trace <= w1.trace &&
    (forall i :: |w.trace| <= i < |w1.trace| && w1.trace[i].call.CreateTunnel? ==>
       GoesBy(key, o.settings, w1.trace[i].call.name)) &&
    (ready.Ready? ==>
       GoesBy(key, o.settings, ready.name) &&
       if o.status.tunnelID != "" && HasToken(w.state, key) then ready.token == w.state.secrets[key]
       else JustRead(w, w1, ready.id, ready.token))
  }

  lemma MakeTunnelHandsOn(w: World, m: World, key: Key, o: TunnelObject)
    requires w.trace <= m.trace && (forall i :: |w.trace| <= i < |m.trace| ==> !m.trace[i].call.CreateTunnel?)
    requires o.status.tunnelID == "" || !HasToken(w.state, key)
    ensures var (w1, ready) := MakeTunnel(m, RemoteName(key, o.settings)); HandedOn(w, w1, key, o, ready)
  {
    var name := RemoteName(key, o.settings);
    var (w1, created) := CreateRemote(m, name);
    assert w1.trace[|m.trace|].call == CreateTunnel(name);
    if created.Found? {
      var (w2, token) := GetToken(w1, created.value);
      assert token.Found? ==> JustRead(w, w2, created.value, token.value);
    }
  }

  /** The same for the token and the name that are handed on. */
  lemma EnsureTunnelHandsOn(w: World, key: Key, o: TunnelObject)
    ensures var (w1, ready) := EnsureTunnel(w, key, o); HandedOn(w, w1, key, o, ready)
  {
    var (w1, secret) := GetSecret(w, key);
    if !secret.Failed? {
      var id := o.status.tunnelID;
      if id == "" {
        MakeTunnelHandsOn(w, w1, key, o);
      } else if !HasToken(w.state, key) {
        var (w2, fetched) := GetToken(w1, id);
        if fetched.NotFound? {
          MakeTunnelHandsOn(w, w2, key, o);
        }
      }
    }
  }

  lemma EnsureTunnelAccount(w: World, key: Key, o: TunnelObject)
    ensures var (w1, ready) := EnsureTunnel(w, key, o);
      TunnelEnsured(w, w1, key, o.status.tunnelID, ready) && HandedOn(w, w1, key, o, ready) &&
      (NoMissing(w.script) ==> NoMissing(w1.script))
  {
    EnsureTunnelHandsOn(w, key, o);
    var name := RemoteName(key, o.settings);
    var (w1, secret) := GetSecret(w, key);
    if !secret.Failed? {
      if o.status.tunnelID == "" {
        MakeTunnelAccount(w1, name);
      } else if secret.NotFound? || secret.value == "" {
        var (w2, fetched) := GetToken(w1, o.status.tunnelID);
        if fetched.NotFound? { MakeTunnelAccount(w2, name); }
      }
    }
  }

  // ----- One reconcile of a live object -----

  /** What one reconcile of a live object does to its identity. */
  ghost predicate Accounted(w: World, w1: World, key: Key, ok: bool)
    requires key in w.state.tunnels
  {
    Live(w1.state, key) && Spared(w.state, w1.state) && CreatesAtMostOne(w.state.issued, w1.state.issued) &&
    var before, after := RecordedID(w.state, key), RecordedID(w1.state, key);
    (after == before || CreatesOne(w.state.issued, w1.state.issued, after)) &&
    (ok ==> after != "" && (w1.state.issued == w.state.issued || CreatesOne(w.state.issued, w1.state.issued, after))) &&
    (before != "" && (HasToken(w.state, key) || NoMissing(w.script)) ==>
     after == before && w1.state.issued == w.state.issued)
  }

  lemma AccountedOn(a: World, b: World, c: World, key: Key, ok: bool)
    requires Steady(a, b, key) && b.state.secrets == a.state.secrets && Accounted(b, c, key, ok)
    ensures Accounted(a, c, key, ok)
  {
  }

  /** The reconcile ends with the recorded identifier it had, or with the one of its ready tunnel. */
  lemma EndAccounted(w: World, w1: World, w4: World, key: Key, ready: Ready, ok: bool)
    requires Live(w.state, key) && Live(w4.state, key) && ready.Ready?
    requires TunnelEnsured(w, w1, key, RecordedID(w.state, key), ready) && (NoMissing(w.script) ==> !TokenMissing(w))
    requires w4.state.issued == w1.state.issued && w4.state.remote == w1.state.remote && w4.state.zone == w1.state.zone
    requires RecordedID(w4.state, key) == ready.id || (RecordedID(w4.state, key) == RecordedID(w.state, key) && !ok)
    ensures Accounted(w, w4, key, ok)
  {
  }

  /** From a ready tunnel to the end of the reconcile. */
  lemma RecordAccount(w: World, w1: World, key: Key, o: TunnelObject, ready: Ready)
    requires Live(w.state, key) && o.status == w.state.tunnels[key].status && ready.Ready?
    requires (w1, ready) == EnsureTunnel(w, key, o)
    ensures var (w4, r) := Provision(w, key, o); Accounted(w, w4, key, r.ok)
  {
    EnsureTunnelAccount(w, key, o);
    var (w2, stored) := ApplySecret(w1, key, ready.token);
    var (w4, r) := Provision(w, key, o);
    if !stored {
      StatusSteady(w2, key, o.status);
      assert w4 == UpdateStatus(w2, key, o.status).0;
    } else {
      var status := o.status.(tunnelID := ready.id, tunnelName := ready.name);
      var (w3, ok) := PutStatus(w2, key, status);
      if ok {
        ChildrenSteady(w3, key, status);
        assert (w4, r) == ApplyChildren(w3, key, status);
      } else {
        assert (w4, r) == (w3, Result(false, false));
      }
    }
    EndAccounted(w, w1, w4, key, ready, r.ok);
  }

  lemma ProvisionAccount(w: World, key: Key, o: TunnelObject)
    requires Live(w.state, key) && o.status == w.state.tunnels[key].status
    ensures var (w1, r) := Provision(w, key, o); Accounted(w, w1, key, r.ok)
  {
    EnsureTunnelAccount(w, key, o);
    var (w1, ready) := EnsureTunnel(w, key, o);
    if ready.NotReady? {
      StatusSteady(w1, key, o.status);
      assert Provision(w, key, o).0 == UpdateStatus(w1, key, o.status).0;
    } else {
      RecordAccount(w, w1, key, o, ready);
    }
  }

  lemma ReconcileAccount(w: World, key: Key)
    requires Live(w.state, key)
    ensures var (w1, r) := ReconcileTunnel(w, key); Accounted(w, w1, key, r.ok)
  {
    var (w1, got) := GetTunnel(w, key);
    CallSteady(w, ReadObject(key), w.state, key);
    if got.Found? {
      var o := got.value;
      if FINALIZER in o.finalizers {
        ProvisionAccount(w1, key, o);
        AccountedOn(w, w1, Provision(w1, key, o).0, key, Provision(w1, key, o).1.ok);
      } else {
        var kept := o.(finalizers := o.finalizers + {FINALIZER});
        var (w2, ok) := PutTunnel(w1, key, kept);
        CallSteady(w1, WriteTunnel(key, kept), w2.state, key);
        SteadyOn(w, w1, w2, key);
        if ok {
          ProvisionAccount(w2, key, kept);
          AccountedOn(w, w2, Provision(w2, key, kept).0, key, Provision(w2, key, kept).1.ok);
        }
      }
    }
  }

  // ----- What ErrTunnelNotFound would do -----

  function After(w: World, key: Key): State {
    ReconcileTunnel(w, key).0.state
  }

  function Says(fault: Fault, id: string): Reply {
    Reply(fault, id, Key("", ""), [])
  }

  lemma MissingMakesTunnel(w: World, key: Key, o: TunnelObject, id: string, rest: seq<Reply>)
    requires o.status.tunnelID != "" && !HasToken(w.state, key) && FreshTunnel(w.state, id)
    requires w.script == [Says(Fault.Pass, ""), Says(Missing, ""), Says(Fault.Pass, id), Says(Fault.Pass, "")] + rest
    ensures var (w1, ready) := EnsureTunnel(w, key, o);
      ready == Ready(id, RemoteName(key, o.settings), "") && w1.script == rest && w1.state.tunnels == w.state.tunnels
  {
    var w1 := GetSecret(w, key).0;
    assert w1.script == [Says(Missing, ""), Says(Fault.Pass, id), Says(Fault.Pass, "")] + rest;
    var w2 := GetToken(w1, o.status.tunnelID).0;
    assert w2.script == [Says(Fault.Pass, id), Says(Fault.Pass, "")] + rest;
    var w3 := CreateRemote(w2, RemoteName(key, o.settings)).0;
    assert w3.script == [Says(Fault.Pass, "")] + rest;
    assert GetToken(w3, id).0.script == rest;
  }

  lemma RecordsNewTunnel(w: World, key: Key, o: TunnelObject, id: string)
    requires Live(w.state, key) && o.status == w.state.tunnels[key].status
    requires o.status.tunnelID != "" && !HasToken(w.state, key) && FreshTunnel(w.state, id)
    requires w.script == [Says(Fault.Pass, ""), Says(Missing, ""), Says(Fault.Pass, id), Says(Fault.Pass, "")] +
                         [Says(Fault.Pass, ""), Says(Fault.Pass, "")]
    ensures var w1 := Provision(w, key, o).0;
      key in w1.state.tunnels && RecordedID(w1.state, key) == id
  {
    var yes := Says(Fault.Pass, "");
    MissingMakesTunnel(w, key, o, id, [yes, yes]);
    var w2 := EnsureTunnel(w, key, o).0;
    var w3 := ApplySecret(w2, key, "").0;
    assert w3.script == [yes];
    var status := o.status.(tunnelID := id, tunnelName := RemoteName(key, o.settings));
    var w4 := PutStatus(w3, key, status).0;
    assert w4.state.tunnels[key].status == status;
    ChildrenSteady(w4, key, status);
    assert Provision(w, key, o) == ApplyChildren(w4, key, status);
  }

  /** Under these replies a reconcile stores another identifier than the one recorded. */
  predicate Replaces(s: State, key: Key, script: seq<Reply>)
    requires key in s.tunnels
  {
    var s1 := After(World(s, script, TunnelActor(key), []), key);
    key in s1.tunnels && RecordedID(s1, key) != RecordedID(s, key)
  }

  lemma ReplacementExists(s: State, key: Key) returns (script: seq<Reply>)
    requires Live(s, key) && RecordedID(s, key) != "" && !HasToken(s, key)
    ensures Replaces(s, key, script)
  {
    var id := Convergence.FreshIdentifier(s.issued + {RecordedID(s, key)});
    var yes := Says(Fault.Pass, "");
    var later := [yes, Says(Missing, ""), Says(Fault.Pass, id), yes] + [yes, yes];
    var o := s.tunnels[key];
    if FINALIZER in o.finalizers {
      script := [yes] + later;
      var w1 := GetTunnel(World(s, script, TunnelActor(key), []), key).0;
      assert w1.script == later;
      RecordsNewTunnel(w1, key, o, id);
    } else {
      script := [yes, yes] + later;
      var kept := o.(finalizers := o.finalizers + {FINALIZER});
      var w1 := GetTunnel(World(s, script, TunnelActor(key), []), key).0;
      assert w1.script == [yes] + later;
      var w2 := PutTunnel(w1, key, kept).0;
      assert w2.script == later;
      RecordsNewTunnel(w2, key, kept, id);
    }
  }

  /** The recorded identifier of a live object is replaced by a reconcile, under some replies, if and only if
      no token is stored for it. By Accounted such replies hold an ErrTunnelNotFound, which the real client
      never reports. */
  lemma MissingReplacesIdentity(s: State, key: Key)
    requires Live(s, key) && RecordedID(s, key) != ""
    ensures (exists script :: Replaces(s, key, script)) <==> !HasToken(s, key)
  {
    if HasToken(s, key) {
      forall script ensures !Replaces(s, key, script) {
        ReconcileAccount(World(s, script, TunnelActor(key), []), key);
      }
    } else {
      var script := ReplacementExists(s, key);
      assert Replaces(s, key, script);
    }
  }
}
