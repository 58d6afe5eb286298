/** The identity of a tunnel object over whole runs: the recorded identifier is permanent, and every tunnel
    created for the object is accounted for by the calls that were made. */
module Identity {
  import opened Domain
  import opened World
  import opened Protocol
  import opened ZoneLaws
  import opened Invariant
  import opened IngressFrames
  import opened TunnelSafety
  import opened Runs
  import opened Accounting

  // ----- The calls of one reconcile -----

  /** From w to w1 exactly one tunnel was made, by event c. */
  ghost predicate MakesAt(w: World, w1: World, c: nat) {
    Extends(w, w1) && |w.trace| <= c < |w1.trace| && MakesTunnel(w1.trace[c]) &&
    w1.trace[c].reply.id !in w.state.issued && w1.state.issued == w.state.issued + {w1.trace[c].reply.id} &&
    forall i :: |w.trace| <= i < |w1.trace| && i != c ==> !MakesTunnel(w1.trace[i])
  }

  /** The statuses stored for the object carry one of these identifiers. */
  ghost predicate WritesOnly(w: World, w1: World, key: Key, ids: set<string>) {
    w.trace <= w1.trace &&
    forall i :: |w.trace| <= i < |w1.trace| && StoresStatus(w1.trace[i], key) ==>
      w1.trace[i].call.status.tunnelID in ids
  }

  lemma WritesOnlyOn(a: World, b: World, c: World, key: Key, ids: set<string>)
    requires WritesOnly(a, b, key, ids) && WritesOnly(b, c, key, ids)
    ensures WritesOnly(a, c, key, ids)
  {
    forall i | |a.trace| <= i < |c.trace| && StoresStatus(c.trace[i], key)
      ensures c.trace[i].call.status.tunnelID in ids
    {
      assert i < |b.trace| ==> c.trace[i] == b.trace[i];
    }
  }

  lemma UneventfulWrites(w: World, w1: World, key: Key, id: string)
    requires Uneventful(w, w1, id)
    ensures WritesOnly(w, w1, key, {id}) && Extends(w, w1)
  {
  }

  lemma MakesThen(a: World, b: World, c: World, at: nat, id: string)
    requires MakesAt(a, b, at) && Uneventful(b, c, id) && c.state.issued == b.state.issued
    ensures MakesAt(a, c, at) && c.trace[at] == b.trace[at]
  {
    ExtendsOn(a, b, c);
    forall i | |a.trace| <= i < |c.trace| && i != at ensures !MakesTunnel(c.trace[i]) {
      assert i < |b.trace| ==> c.trace[i] == b.trace[i];
    }
  }

  lemma ThenMakes(a: World, b: World, c: World, at: nat, id: string)
    requires Uneventful(a, b, id) && b.state.issued == a.state.issued && MakesAt(b, c, at)
    ensures MakesAt(a, c, at)
  {
    ExtendsOn(a, b, c);
    forall i | |a.trace| <= i < |c.trace| && i != at ensures !MakesTunnel(c.trace[i]) {
      assert i < |b.trace| ==> c.trace[i] == b.trace[i];
    }
  }

  /** reconcileTunnel made no tunnel, or it made the one it hands on. */
  ghost predicate EnsureTraced(w: World, w1: World, key: Key, ready: Ready, id: string) {
    (Uneventful(w, w1, id) && w1.state.issued == w.state.issued && (ready.Ready? ==> ready.id == id != "")) ||
    (id == "" && exists c: nat :: MadeReady(w, w1, key, ready, c))
  }

  /** Event c made the tunnel that is handed on, and no status was stored. */
  ghost predicate MadeReady(w: World, w1: World, key: Key, ready: Ready, c: nat) {
    MakesAt(w, w1, c) && WritesOnly(w, w1, key, {}) && (ready.Ready? ==> ready.id == w1.trace[c].reply.id)
  }

  lemma MakeTrace(w: World, key: Key, name: string)
    ensures var (w1, ready) := MakeTunnel(w, name); EnsureTraced(w, w1, key, ready, "")
  {
    var (m, created) := CreateRemote(w, name);
    var (w1, ready) := MakeTunnel(w, name);
    var c := |w.trace|;
    assert w1.trace[c] == m.trace[c];
    if MakesTunnel(w1.trace[c]) {
      assert MadeReady(w, w1, key, ready, c);
    }
  }

  lemma EnsureTrace(w: World, key: Key, o: TunnelObject)
    requires NoMissing(w.script)
    ensures var (w1, ready) := EnsureTunnel(w, key, o); EnsureTraced(w, w1, key, ready, o.status.tunnelID)
  {
    var (m, secret) := GetSecret(w, key);
    var (w1, ready) := EnsureTunnel(w, key, o);
    if !secret.Failed? && o.status.tunnelID == "" {
      var name := RemoteName(key, o.settings);
      MakeTrace(m, key, name);
      assert (w1, ready) == MakeTunnel(m, name);
      if c: nat :| MadeReady(m, w1, key, ready, c) {
        ThenMakes(w, m, w1, c, "");
        WritesOnlyOn(w, m, w1, key, {});
        assert MadeReady(w, w1, key, ready, c);
      } else {
        UneventfulOn(w, m, w1, "");
      }
    }
  }

  /** From w to w1 event c made a tunnel. Its identifier was stored later and is the recorded one, or it was
      never stored and none is recorded. */
  ghost predicate Adopted(w: World, w1: World, key: Key, c: nat) {
    MakesAt(w, w1, c) && key in w1.state.tunnels && var id := w1.trace[c].reply.id;
    (RecordedID(w1.state, key) == id && WritesOnly(w, w1, key, {"", id}) &&
     exists f :: c < f < |w1.trace| && StoresID(w1.trace[f], key, id)) ||
    (RecordedID(w1.state, key) == "" && WritesOnly(w, w1, key, {""}))
  }

  /** What one reconcile of a live object does, told from its calls. */
  ghost predicate Entered(w: World, w1: World, key: Key) {
    key in w.state.tunnels && Live(w1.state, key) && Extends(w, w1) && OthersKept(w.state, w1.state, key) &&
    var before := RecordedID(w.state, key);
    ((Uneventful(w, w1, before) && RecordedID(w1.state, key) == before && w1.state.issued == w.state.issued) ||
     (before == "" && exists c: nat :: Adopted(w, w1, key, c)))
  }

  lemma SteadyEntered(a: World, b: World, c: World, key: Key)
    requires Steady(a, b, key) && Entered(b, c, key)
    ensures Entered(a, c, key)
  {
    ExtendsOn(a, b, c);
    var before := RecordedID(a.state, key);
    if at: nat :| before == "" && Adopted(b, c, key, at) {
      ThenMakes(a, b, c, at, "");
      UneventfulWrites(a, b, key, "");
      if RecordedID(c.state, key) == "" {
        WritesOnlyOn(a, b, c, key, {""});
      } else {
        WritesOnlyOn(a, b, c, key, {"", c.trace[at].reply.id});
      }
      assert Adopted(a, c, key, at);
    } else {
      UneventfulOn(a, b, c, before);
    }
  }

  /** The write of the status that carries the new identifier takes effect or not. */
  lemma StoreAdopts(w: World, w2: World, w3: World, key: Key, status: Status, c: nat)
    requires Live(w2.state, key) && RecordedID(w2.state, key) == "" && WritesOnly(w, w2, key, {""})
    requires MakesAt(w, w2, c) && w2.trace[c].reply.id == status.tunnelID && w3 == PutStatus(w2, key, status).0
    ensures Adopted(w, w3, key, c) && Live(w3.state, key) && Extends(w, w3) && OthersKept(w2.state, w3.state, key)
    ensures w3.trace[c] == w2.trace[c] &&
      (PutStatus(w2, key, status).1 ==> RecordedID(w3.state, key) == status.tunnelID)
  {
    MakesThen(w, w2, w3, c, status.tunnelID);
    if Arrives(w2) {
      assert StoresID(w3.trace[|w2.trace|], key, status.tunnelID);
      WritesOnlyOn(w, w2, w3, key, {"", status.tunnelID});
    } else {
      WritesOnlyOn(w, w2, w3, key, {""});
    }
  }

  /** A tunnel that was adopted stays so. */
  lemma StaysAdopted(w: World, w3: World, w4: World, key: Key, c: nat)
    requires Adopted(w, w3, key, c) && RecordedID(w3.state, key) == w3.trace[c].reply.id && Steady(w3, w4, key)
    ensures Adopted(w, w4, key, c) && Extends(w, w4) && Live(w4.state, key) && OthersKept(w3.state, w4.state, key)
  {
    var id := w3.trace[c].reply.id;
    MakesThen(w, w3, w4, c, id);
    UneventfulWrites(w3, w4, key, id);
    WritesOnlyOn(w, w3, w4, key, {"", id});
    var f :| c < f < |w3.trace| && StoresID(w3.trace[f], key, id);
    assert StoresID(w4.trace[f], key, id);
  }

  /** After a new tunnel was made, its reconcile stores its identifier or ends without another write. */
  lemma NewTunnelEntered(w: World, w1: World, key: Key, o: TunnelObject, ready: Ready, c: nat)
    requires Live(w.state, key) && o.status == w.state.tunnels[key].status && o.status.tunnelID == ""
    requires (w1, ready) == EnsureTunnel(w, key, o) && w1.state.tunnels == w.state.tunnels && ready.Ready?
    requires MadeReady(w, w1, key, ready, c)
    ensures Entered(w, Provision(w, key, o).0, key)
  {
    var (w2, stored) := ApplySecret(w1, key, ready.token);
    assert Uneventful(w1, w2, "");
    MakesThen(w, w1, w2, c, "");
    WritesOnlyOn(w, w1, w2, key, {""});
    if !stored {
      assert Provision(w, key, o).0 == w2;
      assert Adopted(w, w2, key, c);
    } else {
      var status := o.status.(tunnelID := ready.id, tunnelName := ready.name);
      var (w3, ok) := PutStatus(w2, key, status);
      StoreAdopts(w, w2, w3, key, status, c);
      if ok {
        ChildrenSteady(w3, key, status);
        StaysAdopted(w, w3, ApplyChildren(w3, key, status).0, key, c);
        assert Provision(w, key, o).0 == ApplyChildren(w3, key, status).0;
      } else {
        assert Provision(w, key, o).0 == w3;
      }
    }
  }

  /** Storing the status again, with the identifier it has, and applying the children. */
  lemma RestoreSteady(w: World, key: Key, status: Status)
    requires Live(w.state, key) && status.tunnelID == RecordedID(w.state, key)
    ensures var (w1, ok) := PutStatus(w, key, status);
      Steady(w, if ok then ApplyChildren(w1, key, status).0 else w1, key)
  {
    var (w1, ok) := PutStatus(w, key, status);
    CallSteady(w, WriteStatus(key, status), w1.state, key);
    if ok {
      ChildrenSteady(w1, key, status);
      SteadyOn(w, w1, ApplyChildren(w1, key, status).0, key);
    }
  }

  /** The same with an identifier that was recorded before. */
  lemma OldTunnelEntered(w: World, w1: World, key: Key, o: TunnelObject, ready: Ready)
    requires Live(w.state, key) && o.status == w.state.tunnels[key].status && (w1, ready) == EnsureTunnel(w, key, o)
    requires Steady(w, w1, key) && (ready.Ready? ==> ready.id == o.status.tunnelID)
    ensures Steady(w, Provision(w, key, o).0, key)
  {
    var end := Provision(w, key, o).0;
    var m := w1;
    if ready.NotReady? {
      StatusSteady(w1, key, o.status);
    } else {
      var (w2, stored) := ApplySecret(w1, key, ready.token);
      CallSteady(w1, ApplyChild(key, TokenSecret), w2.state, key);
      SteadyOn(w, w1, w2, key);
      m := w2;
      if stored {
        RestoreSteady(w2, key, o.status.(tunnelID := ready.id, tunnelName := ready.name));
      } else {
        StatusSteady(w2, key, o.status);
      }
    }
    SteadyOn(w, m, end, key);
  }

  lemma ProvisionEntered(w: World, key: Key, o: TunnelObject)
    requires Live(w.state, key) && o.status == w.state.tunnels[key].status && NoMissing(w.script)
    ensures Entered(w, Provision(w, key, o).0, key)
  {
    var (w1, ready) := EnsureTunnel(w, key, o);
    EnsureTunnelAccount(w, key, o);
    EnsureTrace(w, key, o);
    if c: nat :| o.status.tunnelID == "" && MadeReady(w, w1, key, ready, c) {
      if ready.Ready? {
        NewTunnelEntered(w, w1, key, o, ready, c);
      } else {
        assert Provision(w, key, o).0 == w1;
        assert Adopted(w, w1, key, c);
      }
    } else {
      assert Steady(w, w1, key);
      OldTunnelEntered(w, w1, key, o, ready);
    }
  }

  lemma LiveEntered(w: World, key: Key)
    requires Live(w.state, key) && NoMissing(w.script)
    ensures Entered(w, ReconcileTunnel(w, key).0, key)
  {
    var (w1, got) := GetTunnel(w, key);
    CallSteady(w, ReadObject(key), w.state, key);
    if got.Found? {
      var o := got.value;
      if FINALIZER in o.finalizers {
        ProvisionEntered(w1, key, o);
        SteadyEntered(w, w1, Provision(w1, key, o).0, key);
      } else {
        var kept := o.(finalizers := o.finalizers + {FINALIZER});
        var (w2, ok) := PutTunnel(w1, key, kept);
        CallSteady(w1, WriteTunnel(key, kept), w2.state, key);
        SteadyOn(w, w1, w2, key);
        if ok {
          ProvisionEntered(w2, key, kept);
          SteadyEntered(w, w2, Provision(w2, key, kept).0, key);
        }
      }
    }
  }

  // ----- A reconcile of an object that is being deleted -----

  /** No tunnel was made and no status written. */
  ghost predicate Withdraws(w: World, w1: World, key: Key) {
    Uneventful(w, w1, "") && WritesOnly(w, w1, key, {}) && w1.state.issued == w.state.issued
  }

  lemma {:induction false} DeleteEachWithdraws(w: World, key: Key, ids: seq<string>)
    ensures var w1 := DeleteEach(w, ids).0; Withdraws(w, w1, key) && w1.state.tunnels == w.state.tunnels
    decreases |ids|
  {
    if ids != [] {
      var (m, ok) := DeleteDNS(w, ids[0]);
      if ok {
        DeleteEachWithdraws(m, key, ids[1..]);
        WithdrawsOn(w, m, DeleteEach(m, ids[1..]).0, key);
      }
    }
  }

  lemma WithdrawsOn(a: World, b: World, c: World, key: Key)
    requires Withdraws(a, b, key) && Withdraws(b, c, key)
    ensures Withdraws(a, c, key)
  {
    UneventfulOn(a, b, c, "");
    WritesOnlyOn(a, b, c, key, {});
  }

  lemma DeleteAllWithdraws(w: World, key: Key, t: string)
    ensures var w1 := DeleteAllDNS(w, t).0; Withdraws(w, w1, key) && w1.state.tunnels == w.state.tunnels
  {
    var (m, got) := ListMatches(w, CnamesCommented(w.state.zone, Comment(t)));
    if got.Found? {
      DeleteEachWithdraws(m, key, got.value);
      WithdrawsOn(w, m, DeleteEach(m, got.value).0, key);
    }
  }

  lemma DismantleWithdraws(w: World, key: Key, o: TunnelObject)
    requires key in w.state.tunnels
    ensures var w1 := Dismantle(w, key, o).0;
      Withdraws(w, w1, key) && OthersKept(w.state, w1.state, key) &&
      (key in w1.state.tunnels ==> RecordedID(w1.state, key) == RecordedID(w.state, key))
  {
    DeleteAllWithdraws(w, key, o.status.tunnelID);
    var (w1, cleared) := DeleteAllDNS(w, o.status.tunnelID);
    if cleared {
      var (w2, gone) := DeleteRemote(w1, o.status.tunnelID);
      WithdrawsOn(w, w1, w2, key);
      if gone {
        WithdrawsOn(w, w2, PutTunnel(w2, key, o.(finalizers := o.finalizers - {FINALIZER})).0, key);
      }
    }
  }

  lemma DeletingWithdraws(w: World, key: Key)
    requires key in w.state.tunnels ==> w.state.tunnels[key].deleting
    ensures var w1 := ReconcileTunnel(w, key).0;
      Withdraws(w, w1, key) && OthersKept(w.state, w1.state, key) &&
      (key in w1.state.tunnels ==> key in w.state.tunnels && RecordedID(w1.state, key) == RecordedID(w.state, key))
  {
    var (w1, got) := GetTunnel(w, key);
    if got.Found? && FINALIZER in got.value.finalizers {
      DismantleWithdraws(w1, key, got.value);
      WithdrawsOn(w, w1, Dismantle(w1, key, got.value).0, key);
    }
  }

  // ----- Runs -----

  /** No reconcile of the step is answered with ErrTunnelNotFound. */
  ghost predicate NeverMissing(step: Step) {
    step.SyncTunnel? ==> NoMissing(step.script)
  }

  ghost predicate NeverMissingIn(steps: seq<Step>) {
    forall i :: 0 <= i < |steps| ==> NeverMissing(steps[i])
  }

  /** A step that does not touch the identity of the object: its calls make no tunnel for it and store no other
      identifier. */
  ghost predicate Undisturbed(w: World, w1: World, key: Key) {
    key in w.state.tunnels && key in w1.state.tunnels && RecordedID(w1.state, key) == RecordedID(w.state, key) &&
    w.trace <= w1.trace && w.state.issued <= w1.state.issued &&
    forall i :: |w.trace| <= i < |w1.trace| ==> Harmless(w1.trace[i], key, RecordedID(w.state, key))
  }

  predicate Harmless(e: Event, key: Key, id: string) {
    e.actor == TunnelActor(key) ==> !MakesTunnel(e) && (StoresStatus(e, key) ==> e.call.status.tunnelID == id)
  }

  lemma IngressUndisturbed(w: World, ing: Key, key: Key)
    requires ValidZone(w.state.zone) && w.actor == IngressActor(ing) && key in w.state.tunnels
    ensures Undisturbed(w, ReconcileIngress(w, ing).0, key)
  {
    IngressExtends(w, ing);
    IngressFrame(w, ing);
  }

  /** The object of a reconcile may have been given a tunnel; nothing else of this kind happens in a step. */
  ghost predicate Stepped(w: World, w1: World, key: Key) {
    Undisturbed(w, w1, key) || (w.actor == TunnelActor(key) && Entered(w, w1, key))
  }

  lemma OthersStay(a: State, b: State, other: Key, key: Key)
    requires OthersKept(a, b, other) && key != other && key in a.tunnels
    ensures key in b.tunnels && b.tunnels[key] == a.tunnels[key]
  {
    assert key in a.tunnels - {other};
    assert key in b.tunnels - {other} && (b.tunnels - {other})[key] == (a.tunnels - {other})[key];
  }

  lemma TunnelStepped(w: World, other: Key, key: Key)
    requires w.actor == TunnelActor(other) && NoMissing(w.script) && key in w.state.tunnels
    requires key in ReconcileTunnel(w, other).0.state.tunnels
    ensures Stepped(w, ReconcileTunnel(w, other).0, key)
  {
    var w1 := ReconcileTunnel(w, other).0;
    if Live(w.state, other) {
      LiveEntered(w, other);
    } else {
      DeletingWithdraws(w, other);
    }
    if key != other {
      OthersStay(w.state, w1.state, other, key);
    }
  }

  /** The world in which the calls of a step are made. */
  function Acting(w: World, step: Step): World {
    match step
    case SyncIngress(key, script) => w.(script := script, actor := IngressActor(key))
    case SyncTunnel(key, script) => w.(script := script, actor := TunnelActor(key))
    case _ => w
  }

  lemma TakeStepped(w: World, step: Step, key: Key)
    requires Safe(w) && NeverMissing(step) && key in w.state.tunnels && key in Take(w, step).state.tunnels
    ensures Stepped(Acting(w, step), Take(w, step), key)
  {
    match step
    case SyncIngress(ing, _) => IngressUndisturbed(Acting(w, step), ing, key);
    case SyncTunnel(other, _) => TunnelStepped(Acting(w, step), other, key);
    case _ => UserUndisturbed(w, step, key);
  }

  lemma UserUndisturbed(w: World, step: Step, key: Key)
    requires !step.SyncIngress? && !step.SyncTunnel? && key in w.state.tunnels && key in Take(w, step).state.tunnels
    ensures Undisturbed(w, Take(w, step), key)
  {
  }

  /** The object is stored after each of the steps. */
  ghost predicate StaysStored(w: World, steps: seq<Step>, key: Key)
    decreases |steps|
  {
    steps == [] || (key in Run(w, steps).state.tunnels && StaysStored(w, steps[..|steps| - 1], key))
  }

  lemma {:induction false} IdentityKept(w: World, steps: seq<Step>, key: Key)
    requires Safe(w) && NeverMissingIn(steps) && key in w.state.tunnels && StaysStored(w, steps, key)
    requires RecordedID(w.state, key) != ""
    ensures var w1 := Run(w, steps); key in w1.state.tunnels && RecordedID(w1.state, key) == RecordedID(w.state, key)
    decreases |steps|
  {
    if steps != [] {
      var n := |steps| - 1;
      IdentityKept(w, steps[..n], key);
      RunSafe(w, steps[..n]);
      TakeStepped(Run(w, steps[..n]), steps[n], key);
    }
  }

  /** Once an identifier is recorded for an object, it never changes while the object is stored, whatever else
      happens, up to and including the reconciles of its deletion. */
  lemma IdentityIsPermanent(s: State, early: seq<Step>, late: seq<Step>, key: Key)
    requires Untouched(s) && NeverMissingIn(late) && key in Run(Begin(s), early).state.tunnels
    requires RecordedID(Run(Begin(s), early).state, key) != "" && StaysStored(Run(Begin(s), early), late, key)
    ensures var w := Run(Begin(s), early);
      key in Run(w, late).state.tunnels && RecordedID(Run(w, late).state, key) == RecordedID(w.state, key)
  {
    BeginSafe(s);
    RunSafe(Begin(s), early);
    IdentityKept(Run(Begin(s), early), late, key);
  }

  // ----- The account of an object -----

  /** The events from a point on that made a tunnel for the object. */
  function Creations(trace: seq<Event>, key: Key, from: nat): set<nat> {
    set i | from <= i < |trace| && trace[i].actor == TunnelActor(key) && MakesTunnel(trace[i])
  }

  /** No later call of the object's reconciles stored the identifier of the tunnel that event i made. */
  ghost predicate Forgotten(trace: seq<Event>, key: Key, i: nat)
    requires i < |trace|
  {
    forall j :: i < j < |trace| && trace[j].actor == TunnelActor(key) ==> !StoresID(trace[j], key, trace[i].reply.id)
  }

  /** The creations whose status write never took effect. */
  ghost function Abandoned(trace: seq<Event>, key: Key, from: nat): set<nat> {
    set i | i in Creations(trace, key, from) && Forgotten(trace, key, i)
  }

  /** Event c made the recorded tunnel, and every other tunnel that was made is forgotten. */
  ghost predicate Holds(trace: seq<Event>, key: Key, from: nat, c: nat, id: string) {
    c in Creations(trace, key, from) && trace[c].reply.id == id &&
    (exists f :: c < f < |trace| && trace[f].actor == TunnelActor(key) && StoresID(trace[f], key, id)) &&
    forall i :: i in Creations(trace, key, from) && i != c ==> Forgotten(trace, key, i) && trace[i].reply.id != id
  }

  /** The books are right: what was made is recorded or forgotten. */
  ghost predicate Balanced(w: World, key: Key, from: nat) {
    key in w.state.tunnels && from <= |w.trace| &&
    (forall i :: i in Creations(w.trace, key, from) ==> w.trace[i].reply.id in w.state.issued) &&
    var id := RecordedID(w.state, key);
    if id == "" then forall i :: i in Creations(w.trace, key, from) ==> Forgotten(w.trace, key, i)
    else exists c: nat :: Holds(w.trace, key, from, c, id)
  }

  lemma UndisturbedForgotten(w: World, w1: World, key: Key, i: nat)
    requires Undisturbed(w, w1, key) && i < |w.trace| && Forgotten(w.trace, key, i)
    requires w.trace[i].reply.id != RecordedID(w.state, key)
    ensures Forgotten(w1.trace, key, i)
  {
    forall j | i < j < |w1.trace| && w1.trace[j].actor == TunnelActor(key)
      ensures !StoresID(w1.trace[j], key, w1.trace[i].reply.id)
    {
      assert j < |w.trace| ==> w1.trace[j] == w.trace[j];
    }
  }

  lemma UndisturbedCreations(w: World, w1: World, key: Key, from: nat)
    requires Undisturbed(w, w1, key) && from <= |w.trace|
    ensures Creations(w1.trace, key, from) == Creations(w.trace, key, from)
  {
    forall i ensures i in Creations(w1.trace, key, from) <==> i in Creations(w.trace, key, from) {
      if from <= i < |w1.trace| {
        assert i < |w.trace| ==> w1.trace[i] == w.trace[i];
      }
    }
  }

  lemma UndisturbedBalanced(w: World, w1: World, key: Key, from: nat)
    requires Undisturbed(w, w1, key) && Balanced(w, key, from)
    ensures Balanced(w1, key, from)
  {
    UndisturbedCreations(w, w1, key, from);
    var id := RecordedID(w.state, key);
    forall i | i in Creations(w.trace, key, from) && Forgotten(w.trace, key, i) && w.trace[i].reply.id != id
      ensures Forgotten(w1.trace, key, i)
    {
      UndisturbedForgotten(w, w1, key, i);
    }
    if id != "" {
      var c: nat :| Holds(w.trace, key, from, c, id);
      var f :| c < f < |w.trace| && w.trace[f].actor == TunnelActor(key) && StoresID(w.trace[f], key, id);
      assert w1.trace[f] == w.trace[f] && w1.trace[c] == w.trace[c];
      assert Holds(w1.trace, key, from, c, id);
    }
  }

  lemma AdoptedCreations(w: World, w1: World, key: Key, from: nat, c: nat)
    requires w.actor == TunnelActor(key) && Adopted(w, w1, key, c) && from <= |w.trace|
    ensures Creations(w1.trace, key, from) == Creations(w.trace, key, from) + {c}
  {
    forall i ensures i in Creations(w1.trace, key, from) <==> i in Creations(w.trace, key, from) + {c} {
      if from <= i < |w1.trace| {
        assert i < |w.trace| ==> w1.trace[i] == w.trace[i];
      }
    }
  }

  /** The writes of a reconcile that made tunnel c do not bring back a tunnel that was forgotten. */
  lemma AdoptedForgotten(w: World, w1: World, key: Key, c: nat, i: nat)
    requires Adopted(w, w1, key, c) && i < |w.trace| && Forgotten(w.trace, key, i)
    requires w.trace[i].reply.id in w.state.issued && w.trace[i].reply.id != ""
    ensures Forgotten(w1.trace, key, i)
  {
    forall j | i < j < |w1.trace| && w1.trace[j].actor == TunnelActor(key)
      ensures !StoresID(w1.trace[j], key, w1.trace[i].reply.id)
    {
      assert j < |w.trace| ==> w1.trace[j] == w.trace[j];
    }
  }

  lemma AdoptedBalanced(w: World, w1: World, key: Key, from: nat, c: nat)
    requires w.actor == TunnelActor(key) && key in w.state.tunnels && RecordedID(w.state, key) == ""
    requires Adopted(w, w1, key, c) && Balanced(w, key, from)
    ensures Balanced(w1, key, from)
  {
    AdoptedCreations(w, w1, key, from, c);
    var id := RecordedID(w1.state, key);
    forall i | i in Creations(w.trace, key, from)
      ensures Forgotten(w1.trace, key, i) && w1.trace[i] == w.trace[i] && w1.trace[i].reply.id != w1.trace[c].reply.id
    {
      AdoptedForgotten(w, w1, key, c, i);
    }
    if id == "" {
      assert Forgotten(w1.trace, key, c);
    } else {
      var f :| c < f < |w1.trace| && StoresID(w1.trace[f], key, id);
      assert w1.trace[f].actor == TunnelActor(key);
      assert Holds(w1.trace, key, from, c, id);
    }
  }

  lemma SteppedBalanced(w: World, w1: World, key: Key, from: nat)
    requires Stepped(w, w1, key) && Balanced(w, key, from)
    ensures Balanced(w1, key, from)
  {
    if Undisturbed(w, w1, key) {
      UndisturbedBalanced(w, w1, key, from);
    } else if c: nat :| RecordedID(w.state, key) == "" && Adopted(w, w1, key, c) {
      AdoptedBalanced(w, w1, key, from, c);
    }
  }

  lemma ReconcileMakesNoObject(w: World, other: Key, key: Key)
    requires NoMissing(w.script) && key !in w.state.tunnels
    ensures key !in ReconcileTunnel(w, other).0.state.tunnels
  {
    var w1 := ReconcileTunnel(w, other).0;
    if Live(w.state, other) { LiveEntered(w, other); } else { DeletingWithdraws(w, other); }
    if key != other {
      assert key !in w.state.tunnels - {other};
    }
  }

  /** Only a user makes an object appear. */
  lemma AppearsByApply(w: World, step: Step, key: Key)
    requires Safe(w) && NeverMissing(step) && key !in w.state.tunnels && key in Take(w, step).state.tunnels
    ensures step.ApplyTunnel? && step.key == key
  {
    match step
    case SyncIngress(ing, _) => IngressFrame(Acting(w, step), ing);
    case SyncTunnel(other, _) => ReconcileMakesNoObject(Acting(w, step), other, key);
    case ApplyIngress(_, _, _, _, _, _) =>
    case RemoveIngress(_) =>
    case ApplyTunnel(_, _, _, _, _) =>
    case RemoveTunnel(_) =>
    case ChangeCluster(_, _, _) =>
  }

  /** An object that has just appeared has no identity, and nothing was made for it yet. */
  lemma AppearsBalanced(w: World, step: Step, key: Key)
    requires Safe(w) && NeverMissing(step) && key !in w.state.tunnels && key in Take(w, step).state.tunnels
    ensures Balanced(Take(w, step), key, |w.trace|)
  {
    AppearsByApply(w, step, key);
  }

  lemma NextBalanced(w: World, step: Step, key: Key, from: nat)
    requires Safe(w) && NeverMissing(step) && Balanced(w, key, from) && key in Take(w, step).state.tunnels
    ensures Balanced(Take(w, step), key, from)
  {
    TakeStepped(w, step, key);
    ActingBalanced(w, Acting(w, step), key, from);
    SteppedBalanced(Acting(w, step), Take(w, step), key, from);
  }

  lemma ActingBalanced(w: World, w1: World, key: Key, from: nat)
    requires w1.state == w.state && w1.trace == w.trace && Balanced(w, key, from)
    ensures Balanced(w1, key, from)
  {
  }

  lemma {:induction false} RunBalanced(w: World, steps: seq<Step>, key: Key)
    requires Safe(w) && NeverMissingIn(steps) && key !in w.state.tunnels && steps != [] && StaysStored(w, steps, key)
    ensures Balanced(Run(w, steps), key, |w.trace|)
    decreases |steps|
  {
    var n := |steps| - 1;
    RunSafe(w, steps[..n]);
    if n == 0 {
      assert steps[..n] == [];
      AppearsBalanced(w, steps[n], key);
    } else {
      RunBalanced(w, steps[..n], key);
      NextBalanced(Run(w, steps[..n]), steps[n], key, |w.trace|);
    }
  }

  lemma BalanceCounts(w: World, key: Key, from: nat)
    requires Balanced(w, key, from)
    ensures |Creations(w.trace, key, from)| ==
              (if RecordedID(w.state, key) == "" then 0 else 1) + |Abandoned(w.trace, key, from)|
  {
    var made, lost := Creations(w.trace, key, from), Abandoned(w.trace, key, from);
    var id := RecordedID(w.state, key);
    if id == "" {
      assert lost == made;
    } else {
      var c: nat :| Holds(w.trace, key, from, c, id);
      assert !Forgotten(w.trace, key, c);
      assert made == lost + {c};
    }
  }

  /** For an object that appears after the early steps and then stays stored: the tunnels that its reconciles made
      are the recorded one, if any, and those whose status write never took effect, one for each reconcile that
      failed between creating a tunnel and recording it. */
  lemma TunnelAccounting(s: State, early: seq<Step>, late: seq<Step>, key: Key)
    requires Untouched(s) && NeverMissingIn(late) && late != []
    requires key !in Run(Begin(s), early).state.tunnels && StaysStored(Run(Begin(s), early), late, key)
    ensures var from, w := |Run(Begin(s), early).trace|, Run(Run(Begin(s), early), late);
      key in w.state.tunnels &&
      |Creations(w.trace, key, from)| ==
        (if RecordedID(w.state, key) == "" then 0 else 1) + |Abandoned(w.trace, key, from)|
  {
    var w := Run(Begin(s), early);
    BeginSafe(s);
    RunSafe(Begin(s), early);
    RunBalanced(w, late, key);
    BalanceCounts(Run(w, late), key, |w.trace|);
  }
}
