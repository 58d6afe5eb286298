/** What a CloudflareTunnel reconcile answers: when it succeeds, when it asks to be requeued, and what it has
    reported by then. */
module TunnelAnswers {
  import opened Domain
  import opened World
  import opened Protocol
  import opened StatusLaws
  import opened Accounting

  /** This call did what it was made for. That the recorded tunnel does not exist is an answer too. */
  ghost predicate Succeeded(e: Event, key: Key) {
    match e.call
    case ReadToken(t) =>
      (e.reply.fault.Pass? && t in e.before.remote) ||
      (e.reply.fault.Missing? && key in e.before.tunnels && t == RecordedID(e.before, key))
    case CreateTunnel(_) => e.reply.fault.Pass? && FreshTunnel(e.before, e.reply.id)
    case ListRecords =>
      e.reply.fault.Pass? && key in e.before.tunnels &&
      IsListing(e.reply.listing, CnamesCommented(e.before.zone, Comment(RecordedID(e.before, key))))
    case DeleteRecord(id) => e.reply.fault.Pass? && id in e.before.zone
    case WriteTunnel(k, _) => e.reply.fault.Pass? && k in e.before.tunnels
    case WriteStatus(k, _) => e.reply.fault.Pass? && k in e.before.tunnels
    case _ => e.reply.fault.Pass?
  }

  ghost predicate AllSucceeded(w: World, w1: World, key: Key) {
    w.trace <= w1.trace && forall i :: |w.trace| <= i < |w1.trace| ==> Succeeded(w1.trace[i], key)
  }

  /** The last call stored a status. */
  ghost predicate EndsStored(w: World, w1: World, key: Key) {
    |w1.trace| > |w.trace| && w1.trace[|w1.trace| - 1].call.WriteStatus? && Succeeded(w1.trace[|w1.trace| - 1], key)
  }

  /** The answer is a success if and only if every call was, and it asks to be requeued if and only if the last
      call stored a status while no replica is available. */
  ghost predicate Answers(w: World, w1: World, key: Key, r: Result) {
    w.trace <= w1.trace && (r.ok <==> AllSucceeded(w, w1, key)) &&
    (r.requeue <==> EndsStored(w, w1, key) && !Serving(w1.state, key))
  }

  lemma SucceededOn(a: World, b: World, c: World, key: Key)
    requires a.trace <= b.trace && b.trace <= c.trace
    ensures AllSucceeded(a, c, key) <==> AllSucceeded(a, b, key) && AllSucceeded(b, c, key)
  {
    assert forall i :: |a.trace| <= i < |b.trace| ==> c.trace[i] == b.trace[i];
  }

  lemma OneCall(w: World, call: Call, after: State, key: Key)
    ensures var w1 := Spend(w, call, after);
      w.trace <= w1.trace && |w1.trace| == |w.trace| + 1 &&
      w1.trace[|w.trace|] == Event(w.actor, call, w.state, Head(w)) &&
      (AllSucceeded(w, w1, key) <==> Succeeded(Event(w.actor, call, w.state, Head(w)), key))
  {
  }

  /** One more call after a stretch. */
  lemma ThenCall(a: World, w: World, call: Call, after: State, key: Key)
    requires a.trace <= w.trace
    ensures var w1 := Spend(w, call, after);
      a.trace <= w1.trace && |w1.trace| == |w.trace| + 1 &&
      w1.trace[|w.trace|] == Event(w.actor, call, w.state, Head(w)) &&
      (AllSucceeded(a, w1, key) <==>
         AllSucceeded(a, w, key) && Succeeded(Event(w.actor, call, w.state, Head(w)), key))
  {
    OneCall(w, call, after, key);
    SucceededOn(a, w, Spend(w, call, after), key);
  }

  // ----- The status write -----

  lemma InspectAnswer(w: World, key: Key)
    ensures var (w1, seen) := Inspect(w, key);
      w1.state == w.state && w.trace <= w1.trace && |w1.trace| > |w.trace| &&
      (seen.Some? <==> AllSucceeded(w, w1, key)) && !w1.trace[|w1.trace| - 1].call.WriteStatus? &&
      (seen.Some? ==> seen.value == Observed(w.state, key))
  {
    var w1 := GetSecret(w, key).0;
    ThenCall(w, w, ReadObject(key), w.state, key);
    var w2 := GetService(w1, key).0;
    ThenCall(w, w1, ReadObject(key), w.state, key);
    var w3 := GetDeployment(w2, key).0;
    ThenCall(w, w2, ReadObject(key), w.state, key);
  }

  lemma StatusAnswer(w: World, key: Key, status: Status)
    requires key in w.state.tunnels
    ensures var (w1, r) := UpdateStatus(w, key, status);
      Answers(w, w1, key, r) && (status.tunnelID != "" ==> |w1.trace| > |w.trace|)
  {
    if status.tunnelID != "" {
      InspectAnswer(w, key);
      var (w1, seen) := Inspect(w, key);
      if seen.Some? {
        var full := status.(conditions := Describe(seen.value, status.conditions));
        ThenCall(w, w1, WriteStatus(key, full), PutStatus(w1, key, full).0.state, key);
      }
    }
  }

  /** The status write after a stretch in which all went well. */
  lemma ThenStatus(a: World, w: World, key: Key, status: Status)
    requires key in w.state.tunnels && AllSucceeded(a, w, key) && status.tunnelID != ""
    ensures var (w1, r) := UpdateStatus(w, key, status); Answers(a, w1, key, r)
  {
    StatusAnswer(w, key, status);
    SucceededOn(a, w, UpdateStatus(w, key, status).0, key);
  }

  /** The status write after a call that failed. */
  lemma FailAnswer(a: World, w: World, key: Key, status: Status)
    requires key in w.state.tunnels && a.trace <= w.trace && !AllSucceeded(a, w, key) && !EndsStored(a, w, key)
    ensures var (w1, r) := FailWithStatus(w, key, status); !r.ok && Answers(a, w1, key, r)
  {
    StatusAnswer(w, key, status);
    SucceededOn(a, w, UpdateStatus(w, key, status).0, key);
  }

  // ----- A live object -----

  lemma ThenChild(a: World, w: World, w1: World, key: Key, child: Child, ok: bool)
    requires AllSucceeded(a, w, key) && w1 == Spend(w, ApplyChild(key, child), w1.state) && ok == Answered(w)
    ensures a.trace <= w1.trace && (ok <==> AllSucceeded(a, w1, key)) && !EndsStored(a, w1, key)
  {
    ThenCall(a, w, ApplyChild(key, child), w1.state, key);
  }

  lemma ChildrenAnswer(a: World, w: World, key: Key, status: Status)
    requires key in w.state.tunnels && AllSucceeded(a, w, key) && status.tunnelID != ""
    ensures var (w1, r) := ApplyChildren(w, key, status); Answers(a, w1, key, r)
  {
    var (w1, deployed) := ApplyDeployment(w, key);
    ThenChild(a, w, w1, key, Cloudflared, deployed);
    if !deployed {
      FailAnswer(a, w1, key, status);
    } else {
      var (w2, served) := ApplyService(w1, key);
      ThenChild(a, w1, w2, key, Metrics, served);
      if !served {
        FailAnswer(a, w2, key, status);
      } else {
        OthersAnswer(a, w2, key, status);
        assert ApplyChildren(w, key, status) == ApplyOthers(w2, key, status);
      }
    }
  }

  /** The children that are never read back, and the status write. */
  function ApplyOthers(w: World, key: Key, status: Status): (World, Result) {
    var (w3, monitored) := ApplyOther(w, key, Monitor);
    if !monitored then FailWithStatus(w3, key, status) else
    var (w4, budgeted) := ApplyOther(w3, key, Budget);
    if !budgeted then FailWithStatus(w4, key, status) else
    UpdateStatus(w4, key, status)
  }

  lemma OthersAnswer(a: World, w: World, key: Key, status: Status)
    requires key in w.state.tunnels && AllSucceeded(a, w, key) && status.tunnelID != ""
    ensures var (w1, r) := ApplyOthers(w, key, status); Answers(a, w1, key, r)
  {
    var (w3, monitored) := ApplyOther(w, key, Monitor);
    ThenChild(a, w, w3, key, Monitor, monitored);
    if !monitored {
      FailAnswer(a, w3, key, status);
    } else {
      var (w4, budgeted) := ApplyOther(w3, key, Budget);
      ThenChild(a, w3, w4, key, Budget, budgeted);
      if !budgeted {
        FailAnswer(a, w4, key, status);
      } else {
        ThenStatus(a, w4, key, status);
      }
    }
  }

  /** The recorded identifier was issued, as the joint invariant says, so that a new one differs from it. */
  ghost predicate KnownID(s: State, key: Key) {
    key in s.tunnels && (RecordedID(s, key) == "" || RecordedID(s, key) in s.issued)
  }

  /** A stretch that ends without a status write, and is ready if and only if it went well. */
  ghost predicate Gets(a: World, w: World, key: Key, ready: bool) {
    a.trace <= w.trace && (ready <==> AllSucceeded(a, w, key)) && !EndsStored(a, w, key) && key in w.state.tunnels
  }

  lemma MakeAnswer(a: World, w: World, key: Key, name: string)
    requires AllSucceeded(a, w, key) && KnownID(w.state, key)
    ensures var (w1, ready) := MakeTunnel(w, name); Gets(a, w1, key, ready.Ready?)
  {
    var (w1, created) := CreateRemote(w, name);
    ThenCall(a, w, CreateTunnel(name), w1.state, key);
    if created.Found? {
      ThenCall(a, w1, ReadToken(created.value), w1.state, key);
    }
  }

  lemma EnsureAnswer(a: World, w: World, key: Key, o: TunnelObject)
    requires AllSucceeded(a, w, key) && KnownID(w.state, key) && o.status == w.state.tunnels[key].status
    ensures var (w1, ready) := EnsureTunnel(w, key, o); Gets(a, w1, key, ready.Ready?)
  {
    var name := RemoteName(key, o.settings);
    var id := o.status.tunnelID;
    var (w1, secret) := GetSecret(w, key);
    ThenCall(a, w, ReadObject(key), w.state, key);
    if !secret.Failed? {
      if id == "" {
        MakeAnswer(a, w1, key, name);
      } else if !HasToken(w.state, key) {
        var (w2, fetched) := GetToken(w1, id);
        ThenCall(a, w1, ReadToken(id), w.state, key);
        if fetched.NotFound? { MakeAnswer(a, w2, key, name); }
      }
    }
  }

  lemma ProvisionAnswer(a: World, w: World, key: Key, o: TunnelObject)
    requires AllSucceeded(a, w, key) && KnownID(w.state, key) && o.status == w.state.tunnels[key].status
    ensures var (w1, r) := Provision(w, key, o); Answers(a, w1, key, r)
  {
    EnsureAnswer(a, w, key, o);
    EnsureTunnelAccount(w, key, o);
    var (w1, ready) := EnsureTunnel(w, key, o);
    if ready.NotReady? {
      FailAnswer(a, w1, key, o.status);
      assert Provision(w, key, o) == FailWithStatus(w1, key, o.status);
    } else {
      var (w2, stored) := ApplySecret(w1, key, ready.token);
      ThenChild(a, w1, w2, key, TokenSecret, stored);
      if !stored {
        FailAnswer(a, w2, key, o.status);
        assert Provision(w, key, o) == FailWithStatus(w2, key, o.status);
      } else {
        var status := o.status.(tunnelID := ready.id, tunnelName := ready.name);
        RecordAnswer(a, w2, key, status);
        assert Provision(w, key, o) == Record(w2, key, status);
      }
    }
  }

  /** The last part of a reconcile: record the identifier, then apply the children. */
  function Record(w: World, key: Key, status: Status): (World, Result) {
    var (w1, ok) := PutStatus(w, key, status);
    if !ok then (w1, Result(false, false)) else ApplyChildren(w1, key, status)
  }

  lemma RecordAnswer(a: World, w: World, key: Key, status: Status)
    requires AllSucceeded(a, w, key) && key in w.state.tunnels && status.tunnelID != ""
    ensures var (w1, r) := Record(w, key, status); Answers(a, w1, key, r)
  {
    var (w1, ok) := PutStatus(w, key, status);
    ThenCall(a, w, WriteStatus(key, status), w1.state, key);
    if ok { ChildrenAnswer(a, w1, key, status); }
  }

  lemma LiveAnswer(w: World, key: Key)
    requires Live(w.state, key) && KnownID(w.state, key)
    ensures var (w1, r) := ReconcileTunnel(w, key); Answers(w, w1, key, r)
  {
    var (w1, got) := GetTunnel(w, key);
    ThenCall(w, w, ReadObject(key), w.state, key);
    if got.Found? {
      var o := got.value;
      if FINALIZER in o.finalizers {
        ProvisionAnswer(w, w1, key, o);
      } else {
        var kept := o.(finalizers := o.finalizers + {FINALIZER});
        var (w2, ok) := PutTunnel(w1, key, kept);
        ThenCall(w, w1, WriteTunnel(key, kept), w2.state, key);
        if ok { ProvisionAnswer(w, w2, key, kept); }
      }
    }
  }

  // ----- An object that is being deleted -----

  lemma {:induction false} DeleteEachAnswer(a: World, w: World, key: Key, ids: seq<string>)
    requires AllSucceeded(a, w, key)
    ensures var (w1, ok) := DeleteEach(w, ids);
      a.trace <= w1.trace && (ok <==> AllSucceeded(a, w1, key)) && w1.state.tunnels == w.state.tunnels
    decreases |ids|
  {
    if ids != [] {
      var (w1, ok) := DeleteDNS(w, ids[0]);
      ThenCall(a, w, DeleteRecord(ids[0]), w1.state, key);
      if ok { DeleteEachAnswer(a, w1, key, ids[1..]); }
    }
  }

  lemma ReleaseAnswer(a: World, w: World, key: Key, t: string, bare: TunnelObject)
    requires AllSucceeded(a, w, key) && key in w.state.tunnels
    ensures var (w1, r) := Release(w, key, t, bare);
      a.trace <= w1.trace && (r.ok <==> AllSucceeded(a, w1, key)) && !r.requeue
  {
    var (w1, gone) := DeleteRemote(w, t);
    ThenCall(a, w, DeleteTunnel(t), w1.state, key);
    ThenCall(a, w1, WriteTunnel(key, bare), PutTunnel(w1, key, bare).0.state, key);
  }

  /** The last part of a deletion: the tunnel, then the finalizer. */
  function Release(w: World, key: Key, t: string, bare: TunnelObject): (World, Result) {
    var (w1, gone) := DeleteRemote(w, t);
    if !gone then (w1, Result(false, false)) else
    var (w2, ok) := PutTunnel(w1, key, bare);
    (w2, Result(ok, false))
  }

  lemma DismantleAnswer(a: World, w: World, key: Key, o: TunnelObject)
    requires AllSucceeded(a, w, key) && key in w.state.tunnels && o == w.state.tunnels[key]
    ensures var (w1, r) := Dismantle(w, key, o);
      a.trace <= w1.trace && (r.ok <==> AllSucceeded(a, w1, key)) && !r.requeue
  {
    var t := o.status.tunnelID;
    var (w1, got) := ListMatches(w, CnamesCommented(w.state.zone, Comment(t)));
    ThenCall(a, w, ListRecords, w.state, key);
    if got.Found? {
      DeleteEachAnswer(a, w1, key, got.value);
      var (w2, cleared) := DeleteEach(w1, got.value);
      assert DeleteAllDNS(w, t) == (w2, cleared);
      if cleared {
        var bare := o.(finalizers := o.finalizers - {FINALIZER});
        ReleaseAnswer(a, w2, key, t, bare);
        assert Dismantle(w, key, o) == Release(w2, key, t, bare);
      }
    }
  }

  /** However its calls are answered, a reconcile succeeds if and only if each of its calls did. Only for a live
      object does it ask to be requeued, namely when its last call stored a status and no replica is available.
      For an object that is gone it reads once, changes nothing, and succeeds if the read is answered. */
  lemma AnswerExact(w: World, key: Key)
    requires key in w.state.tunnels ==> KnownID(w.state, key)
    ensures var (w1, r) := ReconcileTunnel(w, key);
      (r.ok <==> AllSucceeded(w, w1, key)) &&
      (r.requeue <==> Live(w.state, key) && EndsStored(w, w1, key) && !Serving(w1.state, key)) &&
      (key !in w.state.tunnels ==> r == Result(Answered(w), false) && w1.state == w.state)
  {
    var (w1, got) := GetTunnel(w, key);
    ThenCall(w, w, ReadObject(key), w.state, key);
    if Live(w.state, key) {
      LiveAnswer(w, key);
    } else if got.Found? && FINALIZER in got.value.finalizers {
      DismantleAnswer(w, w1, key, got.value);
    }
  }

  // ----- What has been reported -----

  /** No read of an object and no write of the tunnel object or its status was left without an acknowledgement. */
  ghost predicate Heard(w: World, w1: World) {
    forall i :: |w.trace| <= i < |w1.trace| && AboutObjects(w1.trace[i].call) ==> w1.trace[i].reply.fault.Pass?
  }

  predicate AboutObjects(call: Call) {
    call.ReadObject? || call.WriteTunnel? || call.WriteStatus?
  }

  function Conditions(s: State, key: Key): seq<Condition>
    requires key in s.tunnels
  {
    s.tunnels[key].status.conditions
  }

  /** The conditions of the object tell what is the case, if it has an identifier, and those of other types are
      these. Without an identifier they are all these. */
  ghost predicate Reported(s: State, key: Key, before: seq<Condition>, heard: bool) {
    key in s.tunnels && OtherTypesKept(Conditions(s, key), before) &&
    (RecordedID(s, key) == "" ==> Conditions(s, key) == before) &&
    (RecordedID(s, key) != "" && heard ==> Truthful(s, key, Conditions(s, key)))
  }

  lemma InspectHeard(w: World, key: Key)
    ensures var (w1, seen) := Inspect(w, key); w.trace <= w1.trace && (Heard(w, w1) ==> seen.Some?)
  {
    var w1 := GetSecret(w, key).0;
    assert w1.trace[|w.trace|].call == ReadObject(key);
    var w2 := GetService(w1, key).0;
    assert w2.trace[|w.trace| + 1].call == ReadObject(key);
    var w3 := GetDeployment(w2, key).0;
    assert w3.trace[|w.trace| + 2].call == ReadObject(key);
  }

  lemma HeardLater(a: World, b: World, c: World)
    requires a.trace <= b.trace && b.trace <= c.trace && Heard(a, c)
    ensures Heard(a, b) && Heard(b, c)
  {
    assert forall i :: |a.trace| <= i < |b.trace| ==> c.trace[i] == b.trace[i];
  }

  lemma HeardWritten(w: World, key: Key, status: Status)
    requires key in w.state.tunnels && status.tunnelID != ""
    ensures var (w1, r) := UpdateStatus(w, key, status); w.trace <= w1.trace && (Heard(w, w1) ==> r.ok)
  {
    InspectHeard(w, key);
    var (w1, seen) := Inspect(w, key);
    if seen.Some? {
      var full := status.(conditions := Describe(seen.value, status.conditions));
      var (w2, ok) := PutStatus(w1, key, full);
      assert w2.trace[|w1.trace|].call == WriteStatus(key, full);
      assert UpdateStatus(w, key, status) == (w2, if ok then Result(true, Idle(seen.value)) else Result(false, false));
    } else {
      assert UpdateStatus(w, key, status) == (w1, Result(false, false));
    }
  }

  lemma StatusReports(w: World, key: Key, status: Status)
    requires key in w.state.tunnels && UniqueTypes(status.conditions)
    requires status.tunnelID == RecordedID(w.state, key) && status.conditions == Conditions(w.state, key)
    ensures var w1 := UpdateStatus(w, key, status).0;
      w.trace <= w1.trace && Reported(w1.state, key, status.conditions, Heard(w, w1))
  {
    StatusWrite(w, key, status);
    if status.tunnelID != "" {
      HeardWritten(w, key, status);
      TruthStays(w.state, key, status);
    }
  }

  /** A status write does not change what its conditions are about. */
  lemma TruthStays(s: State, key: Key, status: Status)
    requires key in s.tunnels
    ensures forall conds :: Truthful(s, key, conds) ==>
      Truthful(WithStatus(s, key, status.(conditions := conds)), key, conds)
  {
  }

  /** After a stretch that left the status alone, it is written. */
  lemma ThenReports(a: World, w: World, key: Key, status: Status)
    requires key in w.state.tunnels && UniqueTypes(status.conditions) && a.trace <= w.trace
    requires status.tunnelID == RecordedID(w.state, key) && status.conditions == Conditions(w.state, key)
    ensures var w1 := UpdateStatus(w, key, status).0;
      a.trace <= w1.trace && Reported(w1.state, key, status.conditions, Heard(a, w1))
  {
    StatusReports(w, key, status);
    var w1 := UpdateStatus(w, key, status).0;
    if Heard(a, w1) { HeardLater(a, w, w1); }
  }

  lemma ChildrenReport(a: World, w: World, key: Key, status: Status)
    requires key in w.state.tunnels && UniqueTypes(status.conditions) && a.trace <= w.trace
    requires status.tunnelID == RecordedID(w.state, key) && status.conditions == Conditions(w.state, key)
    ensures var w1 := ApplyChildren(w, key, status).0;
      a.trace <= w1.trace && Reported(w1.state, key, status.conditions, Heard(a, w1))
  {
    var (w1, deployed) := ApplyDeployment(w, key);
    var (w2, served) := ApplyService(w1, key);
    var (w3, monitored) := ApplyOther(w2, key, Monitor);
    var (w4, budgeted) := ApplyOther(w3, key, Budget);
    var end := if !deployed then w1 else if !served then w2 else if !monitored then w3 else w4;
    ThenReports(a, end, key, status);
    assert ApplyChildren(w, key, status).0 == UpdateStatus(end, key, status).0;
  }

  lemma ProvisionReports(a: World, w: World, key: Key, o: TunnelObject)
    requires key in w.state.tunnels && o.status == w.state.tunnels[key].status
    requires UniqueTypes(o.status.conditions) && a.trace <= w.trace
    ensures var w1 := Provision(w, key, o).0;
      a.trace <= w1.trace && Reported(w1.state, key, o.status.conditions, Heard(a, w1))
  {
    EnsureTunnelAccount(w, key, o);
    var (w1, ready) := EnsureTunnel(w, key, o);
    if ready.NotReady? {
      ThenReports(a, w1, key, o.status);
      assert Provision(w, key, o).0 == UpdateStatus(w1, key, o.status).0;
    } else {
      var (w2, stored) := ApplySecret(w1, key, ready.token);
      if !stored {
        ThenReports(a, w2, key, o.status);
        assert Provision(w, key, o).0 == UpdateStatus(w2, key, o.status).0;
      } else {
        var status := o.status.(tunnelID := ready.id, tunnelName := ready.name);
        RecordReports(a, w2, key, status);
        assert Provision(w, key, o) == Record(w2, key, status);
      }
    }
  }

  lemma RecordReports(a: World, w: World, key: Key, status: Status)
    requires key in w.state.tunnels && status.conditions == Conditions(w.state, key)
    requires UniqueTypes(status.conditions) && a.trace <= w.trace
    ensures var w1 := Record(w, key, status).0;
      a.trace <= w1.trace && Reported(w1.state, key, status.conditions, Heard(a, w1))
  {
    var (w1, ok) := PutStatus(w, key, status);
    assert w1.trace[|w.trace|].call == WriteStatus(key, status);
    if ok { ChildrenReport(a, w1, key, status); }
  }

  /** What a reconcile of a live object has reported, whether it succeeds or not. If its reads and its writes of the
      object and the status are acknowledged, then the stored conditions tell the truth about the state it leaves,
      whatever became of its other calls, unless no identifier is recorded. Then nothing is reported. Conditions
      of other types are never changed. */
  lemma LiveReports(w: World, key: Key)
    requires Live(w.state, key) && UniqueTypes(Conditions(w.state, key))
    ensures var w1 := ReconcileTunnel(w, key).0;
      key in w1.state.tunnels && OtherTypesKept(Conditions(w1.state, key), Conditions(w.state, key)) &&
      (RecordedID(w1.state, key) == "" ==> Conditions(w1.state, key) == Conditions(w.state, key)) &&
      (RecordedID(w1.state, key) != "" && Heard(w, w1) ==> Truthful(w1.state, key, Conditions(w1.state, key)))
  {
    var (w1, got) := GetTunnel(w, key);
    assert w1.trace[|w.trace|].call == ReadObject(key);
    if got.Found? {
      var o := got.value;
      if FINALIZER in o.finalizers {
        ProvisionReports(w, w1, key, o);
      } else {
        var kept := o.(finalizers := o.finalizers + {FINALIZER});
        var (w2, ok) := PutTunnel(w1, key, kept);
        assert w2.trace[|w1.trace|].call == WriteTunnel(key, kept);
        if ok { ProvisionReports(w, w2, key, kept); }
      }
    }
  }
}
