/** Reachable states in which a promise that is easily made does not hold: runs from a cluster without tunnels. */
module Reached {
  import opened Domain
  import opened World
  import opened IngressFields
  import opened Protocol
  import opened ZoneLaws
  import opened Recovery
  import opened Convergence
  import opened Invariant
  import opened Runs
  import opened Accounting

  const SETTINGS := Settings("", "http_status:404", None, false, 0, false, false, 0, false, "", 0, 0)

  /** No objects and no tunnels, and these records, none of them the operator's. */
  function Fresh(zone: map<string, RecordData>): State {
    State(map[], map[], map[], {}, map[], map[], {}, zone)
  }

  function Name(name: string): Key {
    Key("default", name)
  }

  lemma RunOn(w: World, steps: seq<Step>, step: Step)
    ensures Run(w, steps + [step]) == Take(Run(w, steps), step)
  {
    assert (steps + [step])[..|steps|] == steps;
  }

  // ----- The first reconcile of a tunnel object -----

  /** Every call up to the status write is answered, and none after it. */
  function FirstReplies(id: string): seq<Reply> {
    [Yes(""), Yes(""), Yes(""), Yes(id), Yes(""), Yes(""), Yes("")]
  }

  predicate New(s: State, key: Key) {
    Live(s, key) && RecordedID(s, key) == "" && FINALIZER !in s.tunnels[key].finalizers && key !in s.secrets
  }

  /** The tunnel of the object has been made and recorded. */
  predicate Made(a: State, b: State, key: Key, id: string)
    requires key in a.tunnels
  {
    Live(b, key) && RecordedID(b, key) == id && FINALIZER in b.tunnels[key].finalizers &&
    b.tunnels[key].isDefault == a.tunnels[key].isDefault && LabelAgrees(b.tunnels[key]) &&
    OthersKept(a, b, key) && b.remote == a.remote[id := Config([], "")] && b.issued == a.issued + {id} &&
    b.zone == a.zone && b.ingresses == a.ingresses && b.secrets == a.secrets[key := ""]
  }

  lemma Unanswered(w: World, key: Key, status: Status)
    requires w.script == []
    ensures ApplyChildren(w, key, status).0.state == w.state
  {
    var w1 := ApplyDeployment(w, key).0;
    assert w1.script == [] && w1.state == w.state;
    assert UpdateStatus(w1, key, status).0.state == w.state;
  }

  /** The status of the object, its secret and its tunnel are what has changed. */
  predicate TunnelRecorded(a: State, b: State, key: Key, id: string)
    requires key in a.tunnels && key in b.tunnels
  {
    b == a.(tunnels := a.tunnels[key := a.tunnels[key].(status := b.tunnels[key].status)],
            secrets := a.secrets[key := ""],
            remote := a.remote[id := Config([], "")], issued := a.issued + {id})
  }

  lemma FirstProvision(w: World, key: Key, o: TunnelObject, id: string)
    requires Live(w.state, key) && o.status == w.state.tunnels[key].status && o.status.tunnelID == "" &&
      key !in w.state.secrets
    requires FreshTunnel(w.state, id) && w.script == [Yes(""), Yes(id), Yes(""), Yes(""), Yes("")]
    ensures var s, s1 := w.state, Provision(w, key, o).0.state;
      key in s1.tunnels && s1.tunnels[key].status.tunnelID == id && TunnelRecorded(s, s1, key, id)
  {
    var name := RemoteName(key, o.settings);
    var w1 := GetSecret(w, key).0;
    assert w1.script == [Yes(id), Yes(""), Yes(""), Yes("")];
    var w2 := CreateRemote(w1, name).0;
    assert w2.script == [Yes(""), Yes(""), Yes("")];
    var w3 := GetToken(w2, id).0;
    assert w3.script == [Yes(""), Yes("")];
    assert EnsureTunnel(w, key, o) == (w3, Ready(id, name, ""));
    var w4 := ApplySecret(w3, key, "").0;
    assert w4.script == [Yes("")];
    var status := o.status.(tunnelID := id, tunnelName := name);
    var w5 := PutStatus(w4, key, status).0;
    assert w5.script == [];
    assert Provision(w, key, o) == ApplyChildren(w5, key, status);
    Unanswered(w5, key, status);
  }

  lemma LabelTaken(o: TunnelObject)
    ensures LabelAgrees(o.(labels := Some(WithDefaultLabel(o.labels, o.isDefault))))
  {
    assert "true"[0] != "false"[0];
  }

  lemma FirstReconcile(w: World, key: Key, id: string)
    requires New(w.state, key) && FreshTunnel(w.state, id) && w.script == FirstReplies(id)
    ensures Made(w.state, ReconcileTunnel(w, key).0.state, key, id)
  {
    var o := w.state.tunnels[key];
    var kept := o.(finalizers := o.finalizers + {FINALIZER});
    var w1 := GetTunnel(w, key).0;
    assert w1.script == [Yes("")] + FirstReplies(id)[2..];
    var w2 := PutTunnel(w1, key, kept).0;
    assert w2.script == FirstReplies(id)[2..];
    FirstProvision(w2, key, kept, id);
    assert ReconcileTunnel(w, key) == Provision(w2, key, kept);
    MadeByProvision(w.state, w2.state, Provision(w2, key, kept).0.state, key, id);
  }

  lemma MadeByProvision(a: State, m: State, b: State, key: Key, id: string)
    requires New(a, key) && var o := a.tunnels[key];
      m == a.(tunnels := a.tunnels[key := o.(finalizers := o.finalizers + {FINALIZER},
                                             labels := Some(WithDefaultLabel(o.labels, o.isDefault)))])
    requires key in b.tunnels && b.tunnels[key].status.tunnelID == id && TunnelRecorded(m, b, key, id)
    ensures Made(a, b, key, id)
  {
    LabelTaken(a.tunnels[key]);
    assert b.tunnels - {key} == a.tunnels - {key};
  }

  /** A default tunnel object as a user has just stored it. */
  function Newcomer(): TunnelObject {
    TunnelObject(OwnFinalizer(false, {}), false, Some(WithDefaultLabel(None, true)), true, SETTINGS, NEW_STATUS)
  }

  function Store(key: Key): Step {
    ApplyTunnel(key, {}, None, true, SETTINGS)
  }

  function Provide(key: Key, id: string): Step {
    SyncTunnel(key, FirstReplies(id))
  }

  lemma Stored(w: World, key: Key)
    requires key !in w.state.tunnels
    ensures Take(w, Store(key)) == w.(state := w.state.(tunnels := w.state.tunnels[key := Newcomer()]))
  {
    assert Newcomer().finalizers == {};
  }

  /** A default tunnel has been added, with its remote tunnel. */
  predicate Added(a: State, b: State, key: Key, id: string) {
    Live(b, key) && RecordedID(b, key) == id && b.tunnels[key].isDefault && FINALIZER in b.tunnels[key].finalizers &&
    LabelAgrees(b.tunnels[key]) && b.tunnels == a.tunnels[key := b.tunnels[key]] &&
    b.remote == a.remote[id := Config([], "")] && b.issued == a.issued + {id} && b.secrets == a.secrets[key := ""] &&
    b.zone == a.zone && b.ingresses == a.ingresses
  }

  lemma AddedOf(a: State, b: State, key: Key, id: string)
    requires key !in a.tunnels && Made(a.(tunnels := a.tunnels[key := Newcomer()]), b, key, id)
    ensures Added(a, b, key, id)
  {
    var mid := a.tunnels[key := Newcomer()];
    forall k ensures k in b.tunnels <==> k == key || k in a.tunnels {
      if k != key { assert k in b.tunnels - {key} <==> k in mid - {key}; }
    }
    forall k | k in a.tunnels ensures b.tunnels[k] == a.tunnels[k] {
      assert (b.tunnels - {key})[k] == (mid - {key})[k];
    }
  }

  lemma ProvideAdds(w: World, w1: World, key: Key, id: string)
    requires key !in w.state.tunnels && key !in w.state.secrets && FreshTunnel(w.state, id)
    requires w1 == w.(state := w.state.(tunnels := w.state.tunnels[key := Newcomer()]))
    ensures Added(w.state, Take(w1, Provide(key, id)).state, key, id)
  {
    assert Newcomer().finalizers == {};
    FirstReconcile(w1.(script := FirstReplies(id), actor := TunnelActor(key)), key, id);
    AddedOf(w.state, Take(w1, Provide(key, id)).state, key, id);
  }

  lemma TunnelAdded(w: World, key: Key, id: string)
    requires key !in w.state.tunnels && key !in w.state.secrets && FreshTunnel(w.state, id)
    ensures Added(w.state, Run(w, [Store(key), Provide(key, id)]).state, key, id)
  {
    Stored(w, key);
    ProvideAdds(w, Take(w, Store(key)), key, id);
    TwoSteps(w, Store(key), Provide(key, id));
  }

  lemma TwoSteps(w: World, one: Step, two: Step)
    ensures Run(w, [one, two]) == Take(Take(w, one), two)
  {
    RunOn(w, [], one);
    RunOn(w, [one], two);
    assert [] + [one] == [one] && [one] + [two] == [one, two];
  }

  lemma {:induction false} RunAll(w: World, steps: seq<Step>, later: seq<Step>)
    ensures Run(w, steps + later) == Run(Run(w, steps), later)
    decreases |later|
  {
    if later == [] {
      assert steps + later == steps;
    } else {
      var n := |later| - 1;
      RunAll(w, steps, later[..n]);
      assert steps + later == (steps + later[..n]) + [later[n]];
      RunOn(w, steps + later[..n], later[n]);
    }
  }

  // ----- Two defaults -----

  function TwoDefaults(): seq<Step> {
    [Store(Name("a")), Provide(Name("a"), "t")] + [Store(Name("b")), Provide(Name("b"), "u")]
  }

  const PUBLISH := ApplyIngress(Name("i"), {}, map[], ["h"], [], [Parsed("192.0.2.1")])

  /** Two plans for publishing through different tunnels. */
  lemma TwoPlansDiverge(s: State, key: Key, k: Key, j: Key)
    requires key in s.ingresses && ValidZone(s.zone) && Serves(s, s.ingresses[key], k) && Serves(s, s.ingresses[key], j)
    requires s.tunnels[k].status.tunnelID != s.tunnels[j].status.tunnelID
    requires !Ignored(s.ingresses[key].annotations) && s.ingresses[key].rules != []
    ensures !Recovers(s, key) && !Settles(s, key)
  {
    var ing := s.ingresses[key];
    var p, q := PlanOf(s, key, ing, k), PlanOf(s, key, ing, j);
    assert Eligible(s, p, k) && Eligible(s, q, j);
    assert |p.hosts| == |ing.rules|;
    assert !Interchangeable(s, p, q);
    RecoveryExact(s, key);
  }

  lemma DefaultServes(s: State, ing: Ingress, k: Key)
    requires TUNNEL_ANNOTATION !in ing.annotations && !ing.deleting && ing.addresses != [] && ing.addresses[0].Parsed?
    requires Live(s, k) && Labelled(s.tunnels[k]) && RecordedID(s, k) != "" && RecordedID(s, k) in s.remote
    ensures Serves(s, ing, k)
  {
  }

  /** The webhook lets two default tunnels be, and then it is not settled through which of them an Ingress is
      published, nor do reconciles come to rest. */
  lemma TwoDefaultsReached()
    ensures Untouched(Fresh(map[]))
    ensures var s := Run(Begin(Fresh(map[])), TwoDefaults() + [PUBLISH]).state;
      Name("i") in s.ingresses && !s.ingresses[Name("i")].deleting && ValidZone(s.zone) &&
      !Recovers(s, Name("i")) && !Settles(s, Name("i"))
  {
    var w := Begin(Fresh(map[]));
    var a, b := Name("a"), Name("b");
    var w1 := Run(w, [Store(a), Provide(a, "t")]);
    TunnelAdded(w, a, "t");
    TunnelAdded(w1, b, "u");
    RunAll(w, [Store(a), Provide(a, "t")], [Store(b), Provide(b, "u")]);
    var w2 := Run(w, TwoDefaults());
    RunOn(w, TwoDefaults(), PUBLISH);
    var s := Take(w2, PUBLISH).state;
    assert Live(s, a) && Live(s, b) && RecordedID(s, a) == "t" && RecordedID(s, b) == "u";
    DefaultServes(s, s.ingresses[Name("i")], a);
    DefaultServes(s, s.ingresses[Name("i")], b);
    TwoPlansDiverge(s, Name("i"), a, b);
  }

  // ----- A record that outlives its tunnel -----

  /** A record that someone else wrote for host h, pointing at what will be the tunnel t. */
  const FOREIGN := RecordData(CNAME, "h", Target("t"), true, 1, "mine")

  function LastReplies(): seq<Reply> {
    [Yes(""), Lists([]), Yes(""), Yes("")]
  }

  /** The deletion of a tunnel that has no record of the operator's. */
  lemma CleanDismantle(w: World, key: Key)
    requires key in w.state.tunnels && w.state.tunnels[key].deleting && FINALIZER in w.state.tunnels[key].finalizers
    requires CnamesCommented(w.state.zone, Comment(RecordedID(w.state, key))) == {} && w.script == LastReplies()
    ensures var s1 := ReconcileTunnel(w, key).0.state;
      s1.zone == w.state.zone && s1.remote == w.state.remote - {RecordedID(w.state, key)}
  {
    var o := w.state.tunnels[key];
    var w1 := GetTunnel(w, key).0;
    assert w1.script == [Lists([]), Yes(""), Yes("")];
    assert IsListing([], {});
    var (w2, ok) := DeleteAllDNS(w1, o.status.tunnelID);
    assert ok && w2.state == w.state && w2.script == [Yes(""), Yes("")];
    assert ReconcileTunnel(w, key) == Dismantle(w1, key, o);
  }

  /** A made tunnel is deleted again, and the foreign record stays. */
  lemma DeletedAgain(w: World, key: Key)
    requires Live(w.state, key) && FINALIZER in w.state.tunnels[key].finalizers && RecordedID(w.state, key) == "t"
    requires w.state.zone == map["r" := FOREIGN]
    ensures var end := Take(Take(w, RemoveTunnel(key)), SyncTunnel(key, LastReplies())).state;
      "t" !in end.remote && end.zone == w.state.zone
  {
    var gone := Take(w, RemoveTunnel(key));
    assert gone.state == w.state.(tunnels := w.state.tunnels[key := w.state.tunnels[key].(deleting := true)]);
    CommentNamesOneTunnel(FOREIGN.comment, "t");
    CleanDismantle(gone.(script := LastReplies(), actor := TunnelActor(key)), key);
  }

  /** Publishing leaves such a record to its owner, since it is healthy; so does the deletion of the tunnel, and
      in the end the record points at a tunnel that is gone. */
  lemma ForeignCnameOutlives()
    ensures var start := Fresh(map["r" := FOREIGN]);
      var made := Run(Begin(start), [Store(Name("a")), Provide(Name("a"), "t")]);
      var end := Take(Take(made, RemoveTunnel(Name("a"))), SyncTunnel(Name("a"), LastReplies())).state;
      Untouched(start) &&
      RecordAt(made.state.zone, "h") == PublishedRecord("t", "h", RecordAt(made.state.zone, "h")) &&
      "t" in made.state.remote && "t" !in end.remote && end.zone == map["r" := FOREIGN]
  {
    var start := Fresh(map["r" := FOREIGN]);
    assert Owner("mine").None?;
    TunnelAdded(Begin(start), Name("a"), "t");
    var made := Run(Begin(start), [Store(Name("a")), Provide(Name("a"), "t")]);
    assert Added(start, made.state, Name("a"), "t");
    RecordAtIs(made.state.zone, "r");
    DeletedAgain(made, Name("a"));
  }
}
