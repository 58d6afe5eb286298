/** When a reconcile can succeed at all, and when it is settled where retrying it ends. */
module Convergence {
  import opened Domain
  import opened World
  import opened IngressFields
  import opened Protocol
  import opened ZoneLaws
  import opened Recovery
  import opened Outcome

  function Yes(id: string): Reply {
    Reply(Fault.Pass, id, Key("", ""), [])
  }

  function Lists(ids: seq<string>): Reply {
    Reply(Fault.Pass, "", Key("", ""), ids)
  }

  function Picks(k: Key): Reply {
    Reply(Fault.Pass, "", k, [])
  }

  /** An identifier no record has. */
  lemma FreshIdentifier(ids: set<string>) returns (id: string)
    ensures id != "" && id !in ids
  {
    var n := LongerThan(ids);
    id := seq(n + 1, _ => 'x');
  }

  lemma {:induction false} LongerThan(ids: set<string>) returns (n: nat)
    ensures forall x :: x in ids ==> |x| <= n
    decreases ids
  {
    n := 0;
    if ids != {} {
      var x :| x in ids;
      var m := LongerThan(ids - {x});
      n := if |x| > m then |x| else m;
    }
  }

  /** Replies under which one host's DNS step succeeds and uses them all. */
  lemma OneCanSucceed(s: State, tunnelID: string, withdraw: bool, name: string)
    returns (script: seq<Reply>, after: State)
    requires ValidZone(s.zone)
    ensures ValidZone(after.zone)
    ensures forall rest, actor, trace {:trigger World(s, script + rest, actor, trace)} ::
      var r := OneDNS(World(s, script + rest, actor, trace), tunnelID, withdraw, name);
      r.1 && r.0.state == after && r.0.script == rest && r.0.actor == actor
  {
    var matches := CnamesNamed(s.zone, name);
    var listing: seq<string> := [];
    if id :| id in matches {
      listing := [id];
      assert matches == {id};
    }
    assert IsListing(listing, matches);
    var newId := FreshIdentifier(s.zone.Keys);
    var writes := if withdraw then listing != [] else listing == [] || !HealthyData(s.zone[listing[0]], tunnelID);
    script := [Lists(listing)] + if writes then [Yes(newId)] else [];
    var w := World(s, script, Nobody, []);
    OneEffect(w, tunnelID, withdraw, name, {name});
    after := OneDNS(w, tunnelID, withdraw, name).0.state;
    forall rest, actor, trace
      ensures var r := OneDNS(World(s, script + rest, actor, trace), tunnelID, withdraw, name);
        r.1 && r.0.state == after && r.0.script == rest && r.0.actor == actor
    {
      UsesScript(World(s, script + rest, actor, trace), s, listing, newId, rest, writes, tunnelID, withdraw, name);
      UsesScript(w, s, listing, newId, [], writes, tunnelID, withdraw, name);
    }
  }

  /** The DNS step reads one listing and, if something must change, makes one write. */
  lemma UsesScript(w: World, s: State, listing: seq<string>, newId: string, rest: seq<Reply>, writes: bool,
                   tunnelID: string, withdraw: bool, name: string)
    requires ValidZone(s.zone) && w.state == s && newId != "" && newId !in s.zone
    requires IsListing(listing, CnamesNamed(s.zone, name)) && (forall i :: 0 <= i < |listing| ==> listing[i] in s.zone)
    requires writes == if withdraw then listing != [] else listing == [] || !HealthyData(s.zone[listing[0]], tunnelID)
    requires w.script == [Lists(listing)] + (if writes then [Yes(newId)] else []) + rest
    ensures var r := OneDNS(w, tunnelID, withdraw, name);
      r.1 && r.0.script == rest && r.0.actor == w.actor &&
      r.0.state == s.(zone := if !writes then s.zone
                              else if withdraw then s.zone - {listing[0]}
                              else s.zone[(if listing == [] then newId else listing[0]) := Managed(tunnelID, name)])
  {
    assert w.script[0] == Lists(listing);
    assert writes ==> w.script[1] == Yes(newId) && w.script[1..][1..] == rest;
    assert !writes ==> w.script[1..] == rest;
  }

  lemma {:induction false} EachCanSucceed(s: State, tunnelID: string, withdraw: bool, hosts: seq<Host>)
    returns (script: seq<Reply>, after: State)
    requires ValidZone(s.zone)
    ensures forall rest, actor, trace {:trigger World(s, script + rest, actor, trace)} ::
      var r := EachDNS(World(s, script + rest, actor, trace), tunnelID, withdraw, hosts);
      r.1 && r.0.state == after && r.0.script == rest && r.0.actor == actor
    decreases |hosts|
  {
    script, after := [], s;
    if hosts == [] {
      assert forall rest: seq<Reply> :: script + rest == rest;
    } else {
      var first, next := OneCanSucceed(s, tunnelID, withdraw, hosts[0].name);
      var later, end := EachCanSucceed(next, tunnelID, withdraw, hosts[1..]);
      script, after := first + later, end;
      forall rest, actor, trace
        ensures var r := EachDNS(World(s, script + rest, actor, trace), tunnelID, withdraw, hosts);
          r.1 && r.0.state == after && r.0.script == rest && r.0.actor == actor
      {
        assert script + rest == first + (later + rest);
        var w := World(s, first + (later + rest), actor, trace);
        var r := OneDNS(w, tunnelID, withdraw, hosts[0].name);
        assert r.1 && r.0 == World(next, later + rest, actor, r.0.trace);
        assert EachDNS(w, tunnelID, withdraw, hosts) == EachDNS(r.0, tunnelID, withdraw, hosts[1..]);
      }
    }
  }

  lemma PassCanSucceed(s: State, p: Plan) returns (script: seq<Reply>, after: State)
    requires p.key in s.ingresses && p.tunnelID in s.remote && ValidZone(s.zone)
    ensures Passed(p, s, after)
    ensures forall rest, actor, trace {:trigger World(s, script + rest, actor, trace)} ::
      var r := RunPass(World(s, script + rest, actor, trace), p);
      r.1 && r.0.state == after && r.0.script == rest && r.0.actor == actor
  {
    var m := s.(remote := s.remote[p.tunnelID := GoalConfig(p, s.remote[p.tunnelID])]);
    var later, end := EachCanSucceed(m, p.tunnelID, p.withdraw, p.hosts);
    script, after := [Yes(""), Yes("")] + later, end;
    forall rest, actor, trace
      ensures var r := RunPass(World(s, script + rest, actor, trace), p);
        r.1 && r.0.state == after && r.0.script == rest && r.0.actor == actor
    {
      var w := World(s, script + rest, actor, trace);
      assert w.script[1..] == [Yes("")] + (later + rest) && w.script[1..][1..] == later + rest;
      var r := ConfigStep(w, p);
      assert r.1 && r.0 == World(m, later + rest, actor, r.0.trace);
      assert RunPass(w, p) == EachDNS(r.0, p.tunnelID, p.withdraw, p.hosts);
    }
    var w := World(s, script + [], Nobody, []);
    PassEffect(w, p);
    assert RunPass(w, p).0.state == after;
  }

  lemma ResolveReaches(w: World, name: Key, k: Key, later: seq<Reply>)
    requires k in Candidates(w.state.tunnels, name) && w.script == [Picks(k)] + later
    ensures var r := Resolve(w, name);
      k in w.state.tunnels && r.1 == Resolved(w.state.tunnels[k]) && r.0 == World(w.state, later, w.actor, r.0.trace)
  {
    assert w.script[1..] == later;
  }

  // ----- Reconciles that succeed -----

  /** The reconcile of a live Ingress reaches any tunnel that could serve it. */
  lemma SyncCanSucceed(w: World, p: Plan, k: Key, pass: seq<Reply>, after: State)
    requires Eligible(w.state, p, k) && w.script == [Picks(k)] + pass
    requires forall actor, trace {:trigger World(w.state, pass, actor, trace)} ::
      var r := RunPass(World(w.state, pass, actor, trace), p); r.1 && r.0.state == after
    ensures var r := Sync(w, w.state.ingresses[p.key]); r.1 && r.0.state == after
  {
    var ing := w.state.ingresses[p.key];
    var name := TunnelName(ing.annotations).value;
    ResolveReaches(w, name, k, pass);
    var m := Resolve(w, name).0;
    assert m == World(w.state, pass, w.actor, m.trace);
    assert Sync(w, ing) == RunPass(m, p);
  }

  /** If every call is answered, a reconcile succeeds, and any eligible tunnel can be the one it reaches. */
  lemma SuccessIsPossible(s: State, p: Plan, k: Key) returns (script: seq<Reply>)
    requires Eligible(s, p, k) && ValidZone(s.zone)
    ensures Attempt(s, p.key, script).1 && Complete(p, s, Attempt(s, p.key, script).0.state)
  {
    var held := Held(s, p.key);
    HeldEligible(s, p, k);
    var pass, after := PassCanSucceed(held, p);
    assert pass + [] == pass;
    var start := [Yes("")] + if FINALIZER in s.ingresses[p.key].finalizers then [] else [Yes("")];
    script := start + ([Picks(k)] + pass);
    var w := World(s, script, IngressActor(p.key), []);
    var m := ReachesSync(w, p.key, [Picks(k)] + pass);
    SyncCanSucceed(m, p, k, pass, after);
  }

  /** The calls before Sync all succeed. */
  lemma ReachesSync(w: World, key: Key, later: seq<Reply>) returns (m: World)
    requires key in w.state.ingresses && !w.state.ingresses[key].deleting
    requires w.script == [Yes("")] + (if FINALIZER in w.state.ingresses[key].finalizers then [] else [Yes("")]) + later
    ensures m == World(Held(w.state, key), later, w.actor, m.trace)
    ensures ReconcileIngress(w, key) == Sync(m, m.state.ingresses[key])
  {
    var ing := w.state.ingresses[key];
    m := GetIngress(w, key).0;
    if FINALIZER in ing.finalizers {
      HeldAlready(w.state, key);
      assert w.script[1..] == later;
    } else {
      assert w.script[1..] == [Yes("")] + later && w.script[1..][1..] == later;
      m := PutIngress(m, key, WithFinalizer(ing)).0;
    }
  }

  /** Finalizing through a live tunnel can succeed. */
  lemma LeavingCanSucceed(s: State, key: Key, k: Key) returns (script: seq<Reply>)
    requires ValidZone(s.zone) && Leaves(s, key, k)
    requires s.ingresses[key].deleting && FINALIZER in s.ingresses[key].finalizers
    ensures Attempt(s, key, script).1
  {
    var p := LeavingPlan(s, key, k);
    var pass, after := PassCanSucceed(s, p);
    var later := pass + [Yes("")];
    script := [Yes("")] + ([Picks(k)] + later);
    var ing := s.ingresses[key];
    var name := TunnelName(ing.annotations).value;
    var w := GetIngress(World(s, script, IngressActor(key), []), key).0;
    assert w.script == [Picks(k)] + later;
    ResolveReaches(w, name, k, later);
    var m := Resolve(w, name).0;
    assert m == World(s, pass + [Yes("")], IngressActor(key), m.trace);
    assert Finalize(w, ing) == RunPass(m, p);
  }

  /** Finalizing without a withdrawal can succeed. */
  lemma SkippingCanSucceed(s: State, key: Key, k: Key) returns (script: seq<Reply>)
    requires key in s.ingresses && s.ingresses[key].deleting && FINALIZER in s.ingresses[key].finalizers
    requires NoDefaultMeant(s, s.ingresses[key]) || (Means(s, s.ingresses[key], k) && s.tunnels[k].deleting)
    ensures Attempt(s, key, script).1
  {
    script := [Yes("")] + ([Picks(k)] + [Yes("")]);
    var ing := s.ingresses[key];
    var name := TunnelName(ing.annotations).value;
    var w := GetIngress(World(s, script, IngressActor(key), []), key).0;
    assert w.script == [Picks(k)] + [Yes("")] && w.script[1..] == [Yes("")];
    var (m, ok) := Finalize(w, ing);
    assert ok && m.state == s && m.script == [Yes("")];
  }

  /** There is something that a reconcile can do, or nothing is left to do. */
  ghost predicate CanSucceed(s: State, key: Key) {
    key !in s.ingresses ||
    var ing := s.ingresses[key];
    NoDefaultMeant(s, ing) ||
    if ing.deleting then FINALIZER !in ing.finalizers || exists k :: LetsGo(s, ing, k)
    else exists k :: Serves(s, ing, k)
  }

  lemma SuccessIsJustified(s: State, key: Key, script: seq<Reply>)
    requires ValidZone(s.zone) && Attempt(s, key, script).1
    ensures CanSucceed(s, key)
  {
    var w := World(s, script, IngressActor(key), []);
    if key in s.ingresses && !s.ingresses[key].deleting {
      ReconcileEffect(w, key);
    } else if key in s.ingresses && FINALIZER in s.ingresses[key].finalizers {
      var ing := s.ingresses[key];
      FinalizeEffect(GetIngress(w, key).0, key);
      if k :| Means(s, ing, k) && s.tunnels[k].deleting {
        assert LetsGo(s, ing, k);
      } else if k :| Leaves(s, key, k) {
        assert LetsGo(s, ing, k);
      }
    }
  }

  lemma SomeFinalization(s: State, key: Key) returns (script: seq<Reply>)
    requires ValidZone(s.zone) && key in s.ingresses && s.ingresses[key].deleting && CanSucceed(s, key)
    requires FINALIZER in s.ingresses[key].finalizers
    ensures Attempt(s, key, script).1
  {
    var ing := s.ingresses[key];
    if NoDefaultMeant(s, ing) {
      script := SkippingCanSucceed(s, key, key);
    } else {
      var k :| LetsGo(s, ing, k);
      if s.tunnels[k].deleting {
        script := SkippingCanSucceed(s, key, k);
      } else {
        script := LeavingCanSucceed(s, key, k);
      }
    }
  }

  lemma SomePublication(s: State, key: Key) returns (script: seq<Reply>)
    requires ValidZone(s.zone) && key in s.ingresses && !s.ingresses[key].deleting && CanSucceed(s, key)
    ensures Attempt(s, key, script).1
  {
    var ing := s.ingresses[key];
    if NoDefaultMeant(s, ing) {
      script := [Yes("")] + (if FINALIZER in ing.finalizers then [] else [Yes("")]) + [Yes("")];
      var m := ReachesSync(World(s, script, IngressActor(key), []), key, [Yes("")]);
    } else {
      var k :| Serves(s, ing, k);
      script := SuccessIsPossible(s, PlanOf(s, key, ing, k), k);
    }
  }

  lemma SomeSuccess(s: State, key: Key) returns (script: seq<Reply>)
    requires ValidZone(s.zone) && CanSucceed(s, key)
    ensures Attempt(s, key, script).1
  {
    if key in s.ingresses && !s.ingresses[key].deleting {
      script := SomePublication(s, key);
    } else if key in s.ingresses && FINALIZER in s.ingresses[key].finalizers {
      script := SomeFinalization(s, key);
    } else {
      script := [Yes("")];
    }
  }

  /** Some answers make a reconcile succeed if and only if the object is gone, or nothing is left to finalize,
      or no default tunnel exists, or some tunnel that can be meant is ready for it. */
  lemma SuccessExact(s: State, key: Key)
    requires ValidZone(s.zone)
    ensures (exists script :: Attempt(s, key, script).1) <==> CanSucceed(s, key)
  {
    if script :| Attempt(s, key, script).1 {
      SuccessIsJustified(s, key, script);
    }
    if CanSucceed(s, key) {
      var script := SomeSuccess(s, key);
      assert Attempt(s, key, script).1;
    }
  }

  // ----- When it is settled where retrying ends -----

  /** All successful histories end alike. */
  ghost predicate Recovers(s: State, key: Key)
    requires key in s.ingresses
  {
    forall attempts, last, others, once :: Succeeds(s, key, attempts, last) && Succeeds(s, key, others, once) ==>
      SameView(End(s, key, attempts, last), End(s, key, others, once), NamesOf(s, key))
  }

  /** After a success further reconciles change nothing. */
  ghost predicate Settles(s: State, key: Key) {
    forall attempts, last, more :: Succeeds(s, key, attempts, last) ==>
      var settled := End(s, key, attempts, last); Attempt(settled, key, more).0.state == settled
  }

  lemma FirstTry(s: State, key: Key, script: seq<Reply>)
    ensures Succeeds(s, key, [], script) <==> Attempt(s, key, script).1
    ensures End(s, key, [], script) == Attempt(s, key, script).0.state
  {
  }

  /** No record can be what publishing leaves for two tunnels. */
  lemma HealthyForOne(t: string, u: string, h: string, x: Option<RecordData>, y: Option<RecordData>)
    ensures PublishedRecord(t, h, x) == PublishedRecord(u, h, y) ==> t == u
  {
    if PublishedRecord(t, h, x) == PublishedRecord(u, h, y) { TargetInjective(t, u); }
  }

  /** Two plans whose completions cannot be told apart are interchangeable: a record that is healthy for one
      tunnel is not healthy for another. */
  lemma SameViewInterchangeable(p: Plan, q: Plan, a: State, b: State, c: State)
    requires p.tunnelID in a.remote && q.tunnelID in a.remote && p.key in a.ingresses && SameWork(p, q)
    requires Complete(p, a, b) && Complete(q, a, c) && SameView(b, c, HostNames(p.hosts))
    ensures Interchangeable(a, p, q)
  {
    assert b.remote[p.tunnelID] == c.remote[p.tunnelID] && b.remote[q.tunnelID] == c.remote[q.tunnelID];
    if p.tunnelID != q.tunnelID && !p.withdraw && p.hosts != [] {
      var h := p.hosts[0].name;
      assert h in HostNames(p.hosts);
      assert RecordAt(b.zone, h) == RecordAt(c.zone, h);
      HealthyForOne(p.tunnelID, q.tunnelID, h, RecordAt(a.zone, h), RecordAt(a.zone, h));
    }
  }

  /** A plan that changes nothing once another has been completed, and the other way round. */
  lemma StableInterchangeable(p: Plan, q: Plan, a: State, b: State, c: State)
    requires p.tunnelID in a.remote && q.tunnelID in a.remote && p.key in a.ingresses && SameWork(p, q)
    requires Complete(p, a, b) && Complete(q, a, c)
    requires q.key in b.ingresses && q.tunnelID in b.remote && Complete(q, b, b)
    requires p.key in c.ingresses && p.tunnelID in c.remote && Complete(p, c, c)
    ensures Interchangeable(a, p, q)
  {
    GoalConfigAbsorbs(p, q, a.remote[p.tunnelID]);
    assert b.remote[q.tunnelID] == GoalConfig(q, b.remote[q.tunnelID]);
    assert c.remote[p.tunnelID] == GoalConfig(p, c.remote[p.tunnelID]);
    if p.tunnelID != q.tunnelID && !p.withdraw && p.hosts != [] {
      var h := p.hosts[0].name;
      assert h in HostNames(p.hosts);
      HealthyForOne(p.tunnelID, q.tunnelID, h, RecordAt(a.zone, h), RecordAt(b.zone, h));
    }
  }

  /** It is settled where crashed and retried reconciles end, and that they then rest, if and only if all the
      tunnels that a reconcile can reach would leave the same outcome. */
  lemma RecoveryExact(s: State, key: Key)
    requires key in s.ingresses && !s.ingresses[key].deleting && ValidZone(s.zone)
    ensures Recovers(s, key) <==> OneOutcome(s, key)
    ensures Settles(s, key) <==> OneOutcome(s, key)
  {
    if OneOutcome(s, key) {
      forall attempts, last, others, once | Succeeds(s, key, attempts, last) && Succeeds(s, key, others, once)
        ensures SameView(End(s, key, attempts, last), End(s, key, others, once), NamesOf(s, key))
      {
        CrashRecovery(s, key, attempts, last, others, once);
      }
      forall attempts, last, more | Succeeds(s, key, attempts, last)
        ensures var settled := End(s, key, attempts, last); Attempt(settled, key, more).0.state == settled
      {
        OneMoreIsQuiet(s, key, attempts, last, more);
      }
    }
    if Recovers(s, key) {
      forall p, k, q, j | Eligible(s, p, k) && Eligible(s, q, j) && p.key == key && q.key == key
        ensures Interchangeable(s, p, q)
      {
        RecoveringInterchangeable(s, p, k, q, j);
      }
    }
    if Settles(s, key) {
      forall p, k, q, j | Eligible(s, p, k) && Eligible(s, q, j) && p.key == key && q.key == key
        ensures Interchangeable(s, p, q)
      {
        SettlingInterchangeable(s, p, k, q, j);
      }
    }
  }

  lemma RecoveringInterchangeable(s: State, p: Plan, k: Key, q: Plan, j: Key)
    requires Eligible(s, p, k) && Eligible(s, q, j) && p.key == q.key && ValidZone(s.zone) && Recovers(s, p.key)
    ensures Interchangeable(s, p, q)
  {
    var x := SuccessIsPossible(s, p, k);
    var y := SuccessIsPossible(s, q, j);
    FirstTry(s, p.key, x);
    FirstTry(s, p.key, y);
    SameViewInterchangeable(p, q, s, End(s, p.key, [], x), End(s, p.key, [], y));
  }

  /** After p was completed, the plan q can be completed too, and if that changes nothing it was complete. */
  lemma RestsAt(s: State, p: Plan, k: Key, q: Plan, j: Key) returns (b: State)
    requires Eligible(s, p, k) && Eligible(s, q, j) && p.key == q.key && ValidZone(s.zone) && Settles(s, p.key)
    ensures Complete(p, s, b) && q.key in b.ingresses && q.tunnelID in b.remote && Complete(q, b, b)
  {
    var x := SuccessIsPossible(s, p, k);
    FirstTry(s, p.key, x);
    b := End(s, p.key, [], x);
    StillEligible(p, s, b, q, j);
    var y := SuccessIsPossible(b, q, j);
    assert Attempt(b, p.key, y).0.state == b;
  }

  lemma SettlingInterchangeable(s: State, p: Plan, k: Key, q: Plan, j: Key)
    requires Eligible(s, p, k) && Eligible(s, q, j) && p.key == q.key && ValidZone(s.zone) && Settles(s, p.key)
    ensures Interchangeable(s, p, q)
  {
    var b := RestsAt(s, p, k, q, j);
    var c := RestsAt(s, q, j, p, k);
    StableInterchangeable(p, q, s, b, c);
  }
}
