/** Crash and retry: an Ingress reconcile that is cut short anywhere and retried to success ends where an
    uninterrupted one ends. */
module Recovery {
  import opened Domain
  import opened World
  import opened IngressFields
  import opened Protocol
  import opened ZoneLaws
  import Rules
  import RuleLaws

  // ----- Where the DNS records of a pass are heading -----

  /** The record a pass aims at for one of its hosts. */
  ghost function Goal(tunnelID: string, withdraw: bool, name: string, prior: Option<RecordData>): Option<RecordData> {
    if withdraw then None else PublishedRecord(tunnelID, name, prior)
  }

  /** Every CNAME is as it was or, for these names, at its goal; everything else is as it was. */
  ghost predicate Moved(a: map<string, RecordData>, b: map<string, RecordData>, tunnelID: string, withdraw: bool,
                        names: set<string>)
  {
    ValidZone(b) && Others(b, names) == Others(a, names) &&
    forall n :: RecordAt(b, n) == RecordAt(a, n) ||
      (n in names && RecordAt(b, n) == Goal(tunnelID, withdraw, n, RecordAt(a, n)))
  }

  ghost predicate Reached(a: map<string, RecordData>, b: map<string, RecordData>, tunnelID: string, withdraw: bool,
                          names: set<string>)
  {
    forall n :: n in names ==> RecordAt(b, n) == Goal(tunnelID, withdraw, n, RecordAt(a, n))
  }

  lemma MovedOn(a: map<string, RecordData>, b: map<string, RecordData>, c: map<string, RecordData>,
                tunnelID: string, withdraw: bool, names: set<string>, some: set<string>)
    requires Moved(a, b, tunnelID, withdraw, names) && Moved(b, c, tunnelID, withdraw, names)
    ensures Moved(a, c, tunnelID, withdraw, names)
    ensures Reached(a, b, tunnelID, withdraw, some) || Reached(b, c, tunnelID, withdraw, some)
        ==> Reached(a, c, tunnelID, withdraw, some)
  {
    forall n
      ensures RecordAt(c, n) == RecordAt(a, n) ||
        (n in names && RecordAt(c, n) == Goal(tunnelID, withdraw, n, RecordAt(a, n)))
    {
      assert RecordAt(b, n) == RecordAt(a, n) || RecordAt(b, n) == Goal(tunnelID, withdraw, n, RecordAt(a, n));
    }
  }

  function OneDNS(w: World, tunnelID: string, withdraw: bool, name: string): (World, bool) {
    if withdraw then RemoveDNS(w, name) else AppendDNS(w, tunnelID, name)
  }

  function EachDNS(w: World, tunnelID: string, withdraw: bool, hosts: seq<Host>): (World, bool) {
    if withdraw then RemoveEachDNS(w, hosts) else AppendEachDNS(w, tunnelID, hosts)
  }

  lemma OneEffect(w: World, tunnelID: string, withdraw: bool, name: string, names: set<string>)
    requires ValidZone(w.state.zone) && name in names
    ensures var (w1, ok) := OneDNS(w, tunnelID, withdraw, name);
      var z, z1 := w.state.zone, w1.state.zone;
      w1.state == w.state.(zone := z1) && w1.actor == w.actor && Moved(z, z1, tunnelID, withdraw, names) &&
      (ok ==> Reached(z, z1, tunnelID, withdraw, {name})) &&
      (Reached(z, z, tunnelID, withdraw, {name}) ==> z1 == z && Quiet(w, w1))
  {
    if withdraw { RemoveDNSEffect(w, name, names); } else { AppendDNSEffect(w, tunnelID, name, names); }
  }

  /** The host loop, duplicates included: whatever fails, each name is untouched or at its goal. */
  lemma {:induction false} EachEffect(w: World, tunnelID: string, withdraw: bool, hosts: seq<Host>, names: set<string>)
    requires ValidZone(w.state.zone) && HostNames(hosts) <= names
    ensures var (w1, ok) := EachDNS(w, tunnelID, withdraw, hosts);
      var z, z1 := w.state.zone, w1.state.zone;
      w1.state == w.state.(zone := z1) && w1.actor == w.actor && Moved(z, z1, tunnelID, withdraw, names) &&
      (ok ==> Reached(z, z1, tunnelID, withdraw, HostNames(hosts))) &&
      (Reached(z, z, tunnelID, withdraw, names) ==> z1 == z && Quiet(w, w1))
    decreases |hosts|
  {
    if hosts != [] {
      var name := hosts[0].name;
      NamesSplit(hosts);
      OneEffect(w, tunnelID, withdraw, name, names);
      var (m, ok) := OneDNS(w, tunnelID, withdraw, name);
      if ok {
        EachEffect(m, tunnelID, withdraw, hosts[1..], names);
        var e := EachDNS(m, tunnelID, withdraw, hosts[1..]).0;
        MovedOn(w.state.zone, m.state.zone, e.state.zone, tunnelID, withdraw, names, {name});
        MovedOn(w.state.zone, m.state.zone, e.state.zone, tunnelID, withdraw, names, HostNames(hosts[1..]));
      }
    }
  }

  lemma NamesSplit(hosts: seq<Host>)
    requires hosts != []
    ensures HostNames(hosts) == {hosts[0].name} + HostNames(hosts[1..])
  {
    forall n ensures n in HostNames(hosts) <==> n == hosts[0].name || n in HostNames(hosts[1..]) {
      if i :| 0 <= i < |hosts| && hosts[i].name == n && i > 0 {
        assert hosts[1..][i - 1].name == n;
      }
      if i :| 0 <= i < |hosts[1..]| && hosts[1..][i].name == n {
        assert hosts[i + 1].name == n;
      }
    }
  }

  // ----- The plan of a reconcile -----

  /** What a reconcile of a live Ingress does once its tunnel is known. */
  datatype Plan = Plan(key: Key, tunnelID: string, hosts: seq<Host>, ip: string, settings: Settings, withdraw: bool)

  ghost function GoalConfig(p: Plan, c: Config): Config {
    c.(ingress := if p.withdraw then Rules.Remove(c.ingress, p.hosts, p.settings)
                  else Rules.Append(c.ingress, p.hosts, p.ip, p.settings))
  }

  /** Two plans of one Ingress differ in their tunnel only. */
  ghost predicate SameWork(p: Plan, q: Plan) {
    p.key == q.key && p.hosts == q.hosts && p.ip == q.ip && p.withdraw == q.withdraw
  }

  lemma GoalConfigAbsorbs(p: Plan, q: Plan, c: Config)
    requires SameWork(p, q)
    ensures GoalConfig(q, GoalConfig(p, c)) == GoalConfig(q, c)
  {
    RuleLaws.AppendAbsorbs(c.ingress, p.hosts, p.ip, p.settings, q.settings);
    RuleLaws.RemoveAbsorbs(c.ingress, p.hosts, p.settings, q.settings);
  }

  function WithFinalizer(ing: Ingress): Ingress {
    ing.(finalizers := ing.finalizers + {FINALIZER})
  }

  /** The state once the finalizer of an Ingress is stored. */
  function Held(s: State, key: Key): State
    requires key in s.ingresses
  {
    s.(ingresses := s.ingresses[key := WithFinalizer(s.ingresses[key])])
  }

  /** The tunnels an annotation can resolve to. */
  function Candidates(tunnels: map<Key, TunnelObject>, name: Key): set<Key> {
    if WantsDefault(name) then Defaults(tunnels) else if name in tunnels then {name} else {}
  }

  /** The Ingress asks for the default tunnel, and there is none. */
  predicate NoDefaultMeant(s: State, ing: Ingress) {
    TunnelName(ing.annotations).Some? && WantsDefault(TunnelName(ing.annotations).value) && Defaults(s.tunnels) == {}
  }

  /** Tunnel object k is one the Ingress can mean. */
  predicate Means(s: State, ing: Ingress, k: Key) {
    TunnelName(ing.annotations).Some? && k in Candidates(s.tunnels, TunnelName(ing.annotations).value) && k in s.tunnels
  }

  /** The Ingress is live and ready, and can be published through tunnel object k or withdrawn from it. */
  predicate Serves(s: State, ing: Ingress, k: Key) {
    !ing.deleting && Means(s, ing, k) && !s.tunnels[k].deleting && ing.addresses != [] && ing.addresses[0].Parsed? &&
    s.tunnels[k].status.tunnelID != "" && s.tunnels[k].status.tunnelID in s.remote
  }

  function PlanOf(s: State, key: Key, ing: Ingress, k: Key): Plan
    requires Serves(s, ing, k)
  {
    var o := s.tunnels[k];
    Plan(key, o.status.tunnelID, Hosts(ing), ing.addresses[0].ip, o.settings, Ignored(ing.annotations))
  }

  /** Reconciling the stored Ingress can mean to carry out this plan, through tunnel object k. */
  ghost predicate Eligible(s: State, p: Plan, k: Key) {
    p.key in s.ingresses && Serves(s, s.ingresses[p.key], k) && p == PlanOf(s, p.key, s.ingresses[p.key], k)
  }

  /** How far a state can be from another on the way of a plan: each part is as it was or at its goal. */
  ghost predicate Progress(p: Plan, a: State, b: State)
    requires p.key in a.ingresses && p.tunnelID in a.remote
  {
    b == a.(ingresses := b.ingresses, remote := b.remote, zone := b.zone) &&
    (b.ingresses == a.ingresses || b.ingresses == Held(a, p.key).ingresses) &&
    (b.remote == a.remote || b.remote == a.remote[p.tunnelID := GoalConfig(p, a.remote[p.tunnelID])]) &&
    Moved(a.zone, b.zone, p.tunnelID, p.withdraw, HostNames(p.hosts))
  }

  /** Records change only once the rule list is written. */
  ghost predicate RulesFirst(p: Plan, a: State, b: State)
    requires p.tunnelID in a.remote
  {
    b.zone != a.zone ==> b.remote == a.remote[p.tunnelID := GoalConfig(p, a.remote[p.tunnelID])]
  }

  ghost predicate Complete(p: Plan, a: State, b: State)
    requires p.key in a.ingresses && p.tunnelID in a.remote
  {
    Progress(p, a, b) &&
    b.ingresses == Held(a, p.key).ingresses &&
    b.remote == a.remote[p.tunnelID := GoalConfig(p, a.remote[p.tunnelID])] &&
    Reached(a.zone, b.zone, p.tunnelID, p.withdraw, HostNames(p.hosts))
  }

  // ----- One pass of a plan -----

  lemma ResolveEffect(w: World, name: Key)
    ensures var (w1, found) := Resolve(w, name);
      w1.state == w.state && w1.actor == w.actor && Quiet(w, w1) &&
      (found.NoDefault? ==> WantsDefault(name) && Defaults(w.state.tunnels) == {}) &&
      (found.Resolved? ==> exists k :: k in Candidates(w.state.tunnels, name) && k in w.state.tunnels &&
                                       found.tunnel == w.state.tunnels[k])
  {
    if WantsDefault(name) {
      if Head(w).pick in Defaults(w.state.tunnels) {
        assert Head(w).pick in w.state.tunnels;
      }
    } else if name in w.state.tunnels {
      assert name in Candidates(w.state.tunnels, name);
    }
  }

  ghost function ConfigStep(w: World, p: Plan): (World, bool) {
    if p.withdraw then RemoveConfig(w, p.tunnelID, p.hosts, p.settings)
    else AppendConfig(w, p.tunnelID, p.hosts, p.ip, p.settings)
  }

  /** The pass itself: the rule list, then the DNS record of each host. */
  ghost function RunPass(w: World, p: Plan): (World, bool) {
    if p.withdraw then Withdraw(w, p.tunnelID, p.hosts, p.settings)
    else Publish(w, p.tunnelID, p.hosts, p.ip, p.settings)
  }

  lemma ConfigEffect(w: World, p: Plan)
    ensures var (w1, ok) := ConfigStep(w, p);
      w1.state == w.state.(remote := w1.state.remote) && w1.actor == w.actor && Quiet(w, w1) &&
      if p.tunnelID !in w.state.remote then w1.state == w.state && !ok
      else
        var goal := w.state.remote[p.tunnelID := GoalConfig(p, w.state.remote[p.tunnelID])];
        (w1.state.remote == w.state.remote || w1.state.remote == goal) && (ok ==> w1.state.remote == goal)
  {
    var (w1, got) := GetConfig(w, p.tunnelID);
    if got.Found? {
      assert ConfigStep(w, p) == PutConfig(w1, p.tunnelID, GoalConfig(p, got.value));
    } else {
      assert ConfigStep(w, p) == (w1, false);
    }
  }

  lemma QuietOn(a: World, b: World, c: World)
    requires Quiet(a, b) && Quiet(b, c)
    ensures Quiet(a, c)
  {
    forall i | |a.trace| <= i < |c.trace| ensures !WritesDNS(c.trace[i].call) {
      assert i < |b.trace| ==> c.trace[i] == b.trace[i];
    }
  }

  /** What a pass over the hosts does from one world to the next. */
  ghost predicate PassDone(p: Plan, w: World, w1: World, ok: bool)
    requires p.key in w.state.ingresses && p.tunnelID in w.state.remote
  {
    var names := HostNames(p.hosts);
    Progress(p, w.state, w1.state) && w1.state.ingresses == w.state.ingresses &&
    RulesFirst(p, w.state, w1.state) &&
    (ok ==> w1.state.remote == w.state.remote[p.tunnelID := GoalConfig(p, w.state.remote[p.tunnelID])]) &&
    (ok ==> Reached(w.state.zone, w1.state.zone, p.tunnelID, p.withdraw, names)) &&
    (Reached(w.state.zone, w.state.zone, p.tunnelID, p.withdraw, names) ==>
       w1.state.zone == w.state.zone && Quiet(w, w1))
  }

  /** A pass does what it is for, and a tunnel that does not exist stops it before it changes anything. */
  lemma PassEffect(w: World, p: Plan)
    requires p.key in w.state.ingresses && ValidZone(w.state.zone)
    ensures var (w1, ok) := RunPass(w, p);
      if p.tunnelID in w.state.remote then PassDone(p, w, w1, ok) else w1.state == w.state && Quiet(w, w1) && !ok
  {
    ConfigEffect(w, p);
    var (m, ok) := ConfigStep(w, p);
    if ok {
      EachEffect(m, p.tunnelID, p.withdraw, p.hosts, HostNames(p.hosts));
      var (e, done) := EachDNS(m, p.tunnelID, p.withdraw, p.hosts);
      assert RunPass(w, p) == (e, done);
      if Reached(w.state.zone, w.state.zone, p.tunnelID, p.withdraw, HostNames(p.hosts)) {
        QuietOn(w, m, e);
      }
    } else {
      assert RunPass(w, p) == (m, false);
    }
  }

  /** A pass that has reached all its goals. */
  ghost predicate Passed(p: Plan, a: State, b: State)
    requires p.tunnelID in a.remote
  {
    b == a.(remote := a.remote[p.tunnelID := GoalConfig(p, a.remote[p.tunnelID])], zone := b.zone) &&
    Moved(a.zone, b.zone, p.tunnelID, p.withdraw, HostNames(p.hosts)) &&
    Reached(a.zone, b.zone, p.tunnelID, p.withdraw, HostNames(p.hosts))
  }

  lemma PassAfter(p: Plan, w: World, m: World, w1: World, ok: bool)
    requires p.key in w.state.ingresses && p.tunnelID in w.state.remote
    requires m.state == w.state && Quiet(w, m) && PassDone(p, m, w1, ok)
    ensures PassDone(p, w, w1, ok)
  {
    if Quiet(m, w1) { QuietOn(w, m, w1); }
  }

  // ----- One reconcile -----

  /** The reconcile of a live Ingress after its finalizer: it changes nothing, or makes a pass of a plan that
      it was free to choose. It succeeds without a pass only when no default tunnel exists. */
  lemma SyncEffect(w: World, key: Key)
    requires key in w.state.ingresses && !w.state.ingresses[key].deleting && ValidZone(w.state.zone)
    ensures var (w1, ok) := Sync(w, w.state.ingresses[key]);
      (w1.state == w.state && Quiet(w, w1) && (ok ==> NoDefaultMeant(w.state, w.state.ingresses[key]))) ||
      exists p, k :: Eligible(w.state, p, k) && p.key == key && PassDone(p, w, w1, ok)
  {
    var ing := w.state.ingresses[key];
    if TunnelName(ing.annotations).Some? {
      var name := TunnelName(ing.annotations).value;
      ResolveEffect(w, name);
      var (m, found) := Resolve(w, name);
      if found.Resolved? {
        var k :| k in Candidates(w.state.tunnels, name) && k in w.state.tunnels && found.tunnel == w.state.tunnels[k];
        SyncPass(w, m, key, k);
      } else {
        assert Sync(w, ing) == (m, found.NoDefault?);
      }
    }
  }

  lemma SyncPass(w: World, m: World, key: Key, k: Key)
    requires key in w.state.ingresses && !w.state.ingresses[key].deleting && ValidZone(w.state.zone)
    requires Means(w.state, w.state.ingresses[key], k) && m.state == w.state && Quiet(w, m)
    requires Resolve(w, TunnelName(w.state.ingresses[key].annotations).value) == (m, Resolved(w.state.tunnels[k]))
    ensures var (w1, ok) := Sync(w, w.state.ingresses[key]);
      (w1.state == w.state && Quiet(w, w1) && !ok) ||
      exists p :: Eligible(w.state, p, k) && p.key == key && PassDone(p, w, w1, ok)
  {
    var ing, o := w.state.ingresses[key], w.state.tunnels[k];
    if o.deleting || o.status.tunnelID == "" || ing.addresses == [] || ing.addresses[0].Unparsable? {
      assert Sync(w, ing) == (m, false);
    } else {
      var p := Plan(key, o.status.tunnelID, Hosts(ing), ing.addresses[0].ip, o.settings, Ignored(ing.annotations));
      var (w1, ok) := RunPass(m, p);
      PassEffect(m, p);
      assert Sync(w, ing) == (w1, ok);
      if p.tunnelID in w.state.remote {
        PassAfter(p, w, m, w1, ok);
        assert Eligible(w.state, p, k);
      } else {
        QuietOn(w, m, w1);
      }
    }
  }

  /** What one reconcile does for a plan, answered in any way: it makes progress, the rule list before any record, a
      success completes the plan, and a plan that was complete is left alone without a DNS write. */
  ghost predicate Attempted(p: Plan, w: World, w1: World, ok: bool)
    requires p.key in w.state.ingresses && p.tunnelID in w.state.remote
  {
    Progress(p, w.state, w1.state) && RulesFirst(p, w.state, w1.state) && (ok ==> Complete(p, w.state, w1.state)) &&
    (Complete(p, w.state, w.state) ==> w1.state == w.state && Quiet(w, w1))
  }

  /** No tunnel was reached: at most the finalizer was added, and a success means that none exists. */
  ghost predicate Unserved(w: World, w1: World, key: Key, ok: bool)
    requires key in w.state.ingresses
  {
    (w1.state == w.state || w1.state == Held(w.state, key)) && Quiet(w, w1) &&
    (ok ==> NoDefaultMeant(w.state, w.state.ingresses[key]) && w1.state == Held(w.state, key))
  }

  lemma HeldAlready(s: State, key: Key)
    requires key in s.ingresses && FINALIZER in s.ingresses[key].finalizers
    ensures Held(s, key) == s
  {
    assert WithFinalizer(s.ingresses[key]) == s.ingresses[key];
    assert s.ingresses[key := s.ingresses[key]] == s.ingresses;
  }

  lemma PassAttempted(p: Plan, w: World, w1: World, ok: bool)
    requires p.key in w.state.ingresses && p.tunnelID in w.state.remote && Held(w.state, p.key) == w.state
    requires PassDone(p, w, w1, ok)
    ensures Attempted(p, w, w1, ok)
  {
  }

  /** The reconcile of an Ingress that has its finalizer. */
  lemma ReconcileHeld(w: World, key: Key)
    requires key in w.state.ingresses && !w.state.ingresses[key].deleting && ValidZone(w.state.zone)
    requires FINALIZER in w.state.ingresses[key].finalizers && GetIngress(w, key).1.Found?
    ensures var (w1, ok) := ReconcileIngress(w, key);
      Unserved(w, w1, key, ok) || exists p, k :: Eligible(w.state, p, k) && p.key == key && Attempted(p, w, w1, ok)
  {
    var m := GetIngress(w, key).0;
    var (w1, ok) := ReconcileIngress(w, key);
    assert (w1, ok) == Sync(m, m.state.ingresses[key]);
    HeldAlready(w.state, key);
    SyncEffect(m, key);
    if p, k :| Eligible(m.state, p, k) && p.key == key && PassDone(p, m, w1, ok) {
      PassAfter(p, w, m, w1, ok);
      PassAttempted(p, w, w1, ok);
    } else {
      QuietOn(w, m, w1);
    }
  }

  lemma HeldEligible(s: State, p: Plan, k: Key)
    requires p.key in s.ingresses
    ensures Eligible(Held(s, p.key), p, k) <==> Eligible(s, p, k)
  {
  }

  lemma HeldPass(p: Plan, w: World, m: World, w1: World, ok: bool)
    requires p.key in w.state.ingresses && p.tunnelID in w.state.remote && m.state == Held(w.state, p.key)
    requires FINALIZER !in w.state.ingresses[p.key].finalizers && PassDone(p, m, w1, ok)
    ensures Attempted(p, w, w1, ok)
  {
    assert FINALIZER in Held(w.state, p.key).ingresses[p.key].finalizers;
  }

  /** The reconcile that first adds the finalizer. */
  lemma ReconcileHolds(w: World, key: Key)
    requires key in w.state.ingresses && !w.state.ingresses[key].deleting && ValidZone(w.state.zone)
    requires FINALIZER !in w.state.ingresses[key].finalizers && GetIngress(w, key).1.Found?
    ensures var (w1, ok) := ReconcileIngress(w, key);
      Unserved(w, w1, key, ok) || exists p, k :: Eligible(w.state, p, k) && p.key == key && Attempted(p, w, w1, ok)
  {
    var ing := w.state.ingresses[key];
    var (m, stored) := PutIngress(GetIngress(w, key).0, key, WithFinalizer(ing));
    var (w1, ok) := ReconcileIngress(w, key);
    if stored {
      assert m.state == Held(w.state, key) && Quiet(w, m);
      assert (w1, ok) == Sync(m, m.state.ingresses[key]);
      SyncEffect(m, key);
      if p, k :| Eligible(m.state, p, k) && p.key == key && PassDone(p, m, w1, ok) {
        HeldEligible(w.state, p, k);
        HeldPass(p, w, m, w1, ok);
      } else {
        QuietOn(w, m, w1);
      }
    }
  }

  /** One reconcile of a live Ingress, answered in any way and with any number of tunnels it can mean: it
      reaches none, or it works on the plan of one of them. */
  lemma ReconcileEffect(w: World, key: Key)
    requires key in w.state.ingresses && !w.state.ingresses[key].deleting && ValidZone(w.state.zone)
    ensures var (w1, ok) := ReconcileIngress(w, key);
      Unserved(w, w1, key, ok) || exists p, k :: Eligible(w.state, p, k) && p.key == key && Attempted(p, w, w1, ok)
  {
    if GetIngress(w, key).1.Found? {
      if FINALIZER in w.state.ingresses[key].finalizers {
        ReconcileHeld(w, key);
      } else {
        ReconcileHolds(w, key);
      }
    }
  }

  // ----- Plans that leave the same state -----

  /** Two plans for one Ingress whose outcomes cannot be told apart: they write one list the same way, or both
      lists are already as they would be written and no record is published. */
  ghost predicate Interchangeable(s: State, p: Plan, q: Plan)
    requires p.tunnelID in s.remote && q.tunnelID in s.remote
  {
    var c, d := s.remote[p.tunnelID], s.remote[q.tunnelID];
    if p.tunnelID == q.tunnelID then GoalConfig(p, c) == GoalConfig(q, d)
    else GoalConfig(p, c) == c && GoalConfig(q, d) == d && (p.withdraw || p.hosts == [])
  }

  /** Whichever tunnel a reconcile of this Ingress reaches, the outcome is the same. In particular when one
      tunnel only can be reached. */
  ghost predicate OneOutcome(s: State, key: Key) {
    forall p, k, q, j :: Eligible(s, p, k) && Eligible(s, q, j) && p.key == key && q.key == key ==>
      Interchangeable(s, p, q)
  }

  lemma OneTunnelOneOutcome(s: State, key: Key, k: Key)
    requires forall j :: key in s.ingresses && Serves(s, s.ingresses[key], j) ==> j == k
    ensures OneOutcome(s, key)
  {
  }

  lemma SameMoves(p: Plan, q: Plan, a: map<string, RecordData>, b: map<string, RecordData>)
    requires SameWork(p, q) && (p.withdraw || p.hosts == [])
    ensures var names := HostNames(p.hosts);
      (Moved(a, b, p.tunnelID, p.withdraw, names) <==> Moved(a, b, q.tunnelID, p.withdraw, names)) &&
      (Reached(a, b, p.tunnelID, p.withdraw, names) <==> Reached(a, b, q.tunnelID, p.withdraw, names))
  {
    if !p.withdraw {
      assert HostNames(p.hosts) == {};
    }
  }

  lemma SettledOutcome(p: Plan, q: Plan, a: State, b: State)
    requires p.tunnelID in a.remote && q.tunnelID in a.remote && p.tunnelID != q.tunnelID && Interchangeable(a, p, q)
    requires p.key in a.ingresses && SameWork(p, q)
    ensures Progress(q, a, b) ==> Progress(p, a, b)
    ensures Complete(q, a, b) <==> Complete(p, a, b)
  {
    var t, u := p.tunnelID, q.tunnelID;
    assert a.remote[t := GoalConfig(p, a.remote[t])] == a.remote == a.remote[u := GoalConfig(q, a.remote[u])];
    SameMoves(p, q, a.zone, b.zone);
  }

  lemma SameOutcome(p: Plan, q: Plan, a: State, b: State)
    requires p.tunnelID in a.remote && q.tunnelID in a.remote && Interchangeable(a, p, q)
    requires p.key in a.ingresses && SameWork(p, q)
    ensures Progress(q, a, b) ==> Progress(p, a, b)
    ensures Complete(q, a, b) <==> Complete(p, a, b)
  {
    if p.tunnelID != q.tunnelID {
      SettledOutcome(p, q, a, b);
    }
  }

  lemma ConfigsOn(p: Plan, a: map<string, Config>, b: map<string, Config>, c: map<string, Config>)
    requires p.tunnelID in a && (b == a || b == a[p.tunnelID := GoalConfig(p, a[p.tunnelID])])
    requires c == b || c == b[p.tunnelID := GoalConfig(p, b[p.tunnelID])]
    ensures c == a || c == a[p.tunnelID := GoalConfig(p, a[p.tunnelID])]
    ensures c == b[p.tunnelID := GoalConfig(p, b[p.tunnelID])] ==> c == a[p.tunnelID := GoalConfig(p, a[p.tunnelID])]
  {
    GoalConfigAbsorbs(p, p, a[p.tunnelID]);
  }

  lemma HeldTwice(s: State, key: Key)
    requires key in s.ingresses
    ensures Held(Held(s, key), key) == Held(s, key)
  {
    assert WithFinalizer(WithFinalizer(s.ingresses[key])) == WithFinalizer(s.ingresses[key]);
    assert Held(Held(s, key), key).ingresses == Held(s, key).ingresses;
  }

  lemma ProgressOn(p: Plan, a: State, b: State, c: State)
    requires p.key in a.ingresses && p.tunnelID in a.remote && Progress(p, a, b) && Progress(p, b, c)
    ensures Progress(p, a, c) && (Complete(p, b, c) ==> Complete(p, a, c))
  {
    ConfigsOn(p, a.remote, b.remote, c.remote);
    MovedOn(a.zone, b.zone, c.zone, p.tunnelID, p.withdraw, HostNames(p.hosts), HostNames(p.hosts));
    HeldTwice(a, p.key);
    assert Held(b, p.key).ingresses == Held(a, p.key).ingresses;
  }

  lemma StillEligible(p: Plan, a: State, b: State, q: Plan, j: Key)
    requires p.key in a.ingresses && p.tunnelID in a.remote && Progress(p, a, b) && q.key == p.key
    ensures Eligible(a, q, j) <==> Eligible(b, q, j)
  {
  }

  lemma StillInterchangeable(p: Plan, q: Plan, a: State, b: State)
    requires p.key in a.ingresses && p.tunnelID in a.remote && q.tunnelID in a.remote && Interchangeable(a, p, q)
    requires Progress(p, a, b)
    ensures q.tunnelID in b.remote && Interchangeable(b, p, q)
  {
    GoalConfigAbsorbs(p, p, a.remote[p.tunnelID]);
    GoalConfigAbsorbs(q, q, a.remote[q.tunnelID]);
  }

  // ----- Any number of crashes, then a success -----

  /** One reconcile from a state, answered by a script. */
  ghost function Attempt(s: State, key: Key, script: seq<Reply>): (World, bool) {
    ReconcileIngress(World(s, script, IngressActor(key), []), key)
  }

  /** One reconcile after another, their outcomes ignored. */
  ghost function Attempts(s: State, key: Key, scripts: seq<seq<Reply>>): State {
    if scripts == [] then s
    else Attempt(Attempts(s, key, scripts[..|scripts| - 1]), key, scripts[|scripts| - 1]).0.state
  }

  /** Attempts cut short at any calls, and then a last one. */
  ghost function End(s: State, key: Key, attempts: seq<seq<Reply>>, last: seq<Reply>): State {
    Attempt(Attempts(s, key, attempts), key, last).0.state
  }

  ghost predicate Succeeds(s: State, key: Key, attempts: seq<seq<Reply>>, last: seq<Reply>) {
    Attempt(Attempts(s, key, attempts), key, last).1
  }

  /** The Ingress is stored and live, and every tunnel it can reach would leave it the same. */
  ghost predicate Settling(s: State, key: Key) {
    key in s.ingresses && !s.ingresses[key].deleting && ValidZone(s.zone) && OneOutcome(s, key)
  }

  lemma AttemptedAlike(p: Plan, q: Plan, w: World, w1: World, ok: bool)
    requires p.tunnelID in w.state.remote && q.tunnelID in w.state.remote && Interchangeable(w.state, p, q)
    requires p.key in w.state.ingresses && SameWork(p, q) && Attempted(q, w, w1, ok)
    ensures Attempted(p, w, w1, ok)
  {
    SameOutcome(p, q, w.state, w1.state);
    SameOutcome(p, q, w.state, w.state);
  }

  lemma UnservedAttempted(p: Plan, k: Key, w: World, w1: World, ok: bool)
    requires Eligible(w.state, p, k) && ValidZone(w.state.zone) && Unserved(w, w1, p.key, ok)
    ensures Attempted(p, w, w1, ok)
  {
    HeldTwice(w.state, p.key);
  }

  /** An attempt in a state where one plan stands for all the eligible ones. */
  lemma AttemptEffect(m: State, p: Plan, k: Key, script: seq<Reply>)
    requires Eligible(m, p, k) && ValidZone(m.zone)
    requires forall q, j :: Eligible(m, q, j) && q.key == p.key ==> Interchangeable(m, p, q)
    ensures var (w1, ok) := Attempt(m, p.key, script);
      Attempted(p, World(m, script, IngressActor(p.key), []), w1, ok)
  {
    var w := World(m, script, IngressActor(p.key), []);
    var (w1, ok) := ReconcileIngress(w, p.key);
    ReconcileEffect(w, p.key);
    if q, j :| Eligible(m, q, j) && q.key == p.key && Attempted(q, w, w1, ok) {
      AttemptedAlike(p, q, w, w1, ok);
    } else {
      UnservedAttempted(p, k, w, w1, ok);
    }
  }

  /** One more attempt, on the way of a plan that stands for all the eligible ones. */
  lemma AttemptOn(s: State, p: Plan, k: Key, m: State, script: seq<Reply>)
    requires Settling(s, p.key) && Eligible(s, p, k) && Progress(p, s, m)
    ensures var (w1, ok) := Attempt(m, p.key, script);
      Progress(p, s, w1.state) && (ok ==> Complete(p, s, w1.state)) &&
      (Complete(p, m, m) ==> w1.state == m && Quiet(World(m, script, IngressActor(p.key), []), w1))
  {
    StillEligible(p, s, m, p, k);
    forall q, j | Eligible(m, q, j) && q.key == p.key ensures Interchangeable(m, p, q) {
      StillEligible(p, s, m, q, j);
      StillInterchangeable(p, q, s, m);
    }
    AttemptEffect(m, p, k, script);
    ProgressOn(p, s, m, Attempt(m, p.key, script).0.state);
  }

  lemma {:induction false} AttemptsProgress(s: State, p: Plan, k: Key, scripts: seq<seq<Reply>>)
    requires Settling(s, p.key) && Eligible(s, p, k)
    ensures Progress(p, s, Attempts(s, p.key, scripts))
  {
    if scripts != [] {
      var n := |scripts| - 1;
      AttemptsProgress(s, p, k, scripts[..n]);
      AttemptOn(s, p, k, Attempts(s, p.key, scripts[..n]), scripts[n]);
    }
  }

  ghost predicate Reachable(s: State, key: Key) {
    exists p, k :: Eligible(s, p, k) && p.key == key
  }

  lemma {:induction false} UnreachedAttempts(s: State, key: Key, scripts: seq<seq<Reply>>)
    requires key in s.ingresses && !s.ingresses[key].deleting && ValidZone(s.zone) && !Reachable(s, key)
    ensures Attempts(s, key, scripts) == s || Attempts(s, key, scripts) == Held(s, key)
  {
    if scripts != [] {
      var n := |scripts| - 1;
      UnreachedAttempts(s, key, scripts[..n]);
      UnreachedAttempt(s, key, Attempts(s, key, scripts[..n]), scripts[n]);
    }
  }

  lemma UnreachedAttempt(s: State, key: Key, m: State, script: seq<Reply>)
    requires key in s.ingresses && !s.ingresses[key].deleting && ValidZone(s.zone) && !Reachable(s, key)
    requires m == s || m == Held(s, key)
    ensures var (w1, ok) := Attempt(m, key, script);
      (w1.state == s || w1.state == Held(s, key)) && (ok ==> w1.state == Held(s, key)) &&
      (m == Held(s, key) ==> w1.state == m) && Quiet(World(m, script, IngressActor(key), []), w1)
  {
    var w := World(m, script, IngressActor(key), []);
    ReconcileEffect(w, key);
    assert WithFinalizer(WithFinalizer(s.ingresses[key])) == WithFinalizer(s.ingresses[key]);
    assert Held(Held(s, key), key) == Held(s, key);
    if p, k :| Eligible(m, p, k) && p.key == key {
      assert Eligible(s, p, k);
    }
  }

  /** Two states that differ in record identifiers at most. */
  ghost predicate SameView(a: State, b: State, names: set<string>) {
    a == b.(zone := a.zone) && Others(a.zone, names) == Others(b.zone, names) &&
    forall n :: RecordAt(a.zone, n) == RecordAt(b.zone, n)
  }

  ghost function NamesOf(s: State, key: Key): set<string>
    requires key in s.ingresses
  {
    HostNames(Hosts(s.ingresses[key]))
  }

  lemma CompleteDetermines(p: Plan, a: State, b: State, c: State)
    requires p.key in a.ingresses && p.tunnelID in a.remote && Complete(p, a, b) && Complete(p, a, c)
    ensures SameView(b, c, HostNames(p.hosts))
  {
    forall n ensures RecordAt(b.zone, n) == RecordAt(c.zone, n) {
      assert n !in HostNames(p.hosts) ==> RecordAt(b.zone, n) == RecordAt(a.zone, n);
      assert n !in HostNames(p.hosts) ==> RecordAt(c.zone, n) == RecordAt(a.zone, n);
    }
  }

  lemma SuccessCompletes(s: State, p: Plan, k: Key, attempts: seq<seq<Reply>>, last: seq<Reply>)
    requires Settling(s, p.key) && Eligible(s, p, k) && Succeeds(s, p.key, attempts, last)
    ensures Complete(p, s, End(s, p.key, attempts, last))
  {
    AttemptsProgress(s, p, k, attempts);
    AttemptOn(s, p, k, Attempts(s, p.key, attempts), last);
  }

  /** However many attempts were cut short, at whatever calls and whether or not those calls took effect, the
      first success ends with the same objects, rule lists and records as one uninterrupted reconcile. */
  lemma CrashRecovery(s: State, key: Key, attempts: seq<seq<Reply>>, last: seq<Reply>, others: seq<seq<Reply>>,
                      once: seq<Reply>)
    requires Settling(s, key) && Succeeds(s, key, attempts, last) && Succeeds(s, key, others, once)
    ensures SameView(End(s, key, attempts, last), End(s, key, others, once), NamesOf(s, key))
  {
    if p, k :| Eligible(s, p, k) && p.key == key {
      SuccessCompletes(s, p, k, attempts, last);
      SuccessCompletes(s, p, k, others, once);
      CompleteDetermines(p, s, End(s, key, attempts, last), End(s, key, others, once));
    } else {
      UnreachedAttempts(s, key, attempts);
      UnreachedAttempts(s, key, others);
      UnreachedAttempt(s, key, Attempts(s, key, attempts), last);
      UnreachedAttempt(s, key, Attempts(s, key, others), once);
    }
  }

  /** One reconcile more than that changes nothing and issues no DNS write, however it is answered. */
  lemma OneMoreIsQuiet(s: State, key: Key, attempts: seq<seq<Reply>>, last: seq<Reply>, more: seq<Reply>)
    requires Settling(s, key) && Succeeds(s, key, attempts, last)
    ensures var settled := End(s, key, attempts, last);
      var w1 := Attempt(settled, key, more).0;
      w1.state == settled && forall i :: 0 <= i < |w1.trace| ==> !WritesDNS(w1.trace[i].call)
  {
    var settled := End(s, key, attempts, last);
    if p, k :| Eligible(s, p, k) && p.key == key {
      SuccessCompletes(s, p, k, attempts, last);
      CompleteIsFixed(p, s, settled);
      AttemptOn(s, p, k, settled, more);
    } else {
      UnreachedAttempts(s, key, attempts);
      UnreachedAttempt(s, key, Attempts(s, key, attempts), last);
      UnreachedAttempt(s, key, settled, more);
    }
  }

  lemma CompleteIsFixed(p: Plan, a: State, b: State)
    requires p.key in a.ingresses && p.tunnelID in a.remote && Complete(p, a, b)
    ensures p.key in b.ingresses && p.tunnelID in b.remote && Complete(p, b, b)
  {
    ConfigsOn(p, a.remote, b.remote, b.remote[p.tunnelID := GoalConfig(p, b.remote[p.tunnelID])]);
    HeldTwice(a, p.key);
    assert Held(b, p.key).ingresses == b.ingresses;
    assert b.remote[p.tunnelID := GoalConfig(p, b.remote[p.tunnelID])] == b.remote;
  }
}
