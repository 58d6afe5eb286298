/** The joint invariant of the two reconcilers, and the conditions under which each call may be made. */
module Invariant {
  import opened Domain
  import opened World
  import opened IngressFields
  import opened Protocol
  import opened ZoneLaws
  import opened StatusLaws
  import opened Recovery
  import opened Outcome

  /** Every CNAME the operator wrote, which its comment tells, points at the tunnel of its comment, and that
      tunnel exists. */
  ghost predicate NoDangling(s: State) {
    forall id :: id in s.zone && s.zone[id].rtype == CNAME && Owner(s.zone[id].comment).Some? ==>
      var t := Owner(s.zone[id].comment).value;
      s.zone[id].content == Target(t) && t in s.remote
  }

  ghost predicate RemoteIssued(s: State) {
    "" !in s.remote && forall t :: t in s.remote ==> t in s.issued
  }

  /** Recorded identifiers were issued and are not shared, and a live object's tunnel exists. */
  ghost predicate Recorded(s: State) {
    (forall k :: k in s.tunnels && s.tunnels[k].status.tunnelID != "" ==>
       s.tunnels[k].status.tunnelID in s.issued &&
       (!s.tunnels[k].deleting ==> s.tunnels[k].status.tunnelID in s.remote)) &&
    (forall k, j ::
       (k in s.tunnels && j in s.tunnels && s.tunnels[k].status.tunnelID == s.tunnels[j].status.tunnelID != "") ==>
       k == j)
  }

  /** The label of a stored tunnel says whether it is a default. */
  predicate LabelAgrees(o: TunnelObject) {
    Labelled(o) <==> o.isDefault
  }

  ghost predicate ObjectsSound(s: State) {
    forall k :: k in s.tunnels ==> LabelAgrees(s.tunnels[k]) && Sound(s.tunnels[k].status.conditions)
  }

  ghost predicate Inv(s: State) {
    ValidZone(s.zone) && NoDangling(s) && RemoteIssued(s) && Recorded(s) && ObjectsSound(s)
  }

  // ----- When a call may be made -----

  ghost predicate HoldsIngress(s: State, key: Key) {
    key in s.ingresses && FINALIZER in s.ingresses[key].finalizers
  }

  ghost predicate HoldsTunnel(s: State, key: Key) {
    key in s.tunnels && FINALIZER in s.tunnels[key].finalizers
  }

  /** No rule and no CNAME is left for any host of the Ingress. */
  ghost predicate Cleared(s: State, t: string, ing: Ingress) {
    t in s.remote &&
    forall h :: h in ing.rules && h != "" ==> NoRule(s.remote[t].ingress, h) && RecordAt(s.zone, h).None?
  }

  /** Why an Ingress may be let go: no default tunnel exists, or its tunnel is being deleted, or its tunnel
      has been cleared of it. */
  ghost predicate Released(s: State, ing: Ingress) {
    TunnelName(ing.annotations).Some? && var name := TunnelName(ing.annotations).value;
    (WantsDefault(name) && Defaults(s.tunnels) == {}) ||
    exists k :: k in Candidates(s.tunnels, name) && k in s.tunnels &&
      (s.tunnels[k].deleting || Cleared(s, s.tunnels[k].status.tunnelID, ing))
  }

  ghost predicate NoneOwned(s: State, t: string) {
    forall id :: id in s.zone && s.zone[id].rtype == CNAME ==> Owner(s.zone[id].comment) != Some(t)
  }

  /** Calls are made only while the owner's finalizer is stored; a tunnel goes only after its records, and a
      finalizer only after what it protects. */
  ghost predicate Guarded(e: Event) {
    match e.actor
    case Nobody => false
    case IngressActor(key) => (
      match e.call
      case WriteConfig(_, _) => HoldsIngress(e.before, key)
      case AddRecord(_) => HoldsIngress(e.before, key)
      case UpdateRecord(_, _) => HoldsIngress(e.before, key)
      case DeleteRecord(_) => HoldsIngress(e.before, key)
      case WriteIngress(k, ing) =>
        k == key && (FINALIZER !in ing.finalizers ==>
          HoldsIngress(e.before, key) && e.before.ingresses[key].deleting &&
            Released(e.before, e.before.ingresses[key]))
      case ReadObject(_) => true
      case ListDefaults => true
      case ReadConfig(_) => true
      case ListRecords => true
      case _ => false)
    case TunnelActor(key) => (
      match e.call
      case CreateTunnel(_) => HoldsTunnel(e.before, key) && !e.before.tunnels[key].deleting
      case DeleteRecord(_) => HoldsTunnel(e.before, key) && e.before.tunnels[key].deleting
      case DeleteTunnel(t) =>
        HoldsTunnel(e.before, key) && e.before.tunnels[key].deleting &&
        t == e.before.tunnels[key].status.tunnelID && NoneOwned(e.before, t)
      case WriteTunnel(k, o) =>
        k == key && (FINALIZER !in o.finalizers ==>
          HoldsTunnel(e.before, key) && e.before.tunnels[key].deleting &&
          NoneOwned(e.before, e.before.tunnels[key].status.tunnelID) &&
          e.before.tunnels[key].status.tunnelID !in e.before.remote)
      case WriteStatus(k, _) => k == key && HoldsTunnel(e.before, key)
      case ApplyChild(k, _) => k == key && HoldsTunnel(e.before, key)
      case ReadObject(_) => true
      case ReadToken(_) => true
      case ListRecords => true
      case _ => false)
  }

  /** The operator takes its finalizer off a tunnel object. */
  predicate DropsFinalizer(call: Call) {
    call.WriteTunnel? && FINALIZER !in call.tunnel.finalizers
  }

  /** These are calls of one actor, all acknowledged: a complete listing of a tunnel's records, the deletion of
      each of them, and the deletion of the tunnel. */
  ghost predicate Dismantles(es: seq<Event>, actor: Actor, t: string) {
    |es| >= 2 && var ids := es[0].reply.listing;
    |es| == |ids| + 2 && (forall i :: 0 <= i < |es| ==> es[i].actor == actor && es[i].reply.fault.Pass?) &&
    es[0].call.ListRecords? && IsListing(ids, CnamesCommented(es[0].before.zone, Comment(t))) &&
    (forall i :: 0 <= i < |ids| ==> es[i + 1].call == DeleteRecord(ids[i]) && ids[i] in es[i + 1].before.zone) &&
    es[|ids| + 1].call == DeleteTunnel(t)
  }

  /** Right before event i its actor has dismantled the tunnel of its object. */
  ghost predicate Dismantled(trace: seq<Event>, i: nat)
    requires i < |trace|
  {
    var e := trace[i];
    e.actor.TunnelActor? && e.actor.key in e.before.tunnels &&
    exists from :: 0 <= from < i && Dismantles(trace[from..i], e.actor, e.before.tunnels[e.actor.key].status.tunnelID)
  }

  /** Event i was permitted when it was made, and if it took the finalizer off a tunnel object, its reconcile had
      just seen the tunnel's records and then the tunnel deleted. */
  ghost predicate Permitted(trace: seq<Event>, i: nat)
    requires i < |trace|
  {
    Guarded(trace[i]) && (DropsFinalizer(trace[i].call) ==> Dismantled(trace, i))
  }

  ghost predicate AllPermitted(trace: seq<Event>) {
    forall i :: 0 <= i < |trace| ==> Permitted(trace, i)
  }

  lemma StillPermitted(trace: seq<Event>, e: Event, i: nat)
    requires i < |trace| && Permitted(trace, i)
    ensures Permitted(trace + [e], i)
  {
    if DropsFinalizer(trace[i].call) {
      var t := trace[i].before.tunnels[trace[i].actor.key].status.tunnelID;
      var from :| 0 <= from < i && Dismantles(trace[from..i], trace[i].actor, t);
      assert (trace + [e])[from..i] == trace[from..i];
    }
  }

  ghost predicate Safe(w: World) {
    Inv(w.state) && AllPermitted(w.trace)
  }

  /** A step that goes on from a safe world to a safe one, for the same actor. */
  ghost predicate Keeps(w: World, w1: World) {
    Safe(w1) && w1.actor == w.actor
  }

  /** A permitted call that leads to a sound state, whether or not it takes effect. */
  lemma SpendKeeps(w: World, call: Call, after: State)
    requires Safe(w) && Inv(after)
    requires Permitted(Spend(w, call, after).trace, |w.trace|)
    ensures Keeps(w, Spend(w, call, after))
  {
    var e := Event(w.actor, call, w.state, Head(w));
    forall i | 0 <= i < |w.trace| ensures Permitted(w.trace + [e], i) {
      StillPermitted(w.trace, e, i);
    }
  }
}
