/** Whole runs of the system: users, the cluster and both reconcilers take steps in any order, and each
    reconcile may be cut short at any call. */
module Runs {
  import opened Domain
  import opened World
  import opened IngressFields
  import opened Protocol
  import opened ZoneLaws
  import opened StatusLaws
  import opened Invariant
  import opened IngressSafety
  import opened TunnelSafety

  /** `others` are finalizers of other controllers; the operator's own is kept as it is stored. */
  datatype Step =
    | SyncIngress(key: Key, script: seq<Reply>)
    | SyncTunnel(key: Key, script: seq<Reply>)
    | ApplyIngress(key: Key, others: set<string>, annotations: map<string, string>, rules: seq<string>,
                   tls: seq<seq<string>>, addresses: seq<Address>)
    | RemoveIngress(key: Key)
    | ApplyTunnel(key: Key, others: set<string>, labels: Option<map<string, string>>, isDefault: bool,
                  settings: Settings)
    | RemoveTunnel(key: Key)
    | ChangeCluster(secrets: map<Key, string>, services: set<Key>, deployments: map<Key, nat>)

  function OwnFinalizer(present: bool, others: set<string>): set<string> {
    (others - {FINALIZER}) + if present then {FINALIZER} else {}
  }

  function StoreIngress(s: State, key: Key, ing: Ingress): State {
    s.(ingresses := if ing.deleting && ing.finalizers == {} then s.ingresses - {key} else s.ingresses[key := ing])
  }

  function StoreTunnel(s: State, key: Key, o: TunnelObject): State {
    s.(tunnels := if o.deleting && o.finalizers == {} then s.tunnels - {key} else s.tunnels[key := o])
  }

  /** A user or another controller writes an Ingress. */
  function EditIngress(s: State, step: Step): State
    requires step.ApplyIngress?
  {
    var stored := step.key in s.ingresses;
    StoreIngress(s, step.key,
      Ingress(OwnFinalizer(stored && FINALIZER in s.ingresses[step.key].finalizers, step.others),
              stored && s.ingresses[step.key].deleting, step.annotations, step.rules, step.tls, step.addresses))
  }

  /** A user writes a CloudflareTunnel: the webhook sets its label, and the status is not theirs to write. */
  function EditTunnel(s: State, step: Step): State
    requires step.ApplyTunnel?
  {
    var stored := step.key in s.tunnels;
    StoreTunnel(s, step.key,
      TunnelObject(OwnFinalizer(stored && FINALIZER in s.tunnels[step.key].finalizers, step.others),
                   stored && s.tunnels[step.key].deleting, Some(WithDefaultLabel(step.labels, step.isDefault)),
                   step.isDefault, step.settings, if stored then s.tunnels[step.key].status else NEW_STATUS))
  }

  ghost function Take(w: World, step: Step): World {
    match step
    case SyncIngress(key, script) => ReconcileIngress(w.(script := script, actor := IngressActor(key)), key).0
    case SyncTunnel(key, script) => ReconcileTunnel(w.(script := script, actor := TunnelActor(key)), key).0
    case ApplyIngress(_, _, _, _, _, _) => w.(state := EditIngress(w.state, step))
    case ApplyTunnel(_, _, _, _, _) => w.(state := EditTunnel(w.state, step))
    case RemoveIngress(key) =>
      if key !in w.state.ingresses then w
      else w.(state := StoreIngress(w.state, key, w.state.ingresses[key].(deleting := true)))
    case RemoveTunnel(key) =>
      if key !in w.state.tunnels then w
      else w.(state := StoreTunnel(w.state, key, w.state.tunnels[key].(deleting := true)))
    case ChangeCluster(secrets, services, deployments) =>
      w.(state := w.state.(secrets := secrets, services := services, deployments := deployments))
  }

  ghost function Run(w: World, steps: seq<Step>): World {
    if steps == [] then w else Take(Run(w, steps[..|steps| - 1]), steps[|steps| - 1])
  }

  lemma StoreTunnelKeepsInv(s: State, key: Key, o: TunnelObject)
    requires Inv(s) && LabelAgrees(o) && Sound(o.status.conditions)
    requires if key in s.tunnels then o.status == s.tunnels[key].status && (s.tunnels[key].deleting ==> o.deleting)
             else o.status == NEW_STATUS
    ensures Inv(StoreTunnel(s, key, o))
  {
  }

  lemma TakeSafe(w: World, step: Step)
    requires Safe(w)
    ensures Safe(Take(w, step))
  {
    match step
    case SyncIngress(key, script) => ReconcileIngressSafe(w.(script := script, actor := IngressActor(key)), key);
    case SyncTunnel(key, script) => ReconcileTunnelSafe(w.(script := script, actor := TunnelActor(key)), key);
    case ApplyTunnel(key, others, labels, isDefault, settings) =>
      var stored := key in w.state.tunnels;
      StoreTunnelKeepsInv(w.state, key,
        TunnelObject(OwnFinalizer(stored && FINALIZER in w.state.tunnels[key].finalizers, others),
                     stored && w.state.tunnels[key].deleting, Some(WithDefaultLabel(labels, isDefault)),
                     isDefault, settings, if stored then w.state.tunnels[key].status else NEW_STATUS));
    case RemoveTunnel(key) =>
      if key in w.state.tunnels {
        StoreTunnelKeepsInv(w.state, key, w.state.tunnels[key].(deleting := true));
      }
    case ApplyIngress(_, _, _, _, _, _) =>
    case RemoveIngress(_) =>
    case ChangeCluster(_, _, _) =>
  }

  lemma {:induction false} RunSafe(w: World, steps: seq<Step>)
    requires Safe(w)
    ensures Safe(Run(w, steps))
  {
    if steps != [] {
      RunSafe(w, steps[..|steps| - 1]);
      TakeSafe(Run(w, steps[..|steps| - 1]), steps[|steps| - 1]);
    }
  }

  /** Before the operator: other people's tunnels and records may exist, none that it wrote, and the zone has
      at most one CNAME per name. */
  ghost predicate Untouched(s: State) {
    s.tunnels == map[] && RemoteIssued(s) && ValidZone(s.zone) &&
    forall id :: id in s.zone && s.zone[id].rtype == CNAME ==> Owner(s.zone[id].comment).None?
  }

  ghost function Begin(s: State): World {
    World(s, [], Nobody, [])
  }

  lemma BeginSafe(s: State)
    requires Untouched(s)
    ensures Safe(Begin(s))
  {
  }

  /** No managed CNAME outlives its tunnel: in every reachable state, a CNAME whose comment the operator wrote
      for tunnel t has t's target as its content, and t exists. */
  lemma NoDanglingCname(s: State, steps: seq<Step>, id: string, t: string)
    requires Untouched(s)
    requires var z := Run(Begin(s), steps).state.zone; id in z && z[id].rtype == CNAME && z[id].comment == Comment(t)
    ensures Run(Begin(s), steps).state.zone[id].content == Target(t) && t in Run(Begin(s), steps).state.remote
  {
    BeginSafe(s);
    RunSafe(Begin(s), steps);
    CommentNamesOneTunnel(Comment(t), t);
  }

  /** The finalizer protocol over all runs: every call ever made was permitted when it was made, and whenever a
      tunnel object lost its finalizer, its reconcile had just listed the tunnel's records, deleted each and
      deleted the tunnel, every one of these calls acknowledged. */
  lemma FinalizerProtocol(s: State, steps: seq<Step>, i: nat)
    requires Untouched(s) && i < |Run(Begin(s), steps).trace|
    ensures Permitted(Run(Begin(s), steps).trace, i)
  {
    BeginSafe(s);
    RunSafe(Begin(s), steps);
  }

  /** In every reachable state the conditions of every tunnel have unique types and never report a tunnel as
      both available and degraded. */
  lemma StatusSoundness(s: State, steps: seq<Step>, key: Key)
    requires Untouched(s) && key in Run(Begin(s), steps).state.tunnels
    ensures Sound(Run(Begin(s), steps).state.tunnels[key].status.conditions)
  {
    BeginSafe(s);
    RunSafe(Begin(s), steps);
  }

  /** In every reachable state the default lookup that is answered finds none exactly when no tunnel is marked
      as default, and what it returns is a stored tunnel that is marked. */
  lemma DefaultLookup(s: State, steps: seq<Step>, script: seq<Reply>)
    requires Untouched(s)
    ensures var w := Run(Begin(s), steps).(script := script);
      var found := ListDefault(w).1;
      (found.NotFound? <==> Answered(w) && forall k :: k in w.state.tunnels ==> !w.state.tunnels[k].isDefault) &&
      (found.Found? ==> exists k :: k in w.state.tunnels && w.state.tunnels[k] == found.value && found.value.isDefault)
  {
    BeginSafe(s);
    RunSafe(Begin(s), steps);
    var w := Run(Begin(s), steps).(script := script);
    if k :| k in Defaults(w.state.tunnels) {
      assert k in w.state.tunnels && w.state.tunnels[k].isDefault;
    } else {
      forall k | k in w.state.tunnels ensures !w.state.tunnels[k].isDefault {
        assert k !in Defaults(w.state.tunnels);
      }
    }
  }
}
