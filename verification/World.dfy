/** The state outside the operator: the objects the Kubernetes API stores and the tunnels and DNS zone that
    Cloudflare keeps. Every API call is one step on it, and the world decides how each call ends. */
module World {
  import opened Domain

  // ----- Stored objects -----

  datatype Key = Key(namespace: string, name: string)

  /** An address in an Ingress status: text that netip.ParseAddr refuses, or an address and its printed form. */
  datatype Address = Unparsable | Parsed(ip: string)

  datatype Ingress = Ingress(
    finalizers: set<string>,
    deleting: bool,
    annotations: map<string, string>,
    rules: seq<string>,
    tls: seq<seq<string>>,
    addresses: seq<Address>)

  datatype Condition = Condition(ctype: string, status: bool, reason: string, message: string)

  datatype Status = Status(tunnelID: string, tunnelName: string, conditions: seq<Condition>)

  datatype TunnelObject = TunnelObject(
    finalizers: set<string>,
    deleting: bool,
    labels: Option<map<string, string>>,
    isDefault: bool,
    settings: Settings,
    status: Status)

  const FINALIZER := "cf-tunnel-operator.walnuts.dev/finalizer"
  const DEFAULT_LABEL := "cf-tunnel-operator.walnuts.dev/default"
  const NEW_STATUS := Status("", "", [])

  /** `zone` is keyed by record identifier; `secrets` holds the tunnel token, `deployments` the number of
      available replicas; `issued` is every tunnel identifier handed out so far. */
  datatype State = State(
    ingresses: map<Key, Ingress>,
    tunnels: map<Key, TunnelObject>,
    secrets: map<Key, string>,
    services: set<Key>,
    deployments: map<Key, nat>,
    remote: map<string, Config>,
    issued: set<string>,
    zone: map<string, RecordData>)

  // ----- Calls and replies -----

  /** How a call ends: it is done and acknowledged, it never takes effect, it takes effect but its reply is
      lost, or the client reports ErrTunnelNotFound. */
  datatype Fault = Pass | Refuse | Lose | Missing

  /** The world's answer to one call: its fate, the identifier or token it hands out, the default tunnel it
      lists first, and the order in which it lists records. */
  datatype Reply = Reply(fault: Fault, id: string, pick: Key, listing: seq<string>)

  datatype Actor = Nobody | IngressActor(key: Key) | TunnelActor(key: Key)

  /** The objects a CloudflareTunnel owns; each has its name. */
  datatype Child = TokenSecret | Cloudflared | Metrics | Monitor | Budget

  datatype Call =
    | ReadObject(key: Key)
    | ListDefaults
    | WriteIngress(key: Key, ingress: Ingress)
    | WriteTunnel(key: Key, tunnel: TunnelObject)
    | WriteStatus(key: Key, status: Status)
    | ApplyChild(key: Key, child: Child)
    | ReadConfig(tunnelID: string)
    | WriteConfig(tunnelID: string, config: Config)
    | CreateTunnel(name: string)
    | DeleteTunnel(tunnelID: string)
    | ReadToken(tunnelID: string)
    | ListRecords
    | AddRecord(data: RecordData)
    | UpdateRecord(id: string, data: RecordData)
    | DeleteRecord(id: string)

  /** One call that was made: by whom, in which state, and how the world answered. */
  datatype Event = Event(actor: Actor, call: Call, before: State, reply: Reply)

  /** A run in progress. `script` is how the remaining calls will be answered; once it is used up every call
      fails, which is how a crash is modelled. `trace` is the calls made so far. */
  datatype World = World(state: State, script: seq<Reply>, actor: Actor, trace: seq<Event>)

  datatype Got<+T> = Found(value: T) | NotFound | Failed

  const NO_REPLY := Reply(Refuse, "", Key("", ""), [])

  function Head(w: World): Reply {
    if w.script == [] then NO_REPLY else w.script[0]
  }

  predicate Answered(w: World) {
    Head(w).fault.Pass?
  }

  predicate Arrives(w: World) {
    Head(w).fault.Pass? || Head(w).fault.Lose?
  }

  function Spend(w: World, call: Call, after: State): World {
    World(after, if w.script == [] then [] else w.script[1..], w.actor,
          w.trace + [Event(w.actor, call, w.state, Head(w))])
  }

  function Write(w: World, call: Call, after: State, allowed: bool): (World, bool) {
    (Spend(w, call, if allowed && Arrives(w) then after else w.state), allowed && Answered(w))
  }

  /** A run that went on from w to w1 through calls of one actor. */
  ghost predicate Extends(w: World, w1: World) {
    w.trace <= w1.trace && w1.actor == w.actor &&
    forall i :: |w.trace| <= i < |w1.trace| ==> w1.trace[i].actor == w.actor
  }

  lemma ExtendsOn(a: World, b: World, c: World)
    requires Extends(a, b) && Extends(b, c)
    ensures Extends(a, c)
  {
    forall i | |a.trace| <= i < |c.trace| ensures c.trace[i].actor == a.actor {
      assert i < |b.trace| ==> c.trace[i] == b.trace[i];
    }
  }

  // ----- The Kubernetes API -----

  function GetIngress(w: World, key: Key): (World, Got<Ingress>) {
    (Spend(w, ReadObject(key), w.state),
     if !Answered(w) then Failed else if key in w.state.ingresses then Found(w.state.ingresses[key]) else NotFound)
  }

  function GetTunnel(w: World, key: Key): (World, Got<TunnelObject>) {
    (Spend(w, ReadObject(key), w.state),
     if !Answered(w) then Failed else if key in w.state.tunnels then Found(w.state.tunnels[key]) else NotFound)
  }

  function GetSecret(w: World, key: Key): (World, Got<string>) {
    (Spend(w, ReadObject(key), w.state),
     if !Answered(w) then Failed else if key in w.state.secrets then Found(w.state.secrets[key]) else NotFound)
  }

  function GetService(w: World, key: Key): (World, Got<()>) {
    (Spend(w, ReadObject(key), w.state),
     if !Answered(w) then Failed else if key in w.state.services then Found(()) else NotFound)
  }

  function GetDeployment(w: World, key: Key): (World, Got<nat>) {
    (Spend(w, ReadObject(key), w.state),
     if !Answered(w) then Failed else if key in w.state.deployments then Found(w.state.deployments[key]) else NotFound)
  }

  predicate Labelled(o: TunnelObject) {
    o.labels.Some? && DEFAULT_LABEL in o.labels.value && o.labels.value[DEFAULT_LABEL] == "true"
  }

  function Defaults(tunnels: map<Key, TunnelObject>): set<Key> {
    set k | k in tunnels && Labelled(tunnels[k])
  }

  /** A list limited to one item: any labelled tunnel may come first; NotFound stands for an empty list. */
  function ListDefault(w: World): (World, Got<TunnelObject>) {
    (Spend(w, ListDefaults, w.state),
     if !Answered(w) then Failed
     else if Defaults(w.state.tunnels) == {} then NotFound
     else if Head(w).pick in Defaults(w.state.tunnels) then Found(w.state.tunnels[Head(w).pick])
     else Failed)
  }

  /** Update of an Ingress; the API drops an object being deleted once its last finalizer is gone. */
  function PutIngress(w: World, key: Key, ing: Ingress): (World, bool) {
    var left :=
      if ing.deleting && ing.finalizers == {} then w.state.ingresses - {key} else w.state.ingresses[key := ing];
    Write(w, WriteIngress(key, ing), w.state.(ingresses := left), key in w.state.ingresses)
  }

  /** The label the mutating webhook derives from Spec.Default. */
  function WithDefaultLabel(labels: Option<map<string, string>>, isDefault: bool): map<string, string> {
    (if labels.Some? then labels.value else map[])[DEFAULT_LABEL := if isDefault then "true" else "false"]
  }

  /** Update of a CloudflareTunnel: it passes the mutating webhook and leaves the status alone. */
  function PutTunnel(w: World, key: Key, o: TunnelObject): (World, bool) {
    if key !in w.state.tunnels then Write(w, WriteTunnel(key, o), w.state, false)
    else
      var stored := o.(labels := Some(WithDefaultLabel(o.labels, o.isDefault)), status := w.state.tunnels[key].status);
      var left := if o.deleting && o.finalizers == {} then w.state.tunnels - {key} else w.state.tunnels[key := stored];
      Write(w, WriteTunnel(key, o), w.state.(tunnels := left), true)
  }

  function PutStatus(w: World, key: Key, status: Status): (World, bool) {
    if key !in w.state.tunnels then Write(w, WriteStatus(key, status), w.state, false)
    else
      Write(w, WriteStatus(key, status),
            w.state.(tunnels := w.state.tunnels[key := w.state.tunnels[key].(status := status)]), true)
  }

  function ApplySecret(w: World, key: Key, token: string): (World, bool) {
    Write(w, ApplyChild(key, TokenSecret), w.state.(secrets := w.state.secrets[key := token]), true)
  }

  function ApplyDeployment(w: World, key: Key): (World, bool) {
    var replicas := if key in w.state.deployments then w.state.deployments[key] else 0;
    Write(w, ApplyChild(key, Cloudflared), w.state.(deployments := w.state.deployments[key := replicas]), true)
  }

  function ApplyService(w: World, key: Key): (World, bool) {
    Write(w, ApplyChild(key, Metrics), w.state.(services := w.state.services + {key}), true)
  }

  /** ServiceMonitor and PodDisruptionBudget: the operator never reads them back. */
  function ApplyOther(w: World, key: Key, child: Child): (World, bool) {
    Write(w, ApplyChild(key, child), w.state, true)
  }

  // ----- The Cloudflare API -----

  function GetConfig(w: World, tunnelID: string): (World, Got<Config>) {
    (Spend(w, ReadConfig(tunnelID), w.state),
     if !Answered(w) || tunnelID !in w.state.remote then Failed else Found(w.state.remote[tunnelID]))
  }

  function PutConfig(w: World, tunnelID: string, config: Config): (World, bool) {
    Write(w, WriteConfig(tunnelID, config), w.state.(remote := w.state.remote[tunnelID := config]),
          tunnelID in w.state.remote)
  }

  predicate FreshTunnel(s: State, id: string) {
    id != "" && id !in s.issued
  }

  /** A new tunnel gets an identifier that was never handed out before. */
  function CreateRemote(w: World, name: string): (World, Got<string>) {
    var id := Head(w).id;
    var r := Write(w, CreateTunnel(name),
                   w.state.(remote := w.state.remote[id := Config([], "")], issued := w.state.issued + {id}),
                   FreshTunnel(w.state, id));
    (r.0, if r.1 then Found(id) else Failed)
  }

  function DeleteRemote(w: World, tunnelID: string): (World, bool) {
    Write(w, DeleteTunnel(tunnelID), w.state.(remote := w.state.remote - {tunnelID}), true)
  }

  /** The token of a tunnel; NotFound stands for ErrTunnelNotFound. */
  function GetToken(w: World, tunnelID: string): (World, Got<string>) {
    (Spend(w, ReadToken(tunnelID), w.state),
     if Head(w).fault.Missing? then NotFound
     else if !Answered(w) || tunnelID !in w.state.remote then Failed
     else Found(Head(w).id))
  }

  /** A list of records gives every match once, in an order of the zone's choosing. */
  predicate IsListing(ids: seq<string>, matches: set<string>) {
    |ids| == |matches| && (set x | x in ids) == matches
  }

  function ListMatches(w: World, matches: set<string>): (World, Got<seq<string>>) {
    (Spend(w, ListRecords, w.state),
     if Answered(w) && IsListing(Head(w).listing, matches) then Found(Head(w).listing) else Failed)
  }

  function CreateRecord(w: World, data: RecordData): (World, bool) {
    var id := Head(w).id;
    Write(w, AddRecord(data), w.state.(zone := w.state.zone[id := data]), id != "" && id !in w.state.zone)
  }

  function ReplaceRecord(w: World, id: string, data: RecordData): (World, bool) {
    Write(w, UpdateRecord(id, data), w.state.(zone := w.state.zone[id := data]), id in w.state.zone)
  }

  function RemoveRecord(w: World, id: string): (World, bool) {
    Write(w, DeleteRecord(id), w.state.(zone := w.state.zone - {id}), id in w.state.zone)
  }

  /** The world as the reconcilers hold it: one object, changed by each call. */
  class Env {
    var w: World

    constructor (w: World)
      ensures this.w == w
    {
      this.w := w;
    }

    method Call<R>(f: World -> (World, R)) returns (r: R)
      modifies this
      ensures (w, r) == f(old(w))
    {
      var next := f(w);
      w, r := next.0, next.1;
    }
  }
}
