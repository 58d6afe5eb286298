/** The two reconcilers and the DNS client as functions of the world: one call after another, each of which
    may fail. The classes that run them are proved to compute exactly these functions. */
module Protocol {
  import opened Domain
  import opened World
  import opened IngressFields
  import Rules

  // ----- DNS client -----

  function CnamesNamed(zone: map<string, RecordData>, name: string): set<string> {
    set id | id in zone && zone[id].rtype == CNAME && zone[id].name == name
  }

  function CnamesCommented(zone: map<string, RecordData>, comment: string): set<string> {
    set id | id in zone && zone[id].rtype == CNAME && zone[id].comment == comment
  }

  function GetDNS(w: World, hostname: string): (World, Got<DNSRecord>) {
    var (w1, got) := ListMatches(w, CnamesNamed(w.state.zone, hostname));
    if !got.Found? then (w1, Failed)
    else if got.value == [] then (w1, Found(NO_RECORD))
    else
      assert got.value[0] in CnamesNamed(w.state.zone, hostname);
      (w1, Found(DNSRecord(got.value[0], w.state.zone[got.value[0]])))
  }

  function AddDNS(w: World, tunnelID: string, hostname: string): (World, bool) {
    CreateRecord(w, Managed(tunnelID, hostname))
  }

  function UpdateDNS(w: World, tunnelID: string, hostname: string, current: DNSRecord): (World, bool) {
    ReplaceRecord(w, current.id, Managed(tunnelID, hostname))
  }

  function DeleteDNS(w: World, id: string): (World, bool) {
    RemoveRecord(w, id)
  }

  function DeleteEach(w: World, ids: seq<string>): (World, bool)
    decreases |ids|
  {
    if ids == [] then (w, true)
    else
      var (w1, ok) := DeleteDNS(w, ids[0]);
      if !ok then (w1, false) else DeleteEach(w1, ids[1..])
  }

  function DeleteAllDNS(w: World, tunnelID: string): (World, bool) {
    var (w1, got) := ListMatches(w, CnamesCommented(w.state.zone, Comment(tunnelID)));
    if !got.Found? then (w1, false) else DeleteEach(w1, got.value)
  }

  // ----- Ingress reconciler -----

  ghost function AppendConfig(w: World, tunnelID: string, hosts: seq<Host>, ip: string, s: Settings): (World, bool) {
    var (w1, got) := GetConfig(w, tunnelID);
    if !got.Found? then (w1, false)
    else PutConfig(w1, tunnelID, got.value.(ingress := Rules.Append(got.value.ingress, hosts, ip, s)))
  }

  ghost function RemoveConfig(w: World, tunnelID: string, hosts: seq<Host>, s: Settings): (World, bool) {
    var (w1, got) := GetConfig(w, tunnelID);
    if !got.Found? then (w1, false)
    else PutConfig(w1, tunnelID, got.value.(ingress := Rules.Remove(got.value.ingress, hosts, s)))
  }

  function AppendDNS(w: World, tunnelID: string, hostname: string): (World, bool) {
    var (w1, got) := GetDNS(w, hostname);
    if !got.Found? then (w1, false)
    else if got.value.id == "" then AddDNS(w1, tunnelID, hostname)
    else if !Healthy(got.value, tunnelID) then UpdateDNS(w1, tunnelID, hostname, got.value)
    else (w1, true)
  }

  function RemoveDNS(w: World, hostname: string): (World, bool) {
    var (w1, got) := GetDNS(w, hostname);
    if !got.Found? then (w1, false)
    else if got.value.id == "" then (w1, true)
    else DeleteDNS(w1, got.value.id)
  }

  function AppendEachDNS(w: World, tunnelID: string, hosts: seq<Host>): (World, bool)
    decreases |hosts|
  {
    if hosts == [] then (w, true)
    else
      var (w1, ok) := AppendDNS(w, tunnelID, hosts[0].name);
      if !ok then (w1, false) else AppendEachDNS(w1, tunnelID, hosts[1..])
  }

  function RemoveEachDNS(w: World, hosts: seq<Host>): (World, bool)
    decreases |hosts|
  {
    if hosts == [] then (w, true)
    else
      var (w1, ok) := RemoveDNS(w, hosts[0].name);
      if !ok then (w1, false) else RemoveEachDNS(w1, hosts[1..])
  }

  datatype Resolution = Resolved(tunnel: TunnelObject) | NoDefault | Unresolved

  function Resolve(w: World, name: Key): (World, Resolution) {
    if WantsDefault(name) then
      var (w1, got) := ListDefault(w);
      (w1, match got case Found(o) => Resolved(o) case NotFound => NoDefault case Failed => Unresolved)
    else
      var (w1, got) := GetTunnel(w, name);
      (w1, if got.Found? then Resolved(got.value) else Unresolved)
  }

  ghost function Withdraw(w: World, tunnelID: string, hosts: seq<Host>, s: Settings): (World, bool) {
    var (w1, ok) := RemoveConfig(w, tunnelID, hosts, s);
    if !ok then (w1, false) else RemoveEachDNS(w1, hosts)
  }

  ghost function Publish(w: World, tunnelID: string, hosts: seq<Host>, ip: string, s: Settings): (World, bool) {
    var (w1, ok) := AppendConfig(w, tunnelID, hosts, ip, s);
    if !ok then (w1, false) else AppendEachDNS(w1, tunnelID, hosts)
  }

  /** The part of a reconcile that follows the finalizer: find the tunnel, then publish or withdraw. */
  ghost function Sync(w: World, ing: Ingress): (World, bool) {
    var name := TunnelName(ing.annotations);
    if name.None? then (w, false)
    else
      var (w1, found) := Resolve(w, name.value);
      match found
      case NoDefault => (w1, true)
      case Unresolved => (w1, false)
      case Resolved(o) =>
        if o.deleting || o.status.tunnelID == "" || ing.addresses == [] || ing.addresses[0].Unparsable? then (w1, false)
        else if Ignored(ing.annotations) then Withdraw(w1, o.status.tunnelID, Hosts(ing), o.settings)
        else Publish(w1, o.status.tunnelID, Hosts(ing), ing.addresses[0].ip, o.settings)
  }

  ghost function Finalize(w: World, ing: Ingress): (World, bool) {
    var name := TunnelName(ing.annotations);
    if name.None? then (w, false)
    else
      var (w1, found) := Resolve(w, name.value);
      match found
      case NoDefault => (w1, true)
      case Unresolved => (w1, false)
      case Resolved(o) =>
        if o.deleting then (w1, true)
        else if o.status.tunnelID == "" then (w1, false)
        else Withdraw(w1, o.status.tunnelID, Hosts(ing), o.settings)
  }

  /** IngressReconciler.Reconcile; the answer is whether it returned without an error. */
  ghost function ReconcileIngress(w: World, key: Key): (World, bool) {
    var (w1, got) := GetIngress(w, key);
    match got
    case NotFound => (w1, true)
    case Failed => (w1, false)
    case Found(ing) =>
      if ing.deleting then
        if FINALIZER !in ing.finalizers then (w1, true)
        else
          var (w2, ok) := Finalize(w1, ing);
          if !ok then (w2, false) else PutIngress(w2, key, ing.(finalizers := ing.finalizers - {FINALIZER}))
      else if FINALIZER in ing.finalizers then Sync(w1, ing)
      else
        var kept := ing.(finalizers := ing.finalizers + {FINALIZER});
        var (w2, ok) := PutIngress(w1, key, kept);
        if !ok then (w2, false) else Sync(w2, kept)
  }

  // ----- CloudflareTunnel reconciler -----

  datatype Result = Result(ok: bool, requeue: bool)

  const AVAILABLE := "Available"
  const DEGRADED := "Degraded"

  /** meta.SetStatusCondition: replaces the first condition of that type, or adds one. */
  function SetCondition(conds: seq<Condition>, c: Condition): seq<Condition> {
    if conds == [] then [c]
    else if conds[0].ctype == c.ctype then [c] + conds[1..]
    else [conds[0]] + SetCondition(conds[1..], c)
  }

  function Optimistic(conds: seq<Condition>): seq<Condition> {
    SetCondition(SetCondition(conds, Condition(AVAILABLE, true, "OK", "")), Condition(DEGRADED, false, "OK", ""))
  }

  function Degrade(conds: seq<Condition>, message: string): seq<Condition> {
    SetCondition(SetCondition(conds, Condition(DEGRADED, true, "Reconciling", message)),
                 Condition(AVAILABLE, false, "Reconciling", ""))
  }

  function Unavailable(conds: seq<Condition>): seq<Condition> {
    SetCondition(conds, Condition(AVAILABLE, false, "Unavailable", "AvailableReplicas is 0"))
  }

  /** The children a status write describes: whether the secret and the service were found, and the available
      replicas of the deployment if it was. */
  datatype Seen = Seen(secret: bool, service: bool, replicas: Option<nat>)

  /** The three reads of updateStatus; an answer other than found or not found ends them. */
  function Inspect(w: World, key: Key): (World, Option<Seen>) {
    var (w1, secret) := GetSecret(w, key);
    if secret.Failed? then (w1, None) else
    var (w2, service) := GetService(w1, key);
    if service.Failed? then (w2, None) else
    var (w3, deployment) := GetDeployment(w2, key);
    if deployment.Failed? then (w3, None) else
    (w3, Some(Seen(secret.Found?, service.Found?, if deployment.Found? then Some(deployment.value) else None)))
  }

  predicate Idle(seen: Seen) {
    seen.replicas.None? || seen.replicas.value == 0
  }

  function Describe(seen: Seen, conds: seq<Condition>): seq<Condition> {
    var c0 := Optimistic(conds);
    var c1 := if seen.secret then c0 else Degrade(c0, "Secret not found");
    var c2 := if seen.service then c1 else Degrade(c1, "Service not found");
    var c3 := if seen.replicas.Some? then c2 else Degrade(c2, "Deployment not found");
    if Idle(seen) then Unavailable(c3) else c3
  }

  function UpdateStatus(w: World, key: Key, status: Status): (World, Result) {
    if status.tunnelID == "" then (w, Result(true, false))
    else
      var (w1, seen) := Inspect(w, key);
      if seen.None? then (w1, Result(false, false)) else
      var (w2, ok) := PutStatus(w1, key, status.(conditions := Describe(seen.value, status.conditions)));
      (w2, if ok then Result(true, Idle(seen.value)) else Result(false, false))
  }

  datatype Ready = Ready(id: string, name: string, token: string) | NotReady

  function RemoteName(key: Key, s: Settings): string {
    if s.nameOverride != "" then s.nameOverride else key.name
  }

  /** The last part of reconcileTunnel: make a tunnel and fetch its token. */
  function MakeTunnel(w: World, name: string): (World, Ready) {
    var (w1, created) := CreateRemote(w, name);
    if !created.Found? then (w1, NotReady)
    else
      var (w2, token) := GetToken(w1, created.value);
      (w2, if token.Found? then Ready(created.value, name, token.value) else NotReady)
  }

  function EnsureTunnel(w: World, key: Key, o: TunnelObject): (World, Ready) {
    var name := RemoteName(key, o.settings);
    var (w1, secret) := GetSecret(w, key);
    if secret.Failed? then (w1, NotReady)
    else
      var token := if secret.Found? then secret.value else "";
      var id := o.status.tunnelID;
      if id == "" then MakeTunnel(w1, name)
      else if token != "" then (w1, Ready(id, name, token))
      else
        var (w2, fetched) := GetToken(w1, id);
        match fetched
        case Found(t) => (w2, Ready(id, name, t))
        case Failed => (w2, NotReady)
        case NotFound => MakeTunnel(w2, name)
  }

  function FailWithStatus(w: World, key: Key, status: Status): (World, Result) {
    var (w1, r) := UpdateStatus(w, key, status);
    (w1, Result(false, r.requeue))
  }

  /** The children that follow the status write, in the order they are applied. */
  function ApplyChildren(w: World, key: Key, status: Status): (World, Result) {
    var (w1, deployed) := ApplyDeployment(w, key);
    if !deployed then FailWithStatus(w1, key, status) else
    var (w2, served) := ApplyService(w1, key);
    if !served then FailWithStatus(w2, key, status) else
    var (w3, monitored) := ApplyOther(w2, key, Monitor);
    if !monitored then FailWithStatus(w3, key, status) else
    var (w4, budgeted) := ApplyOther(w3, key, Budget);
    if !budgeted then FailWithStatus(w4, key, status) else
    UpdateStatus(w4, key, status)
  }

  /** The part of a reconcile that follows the finalizer. */
  function Provision(w: World, key: Key, o: TunnelObject): (World, Result) {
    var (w1, ready) := EnsureTunnel(w, key, o);
    if ready.NotReady? then FailWithStatus(w1, key, o.status) else
    var (w2, stored) := ApplySecret(w1, key, ready.token);
    if !stored then FailWithStatus(w2, key, o.status) else
    var status := o.status.(tunnelID := ready.id, tunnelName := ready.name);
    var (w3, ok) := PutStatus(w2, key, status);
    if !ok then (w3, Result(false, false)) else ApplyChildren(w3, key, status)
  }

  function Dismantle(w: World, key: Key, o: TunnelObject): (World, Result) {
    var (w1, cleared) := DeleteAllDNS(w, o.status.tunnelID);
    if !cleared then (w1, Result(false, false)) else
    var (w2, gone) := DeleteRemote(w1, o.status.tunnelID);
    if !gone then (w2, Result(false, false)) else
    var (w3, ok) := PutTunnel(w2, key, o.(finalizers := o.finalizers - {FINALIZER}));
    (w3, Result(ok, false))
  }

  /** CloudflareTunnelReconciler.Reconcile. */
  function ReconcileTunnel(w: World, key: Key): (World, Result) {
    var (w1, got) := GetTunnel(w, key);
    match got
    case NotFound => (w1, Result(true, false))
    case Failed => (w1, Result(false, false))
    case Found(o) =>
      if o.deleting then
        if FINALIZER !in o.finalizers then (w1, Result(true, false)) else Dismantle(w1, key, o)
      else if FINALIZER in o.finalizers then Provision(w1, key, o)
      else
        var kept := o.(finalizers := o.finalizers + {FINALIZER});
        var (w2, ok) := PutTunnel(w1, key, kept);
        if !ok then (w2, Result(false, false)) else Provision(w2, key, kept)
  }
}
