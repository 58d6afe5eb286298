/** What a status write says about the cluster. */
module StatusLaws {
  import opened Domain
  import opened World
  import opened Protocol

  ghost predicate UniqueTypes(conds: seq<Condition>) {
    forall i, j :: 0 <= i < j < |conds| ==> conds[i].ctype != conds[j].ctype
  }

  function ConditionOf(conds: seq<Condition>, ctype: string): Option<Condition> {
    if conds == [] then None
    else if conds[0].ctype == ctype then Some(conds[0])
    else ConditionOf(conds[1..], ctype)
  }

  ghost predicate IsTrue(conds: seq<Condition>, ctype: string) {
    ConditionOf(conds, ctype).Some? && ConditionOf(conds, ctype).value.status
  }

  /** One condition per type, and never both available and degraded. */
  ghost predicate Sound(conds: seq<Condition>) {
    UniqueTypes(conds) && !(IsTrue(conds, AVAILABLE) && IsTrue(conds, DEGRADED))
  }

  /** Setting a condition changes the one of its type, or adds it at the end; the others stay in their places. */
  lemma {:induction false} SetConditionEffect(conds: seq<Condition>, c: Condition)
    ensures ConditionOf(SetCondition(conds, c), c.ctype) == Some(c)
    ensures forall t :: t != c.ctype ==> ConditionOf(SetCondition(conds, c), t) == ConditionOf(conds, t)
    ensures forall x :: x in SetCondition(conds, c) ==> x == c || x in conds
    ensures |SetCondition(conds, c)| == if ConditionOf(conds, c.ctype).Some? then |conds| else |conds| + 1
    ensures forall i :: 0 <= i < |conds| ==> SetCondition(conds, c)[i].ctype == conds[i].ctype
    ensures UniqueTypes(conds) ==> UniqueTypes(SetCondition(conds, c))
  {
    if conds != [] && conds[0].ctype != c.ctype {
      SetConditionEffect(conds[1..], c);
      var tail := SetCondition(conds[1..], c);
      assert SetCondition(conds, c)[1..] == tail;
      forall i | 0 <= i < |conds| ensures SetCondition(conds, c)[i].ctype == conds[i].ctype {
        assert i > 0 ==> tail[i - 1].ctype == conds[1..][i - 1].ctype;
      }
      if UniqueTypes(conds) {
        forall j | 0 <= j < |tail| ensures tail[j].ctype != conds[0].ctype {
          assert tail[j] in tail;
          if tail[j] != c {
            var i :| 0 <= i < |conds[1..]| && conds[1..][i] == tail[j];
            assert conds[i + 1] == tail[j];
          }
        }
      }
    }
  }

  /** The two conditions the operator sets are these; conditions of other types are as they were. */
  ghost predicate Conveys(conds: seq<Condition>, before: seq<Condition>, available: Condition, degraded: Condition) {
    UniqueTypes(conds) && ConditionOf(conds, AVAILABLE) == Some(available) &&
    ConditionOf(conds, DEGRADED) == Some(degraded) && OtherTypesKept(conds, before)
  }

  ghost predicate OtherTypesKept(conds: seq<Condition>, before: seq<Condition>) {
    forall t :: t != AVAILABLE && t != DEGRADED ==> ConditionOf(conds, t) == ConditionOf(before, t)
  }

  lemma OptimisticEffect(conds: seq<Condition>)
    requires UniqueTypes(conds)
    ensures Conveys(Optimistic(conds), conds, Condition(AVAILABLE, true, "OK", ""),
                    Condition(DEGRADED, false, "OK", ""))
  {
    var first := Condition(AVAILABLE, true, "OK", "");
    SetConditionEffect(conds, first);
    SetConditionEffect(SetCondition(conds, first), Condition(DEGRADED, false, "OK", ""));
  }

  lemma DegradeEffect(conds: seq<Condition>, message: string)
    requires UniqueTypes(conds)
    ensures Conveys(Degrade(conds, message), conds, Condition(AVAILABLE, false, "Reconciling", ""),
                    Condition(DEGRADED, true, "Reconciling", message))
  {
    var first := Condition(DEGRADED, true, "Reconciling", message);
    SetConditionEffect(conds, first);
    SetConditionEffect(SetCondition(conds, first), Condition(AVAILABLE, false, "Reconciling", ""));
  }

  lemma UnavailableEffect(conds: seq<Condition>, degraded: Condition)
    requires UniqueTypes(conds) && ConditionOf(conds, DEGRADED) == Some(degraded)
    ensures Conveys(Unavailable(conds), conds, Condition(AVAILABLE, false, "Unavailable", "AvailableReplicas is 0"),
                    degraded)
  {
    SetConditionEffect(conds, Condition(AVAILABLE, false, "Unavailable", "AvailableReplicas is 0"));
  }

  /** The cluster as the three reads of updateStatus find it. */
  function Observed(s: State, key: Key): Seen {
    Seen(key in s.secrets, key in s.services, if key in s.deployments then Some(s.deployments[key]) else None)
  }

  predicate AllPresent(s: State, key: Key) {
    key in s.secrets && key in s.services && key in s.deployments
  }

  predicate Serving(s: State, key: Key) {
    key in s.deployments && s.deployments[key] > 0
  }

  /** What there is to say about availability: it needs every child and a replica. */
  function Availability(s: State, key: Key): Condition {
    if !Serving(s, key) then Condition("Available", false, "Unavailable", "AvailableReplicas is 0")
    else if AllPresent(s, key) then Condition("Available", true, "OK", "")
    else Condition("Available", false, "Reconciling", "")
  }

  /** What there is to say about degradation: the last of the children that is missing. */
  function Degradation(s: State, key: Key): Condition {
    if AllPresent(s, key) then Condition("Degraded", false, "OK", "")
    else Condition("Degraded", true, "Reconciling",
                   if key !in s.deployments then "Deployment not found"
                   else if key !in s.services then "Service not found"
                   else "Secret not found")
  }

  /** The conditions that say what is the case: available exactly when nothing is missing and a replica is
      available, degraded exactly when something is missing, which is named. */
  ghost predicate Truthful(s: State, key: Key, conds: seq<Condition>) {
    UniqueTypes(conds) &&
    ConditionOf(conds, "Available") == Some(Availability(s, key)) &&
    ConditionOf(conds, "Degraded") == Some(Degradation(s, key)) &&
    (IsTrue(conds, AVAILABLE) <==> AllPresent(s, key) && Serving(s, key)) &&
    (IsTrue(conds, DEGRADED) <==> !AllPresent(s, key))
  }

  lemma DescribeTruthful(s: State, key: Key, conds: seq<Condition>)
    requires UniqueTypes(conds)
    ensures var described := Describe(Observed(s, key), conds);
      Truthful(s, key, described) && Sound(described) && OtherTypesKept(described, conds)
  {
    var c0 := Optimistic(conds);
    OptimisticEffect(conds);
    DegradeEffect(c0, "Secret not found");
    var c1 := if key in s.secrets then c0 else Degrade(c0, "Secret not found");
    DegradeEffect(c1, "Service not found");
    var c2 := if key in s.services then c1 else Degrade(c1, "Service not found");
    DegradeEffect(c2, "Deployment not found");
    var c3 := if key in s.deployments then c2 else Degrade(c2, "Deployment not found");
    UnavailableEffect(c3, Degradation(s, key));
  }

  lemma InspectEffect(w: World, key: Key)
    ensures var (w1, seen) := Inspect(w, key);
      w1.state == w.state && w1.actor == w.actor && (seen.Some? ==> seen.value == Observed(w.state, key))
  {
  }

  /** The state after a status write. */
  function WithStatus(s: State, key: Key, status: Status): State
    requires key in s.tunnels
  {
    s.(tunnels := s.tunnels[key := s.tunnels[key].(status := status)])
  }

  /** The next n calls will be acknowledged. */
  predicate Acknowledged(script: seq<Reply>, n: nat) {
    |script| >= n && forall i :: 0 <= i < n ==> script[i].fault.Pass?
  }

  /** Whatever happens to its calls, updateStatus leaves the stored status alone or writes a truthful one. It
      succeeds if and only if there is no tunnel yet, when it writes nothing, or its three reads and its write
      are acknowledged; and it asks to be requeued exactly when it has written a status and no replica is
      available. */
  lemma StatusWrite(w: World, key: Key, status: Status)
    requires UniqueTypes(status.conditions) && key in w.state.tunnels
    ensures var (w1, r) := UpdateStatus(w, key, status);
      var conds := Describe(Observed(w.state, key), status.conditions);
      var written := WithStatus(w.state, key, status.(conditions := conds));
      Truthful(w.state, key, conds) && OtherTypesKept(conds, status.conditions) && w1.actor == w.actor &&
      (w1.state == w.state || (status.tunnelID != "" && w1.state == written)) &&
      (status.tunnelID == "" ==> w1 == w && r == Result(true, false)) &&
      (status.tunnelID != "" ==>
         r == Result(Acknowledged(w.script, 4), Acknowledged(w.script, 4) && !Serving(w.state, key)) &&
         (r.ok ==> w1.state == written))
  {
    DescribeTruthful(w.state, key, status.conditions);
    if status.tunnelID != "" {
      InspectEffect(w, key);
      InspectAnswered(w, key);
    }
  }

  lemma InspectAnswered(w: World, key: Key)
    ensures Inspect(w, key).1.Some? <==> Acknowledged(w.script, 3)
    ensures Acknowledged(w.script, 3) ==> Inspect(w, key).0.script == w.script[3..]
  {
    var w1 := GetSecret(w, key).0;
    var w2 := GetService(w1, key).0;
    var w3 := GetDeployment(w2, key).0;
    if |w.script| >= 3 {
      assert w1.script[0] == w.script[1] && w2.script[0] == w.script[2];
      assert w3.script == w.script[3..];
    }
  }
}
