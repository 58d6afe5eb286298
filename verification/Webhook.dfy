/** The admission webhook of CloudflareTunnel: the default label, and the warning about a second default. */
module Webhook {
  import opened Domain
  import opened World
  import opened Invariant

  /** The object under admission, which the mutating webhook changes in place. */
  class AdmittedTunnel {
    var labels: Option<map<string, string>>
    var isDefault: bool

    constructor (labels: Option<map<string, string>>, isDefault: bool)
      ensures this.labels == labels && this.isDefault == isDefault
    {
      this.labels := labels;
      this.isDefault := isDefault;
    }

    method Default()
      modifies `labels
      ensures labels.Some? && DEFAULT_LABEL in labels.value
      ensures labels.value[DEFAULT_LABEL] == "true" <==> isDefault
      ensures labels.value[DEFAULT_LABEL] == "false" <==> !isDefault
      ensures forall l :: l != DEFAULT_LABEL ==>
        (l in labels.value <==> old(labels).Some? && l in old(labels).value) &&
        (l in labels.value ==> labels.value[l] == old(labels).value[l])
      ensures labels.value == WithDefaultLabel(old(labels), isDefault)
    {
      if labels.None? {
        labels := Some(map[]);
      }
      labels := Some(labels.value[DEFAULT_LABEL := if isDefault then "true" else "false"]);
      assert "true"[0] != "false"[0];
    }
  }

  /** The validator's answer: admitted, admitted with a warning, or refused since the list call failed. */
  datatype Verdict = Admitted | Warned | Refused

  function CheckDefaultTunnel(w: World, isDefault: bool): (World, Verdict) {
    if !isDefault then (w, Admitted)
    else
      var (w1, first) := ListDefault(w);
      (w1, match first case Found(_) => Warned case NotFound => Admitted case Failed => Refused)
  }

  /** Nothing is stored. An answered check warns exactly when the object is a default and some stored tunnel is
      labelled as one; only a default can be refused, when the list call fails. */
  method ValidateDefault(env: Env, isDefault: bool) returns (verdict: Verdict)
    modifies env
    ensures (env.w, verdict) == CheckDefaultTunnel(old(env.w), isDefault)
    ensures env.w.state == old(env.w).state
    ensures verdict.Refused? ==> isDefault
    ensures !verdict.Refused? ==>
      (verdict.Warned? <==> isDefault && exists k :: k in env.w.state.tunnels && Labelled(env.w.state.tunnels[k]))
  {
    if k :| k in Defaults(env.w.state.tunnels) {
      assert k in env.w.state.tunnels && Labelled(env.w.state.tunnels[k]);
    } else {
      assert forall k :: k in env.w.state.tunnels && Labelled(env.w.state.tunnels[k]) ==>
        k in Defaults(env.w.state.tunnels);
    }
    if !isDefault {
      return Admitted;
    }
    var first := env.Call(w => ListDefault(w));
    verdict := if first.Found? then Warned else if first.NotFound? then Admitted else Refused;
  }

  ghost predicate AllAgree(tunnels: map<Key, TunnelObject>) {
    forall k :: k in tunnels ==> LabelAgrees(tunnels[k])
  }

  /** The tunnels whose Spec.Default is set. */
  function Marked(tunnels: map<Key, TunnelObject>): set<Key> {
    set k | k in tunnels && tunnels[k].isDefault
  }

  /** The store after an admission of this object under this key, new or not. */
  function Admit(tunnels: map<Key, TunnelObject>, key: Key, o: TunnelObject): map<Key, TunnelObject> {
    tunnels[key := o.(labels := Some(WithDefaultLabel(o.labels, o.isDefault)))]
  }

  lemma AgreementMakesLabelsExact(tunnels: map<Key, TunnelObject>)
    requires AllAgree(tunnels)
    ensures Defaults(tunnels) == Marked(tunnels)
  {
  }

  /** One admitted object after another. */
  function AdmitAll(tunnels: map<Key, TunnelObject>, admissions: seq<(Key, TunnelObject)>): map<Key, TunnelObject> {
    if admissions == [] then tunnels
    else
      var last := admissions[|admissions| - 1];
      Admit(AdmitAll(tunnels, admissions[..|admissions| - 1]), last.0, last.1)
  }

  /** Over every sequence of admissions the label keeps saying what Spec.Default says. */
  lemma {:induction false} AdmissionsAgree(tunnels: map<Key, TunnelObject>, admissions: seq<(Key, TunnelObject)>)
    requires AllAgree(tunnels)
    ensures AllAgree(AdmitAll(tunnels, admissions))
  {
    if admissions != [] {
      AdmissionsAgree(tunnels, admissions[..|admissions| - 1]);
      assert "true"[0] != "false"[0];
    }
  }

  /** An answered validation warns exactly when the object is a default and some stored tunnel is one, be it
      the object itself; so it warns about every admission that takes the number of defaults above one, and
      it is a false alarm exactly when the only stored default is the object being updated. */
  lemma WarningExact(w: World, key: Key, o: TunnelObject)
    requires AllAgree(w.state.tunnels)
    ensures var verdict := CheckDefaultTunnel(w, o.isDefault).1;
      var before, after := Marked(w.state.tunnels), Marked(Admit(w.state.tunnels, key, o));
      (verdict.Refused? ==> o.isDefault) &&
      (!verdict.Refused? ==> (verdict.Warned? <==> o.isDefault && before != {})) &&
      (!verdict.Refused? && |before| <= 1 < |after| ==> verdict.Warned?) &&
      (verdict.Warned? ==> (|after| <= 1 <==> before == {key}))
  {
    var before, after := Marked(w.state.tunnels), Marked(Admit(w.state.tunnels, key, o));
    AgreementMakesLabelsExact(w.state.tunnels);
    if o.isDefault {
      assert after == before + {key};
      if |after| <= 1 && before != {} {
        assert after == {key} by { Singleton(after, key); }
      }
    } else {
      assert after <= before;
      Smaller(after, before);
    }
  }

  lemma Singleton(s: set<Key>, k: Key)
    requires k in s && |s| <= 1
    ensures s == {k}
  {
    assert |s - {k}| == 0;
  }

  lemma Smaller(a: set<Key>, b: set<Key>)
    requires a <= b
    ensures |a| <= |b|
  {
    assert b == a + (b - a);
  }
}
