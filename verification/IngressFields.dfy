/** What the operator reads from an Ingress: its hosts and its annotations. */
module IngressFields {
  import opened Domain
  import opened World
  import Text

  const TUNNEL_ANNOTATION := "cf-tunnel-operator.walnuts.dev/cloudflare-tunnel"
  const IGNORE_ANNOTATION := "cf-tunnel-operator.walnuts.dev/ignore"

  function TLSHosts(tls: seq<seq<string>>): seq<string> {
    if tls == [] then [] else TLSHosts(tls[..|tls| - 1]) + tls[|tls| - 1]
  }

  function Hosts(ing: Ingress): (hosts: seq<Host>)
    ensures |hosts| == |ing.rules|
    ensures forall i :: 0 <= i < |hosts| ==> hosts[i] == Host(ing.rules[i], ing.rules[i] in TLSHosts(ing.tls))
  {
    seq(|ing.rules|, i requires 0 <= i < |ing.rules| => Host(ing.rules[i], ing.rules[i] in TLSHosts(ing.tls)))
  }

  /** getHosts: one entry per Ingress rule, duplicates included. */
  method GetHosts(ing: Ingress) returns (hosts: seq<Host>)
    ensures hosts == Hosts(ing)
  {
    var tlsHosts: seq<string> := [];
    for i := 0 to |ing.tls|
      invariant tlsHosts == TLSHosts(ing.tls[..i])
    {
      assert ing.tls[..i + 1][..i] == ing.tls[..i];
      tlsHosts := tlsHosts + ing.tls[i];
    }
    assert ing.tls[..|ing.tls|] == ing.tls;
    hosts := [];
    for i := 0 to |ing.rules|
      invariant hosts == Hosts(ing)[..i]
    {
      hosts := hosts + [Host(ing.rules[i], ing.rules[i] in tlsHosts)];
    }
  }

  /** The empty key asks for the default tunnel; None is the error of an annotation in another shape. */
  function TunnelName(annotations: map<string, string>): Option<Key> {
    if TUNNEL_ANNOTATION !in annotations || annotations[TUNNEL_ANNOTATION] == "" then Some(Key("", ""))
    else
      var values := Text.Split(annotations[TUNNEL_ANNOTATION], '/');
      if |values| != 2 then None else Some(Key(values[0], values[1]))
  }

  predicate WantsDefault(name: Key) {
    name.name == "" || name.namespace == ""
  }

  predicate Ignored(annotations: map<string, string>) {
    IGNORE_ANNOTATION in annotations &&
    Text.ToLower(annotations[IGNORE_ANNOTATION]) != "false" && annotations[IGNORE_ANNOTATION] != "0"
  }

  // ----- Laws -----

  predicate SlashFree(s: string) {
    '/' !in s
  }

  function Print(key: Key): string {
    key.namespace + "/" + key.name
  }

  /** Printing and parsing are inverse on slash-free keys, and what parses is what was printed. */
  lemma AnnotationRoundTrip(annotations: map<string, string>, key: Key)
    requires TUNNEL_ANNOTATION in annotations && annotations[TUNNEL_ANNOTATION] != ""
    ensures TunnelName(annotations) == Some(key)
       <==> annotations[TUNNEL_ANNOTATION] == Print(key) && SlashFree(key.namespace) && SlashFree(key.name)
    ensures TunnelName(annotations).Some? <==> Text.Occurrences(annotations[TUNNEL_ANNOTATION], '/') == 1
  {
    var v := annotations[TUNNEL_ANNOTATION];
    Text.SplitCounts(v, '/');
    if TunnelName(annotations) == Some(key) { Text.SplitInTwo(v, '/'); }
    if v == Print(key) && SlashFree(key.namespace) && SlashFree(key.name) {
      assert v == key.namespace + ['/'] + key.name;
      Text.SplitOnce(key.namespace, '/', key.name);
    }
  }

  /** The default tunnel is what a missing or empty annotation selects, and also one whose only slash is its
      first or its last character. */
  lemma DefaultSelection(annotations: map<string, string>)
    ensures TunnelName(annotations).Some? && WantsDefault(TunnelName(annotations).value) <==>
      TUNNEL_ANNOTATION !in annotations ||
      var v := annotations[TUNNEL_ANNOTATION];
      v == "" || (Text.Occurrences(v, '/') == 1 && (v[0] == '/' || v[|v| - 1] == '/'))
  {
    if TUNNEL_ANNOTATION in annotations && annotations[TUNNEL_ANNOTATION] != "" {
      var v := annotations[TUNNEL_ANNOTATION];
      Text.SplitCounts(v, '/');
      if |Text.Split(v, '/')| == 2 {
        var parts := Text.Split(v, '/');
        Text.SplitInTwo(v, '/');
        assert v == parts[0] + ['/'] + parts[1];
        assert parts[0] != "" ==> v[0] == parts[0][0] && v[0] in parts[0];
        assert parts[1] != "" ==> v[|v| - 1] == parts[1][|parts[1]| - 1] && v[|v| - 1] in parts[1];
      }
    }
  }

  /** Only three kinds of annotation keep an Ingress published: none, "0", and "false" in any mix of case. */
  lemma IgnoredExact(annotations: map<string, string>)
    ensures !Ignored(annotations) <==>
      IGNORE_ANNOTATION !in annotations ||
      var v := annotations[IGNORE_ANNOTATION];
      v == "0" || (|v| == 5 && forall i :: 0 <= i < 5 ==> v[i] == "false"[i] || v[i] == "FALSE"[i])
  {
    if IGNORE_ANNOTATION in annotations {
      var v := annotations[IGNORE_ANNOTATION];
      var lower := Text.ToLower(v);
      if |v| == 5 {
        assert lower == "false" <==> forall i :: 0 <= i < 5 ==> lower[i] == "false"[i];
        forall i | 0 <= i < 5 ensures lower[i] == "false"[i] <==> v[i] == "false"[i] || v[i] == "FALSE"[i] {
          assert lower[i] == Text.LowerChar(v[i]);
        }
      }
    }
  }
}
