/** The rule-list engine: what a tunnel's rule list becomes when an Ingress is published or withdrawn. */
module Rules {
  import opened Domain
  import Text

  // ----- Building the map of rules -----

  function Endpoint(ip: string, tls: bool): string {
    if tls then "https://" + ip + ":443" else "http://" + ip + ":80"
  }

  /** A rule read from the tunnel is written back with the origin settings of today. */
  function Rederive(r: Rule, s: Settings): Rule {
    Rule(r.hostname, r.path, r.service, Some(ToOriginRequest(s, r.hostname)))
  }

  function HostRule(h: Host, ip: string, s: Settings): Rule {
    Rule(h.name, "", Endpoint(ip, h.tls), Some(ToOriginRequest(s, h.name)))
  }

  function CatchAll(s: Settings): Rule {
    Rule("", "", s.catchAllRule, None)
  }

  function ByHostname(list: seq<Rule>, s: Settings): (m: map<string, Rule>)
    ensures WellKeyed(m)
  {
    if list == [] then map[]
    else
      var r := list[|list| - 1];
      ByHostname(list[..|list| - 1], s)[r.hostname := Rederive(r, s)]
  }

  function Overlay(m: map<string, Rule>, hosts: seq<Host>, ip: string, s: Settings): (r: map<string, Rule>)
    ensures WellKeyed(m) ==> WellKeyed(r)
  {
    if hosts == [] then m
    else
      var h := hosts[|hosts| - 1];
      Overlay(m, hosts[..|hosts| - 1], ip, s)[h.name := HostRule(h, ip, s)]
  }

  function AppendMap(list: seq<Rule>, hosts: seq<Host>, ip: string, s: Settings): (m: map<string, Rule>)
    ensures WellKeyed(m)
  {
    Overlay(ByHostname(list, s), hosts, ip, s)["" := CatchAll(s)]
  }

  function RemoveMap(list: seq<Rule>, hosts: seq<Host>, s: Settings): (m: map<string, Rule>)
    ensures WellKeyed(m)
  {
    (ByHostname(list, s) - HostNames(hosts))["" := CatchAll(s)]
  }

  predicate WellKeyed(m: map<string, Rule>) {
    forall k :: k in m ==> m[k].hostname == k
  }

  // ----- The comparator and the order it induces -----

  /** The comparator given to slices.SortedFunc. It answers 1 for two empty hostnames in either order. */
  function RuleOrder(a: Rule, b: Rule): int {
    if a.hostname == "" then 1
    else if b.hostname == "" then -1
    else Text.Compare(a.hostname, b.hostname)
  }

  ghost predicate StrictlySorted(list: seq<Rule>) {
    forall i, j :: 0 <= i < j < |list| ==> RuleOrder(list[i], list[j]) < 0
  }

  /** On rules with different hostnames the comparator is antisymmetric and never answers zero; it is not
      a comparison in general, since it puts the empty hostname after itself. */
  lemma RuleOrderTotal(a: Rule, b: Rule)
    ensures a.hostname != b.hostname ==> RuleOrder(a, b) != 0 && (RuleOrder(a, b) < 0 <==> RuleOrder(b, a) > 0)
    ensures RuleOrder(a, b) < 0 ==> a.hostname != b.hostname
    ensures a.hostname == "" == b.hostname ==> RuleOrder(a, b) > 0 && RuleOrder(b, a) > 0
  {
    Text.CompareSwaps(a.hostname, b.hostname);
  }

  lemma RuleOrderTransitive(a: Rule, b: Rule, c: Rule)
    requires RuleOrder(a, b) < 0 && RuleOrder(b, c) < 0
    ensures RuleOrder(a, c) < 0
  {
    if a.hostname != "" && b.hostname != "" && c.hostname != "" {
      Text.CompareTransitive(a.hostname, b.hostname, c.hostname);
    }
  }

  // ----- Rendering the map as a list -----

  function Insert(r: Rule, list: seq<Rule>): seq<Rule> {
    if list == [] || RuleOrder(r, list[0]) < 0 then [r] + list else [list[0]] + Insert(r, list[1..])
  }

  lemma {:induction false} InsertSorts(r: Rule, list: seq<Rule>)
    requires StrictlySorted(list)
    requires forall x :: x in list ==> x.hostname != r.hostname
    ensures StrictlySorted(Insert(r, list))
    ensures forall x :: x in Insert(r, list) <==> x == r || x in list
  {
    if list == [] {
    } else if RuleOrder(r, list[0]) < 0 {
      forall j | 0 < j < |list| ensures RuleOrder(r, list[j]) < 0 {
        RuleOrderTransitive(r, list[0], list[j]);
      }
    } else {
      InsertSorts(r, list[1..]);
      RuleOrderTotal(r, list[0]);
      var tail := Insert(r, list[1..]);
      forall j | 0 <= j < |tail| ensures RuleOrder(list[0], tail[j]) < 0 {
        assert tail[j] in tail;
        if tail[j] != r {
          var k :| 0 <= k < |list[1..]| && list[1..][k] == tail[j];
          assert list[k + 1] == tail[j];
        }
      }
      assert list == [list[0]] + list[1..];
    }
  }

  /** The list that sorting the rules of a map gives, in whatever order the map yields them. */
  ghost function Render(m: map<string, Rule>): seq<Rule>
    decreases |m|
  {
    if m == map[] then []
    else
      var k :| k in m;
      Insert(m[k], Render(m - {k}))
  }

  lemma {:induction false} RenderSorts(m: map<string, Rule>)
    requires WellKeyed(m)
    ensures StrictlySorted(Render(m))
    ensures forall r :: r in Render(m) <==> r.hostname in m && m[r.hostname] == r
    decreases |m|
  {
    if m != map[] {
      var k :| k in m && Render(m) == Insert(m[k], Render(m - {k}));
      RenderSorts(m - {k});
      InsertSorts(m[k], Render(m - {k}));
    }
  }

  /** Two sorted lists of the same rules are one list. */
  lemma {:induction false} SortedUnique(a: seq<Rule>, b: seq<Rule>)
    requires StrictlySorted(a) && StrictlySorted(b)
    requires forall r :: r in a <==> r in b
    ensures a == b
  {
    assert a != [] ==> a[0] in b;
    assert b != [] ==> b[0] in a;
    if a != [] && b != [] {
      SameHead(a, b);
      forall r ensures r in a[1..] <==> r in b[1..] {
        TailMembers(a, r);
        TailMembers(b, r);
      }
      SortedUnique(a[1..], b[1..]);
      assert a == [a[0]] + a[1..] && b == [b[0]] + b[1..];
    }
  }

  lemma SameHead(a: seq<Rule>, b: seq<Rule>)
    requires StrictlySorted(a) && StrictlySorted(b) && a != [] && b != []
    requires forall r :: r in a <==> r in b
    ensures a[0] == b[0]
  {
    assert a[0] in b && b[0] in a;
    var i :| 0 <= i < |b| && b[i] == a[0];
    var j :| 0 <= j < |a| && a[j] == b[0];
    assert i > 0 ==> RuleOrder(b[0], b[i]) < 0;
    assert j > 0 ==> RuleOrder(a[0], a[j]) < 0;
    RuleOrderTotal(a[0], b[0]);
  }

  lemma TailMembers(a: seq<Rule>, r: Rule)
    requires StrictlySorted(a) && a != []
    ensures r in a[1..] <==> r in a && r != a[0]
  {
    assert a == [a[0]] + a[1..];
    if r in a[1..] {
      var i :| 0 <= i < |a[1..]| && a[1..][i] == r;
      assert RuleOrder(a[0], a[i + 1]) < 0;
      RuleOrderTotal(a[0], r);
    }
  }

  /** What slices.SortedFunc promises of its result: the values it was given, with no pair the comparator
      calls inverted. */
  ghost predicate SortedValues(list: seq<Rule>, m: map<string, Rule>) {
    multiset(list) == multiset(m.Values) &&
    forall i, j :: 0 <= i < j < |list| ==> RuleOrder(list[j], list[i]) >= 0
  }

  lemma ValueMembers(m: map<string, Rule>)
    requires WellKeyed(m)
    ensures forall r :: r in m.Values <==> r.hostname in m && m[r.hostname] == r
  {
    forall r ensures r in m.Values <==> r.hostname in m && m[r.hostname] == r {
      if r in m.Values {
        var k :| k in m && m[k] == r;
      }
    }
  }

  /** The comparator accepts one order of a map's rules only, so neither the sorting algorithm nor Go's
      random map iteration can show in the list that is written. */
  lemma SortedValuesUnique(list: seq<Rule>, m: map<string, Rule>)
    requires WellKeyed(m)
    ensures SortedValues(list, m) <==> list == Render(m)
  {
    if SortedValues(list, m) {
      SortedIsRender(list, m);
    }
    if list == Render(m) {
      RenderIsSorted(m);
    }
  }

  lemma SortedIsRender(list: seq<Rule>, m: map<string, Rule>)
    requires WellKeyed(m) && SortedValues(list, m)
    ensures list == Render(m)
  {
    RenderSorts(m);
    ValueMembers(m);
    DistinctValues(list, m);
    forall i, j | 0 <= i < j < |list| ensures RuleOrder(list[i], list[j]) < 0 {
      RuleOrderTotal(list[i], list[j]);
    }
    SortedUnique(list, Render(m));
  }

  lemma RenderIsSorted(m: map<string, Rule>)
    requires WellKeyed(m)
    ensures SortedValues(Render(m), m)
  {
    var list := Render(m);
    RenderSorts(m);
    ValueMembers(m);
    forall r ensures multiset(list)[r] == multiset(m.Values)[r] {
      CountSorted(list, r);
    }
    forall i, j | 0 <= i < j < |list| ensures RuleOrder(list[j], list[i]) >= 0 {
      assert RuleOrder(list[i], list[j]) < 0;
      RuleOrderTotal(list[i], list[j]);
    }
  }

  lemma DistinctValues(list: seq<Rule>, m: map<string, Rule>)
    requires WellKeyed(m) && multiset(list) == multiset(m.Values)
    ensures forall r :: r in list <==> r in m.Values
    ensures forall i, j :: 0 <= i < j < |list| ==> list[i].hostname != list[j].hostname
  {
    forall r ensures r in list <==> r in m.Values {
      assert r in list <==> r in multiset(list);
      assert r in multiset(m.Values) <==> r in m.Values;
    }
    ValueMembers(m);
    forall i, j | 0 <= i < j < |list| ensures list[i].hostname != list[j].hostname {
      Repeated(list, i, j);
      assert list[i] in list && list[j] in list;
      assert multiset(m.Values)[list[i]] <= 1;
    }
  }

  lemma Repeated(list: seq<Rule>, i: nat, j: nat)
    requires i < j < |list|
    ensures list[i] == list[j] ==> multiset(list)[list[i]] >= 2
  {
    assert list == list[..j] + [list[j]] + list[j + 1..];
    assert list[..j][i] == list[i];
    assert list[i] in multiset(list[..j]);
  }

  lemma {:induction false} CountSorted(list: seq<Rule>, r: Rule)
    requires StrictlySorted(list)
    ensures multiset(list)[r] == if r in list then 1 else 0
  {
    if list != [] {
      CountSorted(list[1..], r);
      TailMembers(list, r);
      assert list == [list[0]] + list[1..];
      assert multiset(list)[r] == multiset([list[0]])[r] + multiset(list[1..])[r];
    }
  }

  ghost function Append(list: seq<Rule>, hosts: seq<Host>, ip: string, s: Settings): seq<Rule> {
    Render(AppendMap(list, hosts, ip, s))
  }

  ghost function Remove(list: seq<Rule>, hosts: seq<Host>, s: Settings): seq<Rule> {
    Render(RemoveMap(list, hosts, s))
  }

  /** The form of every list the operator writes: increasing non-empty hostnames, then the catch-all. */
  ghost predicate NormalForm(list: seq<Rule>) {
    list != [] && list[|list| - 1].hostname == "" &&
    (forall i :: 0 <= i < |list| - 1 ==> list[i].hostname != "") &&
    (forall i, j :: 0 <= i < j < |list| - 1 ==> Text.Compare(list[i].hostname, list[j].hostname) < 0)
  }

  lemma SortedNormal(list: seq<Rule>, last: Rule)
    requires StrictlySorted(list) && last in list && last.hostname == ""
    ensures NormalForm(list) && list[|list| - 1] == last
  {
    var i :| 0 <= i < |list| && list[i] == last;
    assert i < |list| - 1 ==> RuleOrder(list[i], list[|list| - 1]) < 0;
    forall k | 0 <= k < |list| - 1 ensures list[k].hostname != "" {
      assert RuleOrder(list[k], list[|list| - 1]) < 0;
    }
    forall k, j | 0 <= k < j < |list| - 1 ensures Text.Compare(list[k].hostname, list[j].hostname) < 0 {
      assert RuleOrder(list[k], list[j]) < 0;
    }
  }

  lemma RenderNormal(m: map<string, Rule>)
    requires WellKeyed(m) && "" in m
    ensures NormalForm(Render(m))
    ensures Render(m)[|Render(m)| - 1] == m[""]
  {
    RenderSorts(m);
    SortedNormal(Render(m), m[""]);
  }

  // ----- The sort itself -----

  /** slices.SortedFunc(maps.Values(rules), RuleOrder): the rules arrive in an arbitrary order and are put
      in their place one by one. */
  method SortedFunc(rules: map<string, Rule>) returns (list: seq<Rule>)
    requires WellKeyed(rules)
    ensures list == Render(rules)
    ensures SortedValues(list, rules)
  {
    list := [];
    var todo := rules.Keys;
    while todo != {}
      invariant todo <= rules.Keys
      invariant StrictlySorted(list)
      invariant forall r :: r in list <==> r.hostname in rules.Keys - todo && rules[r.hostname] == r
      decreases |todo|
    {
      var k :| k in todo;
      InsertSorts(rules[k], list);
      list := InsertInPlace(list, rules[k]);
      todo := todo - {k};
    }
    RenderSorts(rules);
    SortedUnique(list, Render(rules));
    SortedValuesUnique(list, rules);
  }

  method InsertInPlace(list: seq<Rule>, r: Rule) returns (out: seq<Rule>)
    ensures out == Insert(r, list)
  {
    var at := 0;
    while at < |list| && RuleOrder(r, list[at]) >= 0
      invariant 0 <= at <= |list|
      invariant Insert(r, list) == list[..at] + Insert(r, list[at..])
    {
      assert list[at..][1..] == list[at + 1..];
      assert list[..at + 1] == list[..at] + [list[at]];
      at := at + 1;
    }
    out := list[..at] + [r] + list[at..];
  }
}
