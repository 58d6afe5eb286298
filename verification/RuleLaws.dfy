/** Laws of the rule-list engine, stated on the lists that are read and written. */
module RuleLaws {
  import opened Domain
  import opened Rules
  import Text

  // ----- Reference definitions, independent of maps and sorting -----

  /** The last rule of a list for a hostname: the one a repeated hostname collapses to. */
  function LastRule(list: seq<Rule>, h: string): Option<Rule> {
    if list == [] then None
    else if list[|list| - 1].hostname == h then Some(list[|list| - 1])
    else LastRule(list[..|list| - 1], h)
  }

  function LastHost(hosts: seq<Host>, h: string): Option<Host> {
    if hosts == [] then None
    else if hosts[|hosts| - 1].name == h then Some(hosts[|hosts| - 1])
    else LastHost(hosts[..|hosts| - 1], h)
  }

  function Refreshed(prior: Option<Rule>, s: Settings): Option<Rule> {
    if prior.Some? then Some(Rederive(prior.value, s)) else None
  }

  /** The rule that publishing leaves for one hostname, given the rule that was there. */
  function Published(h: string, prior: Option<Rule>, hosts: seq<Host>, ip: string, s: Settings): Option<Rule> {
    if h == "" then Some(CatchAll(s))
    else if LastHost(hosts, h).Some? then Some(HostRule(LastHost(hosts, h).value, ip, s))
    else Refreshed(prior, s)
  }

  /** The rule that withdrawing leaves for one hostname. */
  function Withdrawn(h: string, prior: Option<Rule>, hosts: seq<Host>, s: Settings): Option<Rule> {
    if h == "" then Some(CatchAll(s))
    else if h in HostNames(hosts) then None
    else Refreshed(prior, s)
  }

  /** A rule of a hostname that was not asked for is kept: there is one now if and only if there was one, with
      the path and the service it had, and its origin request shows today's settings and its own hostname. */
  predicate CarriedOver(prior: Option<Rule>, now: Option<Rule>, h: string, s: Settings) {
    (now.Some? <==> prior.Some?) &&
    (now.Some? ==>
       now.value.hostname == h && now.value.path == prior.value.path && now.value.service == prior.value.service &&
       now.value.origin.Some? && Shown(now.value.origin.value, s.nameOverride, s.catchAllRule) == Some((s, h)))
  }

  /** The list that a rewrite for hosts of these names leaves: in normal form, ending in the catch-all of the
      settings, and with the rule of every other hostname carried over. */
  ghost predicate Rewrites(list: seq<Rule>, prior: seq<Rule>, names: set<string>, s: Settings) {
    NormalForm(list) && list[|list| - 1] == Rule("", "", s.catchAllRule, None) &&
    forall h :: h != "" && h !in names ==> CarriedOver(LastRule(prior, h), LastRule(list, h), h, s)
  }

  /** The form a list takes when it is rewritten with no host at all. */
  ghost function Normalize(list: seq<Rule>, s: Settings): seq<Rule> {
    Remove(list, [], s)
  }

  // ----- Lookup in lists and maps -----

  lemma {:induction false} LastRuleFound(list: seq<Rule>, h: string)
    ensures LastRule(list, h).Some? <==> exists r :: r in list && r.hostname == h
    ensures LastRule(list, h).Some? ==> LastRule(list, h).value in list && LastRule(list, h).value.hostname == h
  {
    if list != [] {
      LastRuleFound(list[..|list| - 1], h);
      assert list == list[..|list| - 1] + [list[|list| - 1]];
    }
  }

  lemma {:induction false} LastHostFound(hosts: seq<Host>, h: string)
    ensures LastHost(hosts, h).Some? <==> h in HostNames(hosts)
    ensures LastHost(hosts, h).Some? ==> LastHost(hosts, h).value in hosts && LastHost(hosts, h).value.name == h
  {
    if hosts != [] {
      var n := |hosts| - 1;
      LastHostFound(hosts[..n], h);
      if h in HostNames(hosts) && hosts[n].name != h {
        var i :| 0 <= i < |hosts| && hosts[i].name == h;
        assert hosts[..n][i].name == h;
      }
      if LastHost(hosts[..n], h).Some? {
        assert LastHost(hosts[..n], h).value in hosts;
      }
      assert hosts[n].name in HostNames(hosts);
    }
  }

  lemma {:induction false} ByHostnameKeepsLast(list: seq<Rule>, s: Settings, h: string)
    ensures h in ByHostname(list, s) <==> LastRule(list, h).Some?
    ensures h in ByHostname(list, s) ==> ByHostname(list, s)[h] == Rederive(LastRule(list, h).value, s)
  {
    if list != [] {
      ByHostnameKeepsLast(list[..|list| - 1], s, h);
    }
  }

  lemma {:induction false} OverlayUsesLast(m: map<string, Rule>, hosts: seq<Host>, ip: string, s: Settings, h: string)
    ensures h in Overlay(m, hosts, ip, s) <==> h in m || LastHost(hosts, h).Some?
    ensures LastHost(hosts, h).Some? ==> Overlay(m, hosts, ip, s)[h] == HostRule(LastHost(hosts, h).value, ip, s)
    ensures LastHost(hosts, h).None? && h in m ==> Overlay(m, hosts, ip, s)[h] == m[h]
  {
    if hosts != [] {
      OverlayUsesLast(m, hosts[..|hosts| - 1], ip, s, h);
    }
  }

  lemma RenderLookup(m: map<string, Rule>, h: string)
    requires WellKeyed(m)
    ensures LastRule(Render(m), h) == if h in m then Some(m[h]) else None
  {
    RenderSorts(m);
    LastRuleFound(Render(m), h);
    if h in m { assert m[h] in Render(m); }
  }

  /** A strictly sorted list is determined by its last rule for each hostname. */
  lemma SameLookupSameList(a: seq<Rule>, b: seq<Rule>)
    requires StrictlySorted(a) && StrictlySorted(b)
    requires forall h :: LastRule(a, h) == LastRule(b, h)
    ensures a == b
  {
    forall r ensures r in a <==> r in b {
      LookupMember(a, r);
      LookupMember(b, r);
    }
    SortedUnique(a, b);
  }

  lemma LookupMember(a: seq<Rule>, r: Rule)
    requires StrictlySorted(a)
    ensures r in a <==> LastRule(a, r.hostname) == Some(r)
  {
    LastRuleFound(a, r.hostname);
    if r in a {
      var x := LastRule(a, r.hostname).value;
      var i :| 0 <= i < |a| && a[i] == r;
      var j :| 0 <= j < |a| && a[j] == x;
      assert i < j ==> RuleOrder(a[i], a[j]) < 0;
      assert j < i ==> RuleOrder(a[j], a[i]) < 0;
      RuleOrderTotal(r, x);
      RuleOrderTotal(x, r);
    }
  }

  // ----- Refinement: the list algorithm computes the map update -----

  lemma RefreshedCarries(prior: Option<Rule>, h: string, s: Settings)
    requires prior.Some? ==> prior.value.hostname == h
    ensures CarriedOver(prior, Refreshed(prior, s), h, s)
  {
    OriginRequestRoundTrip(ToOriginRequest(s, h), s, h);
  }

  /** Whatever list is read, publishing writes a list in normal form that ends in the catch-all of the settings.
      Each hostname has exactly the rule the reference update gives it: a listed one points at its endpoint, and
      the rules of the others are carried over. */
  lemma AppendRefines(list: seq<Rule>, hosts: seq<Host>, ip: string, s: Settings)
    ensures StrictlySorted(Append(list, hosts, ip, s))
    ensures forall h :: LastRule(Append(list, hosts, ip, s), h) == Published(h, LastRule(list, h), hosts, ip, s)
    ensures Rewrites(Append(list, hosts, ip, s), list, HostNames(hosts), s)
  {
    var m := AppendMap(list, hosts, ip, s);
    RenderNormal(m);
    RenderSorts(m);
    forall h ensures LastRule(Append(list, hosts, ip, s), h) == Published(h, LastRule(list, h), hosts, ip, s) {
      RenderLookup(m, h);
      ByHostnameKeepsLast(list, s, h);
      OverlayUsesLast(ByHostname(list, s), hosts, ip, s, h);
    }
    forall h | h != "" && h !in HostNames(hosts)
      ensures CarriedOver(LastRule(list, h), LastRule(Append(list, hosts, ip, s), h), h, s)
    {
      LastHostFound(hosts, h);
      LastRuleFound(list, h);
      RefreshedCarries(LastRule(list, h), h, s);
    }
  }

  /** The same for withdrawing: a listed hostname has no rule any more, whoever it belonged to. */
  lemma RemoveRefines(list: seq<Rule>, hosts: seq<Host>, s: Settings)
    ensures StrictlySorted(Remove(list, hosts, s))
    ensures forall h :: LastRule(Remove(list, hosts, s), h) == Withdrawn(h, LastRule(list, h), hosts, s)
    ensures Rewrites(Remove(list, hosts, s), list, HostNames(hosts), s)
  {
    var m := RemoveMap(list, hosts, s);
    RenderNormal(m);
    RenderSorts(m);
    forall h ensures LastRule(Remove(list, hosts, s), h) == Withdrawn(h, LastRule(list, h), hosts, s) {
      RenderLookup(m, h);
      ByHostnameKeepsLast(list, s, h);
    }
    forall h | h != "" && h !in HostNames(hosts)
      ensures CarriedOver(LastRule(list, h), LastRule(Remove(list, hosts, s), h), h, s)
    {
      LastRuleFound(list, h);
      RefreshedCarries(LastRule(list, h), h, s);
    }
  }

  // ----- Algebra -----

  /** Publishing again, even with other settings, leaves what the last publication alone would have left. */
  lemma AppendAbsorbs(list: seq<Rule>, hosts: seq<Host>, ip: string, before: Settings, s: Settings)
    ensures Append(Append(list, hosts, ip, before), hosts, ip, s) == Append(list, hosts, ip, s)
  {
    var once := Append(list, hosts, ip, before);
    AppendRefines(list, hosts, ip, before);
    AppendRefines(list, hosts, ip, s);
    AppendRefines(once, hosts, ip, s);
    SameLookupSameList(Append(once, hosts, ip, s), Append(list, hosts, ip, s));
  }

  lemma RemoveAbsorbs(list: seq<Rule>, hosts: seq<Host>, before: Settings, s: Settings)
    ensures Remove(Remove(list, hosts, before), hosts, s) == Remove(list, hosts, s)
  {
    var once := Remove(list, hosts, before);
    RemoveRefines(list, hosts, before);
    RemoveRefines(list, hosts, s);
    RemoveRefines(once, hosts, s);
    SameLookupSameList(Remove(once, hosts, s), Remove(list, hosts, s));
  }

  /** Withdrawing what was just published is withdrawing it from the original list; and it restores the
      original list, in normal form, exactly when the original had no rule for any of those hosts. */
  lemma UndoAppend(list: seq<Rule>, hosts: seq<Host>, ip: string, s: Settings)
    ensures Remove(Append(list, hosts, ip, s), hosts, s) == Remove(list, hosts, s)
    ensures Remove(Append(list, hosts, ip, s), hosts, s) == Normalize(list, s)
       <==> forall h :: h in HostNames(hosts) && h != "" ==> LastRule(list, h).None?
  {
    var added := Append(list, hosts, ip, s);
    AppendRefines(list, hosts, ip, s);
    RemoveRefines(added, hosts, s);
    RemoveRefines(list, hosts, s);
    RemoveRefines(list, [], s);
    forall h ensures LastRule(Remove(added, hosts, s), h) == LastRule(Remove(list, hosts, s), h) {
      LastHostFound(hosts, h);
    }
    SameLookupSameList(Remove(added, hosts, s), Remove(list, hosts, s));
    if forall h :: h in HostNames(hosts) && h != "" ==> LastRule(list, h).None? {
      SameLookupSameList(Remove(list, hosts, s), Normalize(list, s));
    }
    if h :| h in HostNames(hosts) && h != "" && LastRule(list, h).Some? {
      assert LastRule(Remove(list, hosts, s), h) == None;
      assert LastRule(Normalize(list, s), h) == Refreshed(LastRule(list, h), s);
    }
  }

  // ----- Confluence over ingresses with disjoint hosts -----

  /** What one Ingress asks for, and one operation done on its behalf. */
  datatype Request = Request(hosts: seq<Host>, ip: string)
  datatype Op = Op(owner: nat, publish: bool)

  ghost function Apply(list: seq<Rule>, spec: map<nat, Request>, s: Settings, op: Op): seq<Rule>
    requires op.owner in spec
  {
    var q := spec[op.owner];
    if op.publish then Append(list, q.hosts, q.ip, s) else Remove(list, q.hosts, s)
  }

  ghost predicate KnownOwners(spec: map<nat, Request>, ops: seq<Op>) {
    forall i :: 0 <= i < |ops| ==> ops[i].owner in spec
  }

  ghost function ApplyAll(list: seq<Rule>, spec: map<nat, Request>, s: Settings, ops: seq<Op>): seq<Rule>
    requires KnownOwners(spec, ops)
  {
    if ops == [] then list
    else Apply(ApplyAll(list, spec, s, ops[..|ops| - 1]), spec, s, ops[|ops| - 1])
  }

  ghost predicate DisjointHosts(spec: map<nat, Request>) {
    forall a, b, h :: a in spec && b in spec && h != "" && h in HostNames(spec[a].hosts) &&
      h in HostNames(spec[b].hosts)
      ==> a == b
  }

  /** Whether the last operation of an owner publishes it, if it has one. */
  function LastOp(ops: seq<Op>, owner: nat): Option<bool> {
    if ops == [] then None
    else if ops[|ops| - 1].owner == owner then Some(ops[|ops| - 1].publish)
    else LastOp(ops[..|ops| - 1], owner)
  }

  lemma {:induction false} OwnedVerdict(list: seq<Rule>, spec: map<nat, Request>, s: Settings, ops: seq<Op>, a: nat,
                                        h: string)
    requires KnownOwners(spec, ops) && DisjointHosts(spec)
    requires a in spec && h != "" && h in HostNames(spec[a].hosts)
    ensures LastHost(spec[a].hosts, h).Some?
    ensures var rule := LastRule(ApplyAll(list, spec, s, ops), h);
      match LastOp(ops, a)
      case Some(publish) =>
        rule == (if publish then Some(HostRule(LastHost(spec[a].hosts, h).value, spec[a].ip, s)) else None)
      case None =>
        rule == if ops == [] then LastRule(list, h) else Refreshed(LastRule(list, h), s)
  {
    LastHostFound(spec[a].hosts, h);
    if ops != [] {
      var n := |ops| - 1;
      OwnedVerdict(list, spec, s, ops[..n], a, h);
      OneMore(list, spec, s, ops, h);
    }
  }

  lemma {:induction false} UnownedVerdict(list: seq<Rule>, spec: map<nat, Request>, s: Settings, ops: seq<Op>,
                                          h: string)
    requires KnownOwners(spec, ops) && ops != [] && h != ""
    requires forall a :: a in spec ==> h !in HostNames(spec[a].hosts)
    ensures LastRule(ApplyAll(list, spec, s, ops), h) == Refreshed(LastRule(list, h), s)
  {
    var n := |ops| - 1;
    if n > 0 { UnownedVerdict(list, spec, s, ops[..n], h); }
    OneMore(list, spec, s, ops, h);
  }

  lemma OneMore(list: seq<Rule>, spec: map<nat, Request>, s: Settings, ops: seq<Op>, h: string)
    requires KnownOwners(spec, ops) && ops != []
    ensures var op := ops[|ops| - 1];
      var prior := LastRule(ApplyAll(list, spec, s, ops[..|ops| - 1]), h);
      LastRule(ApplyAll(list, spec, s, ops), h) ==
        if op.publish then Published(h, prior, spec[op.owner].hosts, spec[op.owner].ip, s)
        else Withdrawn(h, prior, spec[op.owner].hosts, s)
    ensures var op := ops[|ops| - 1];
      LastHost(spec[op.owner].hosts, h).Some? <==> h in HostNames(spec[op.owner].hosts)
    ensures StrictlySorted(ApplyAll(list, spec, s, ops))
  {
    var op := ops[|ops| - 1];
    var before := ApplyAll(list, spec, s, ops[..|ops| - 1]);
    LastHostFound(spec[op.owner].hosts, h);
    AppendRefines(before, spec[op.owner].hosts, spec[op.owner].ip, s);
    RemoveRefines(before, spec[op.owner].hosts, s);
  }

  /** For ingresses with pairwise disjoint hosts, the list written at the end depends on the last operation
      of each ingress only: neither order nor repetition can show, element for element. */
  lemma Confluence(list: seq<Rule>, spec: map<nat, Request>, s: Settings, ops: seq<Op>, others: seq<Op>)
    requires KnownOwners(spec, ops) && KnownOwners(spec, others) && DisjointHosts(spec)
    requires ops != [] && others != []
    requires forall a :: a in spec ==> LastOp(ops, a) == LastOp(others, a)
    ensures ApplyAll(list, spec, s, ops) == ApplyAll(list, spec, s, others)
  {
    var one, two := ApplyAll(list, spec, s, ops), ApplyAll(list, spec, s, others);
    forall h ensures LastRule(one, h) == LastRule(two, h) {
      if a :| a in spec && h != "" && h in HostNames(spec[a].hosts) {
        OwnedVerdict(list, spec, s, ops, a, h);
        OwnedVerdict(list, spec, s, others, a, h);
      } else if h != "" {
        UnownedVerdict(list, spec, s, ops, h);
        UnownedVerdict(list, spec, s, others, h);
      } else {
        OneMore(list, spec, s, ops, h);
        OneMore(list, spec, s, others, h);
      }
    }
    OneMore(list, spec, s, ops, "");
    OneMore(list, spec, s, others, "");
    SameLookupSameList(one, two);
  }
}
