/** What the DNS steps do to the zone, name by name. */
module ZoneLaws {
  import opened Domain
  import opened World
  import opened Protocol

  predicate IsCname(d: RecordData, name: string) {
    d.rtype == CNAME && d.name == name
  }

  /** At most one CNAME per name (section 10.1 of RFC 2181), and no record with the empty identifier. */
  ghost predicate ValidZone(zone: map<string, RecordData>) {
    "" !in zone && UniqueCnames(zone)
  }

  ghost predicate UniqueCnames(zone: map<string, RecordData>) {
    forall a, b :: a in zone && b in zone && zone[a].rtype == CNAME && zone[b].rtype == CNAME &&
      zone[a].name == zone[b].name
      ==> a == b
  }

  /** The CNAME of a name, without its identifier. */
  ghost function RecordAt(zone: map<string, RecordData>, name: string): (r: Option<RecordData>)
    ensures r.Some? <==> exists id :: id in zone && IsCname(zone[id], name)
    ensures r.Some? ==> IsCname(r.value, name)
  {
    if exists id :: id in zone && IsCname(zone[id], name) then
      var id :| id in zone && IsCname(zone[id], name);
      Some(zone[id])
    else None
  }

  /** The records that are not CNAMEs of these names. */
  ghost function Others(zone: map<string, RecordData>, names: set<string>): map<string, RecordData> {
    map id | id in zone && !(zone[id].rtype == CNAME && zone[id].name in names) :: zone[id]
  }

  lemma RecordAtIs(zone: map<string, RecordData>, id: string)
    requires UniqueCnames(zone) && id in zone && zone[id].rtype == CNAME
    ensures RecordAt(zone, zone[id].name) == Some(zone[id])
  {
    assert IsCname(zone[id], zone[id].name);
  }

  // ----- Elementary changes of a zone -----

  /** Writing a CNAME under an identifier that holds the only CNAME of that name, or under a new identifier
      when the name has none. */
  lemma PutChangesOneName(zone: map<string, RecordData>, id: string, d: RecordData, names: set<string>)
    requires ValidZone(zone) && id != "" && d.rtype == CNAME && d.name in names
    requires if id in zone then IsCname(zone[id], d.name) else RecordAt(zone, d.name).None?
    ensures ValidZone(zone[id := d])
    ensures RecordAt(zone[id := d], d.name) == Some(d)
    ensures forall n :: n != d.name ==> RecordAt(zone[id := d], n) == RecordAt(zone, n)
    ensures Others(zone[id := d], names) == Others(zone, names)
  {
    var z := zone[id := d];
    if id !in zone {
      assert forall x :: x in zone ==> !IsCname(zone[x], d.name);
    }
    RecordAtIs(z, id);
    forall n | n != d.name ensures RecordAt(z, n) == RecordAt(zone, n) {
      if x :| x in z && IsCname(z[x], n) {
        RecordAtIs(z, x);
        RecordAtIs(zone, x);
      } else {
        assert forall x :: x in zone && IsCname(zone[x], n) ==> IsCname(z[x], n);
      }
    }
  }

  lemma DropChangesOneName(zone: map<string, RecordData>, id: string, names: set<string>)
    requires ValidZone(zone) && id in zone && zone[id].rtype == CNAME && zone[id].name in names
    ensures ValidZone(zone - {id})
    ensures RecordAt(zone - {id}, zone[id].name).None?
    ensures forall n :: n != zone[id].name ==> RecordAt(zone - {id}, n) == RecordAt(zone, n)
    ensures Others(zone - {id}, names) == Others(zone, names)
  {
    var z := zone - {id};
    forall n | n != zone[id].name ensures RecordAt(z, n) == RecordAt(zone, n) {
      if x :| x in z && IsCname(z[x], n) {
        RecordAtIs(z, x);
        RecordAtIs(zone, x);
      } else {
        assert forall x :: x in zone && IsCname(zone[x], n) ==> x in z;
      }
    }
  }

  /** The name is routed to the tunnel: its CNAME is proxied and points at the tunnel. */
  ghost predicate Routed(zone: map<string, RecordData>, name: string, tunnelID: string) {
    RecordAt(zone, name).Some? && var d := RecordAt(zone, name).value;
    d.rtype == "CNAME" && d.proxied && d.content == tunnelID + ".cfargotunnel.com"
  }

  /** A record as the operator writes it: a proxied CNAME of automatic lifetime, with a comment that names the
      operator and the tunnel. */
  predicate OwnRecord(d: RecordData, name: string, tunnelID: string) {
    d.rtype == "CNAME" && d.name == name && d.content == tunnelID + ".cfargotunnel.com" && d.proxied && d.ttl == 1 &&
    d.comment == "{\"managed-by\":\"cloudflare-tunnel-operator\",\"tunnelID\":\"" + tunnelID + "\"}"
  }

  // ----- Calls that write DNS -----

  predicate WritesDNS(call: Call) {
    call.AddRecord? || call.UpdateRecord? || call.DeleteRecord?
  }

  /** A run that went on from `before` to `after` without a DNS write. */
  ghost predicate Quiet(before: World, after: World) {
    before.trace <= after.trace &&
    forall i :: |before.trace| <= i < |after.trace| ==> !WritesDNS(after.trace[i].call)
  }

  // ----- Lookup, append, remove -----

  lemma GetDNSFinds(w: World, name: string)
    requires ValidZone(w.state.zone)
    ensures var (w1, got) := GetDNS(w, name);
      w1.state == w.state && w1.actor == w.actor && Quiet(w, w1) && !got.NotFound? &&
      (got.Found? ==>
         if got.value.id == "" then RecordAt(w.state.zone, name).None?
         else got.value.id in w.state.zone && w.state.zone[got.value.id] == got.value.data &&
              IsCname(got.value.data, name) && RecordAt(w.state.zone, name) == Some(got.value.data))
  {
    var (w1, got) := GetDNS(w, name);
    var matches := CnamesNamed(w.state.zone, name);
    if got.Found? {
      if Head(w).listing == [] {
        assert matches == {};
        assert forall id :: id in w.state.zone && IsCname(w.state.zone[id], name) ==> id in matches;
      } else {
        var id := Head(w).listing[0];
        assert id in matches;
        RecordAtIs(w.state.zone, id);
      }
    }
  }

  /** The record that publishing leaves at a name: a healthy one stays as it is, whoever wrote it. */
  ghost function PublishedRecord(tunnelID: string, name: string, prior: Option<RecordData>): Option<RecordData> {
    if prior.Some? && HealthyData(prior.value, tunnelID) then prior else Some(Managed(tunnelID, name))
  }

  /** A name at its goal for publishing is routed: by the record it had if that did, and else by the operator's. */
  lemma PublishedRecordRoutes(z: map<string, RecordData>, z1: map<string, RecordData>, name: string, tunnelID: string)
    ensures RecordAt(z, name) == PublishedRecord(tunnelID, name, RecordAt(z, name)) <==> Routed(z, name, tunnelID)
    ensures RecordAt(z1, name) == PublishedRecord(tunnelID, name, RecordAt(z, name)) ==>
      Routed(z1, name, tunnelID) &&
      if Routed(z, name, tunnelID) then RecordAt(z1, name) == RecordAt(z, name)
      else OwnRecord(RecordAt(z1, name).value, name, tunnelID)
  {
  }

  /** What one DNS step does to the zone: it keeps its form, the one name moves to its goal or stays, nothing
      else changes, and a success means that the goal is reached. */
  ghost predicate NameMoved(z: map<string, RecordData>, z1: map<string, RecordData>, name: string,
                            goal: Option<RecordData>, ok: bool, names: set<string>)
  {
    ValidZone(z1) && Others(z1, names) == Others(z, names) &&
    (forall n :: n != name ==> RecordAt(z1, n) == RecordAt(z, n)) &&
    (RecordAt(z1, name) == RecordAt(z, name) || RecordAt(z1, name) == goal) &&
    (ok ==> RecordAt(z1, name) == goal)
  }

  lemma AddMoves(w: World, tunnelID: string, name: string, names: set<string>)
    requires ValidZone(w.state.zone) && name in names && RecordAt(w.state.zone, name).None?
    ensures var (w1, ok) := AddDNS(w, tunnelID, name);
      w1.state == w.state.(zone := w1.state.zone) && w1.actor == w.actor &&
      NameMoved(w.state.zone, w1.state.zone, name, Some(Managed(tunnelID, name)), ok, names)
  {
    var id := Head(w).id;
    if id != "" && id !in w.state.zone {
      PutChangesOneName(w.state.zone, id, Managed(tunnelID, name), names);
    }
  }

  lemma UpdateMoves(w: World, tunnelID: string, name: string, r: DNSRecord, names: set<string>)
    requires ValidZone(w.state.zone) && name in names && r.id in w.state.zone && IsCname(w.state.zone[r.id], name)
    ensures var (w1, ok) := UpdateDNS(w, tunnelID, name, r);
      w1.state == w.state.(zone := w1.state.zone) && w1.actor == w.actor &&
      NameMoved(w.state.zone, w1.state.zone, name, Some(Managed(tunnelID, name)), ok, names)
  {
    PutChangesOneName(w.state.zone, r.id, Managed(tunnelID, name), names);
  }

  lemma DeleteMoves(w: World, name: string, id: string, names: set<string>)
    requires ValidZone(w.state.zone) && name in names && id in w.state.zone && IsCname(w.state.zone[id], name)
    ensures var (w1, ok) := DeleteDNS(w, id);
      w1.state == w.state.(zone := w1.state.zone) && w1.actor == w.actor &&
      NameMoved(w.state.zone, w1.state.zone, name, None, ok, names)
  {
    DropChangesOneName(w.state.zone, id, names);
  }

  /** One host of a publishing pass. A success has routed the name to the tunnel, and it made no write if and only
      if the name was routed there before. */
  lemma AppendDNSEffect(w: World, tunnelID: string, name: string, names: set<string>)
    requires ValidZone(w.state.zone) && name in names
    ensures var (w1, ok) := AppendDNS(w, tunnelID, name);
      var z, z1 := w.state.zone, w1.state.zone;
      var goal := PublishedRecord(tunnelID, name, RecordAt(z, name));
      w1.state == w.state.(zone := z1) && w1.actor == w.actor && NameMoved(z, z1, name, goal, ok, names) &&
      (RecordAt(z, name) == goal ==> z1 == z && Quiet(w, w1))
    ensures var (w1, ok) := AppendDNS(w, tunnelID, name);
      var z, z1 := w.state.zone, w1.state.zone;
      (ok ==> Routed(z1, name, tunnelID)) &&
      (Routed(z, name, tunnelID) ==> z1 == z && Quiet(w, w1)) &&
      (ok && !Routed(z, name, tunnelID) ==> OwnRecord(RecordAt(z1, name).value, name, tunnelID) && !Quiet(w, w1))
  {
    var (w1, got) := GetDNS(w, name);
    GetDNSFinds(w, name);
    var w2 := AppendDNS(w, tunnelID, name).0;
    PublishedRecordRoutes(w.state.zone, w2.state.zone, name, tunnelID);
    assert w2 != w1 ==> WritesDNS(w2.trace[|w.trace| + 1].call);
    if got.Found? && got.value.id == "" {
      AddMoves(w1, tunnelID, name, names);
    } else if got.Found? && !Healthy(got.value, tunnelID) {
      UpdateMoves(w1, tunnelID, name, got.value, names);
    }
  }

  /** One host of a withdrawing pass. */
  lemma RemoveDNSEffect(w: World, name: string, names: set<string>)
    requires ValidZone(w.state.zone) && name in names
    ensures var (w1, ok) := RemoveDNS(w, name);
      var z, z1 := w.state.zone, w1.state.zone;
      w1.state == w.state.(zone := z1) && w1.actor == w.actor && NameMoved(z, z1, name, None, ok, names) &&
      (RecordAt(z, name).None? ==> z1 == z && Quiet(w, w1))
  {
    var (w1, got) := GetDNS(w, name);
    GetDNSFinds(w, name);
    if got.Found? && got.value.id != "" {
      DeleteMoves(w1, name, got.value.id, names);
    }
  }

  // ----- Deleting every record of a tunnel -----

  /** A success of the deleting loop removes exactly the records it was given. */
  lemma {:induction false} DeleteEachEffect(w: World, ids: seq<string>)
    ensures var (w1, ok) := DeleteEach(w, ids);
      w1.state == w.state.(zone := w1.state.zone) &&
      (ok ==> w1.state.zone == w.state.zone - set x | x in ids)
    decreases |ids|
  {
    if ids != [] {
      var (w1, ok) := DeleteDNS(w, ids[0]);
      if ok {
        DeleteEachEffect(w1, ids[1..]);
        assert (set x | x in ids) == {ids[0]} + set x | x in ids[1..];
      }
    }
  }

  lemma DeleteAllRemoves(w: World, tunnelID: string)
    requires DeleteAllDNS(w, tunnelID).1
    ensures var z := w.state.zone;
      DeleteAllDNS(w, tunnelID).0.state.zone == z - CnamesCommented(z, Comment(tunnelID))
  {
    var matches := CnamesCommented(w.state.zone, Comment(tunnelID));
    var (w1, got) := ListMatches(w, matches);
    DeleteEachEffect(w1, got.value);
    assert (set x | x in got.value) == matches;
  }

  /** A success of DeleteAllDNS removes exactly the CNAMEs whose comment names the tunnel: a CNAME that points
      at the tunnel outlives it if and only if its comment says something else, as when publishing found it
      healthy and left it to its owner. */
  lemma DeleteAllExact(w: World, tunnelID: string)
    requires DeleteAllDNS(w, tunnelID).1
    ensures var z, z1 := w.state.zone, DeleteAllDNS(w, tunnelID).0.state.zone;
      z1.Keys <= z.Keys && (forall id :: id in z1 ==> z1[id] == z[id]) &&
      forall id :: id in z ==> (id !in z1 <==> z[id].rtype == CNAME && z[id].comment == Comment(tunnelID))
  {
    DeleteAllRemoves(w, tunnelID);
  }
}
