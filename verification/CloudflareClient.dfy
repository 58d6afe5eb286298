/** The Cloudflare client's DNS operations. */
module CloudflareClient {
  import opened Domain
  import opened World
  import P = Protocol
  import Z = ZoneLaws

  class Client {
    const env: Env

    constructor (env: Env)
      ensures this.env == env
    {
      this.env := env;
    }

    /** A name without a CNAME gets the managed one, under an identifier of the zone's choosing, or the zone
        stays as it was. */
    method AddDNS(tunnelID: string, hostname: string) returns (ok: bool)
      modifies env
      ensures (env.w, ok) == P.AddDNS(old(env.w), tunnelID, hostname)
      ensures env.w.state == old(env.w).state.(zone := env.w.state.zone)
      ensures var z := old(env.w).state.zone;
        Z.ValidZone(z) && Z.RecordAt(z, hostname).None? ==>
          Z.NameMoved(z, env.w.state.zone, hostname, Some(Managed(tunnelID, hostname)), ok, {hostname})
    {
      if Z.ValidZone(env.w.state.zone) && Z.RecordAt(env.w.state.zone, hostname).None? {
        Z.AddMoves(env.w, tunnelID, hostname, {hostname});
      }
      var data := RecordData(CNAME, hostname, Target(tunnelID), true, 1, Comment(tunnelID));
      ok := env.Call(w => CreateRecord(w, data));
    }

    /** The CNAME of that name, or the zero record if and only if there is none. */
    method GetDNS(hostname: string) returns (record: Got<DNSRecord>)
      modifies env
      ensures (env.w, record) == P.GetDNS(old(env.w), hostname)
      ensures env.w.state == old(env.w).state && !record.NotFound?
      ensures Z.ValidZone(env.w.state.zone) && record.Found? ==>
        if record.value.id == "" then Z.RecordAt(env.w.state.zone, hostname).None?
        else record.value.id in env.w.state.zone && env.w.state.zone[record.value.id] == record.value.data &&
             Z.RecordAt(env.w.state.zone, hostname) == Some(record.value.data)
    {
      if Z.ValidZone(env.w.state.zone) {
        Z.GetDNSFinds(env.w, hostname);
      }
      var matches := P.CnamesNamed(env.w.state.zone, hostname);
      var zone := env.w.state.zone;
      var ids := env.Call(w => ListMatches(w, matches));
      if !ids.Found? {
        return Failed;
      }
      if |ids.value| == 0 {
        return Found(NO_RECORD);
      }
      assert ids.value[0] in matches;
      record := Found(DNSRecord(ids.value[0], zone[ids.value[0]]));
    }

    /** The CNAME of a name becomes the managed one under its identifier, or stays as it was. */
    method UpdateDNS(tunnelID: string, hostname: string, current: DNSRecord) returns (ok: bool)
      modifies env
      ensures (env.w, ok) == P.UpdateDNS(old(env.w), tunnelID, hostname, current)
      ensures env.w.state == old(env.w).state.(zone := env.w.state.zone)
      ensures current.id !in old(env.w).state.zone ==> !ok && env.w.state == old(env.w).state
      ensures var z := old(env.w).state.zone;
        Z.ValidZone(z) && current.id in z && Z.IsCname(z[current.id], hostname) ==>
          Z.NameMoved(z, env.w.state.zone, hostname, Some(Managed(tunnelID, hostname)), ok, {hostname})
    {
      ghost var z := env.w.state.zone;
      if Z.ValidZone(z) && current.id in z && Z.IsCname(z[current.id], hostname) {
        Z.UpdateMoves(env.w, tunnelID, hostname, current, {hostname});
      }
      var data := RecordData(CNAME, hostname, Target(tunnelID), true, 1, Comment(tunnelID));
      ok := env.Call(w => ReplaceRecord(w, current.id, data));
    }

    /** The record goes, and its name has no CNAME any more, or the zone stays as it was. */
    method DeleteDNS(id: string) returns (ok: bool)
      modifies env
      ensures (env.w, ok) == P.DeleteDNS(old(env.w), id)
      ensures env.w.state == old(env.w).state.(zone := env.w.state.zone)
      ensures id !in old(env.w).state.zone ==> !ok && env.w.state == old(env.w).state
      ensures var z := old(env.w).state.zone;
        Z.ValidZone(z) && id in z && z[id].rtype == CNAME ==>
          Z.NameMoved(z, env.w.state.zone, z[id].name, None, ok, {z[id].name})
    {
      ghost var z := env.w.state.zone;
      if Z.ValidZone(z) && id in z && z[id].rtype == CNAME {
        Z.DeleteMoves(env.w, z[id].name, id, {z[id].name});
      }
      ok := env.Call(w => RemoveRecord(w, id));
    }

    /** Deletes every CNAME whose comment names the tunnel, and stops at the first failure. */
    method DeleteAllDNS(tunnelID: string) returns (ok: bool)
      modifies env
      ensures (env.w, ok) == P.DeleteAllDNS(old(env.w), tunnelID)
      ensures var z := old(env.w).state.zone; ok ==> env.w.state.zone == z - P.CnamesCommented(z, Comment(tunnelID))
    {
      if P.DeleteAllDNS(env.w, tunnelID).1 {
        Z.DeleteAllRemoves(env.w, tunnelID);
      }
      var matches := P.CnamesCommented(env.w.state.zone, Comment(tunnelID));
      var ids := env.Call(w => ListMatches(w, matches));
      if !ids.Found? {
        return false;
      }
      ghost var listed := env.w;
      var i := 0;
      while i < |ids.value|
        invariant 0 <= i <= |ids.value|
        invariant P.DeleteEach(env.w, ids.value[i..]) == P.DeleteEach(listed, ids.value)
      {
        assert ids.value[i..][1..] == ids.value[i + 1..];
        var deleted := DeleteDNS(ids.value[i]);
        if !deleted {
          return false;
        }
        i := i + 1;
      }
      ok := true;
    }
  }
}
