/** The CloudflareTunnel reconciler as the operator runs it. */
module TunnelController {
  import opened Domain
  import opened World
  import opened CloudflareClient
  import P = Protocol
  import Accounting
  import StatusLaws
  import I = Invariant
  import TunnelSafety
  import F = TunnelFrame

  /** What a reconcile may do to its own object, besides writing its status: add the operator's finalizer to a live
      one, and take it off one that is being deleted, which may have been all that kept it. */
  ghost predicate OwnObjectKept(a: State, b: State, key: Key) {
    if key !in a.tunnels then b == a
    else
      var o, others := a.tunnels[key], a.tunnels[key].finalizers - {FINALIZER};
      if key !in b.tunnels then o.deleting && others == {}
      else
        F.SpecKept(o, b.tunnels[key]) &&
        b.tunnels[key].finalizers in {o.finalizers, if o.deleting then others else o.finalizers + {FINALIZER}}
  }

  lemma OwnObjectStays(w: World, key: Key)
    ensures OwnObjectKept(w.state, P.ReconcileTunnel(w, key).0.state, key)
  {
    if key in w.state.tunnels {
      if w.state.tunnels[key].deleting { F.DeletionFrame(w, key); } else { F.LiveFrame(w, key); }
    }
  }

  class CloudflareTunnelReconciler {
    const env: Env
    const manager: Client

    constructor (env: Env)
      ensures this.env == env && manager.env == env
    {
      this.env := env;
      manager := new Client(env);
    }

    /** Reuses the recorded tunnel, or makes one: at most one, under a new identifier, and none while a token is
        stored for the recorded one. It hands on the token that is stored, or the one it has just read. */
    method ReconcileTunnel(key: Key, cfTunnel: TunnelObject) returns (ready: P.Ready)
      modifies env
      ensures (env.w, ready) == P.EnsureTunnel(old(env.w), key, cfTunnel)
      ensures Accounting.TunnelEnsured(old(env.w), env.w, key, cfTunnel.status.tunnelID, ready)
      ensures Accounting.HandedOn(old(env.w), env.w, key, cfTunnel, ready)
    {
      Accounting.EnsureTunnelAccount(env.w, key, cfTunnel);
      var secret := env.Call(w => GetSecret(w, key));
      if secret.Failed? {
        return P.NotReady;
      }
      var tunnelName := if cfTunnel.settings.nameOverride != "" then cfTunnel.settings.nameOverride else key.name;
      var token := "";
      if secret.Found? {
        token := secret.value;
      }
      var id := cfTunnel.status.tunnelID;
      if id != "" {
        if token != "" {
          return P.Ready(id, tunnelName, token);
        }
        var fetched := env.Call(w => GetToken(w, id));
        if fetched.Found? {
          return P.Ready(id, tunnelName, fetched.value);
        } else if fetched.Failed? {
          return P.NotReady;
        }
      }
      var created := env.Call(w => CreateRemote(w, tunnelName));
      if !created.Found? {
        return P.NotReady;
      }
      var answer := env.Call(w => GetToken(w, created.value));
      ready := if answer.Found? then P.Ready(created.value, tunnelName, answer.value) else P.NotReady;
    }

    /** The reads of updateStatus. */
    method Inspect(key: Key) returns (seen: Option<P.Seen>)
      modifies env
      ensures (env.w, seen) == P.Inspect(old(env.w), key)
    {
      var secret := env.Call(w => GetSecret(w, key));
      if secret.Failed? {
        return None;
      }
      var service := env.Call(w => GetService(w, key));
      if service.Failed? {
        return None;
      }
      var deployment := env.Call(w => GetDeployment(w, key));
      if deployment.Failed? {
        return None;
      }
      seen := Some(P.Seen(secret.Found?, service.Found?, if deployment.Found? then Some(deployment.value) else None));
    }

    method UpdateStatus(key: Key, status: Status) returns (result: P.Result)
      modifies env
      ensures (env.w, result) == P.UpdateStatus(old(env.w), key, status)
      ensures var s := old(env.w).state;
        StatusLaws.UniqueTypes(status.conditions) && key in s.tunnels && status.tunnelID != "" ==>
          result.ok == StatusLaws.Acknowledged(old(env.w).script, 4) &&
          result.requeue == (result.ok && !StatusLaws.Serving(s, key)) &&
          (result.ok ==>
             key in env.w.state.tunnels &&
             StatusLaws.Truthful(env.w.state, key, env.w.state.tunnels[key].status.conditions))
    {
      if StatusLaws.UniqueTypes(status.conditions) && key in env.w.state.tunnels {
        StatusLaws.StatusWrite(env.w, key, status);
      }
      var conditions := P.Optimistic(status.conditions);
      if status.tunnelID == "" {
        // The conditions set next are on a copy that is never written.
        return P.Result(true, false);
      }
      var seen := Inspect(key);
      if seen.None? {
        return P.Result(false, false);
      }
      if !seen.value.secret {
        conditions := P.Degrade(conditions, "Secret not found");
      }
      if !seen.value.service {
        conditions := P.Degrade(conditions, "Service not found");
      }
      if seen.value.replicas.None? {
        conditions := P.Degrade(conditions, "Deployment not found");
      }
      result := P.Result(true, false);
      if P.Idle(seen.value) {
        conditions := P.Unavailable(conditions);
        result := P.Result(true, true);
      }
      assert conditions == P.Describe(seen.value, status.conditions);
      var ok := env.Call(w => PutStatus(w, key, status.(conditions := conditions)));
      if !ok {
        return P.Result(false, false);
      }
    }

    method Fail(key: Key, status: Status) returns (result: P.Result)
      modifies env
      ensures (env.w, result) == P.FailWithStatus(old(env.w), key, status)
    {
      result := UpdateStatus(key, status);
      result := result.(ok := false);
    }

    method Reconcile(key: Key) returns (result: P.Result)
      requires manager.env == env
      modifies env
      ensures (env.w, result) == P.ReconcileTunnel(old(env.w), key)
      ensures I.Safe(old(env.w)) && old(env.w).actor == TunnelActor(key) ==> I.Keeps(old(env.w), env.w)
      ensures OwnObjectKept(old(env.w).state, env.w.state, key)
    {
      OwnObjectStays(env.w, key);
      if I.Safe(env.w) && env.w.actor == TunnelActor(key) {
        TunnelSafety.ReconcileTunnelSafe(env.w, key);
      }
      var got := env.Call(w => GetTunnel(w, key));
      if !got.Found? {
        return P.Result(got.NotFound?, false);
      }
      var cfTunnel := got.value;
      var ok: bool;

      if cfTunnel.deleting {
        if FINALIZER in cfTunnel.finalizers {
          ok := manager.DeleteAllDNS(cfTunnel.status.tunnelID);
          if !ok {
            return P.Result(false, false);
          }
          ok := env.Call(w => DeleteRemote(w, cfTunnel.status.tunnelID));
          if !ok {
            return P.Result(false, false);
          }
          cfTunnel := cfTunnel.(finalizers := cfTunnel.finalizers - {FINALIZER});
          ok := env.Call(w => PutTunnel(w, key, cfTunnel));
          return P.Result(ok, false);
        }
        return P.Result(true, false);
      }

      if FINALIZER !in cfTunnel.finalizers {
        cfTunnel := cfTunnel.(finalizers := cfTunnel.finalizers + {FINALIZER});
        ok := env.Call(w => PutTunnel(w, key, cfTunnel));
        if !ok {
          return P.Result(false, false);
        }
      }

      var ready := ReconcileTunnel(key, cfTunnel);
      if ready.NotReady? {
        result := Fail(key, cfTunnel.status);
        return;
      }
      ok := env.Call(w => ApplySecret(w, key, ready.token));
      if !ok {
        result := Fail(key, cfTunnel.status);
        return;
      }
      cfTunnel := cfTunnel.(status := cfTunnel.status.(tunnelID := ready.id, tunnelName := ready.name));
      ok := env.Call(w => PutStatus(w, key, cfTunnel.status));
      if !ok {
        return P.Result(false, false);
      }
      result := FinishChildren(key, cfTunnel.status);
    }

    method FinishChildren(key: Key, status: Status) returns (result: P.Result)
      modifies env
      ensures (env.w, result) == P.ApplyChildren(old(env.w), key, status)
    {
      var ok := env.Call(w => ApplyDeployment(w, key));
      if !ok {
        result := Fail(key, status);
        return;
      }
      ok := env.Call(w => ApplyService(w, key));
      if !ok {
        result := Fail(key, status);
        return;
      }
      ok := env.Call(w => ApplyOther(w, key, Monitor));
      if !ok {
        result := Fail(key, status);
        return;
      }
      ok := env.Call(w => ApplyOther(w, key, Budget));
      if !ok {
        result := Fail(key, status);
        return;
      }
      result := UpdateStatus(key, status);
    }
  }
}
