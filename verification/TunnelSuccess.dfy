/** When a CloudflareTunnel reconcile can succeed at all. */
module TunnelSuccess {
  import opened Domain
  import opened World
  import opened Protocol
  import opened Accounting
  import opened TunnelAnswers
  import Convergence

  /** One reconcile of the tunnel object, from its first call. */
  function TunnelAttempt(s: State, key: Key, script: seq<Reply>): (World, Result) {
    ReconcileTunnel(World(s, script, TunnelActor(key), []), key)
  }

  /** At least n acknowledgements that offer this identifier, and nothing else. */
  predicate Plenty(script: seq<Reply>, n: nat, id: string) {
    |script| >= n && forall i :: 0 <= i < |script| ==> script[i] == Convergence.Yes(id)
  }

  function Copies(n: nat, id: string): (script: seq<Reply>)
    ensures Plenty(script, n, id)
  {
    seq(n, _ => Convergence.Yes(id))
  }

  lemma OneLess(w: World, call: Call, after: State, n: nat, id: string)
    requires Plenty(w.script, n + 1, id)
    ensures Plenty(Spend(w, call, after).script, n, id) && Answered(w) && Head(w).id == id
  {
  }

  // ----- A live object -----

  lemma StatusSucceeds(w: World, key: Key, status: Status, id: string)
    requires key in w.state.tunnels && Plenty(w.script, 4, id)
    ensures UpdateStatus(w, key, status).1.ok
  {
    if status.tunnelID != "" {
      var w1 := GetSecret(w, key).0;
      OneLess(w, ReadObject(key), w.state, 3, id);
      var w2 := GetService(w1, key).0;
      OneLess(w1, ReadObject(key), w.state, 2, id);
      OneLess(w2, ReadObject(key), w.state, 1, id);
    }
  }

  lemma ChildrenSucceed(w: World, key: Key, status: Status, id: string)
    requires key in w.state.tunnels && Plenty(w.script, 8, id)
    ensures ApplyChildren(w, key, status).1.ok
  {
    var (w1, deployed) := ApplyDeployment(w, key);
    OneLess(w, ApplyChild(key, Cloudflared), w1.state, 7, id);
    var (w2, served) := ApplyService(w1, key);
    OneLess(w1, ApplyChild(key, Metrics), w2.state, 6, id);
    var (w3, monitored) := ApplyOther(w2, key, Monitor);
    OneLess(w2, ApplyChild(key, Monitor), w3.state, 5, id);
    var (w4, budgeted) := ApplyOther(w3, key, Budget);
    OneLess(w3, ApplyChild(key, Budget), w4.state, 4, id);
    StatusSucceeds(w4, key, status, id);
    assert ApplyChildren(w, key, status) == UpdateStatus(w4, key, status);
  }

  /** Once the tunnel is ready, acknowledgements are all it takes. */
  lemma ReadySucceeds(w: World, w1: World, key: Key, o: TunnelObject, ready: Ready, id: string)
    requires (w1, ready) == EnsureTunnel(w, key, o) && ready.Ready? && key in w1.state.tunnels
    requires Plenty(w1.script, 10, id)
    ensures Provision(w, key, o).1.ok
  {
    var (w2, stored) := ApplySecret(w1, key, ready.token);
    OneLess(w1, ApplyChild(key, TokenSecret), w2.state, 9, id);
    var status := o.status.(tunnelID := ready.id, tunnelName := ready.name);
    var (w3, ok) := PutStatus(w2, key, status);
    OneLess(w2, WriteStatus(key, status), w3.state, 8, id);
    ChildrenSucceed(w3, key, status, id);
    assert Provision(w, key, o) == ApplyChildren(w3, key, status);
  }

  /** The recorded tunnel can be used: its token is stored, or the tunnel exists and can be asked for it. */
  predicate Usable(s: State, key: Key) {
    Live(s, key) && RecordedID(s, key) != "" && !HasToken(s, key) ==> RecordedID(s, key) in s.remote
  }

  lemma MakeSucceeds(w: World, name: string, id: string)
    requires FreshTunnel(w.state, id) && Plenty(w.script, 12, id)
    ensures var (w1, ready) := MakeTunnel(w, name);
      ready.Ready? && Plenty(w1.script, 10, id) && w1.state.tunnels == w.state.tunnels
  {
    var (w1, created) := CreateRemote(w, name);
    OneLess(w, CreateTunnel(name), w1.state, 11, id);
    OneLess(w1, ReadToken(id), w1.state, 10, id);
  }

  lemma EnsureSucceeds(w: World, key: Key, o: TunnelObject, id: string)
    requires Live(w.state, key) && o.status == w.state.tunnels[key].status && Usable(w.state, key)
    requires FreshTunnel(w.state, id) && Plenty(w.script, 13, id)
    ensures var (w1, ready) := EnsureTunnel(w, key, o);
      ready.Ready? && Plenty(w1.script, 10, id) && w1.state.tunnels == w.state.tunnels
  {
    var (w1, secret) := GetSecret(w, key);
    OneLess(w, ReadObject(key), w.state, 12, id);
    if o.status.tunnelID == "" {
      MakeSucceeds(w1, RemoteName(key, o.settings), id);
      assert EnsureTunnel(w, key, o) == MakeTunnel(w1, RemoteName(key, o.settings));
    } else if !HasToken(w.state, key) {
      OneLess(w1, ReadToken(o.status.tunnelID), w.state, 11, id);
    }
  }

  /** The reconcile of a live object after its first calls, given the replies to the rest. */
  lemma ReachesProvision(s: State, key: Key, later: seq<Reply>) returns (script: seq<Reply>, m: World, o: TunnelObject)
    requires Live(s, key)
    ensures TunnelAttempt(s, key, script) == Provision(m, key, o) && (NoMissing(later) ==> NoMissing(script))
    ensures m.script == later && m.state == s.(tunnels := m.state.tunnels) && Live(m.state, key)
    ensures o.status == m.state.tunnels[key].status == s.tunnels[key].status
  {
    o := s.tunnels[key];
    var yes := Convergence.Yes("");
    if FINALIZER in o.finalizers {
      script := [yes] + later;
      m := GetTunnel(World(s, script, TunnelActor(key), []), key).0;
      assert m.script == later;
    } else {
      script := [yes, yes] + later;
      var w1 := GetTunnel(World(s, script, TunnelActor(key), []), key).0;
      assert w1.script == [yes] + later;
      o := o.(finalizers := o.finalizers + {FINALIZER});
      m := PutTunnel(w1, key, o).0;
      assert m.script == later;
    }
  }

  lemma LiveSucceeds(s: State, key: Key) returns (script: seq<Reply>)
    requires Live(s, key) && Usable(s, key)
    ensures NoMissing(script) && TunnelAttempt(s, key, script).1.ok
  {
    var id := Convergence.FreshIdentifier(s.issued);
    var m, o;
    script, m, o := ReachesProvision(s, key, Copies(13, id));
    EnsureSucceeds(m, key, o, id);
    var (w1, ready) := EnsureTunnel(m, key, o);
    ReadySucceeds(m, w1, key, o, ready, id);
  }

  /** Even a recorded tunnel that is lost can be got over, if ErrTunnelNotFound is reported for it. */
  lemma LostSucceeds(s: State, key: Key) returns (script: seq<Reply>)
    requires Live(s, key) && RecordedID(s, key) != "" && !HasToken(s, key)
    ensures TunnelAttempt(s, key, script).1.ok
  {
    var id := Convergence.FreshIdentifier(s.issued);
    var rest := Copies(10, "");
    var m, o;
    script, m, o := ReachesProvision(s, key,
      [Says(Fault.Pass, ""), Says(Missing, ""), Says(Fault.Pass, id), Says(Fault.Pass, "")] + rest);
    MissingMakesTunnel(m, key, o, id, rest);
    var (w1, ready) := EnsureTunnel(m, key, o);
    ReadySucceeds(m, w1, key, o, ready, "");
  }

  /** Without that report there is no way past a lost tunnel whose token is not stored. */
  lemma LostIsStuck(w: World, key: Key)
    requires Live(w.state, key) && !Usable(w.state, key) && NoMissing(w.script)
    ensures !ReconcileTunnel(w, key).1.ok
  {
    var (w1, got) := GetTunnel(w, key);
    if got.Found? {
      var o := got.value;
      if FINALIZER in o.finalizers {
        StuckProvision(w1, key, o);
      } else {
        o := o.(finalizers := o.finalizers + {FINALIZER});
        var (w2, ok) := PutTunnel(w1, key, o);
        if ok { StuckProvision(w2, key, o); }
      }
    }
  }

  lemma StuckProvision(w: World, key: Key, o: TunnelObject)
    requires Live(w.state, key) && !Usable(w.state, key) && NoMissing(w.script)
    requires o.status == w.state.tunnels[key].status
    ensures !Provision(w, key, o).1.ok
  {
    assert EnsureTunnel(w, key, o).1.NotReady?;
  }

  // ----- An object that is being deleted -----

  lemma {:induction false} Enumerate(s: set<string>) returns (ids: seq<string>)
    ensures IsListing(ids, s) && forall i, j :: 0 <= i < j < |ids| ==> ids[i] != ids[j]
    decreases s
  {
    ids := [];
    if s != {} {
      var x :| x in s;
      var rest := Enumerate(s - {x});
      ids := [x] + rest;
      assert forall i :: 0 <= i < |rest| ==> rest[i] in (set y | y in rest);
      assert (set y | y in ids) == {x} + set y | y in rest;
    }
  }

  lemma {:induction false} DeleteEachSucceeds(w: World, ids: seq<string>)
    requires forall i :: 0 <= i < |ids| ==> ids[i] in w.state.zone
    requires forall i, j :: 0 <= i < j < |ids| ==> ids[i] != ids[j]
    requires Plenty(w.script, |ids| + 2, "")
    ensures var (w1, ok) := DeleteEach(w, ids);
      ok && Plenty(w1.script, 2, "") && w1.state.tunnels == w.state.tunnels
    decreases |ids|
  {
    if ids != [] {
      var (w1, ok) := DeleteDNS(w, ids[0]);
      OneLess(w, DeleteRecord(ids[0]), w1.state, |ids| + 1, "");
      DeleteEachSucceeds(w1, ids[1..]);
    }
  }

  lemma DeletionSucceeds(s: State, key: Key) returns (script: seq<Reply>)
    requires key in s.tunnels && s.tunnels[key].deleting && FINALIZER in s.tunnels[key].finalizers
    ensures NoMissing(script) && TunnelAttempt(s, key, script).1.ok
  {
    var o := s.tunnels[key];
    var t := o.status.tunnelID;
    var matches := CnamesCommented(s.zone, Comment(t));
    var ids := Enumerate(matches);
    var later := Copies(|ids| + 2, "");
    script := [Convergence.Yes(""), Convergence.Lists(ids)] + later;
    var w1 := GetTunnel(World(s, script, TunnelActor(key), []), key).0;
    assert w1.script == [Convergence.Lists(ids)] + later;
    var w2 := ListMatches(w1, matches).0;
    assert w2.script == later;
    forall i | 0 <= i < |ids| ensures ids[i] in s.zone {
      assert ids[i] in (set x | x in ids);
      assert ids[i] in matches;
    }
    DeleteEachSucceeds(w2, ids);
    var w3 := DeleteEach(w2, ids).0;
    assert DeleteAllDNS(w1, t) == (w3, true);
    var w4 := DeleteRemote(w3, t).0;
    OneLess(w3, DeleteTunnel(t), w4.state, 1, "");
    assert Dismantle(w1, key, o).1.ok;
  }

  /** Some answers make a reconcile succeed, whatever the state. Without ErrTunnelNotFound, which the real client
      never reports, that is so if and only if the object is gone or being deleted, or has no identifier yet, or
      its recorded tunnel exists or has its token stored. */
  lemma TunnelSuccessExact(s: State, key: Key)
    ensures exists script :: TunnelAttempt(s, key, script).1.ok
    ensures (exists script :: NoMissing(script) && TunnelAttempt(s, key, script).1.ok) <==> Usable(s, key)
  {
    var yes := Convergence.Yes("");
    if key !in s.tunnels || (s.tunnels[key].deleting && FINALIZER !in s.tunnels[key].finalizers) {
      assert NoMissing([yes]) && TunnelAttempt(s, key, [yes]).1.ok;
    } else if s.tunnels[key].deleting {
      var script := DeletionSucceeds(s, key);
    } else if Usable(s, key) {
      var script := LiveSucceeds(s, key);
    } else {
      var script := LostSucceeds(s, key);
      forall stuck | NoMissing(stuck) ensures !TunnelAttempt(s, key, stuck).1.ok {
        LostIsStuck(World(s, stuck, TunnelActor(key), []), key);
      }
    }
  }
}
