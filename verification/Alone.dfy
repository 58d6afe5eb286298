/** The interleaved model and the sequential one are of the same code: a thread or a sweep that is not
    interrupted leaves the state that the corresponding function leaves. */
module Alone {
  import opened Domain
  import opened World
  import opened Protocol
  import opened Interleaving

  const IDLE := NO_REPLY

  /** The moves of one thread from taking the mutex to giving it back, its two calls answered like this. */
  ghost function Solo(s: System, i: nat, one: Reply, two: Reply): System {
    DoAll(s, [ThreadMove(i, IDLE), ThreadMove(i, one), ThreadMove(i, two), ThreadMove(i, IDLE)])
  }

  lemma DoAllLast(s: System, moves: seq<Move>, m: Move)
    ensures DoAll(s, moves + [m]) == Do(DoAll(s, moves), m)
  {
    assert (moves + [m])[..|moves|] == moves;
  }

  lemma SoloMoves(s: System, i: nat, one: Reply, two: Reply)
    requires i < |s.threads|
    ensures Solo(s, i, one, two) ==
      Do(Do(Do(Do(s, ThreadMove(i, IDLE)), ThreadMove(i, one)), ThreadMove(i, two)), ThreadMove(i, IDLE))
  {
    var a, b, c, d := ThreadMove(i, IDLE), ThreadMove(i, one), ThreadMove(i, two), ThreadMove(i, IDLE);
    DoAllLast(s, [], a);
    DoAllLast(s, [a], b);
    DoAllLast(s, [a, b], c);
    DoAllLast(s, [a, b, c], d);
    assert [] + [a] == [a] && [a] + [b] == [a, b] && [a, b] + [c] == [a, b, c] && [a, b, c] + [d] == [a, b, c, d];
  }

  /** A thread that has not begun, while the mutex is free. */
  predicate Ready(s: System, i: nat) {
    i < |s.threads| && s.threads[i] == Thread(s.threads[i].job, Waiting, false, false) && s.mu.None?
  }

  predicate Done(s: System, i: nat) {
    i < |s.threads| && s.threads[i].phase.Finished? && s.mu.None?
  }

  /** The operation on the rule list that a change stands for. */
  ghost function RunChange(w: World, t: string, change: Change): (World, bool) {
    match change
    case Publishing(hosts, ip, s) => AppendConfig(w, t, hosts, ip, s)
    case Withdrawing(hosts, s) => RemoveConfig(w, t, hosts, s)
  }

  lemma RewriteAlone(s: System, i: nat, one: Reply, two: Reply)
    requires Ready(s, i) && s.threads[i].job.Rewrite?
    ensures var job := s.threads[i].job;
      var end, (w, ok) := Solo(s, i, one, two),
        RunChange(World(s.state, [one, two], Nobody, []), job.tunnelID, job.change);
      Done(end, i) && end.state == w.state && end.threads[i].acked == ok
  {
    SoloMoves(s, i, one, two);
    var job := s.threads[i].job;
    var s1 := Acquire(s, i);
    var s2 := ReadStep(s1, i, one);
    var w := World(s.state, [one, two], Nobody, []);
    var (w1, got) := GetConfig(w, job.tunnelID);
    assert w1.script == [two] && w1.state == s.state;
    if got.Found? {
      assert RunChange(w, job.tunnelID, job.change) == PutConfig(w1, job.tunnelID, Changed(got.value, job.change));
    }
  }

  lemma PublishAlone(s: System, i: nat, one: Reply, two: Reply)
    requires Ready(s, i) && s.threads[i].job.PublishName?
    ensures var job := s.threads[i].job;
      var end := Solo(s, i, one, two);
      Done(end, i) && end.state == AppendDNS(World(s.state, [one, two], Nobody, []), job.tunnelID, job.name).0.state
  {
    SoloMoves(s, i, one, two);
    var w1 := GetDNS(World(s.state, [one, two], Nobody, []), s.threads[i].job.name).0;
    assert w1.script == [two] && w1.state == s.state;
  }

  lemma WithdrawAlone(s: System, i: nat, one: Reply, two: Reply)
    requires Ready(s, i) && s.threads[i].job.WithdrawName?
    ensures var end := Solo(s, i, one, two);
      Done(end, i) && end.state == RemoveDNS(World(s.state, [one, two], Nobody, []), s.threads[i].job.name).0.state
  {
    SoloMoves(s, i, one, two);
    var w1 := GetDNS(World(s.state, [one, two], Nobody, []), s.threads[i].job.name).0;
    assert w1.script == [two] && w1.state == s.state;
  }

  // ----- Sweeps -----

  function SweepMoves(i: nat, replies: seq<Reply>): seq<Move> {
    if replies == [] then [] else [SweepMove(i, replies[0])] + SweepMoves(i, replies[1..])
  }

  lemma {:induction false} DoAllFront(s: System, m: Move, later: seq<Move>)
    ensures DoAll(s, [m] + later) == DoAll(Do(s, m), later)
    decreases |later|
  {
    var all := [m] + later;
    if later == [] {
      assert all[..|all| - 1] == [];
    } else {
      var n := |later| - 1;
      assert all[..|all| - 1] == [m] + later[..n];
      DoAllFront(s, m, later[..n]);
    }
  }

  lemma {:induction false} SweepRest(s: System, i: nat, replies: seq<Reply>, w: World)
    requires i < |s.sweeps| && s.sweeps[i].left.Some? && w.script == replies && w.state == s.state
    ensures DoAll(s, SweepMoves(i, replies)).state == DeleteEach(w, s.sweeps[i].left.value).0.state
    decreases |replies|
  {
    var ids := s.sweeps[i].left.value;
    if replies != [] {
      var next := Do(s, SweepMove(i, replies[0]));
      DoAllFront(s, SweepMove(i, replies[0]), SweepMoves(i, replies[1..]));
      if ids == [] {
        SweepRest(next, i, replies[1..], w.(script := replies[1..]));
      } else {
        var (w1, ok) := DeleteDNS(w, ids[0]);
        SweepRest(next, i, replies[1..], w1);
      }
    }
  }

  lemma SweepAlone(s: System, i: nat, replies: seq<Reply>)
    requires i < |s.sweeps| && s.sweeps[i].left.None?
    ensures DoAll(s, SweepMoves(i, replies)).state ==
            DeleteAllDNS(World(s.state, replies, Nobody, []), s.sweeps[i].tunnelID).0.state
  {
    if replies != [] {
      var w := World(s.state, replies, Nobody, []);
      DoAllFront(s, SweepMove(i, replies[0]), SweepMoves(i, replies[1..]));
      var (w1, got) := ListMatches(w, CnamesCommented(s.state.zone, Comment(s.sweeps[i].tunnelID)));
      SweepRest(Do(s, SweepMove(i, replies[0])), i, replies[1..], w1);
    }
  }
}
