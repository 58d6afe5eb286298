/** Serialisability and confluence together: for ingresses with disjoint hosts the schedule cannot show. */
module Schedules {
  import opened Domain
  import opened World
  import opened Interleaving
  import opened RuleLaws
  import Rules

  /** The rewrites of tunnel t are done for ingresses of a specification: thread i works for owners[i] and
      either publishes it or withdraws it, and threads of one owner do the same. */
  ghost predicate WorksFor(threads: seq<Thread>, t: string, spec: map<nat, Request>, s: Settings, ops: seq<Op>) {
    |ops| == |threads| &&
    (forall i :: 0 <= i < |threads| && OnTunnel(threads[i].job, t) ==>
       ops[i].owner in spec &&
       threads[i].job.change ==
         if ops[i].publish then Publishing(spec[ops[i].owner].hosts, spec[ops[i].owner].ip, s)
         else Withdrawing(spec[ops[i].owner].hosts, s)) &&
    (forall i, j ::
       (0 <= i < |threads| && 0 <= j < |threads| && OnTunnel(threads[i].job, t) && OnTunnel(threads[j].job, t)) ==>
       (ops[i].owner == ops[j].owner ==> ops[i].publish == ops[j].publish))
  }

  predicate OnTunnel(job: Job, t: string) {
    job.Rewrite? && job.tunnelID == t
  }

  /** The operations on tunnel t that a log stands for. */
  function OpsOf(log: seq<nat>, threads: seq<Thread>, t: string, ops: seq<Op>): seq<Op>
    requires |ops| == |threads|
  {
    if log == [] then []
    else
      var i := log[|log| - 1];
      OpsOf(log[..|log| - 1], threads, t, ops) +
        if i < |threads| && OnTunnel(threads[i].job, t) then [ops[i]] else []
  }

  lemma {:induction false} OpsKnown(log: seq<nat>, threads: seq<Thread>, t: string, spec: map<nat, Request>,
                                    s: Settings, ops: seq<Op>)
    requires WorksFor(threads, t, spec, s, ops)
    ensures KnownOwners(spec, OpsOf(log, threads, t, ops))
  {
    if log != [] { OpsKnown(log[..|log| - 1], threads, t, spec, s, ops); }
  }

  /** The fold of the log, seen from one tunnel, is the run of its operations. */
  lemma {:induction false} FoldIsRun(remote: map<string, Config>, log: seq<nat>, threads: seq<Thread>, t: string,
                                     spec: map<nat, Request>, s: Settings, ops: seq<Op>)
    requires WorksFor(threads, t, spec, s, ops) && t in remote
    ensures KnownOwners(spec, OpsOf(log, threads, t, ops))
    ensures t in Fold(remote, threads, log)
    ensures Fold(remote, threads, log)[t] ==
      remote[t].(ingress := ApplyAll(remote[t].ingress, spec, s, OpsOf(log, threads, t, ops)))
  {
    OpsKnown(log, threads, t, spec, s, ops);
    if log != [] {
      var before := log[..|log| - 1];
      FoldIsRun(remote, before, threads, t, spec, s, ops);
      var i := log[|log| - 1];
      if i < |threads| && OnTunnel(threads[i].job, t) {
        var all := OpsOf(log, threads, t, ops);
        assert all[..|all| - 1] == OpsOf(before, threads, t, ops);
      } else {
        assert OpsOf(log, threads, t, ops) == OpsOf(before, threads, t, ops);
      }
    }
  }

  /** An owner's last operation is what all its threads do, if one of them is in the log. */
  lemma {:induction false} LastOpOfOwner(log: seq<nat>, threads: seq<Thread>, t: string, spec: map<nat, Request>,
                                         s: Settings, ops: seq<Op>, a: nat)
    requires WorksFor(threads, t, spec, s, ops)
    ensures LastOp(OpsOf(log, threads, t, ops), a).Some? <==>
      exists i :: i in log && i < |threads| && OnTunnel(threads[i].job, t) && ops[i].owner == a
    ensures forall i :: i in log && i < |threads| && OnTunnel(threads[i].job, t) && ops[i].owner == a ==>
      LastOp(OpsOf(log, threads, t, ops), a) == Some(ops[i].publish)
  {
    if log != [] {
      var n := |log| - 1;
      assert log == log[..n] + [log[n]];
      LastOpOfOwner(log[..n], threads, t, spec, s, ops, a);
      var i := log[n];
      var rest := OpsOf(log[..n], threads, t, ops);
      if i < |threads| && OnTunnel(threads[i].job, t) {
        assert (rest + [ops[i]])[..|rest|] == rest;
      } else {
        assert OpsOf(log, threads, t, ops) == rest;
      }
    }
  }

  /** Two schedules of the same threads, in which the same rewrites took effect, leave a tunnel with the same
      configuration, element for element, whatever the interleaving and whichever other calls failed. */
  lemma ScheduleIndependence(start: System, one: seq<Move>, two: seq<Move>, t: string, spec: map<nat, Request>,
                             s: Settings, ops: seq<Op>)
    requires Initial(start) && t in start.state.remote
    requires WorksFor(start.threads, t, spec, s, ops) && DisjointHosts(spec)
    requires forall i :: i in DoAll(start, one).log <==> i in DoAll(start, two).log
    ensures t in DoAll(start, one).state.remote && t in DoAll(start, two).state.remote
    ensures DoAll(start, one).state.remote[t] == DoAll(start, two).state.remote[t]
  {
    var a, b := DoAll(start, one), DoAll(start, two);
    Serialisable(start, one);
    Serialisable(start, two);
    FoldIsRun(start.state.remote, a.log, start.threads, t, spec, s, ops);
    FoldIsRun(start.state.remote, b.log, start.threads, t, spec, s, ops);
    var x, y := OpsOf(a.log, start.threads, t, ops), OpsOf(b.log, start.threads, t, ops);
    forall k ensures LastOp(x, k) == LastOp(y, k) {
      LastOpOfOwner(a.log, start.threads, t, spec, s, ops, k);
      LastOpOfOwner(b.log, start.threads, t, spec, s, ops, k);
    }
    if x == [] || y == [] {
      NoLastOp(x);
      NoLastOp(y);
    } else {
      Confluence(start.state.remote[t].ingress, spec, s, x, y);
    }
  }

  lemma NoLastOp(x: seq<Op>)
    ensures x == [] <==> forall k :: LastOp(x, k).None?
  {
    if x != [] {
      assert LastOp(x, x[|x| - 1].owner).Some?;
    }
  }
}
