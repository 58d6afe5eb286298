/** Concurrent operations on the rule lists and the zone, call by call: any number of rule rewrites and DNS
    steps under the reconciler's mutex, and any number of DeleteAllDNS loops outside it. */
module Interleaving {
  import opened Domain
  import opened World
  import opened Protocol
  import opened ZoneLaws
  import Rules

  datatype Change =
    | Publishing(hosts: seq<Host>, ip: string, settings: Settings)
    | Withdrawing(hosts: seq<Host>, settings: Settings)

  datatype Job =
    | Rewrite(tunnelID: string, change: Change)
    | PublishName(tunnelID: string, name: string)
    | WithdrawName(name: string)

  datatype Phase = Waiting | Holding | HasConfig(config: Config) | HasRecord(record: DNSRecord) | Leaving | Finished

  /** `took` is set when the thread's rewrite takes effect, `acked` when it is also acknowledged. */
  datatype Thread = Thread(job: Job, phase: Phase, took: bool, acked: bool)

  /** A DeleteAllDNS call: nothing listed yet, or the identifiers still to be deleted. */
  datatype Sweep = Sweep(tunnelID: string, left: Option<seq<string>>)

  /** `order` is the order in which threads got the mutex, `log` the order in which rewrites took effect. */
  datatype System = System(mu: Option<nat>, threads: seq<Thread>, sweeps: seq<Sweep>, state: State,
                           order: seq<nat>, log: seq<nat>)

  datatype Move = ThreadMove(i: nat, reply: Reply) | SweepMove(i: nat, reply: Reply)

  ghost function Changed(c: Config, change: Change): Config {
    c.(ingress := match change
                  case Publishing(hosts, ip, s) => Rules.Append(c.ingress, hosts, ip, s)
                  case Withdrawing(hosts, s) => Rules.Remove(c.ingress, hosts, s))
  }

  function Call1(s: State, reply: Reply): World {
    World(s, [reply], Nobody, [])
  }

  function InPhase(s: System, i: nat, phase: Phase): System
    requires i < |s.threads|
  {
    s.(threads := s.threads[i := s.threads[i].(phase := phase)])
  }

  // ----- One move of a thread, by phase -----

  function Acquire(s: System, i: nat): System
    requires i < |s.threads|
  {
    if s.mu.Some? then s else InPhase(s, i, Holding).(mu := Some(i), order := s.order + [i])
  }

  function ReadStep(s: System, i: nat, reply: Reply): System
    requires i < |s.threads|
  {
    match s.threads[i].job
    case Rewrite(t, _) =>
      var got := GetConfig(Call1(s.state, reply), t).1;
      InPhase(s, i, if got.Found? then HasConfig(got.value) else Leaving)
    case PublishName(_, name) =>
      var got := GetDNS(Call1(s.state, reply), name).1;
      InPhase(s, i, if got.Found? then HasRecord(got.value) else Leaving)
    case WithdrawName(name) =>
      var got := GetDNS(Call1(s.state, reply), name).1;
      InPhase(s, i, if got.Found? then HasRecord(got.value) else Leaving)
  }

  /** Writing back the list that was computed from the configuration read earlier. */
  ghost function RewriteStep(s: System, i: nat, reply: Reply, t: string, config: Config): System
    requires i < |s.threads|
  {
    var w := Call1(s.state, reply);
    var (w1, ok) := PutConfig(w, t, config);
    var took := t in s.state.remote && Arrives(w);
    s.(threads := s.threads[i := s.threads[i].(phase := Leaving, took := took, acked := ok)],
       state := w1.state, log := if took then s.log + [i] else s.log)
  }

  function RecordStep(s: System, i: nat, reply: Reply, record: DNSRecord): System
    requires i < |s.threads|
  {
    var w := Call1(s.state, reply);
    var after :=
      match s.threads[i].job
      case Rewrite(_, _) => s.state
      case PublishName(t, name) =>
        if record.id == "" then AddDNS(w, t, name).0.state
        else if !Healthy(record, t) then UpdateDNS(w, t, name, record).0.state
        else s.state
      case WithdrawName(name) =>
        if record.id == "" then s.state else DeleteDNS(w, record.id).0.state;
    InPhase(s, i, Leaving).(state := after)
  }

  ghost function ThreadStep(s: System, i: nat, reply: Reply): System
    requires i < |s.threads|
  {
    var th := s.threads[i];
    match th.phase
    case Waiting => Acquire(s, i)
    case Holding => ReadStep(s, i, reply)
    case HasConfig(c) =>
      if th.job.Rewrite? then RewriteStep(s, i, reply, th.job.tunnelID, Changed(c, th.job.change)) else s
    case HasRecord(r) => RecordStep(s, i, reply, r)
    case Leaving => InPhase(s, i, Finished).(mu := None)
    case Finished => s
  }

  function SweepStep(s: System, i: nat, reply: Reply): System
    requires i < |s.sweeps|
  {
    var sweep := s.sweeps[i];
    if sweep.left.None? then
      var got := ListMatches(Call1(s.state, reply), CnamesCommented(s.state.zone, Comment(sweep.tunnelID))).1;
      s.(sweeps := s.sweeps[i := sweep.(left := Some(if got.Found? then got.value else []))])
    else if sweep.left.value == [] then s
    else
      var (w1, ok) := DeleteDNS(Call1(s.state, reply), sweep.left.value[0]);
      s.(sweeps := s.sweeps[i := sweep.(left := Some(if ok then sweep.left.value[1..] else []))], state := w1.state)
  }

  ghost function Do(s: System, m: Move): System {
    match m
    case ThreadMove(i, reply) => if i < |s.threads| then ThreadStep(s, i, reply) else s
    case SweepMove(i, reply) => if i < |s.sweeps| then SweepStep(s, i, reply) else s
  }

  ghost function DoAll(s: System, moves: seq<Move>): System {
    if moves == [] then s else Do(DoAll(s, moves[..|moves| - 1]), moves[|moves| - 1])
  }

  // ----- The serial reference -----

  ghost function ApplyJob(remote: map<string, Config>, job: Job): map<string, Config> {
    if job.Rewrite? && job.tunnelID in remote then remote[job.tunnelID := Changed(remote[job.tunnelID], job.change)]
    else remote
  }

  /** The rewrites of a log done one after another, each in one piece. */
  ghost function Fold(remote: map<string, Config>, threads: seq<Thread>, log: seq<nat>): map<string, Config> {
    if log == [] then remote
    else
      var before := Fold(remote, threads, log[..|log| - 1]);
      var i := log[|log| - 1];
      if i < |threads| then ApplyJob(before, threads[i].job) else before
  }

  /** The threads of a lock order whose rewrite took effect. */
  function Effective(order: seq<nat>, threads: seq<Thread>): seq<nat> {
    if order == [] then []
    else
      var i := order[|order| - 1];
      Effective(order[..|order| - 1], threads) + if i < |threads| && threads[i].took then [i] else []
  }

  // ----- The invariant -----

  predicate Inside(p: Phase) {
    p.Holding? || p.HasConfig? || p.HasRecord? || p.Leaving?
  }

  function NameOf(job: Job): string
    requires !job.Rewrite?
  {
    job.name
  }

  ghost predicate Mutex(s: System) {
    (forall i :: 0 <= i < |s.threads| ==> (Inside(s.threads[i].phase) <==> s.mu == Some(i))) &&
    (s.mu.Some? ==> s.mu.value < |s.threads|)
  }

  /** What a thread inside read is still so, up to records that were deleted since. */
  ghost predicate Current(th: Thread, s: State) {
    match th.phase
    case HasConfig(c) => th.job.Rewrite? && th.job.tunnelID in s.remote && s.remote[th.job.tunnelID] == c
    case HasRecord(r) =>
      !th.job.Rewrite? &&
      if r.id == "" then RecordAt(s.zone, NameOf(th.job)).None?
      else r.id in s.zone ==> s.zone[r.id] == r.data && IsCname(r.data, NameOf(th.job))
    case _ => true
  }

  ghost predicate Snapshots(s: System) {
    forall i :: 0 <= i < |s.threads| ==> Current(s.threads[i], s.state)
  }

  ghost predicate Ordered(s: System) {
    (forall i :: i in s.order ==> i < |s.threads| && !s.threads[i].phase.Waiting?) &&
    (forall i :: 0 <= i < |s.threads| && !s.threads[i].phase.Waiting? ==> i in s.order) &&
    (forall a, b :: 0 <= a < b < |s.order| ==> s.order[a] != s.order[b]) &&
    (s.mu.Some? ==> s.order != [] && s.order[|s.order| - 1] == s.mu.value) &&
    (forall i :: 0 <= i < |s.threads| && s.threads[i].took ==>
     s.threads[i].phase.Leaving? || s.threads[i].phase.Finished?) &&
    (forall i :: 0 <= i < |s.threads| && s.threads[i].acked ==> s.threads[i].took) &&
    s.log == Effective(s.order, s.threads)
  }

  ghost predicate SameJobs(a: System, b: System) {
    |a.threads| == |b.threads| && forall i :: 0 <= i < |a.threads| ==> a.threads[i].job == b.threads[i].job
  }

  ghost predicate Good(start: System, s: System) {
    Mutex(s) && Snapshots(s) && Ordered(s) && ValidZone(s.state.zone) && SameJobs(start, s) &&
    s.state.remote == Fold(start.state.remote, start.threads, s.log)
  }

  // ----- Each move keeps it -----

  lemma {:induction false} EffectiveSame(order: seq<nat>, a: seq<Thread>, b: seq<Thread>)
    requires |a| == |b| && forall i :: i in order && i < |a| ==> a[i].took == b[i].took
    ensures Effective(order, a) == Effective(order, b)
  {
    if order != [] {
      assert order == order[..|order| - 1] + [order[|order| - 1]];
      EffectiveSame(order[..|order| - 1], a, b);
    }
  }

  lemma AcquireOrdered(s: System, i: nat)
    requires Mutex(s) && Ordered(s) && i < |s.threads| && s.threads[i].phase.Waiting? && s.mu.None?
    ensures Ordered(Acquire(s, i))
  {
    var s1 := Acquire(s, i);
    EffectiveSame(s.order, s.threads, s1.threads);
    assert s1.order[..|s.order|] == s.order;
  }

  lemma AcquireGood(start: System, s: System, i: nat)
    requires Good(start, s) && i < |s.threads| && s.threads[i].phase.Waiting?
    ensures Good(start, Acquire(s, i))
  {
    if s.mu.None? {
      AcquireOrdered(s, i);
      var s1 := Acquire(s, i);
      forall j | 0 <= j < |s1.threads| ensures Current(s1.threads[j], s1.state) {
        assert j != i ==> s1.threads[j] == s.threads[j];
      }
    }
  }

  /** A thread inside goes on to another phase inside, knowing something that is so. */
  lemma PhaseGood(start: System, s: System, i: nat, phase: Phase)
    requires Good(start, s) && i < |s.threads| && Inside(s.threads[i].phase) && Inside(phase)
    requires Current(s.threads[i].(phase := phase), s.state) && (s.threads[i].took ==> phase.Leaving?)
    ensures Good(start, InPhase(s, i, phase))
  {
    var s1 := InPhase(s, i, phase);
    EffectiveSame(s.order, s.threads, s1.threads);
    forall j | 0 <= j < |s1.threads| ensures Current(s1.threads[j], s1.state) {
      assert j != i ==> s1.threads[j] == s.threads[j];
    }
  }

  lemma ReadGood(start: System, s: System, i: nat, reply: Reply)
    requires Good(start, s) && i < |s.threads| && s.threads[i].phase.Holding?
    ensures Good(start, ReadStep(s, i, reply))
  {
    if !s.threads[i].job.Rewrite? {
      GetDNSFinds(Call1(s.state, reply), NameOf(s.threads[i].job));
    }
    PhaseGood(start, s, i, ReadStep(s, i, reply).threads[i].phase);
  }

  /** The thread inside is the last in lock order, so its rewrite is the last of the log. */
  lemma RewriteLogged(s: System, i: nat, reply: Reply, t: string, config: Config)
    requires Mutex(s) && Ordered(s) && i < |s.threads| && s.threads[i].phase.HasConfig?
    ensures Ordered(RewriteStep(s, i, reply, t, config))
  {
    var s1 := RewriteStep(s, i, reply, t, config);
    var n := |s.order| - 1;
    assert s.mu == Some(i) && s.order[n] == i;
    forall x | x in s.order[..n] && x < |s.threads| ensures s.threads[x].took == s1.threads[x].took {
      var a :| 0 <= a < n && s.order[a] == x;
    }
    EffectiveSame(s.order[..n], s.threads, s1.threads);
  }

  lemma RewriteFolds(start: System, s: System, i: nat, reply: Reply)
    requires Good(start, s) && i < |s.threads| && s.threads[i].phase.HasConfig?
    ensures var s1 := ThreadStep(s, i, reply);
      s1.state == s.state.(remote := s1.state.remote) &&
        s1.state.remote == Fold(start.state.remote, start.threads, s1.log)
  {
    var s1 := ThreadStep(s, i, reply);
    assert Current(s.threads[i], s.state);
    if s1.log != s.log {
      assert s1.log[..|s1.log| - 1] == s.log;
    }
  }

  lemma RewriteGood(start: System, s: System, i: nat, reply: Reply)
    requires Good(start, s) && i < |s.threads| && s.threads[i].phase.HasConfig?
    ensures Good(start, ThreadStep(s, i, reply))
  {
    var s1 := ThreadStep(s, i, reply);
    var job := s.threads[i].job;
    assert Current(s.threads[i], s.state);
    RewriteLogged(s, i, reply, job.tunnelID, Changed(s.threads[i].phase.config, job.change));
    RewriteFolds(start, s, i, reply);
    assert s1.mu == s.mu == Some(i);
    forall j | 0 <= j < |s1.threads|
      ensures Current(s1.threads[j], s1.state) && (Inside(s1.threads[j].phase) <==> s1.mu == Some(j))
    {
      assert j != i ==> s1.threads[j] == s.threads[j] && !Inside(s.threads[j].phase);
    }
  }

  /** A change of the zone while a thread is leaving: no other thread knows of it. */
  lemma ZoneGood(start: System, s: System, i: nat, zone: map<string, RecordData>)
    requires Good(start, s) && i < |s.threads| && s.threads[i].phase.Leaving? && ValidZone(zone)
    ensures Good(start, s.(state := s.state.(zone := zone)))
  {
    var s1 := s.(state := s.state.(zone := zone));
    forall j | 0 <= j < |s.threads| ensures Current(s1.threads[j], s1.state) {
      assert j != i ==> !Inside(s.threads[j].phase);
    }
  }

  lemma RecordGood(start: System, s: System, i: nat, reply: Reply)
    requires Good(start, s) && i < |s.threads| && s.threads[i].phase.HasRecord?
    ensures Good(start, ThreadStep(s, i, reply))
  {
    var s1 := ThreadStep(s, i, reply);
    RecordKeepsZone(s, i, reply, s.threads[i].phase.record);
    PhaseGood(start, s, i, Leaving);
    ZoneGood(start, InPhase(s, i, Leaving), i, s1.state.zone);
    assert s1 == InPhase(s, i, Leaving).(state := s.state.(zone := s1.state.zone));
  }

  lemma PublishKeepsZone(w: World, job: Job, r: DNSRecord)
    requires ValidZone(w.state.zone) && job.PublishName? && Current(Thread(job, HasRecord(r), false, false), w.state)
    ensures ValidZone(AddDNS(w, job.tunnelID, job.name).0.state.zone) || r.id != ""
    ensures ValidZone(UpdateDNS(w, job.tunnelID, job.name, r).0.state.zone) || r.id == ""
  {
    var d := Managed(job.tunnelID, job.name);
    if r.id == "" {
      if Head(w).id != "" && Head(w).id !in w.state.zone {
        PutChangesOneName(w.state.zone, Head(w).id, d, {job.name});
      }
    } else if r.id in w.state.zone {
      PutChangesOneName(w.state.zone, r.id, d, {job.name});
    }
  }

  lemma RecordKeepsZone(s: System, i: nat, reply: Reply, r: DNSRecord)
    requires ValidZone(s.state.zone) && i < |s.threads| && s.threads[i].phase == HasRecord(r) &&
      Current(s.threads[i], s.state)
    ensures ValidZone(RecordStep(s, i, reply, r).state.zone)
    ensures RecordStep(s, i, reply, r).state == s.state.(zone := RecordStep(s, i, reply, r).state.zone)
  {
    var job := s.threads[i].job;
    if job.PublishName? {
      PublishKeepsZone(Call1(s.state, reply), job, r);
    }
  }

  lemma LeaveGood(start: System, s: System, i: nat)
    requires Good(start, s) && i < |s.threads| && s.threads[i].phase.Leaving?
    ensures Good(start, InPhase(s, i, Finished).(mu := None))
  {
    EffectiveSame(s.order, s.threads, InPhase(s, i, Finished).threads);
  }

  /** Deleting a record falsifies nothing a thread inside knows. */
  lemma DropGood(start: System, s: System, id: string, sweeps: seq<Sweep>)
    requires Good(start, s)
    ensures Good(start, s.(state := s.state.(zone := s.state.zone - {id}), sweeps := sweeps))
  {
    var after := s.state.(zone := s.state.zone - {id});
    forall j | 0 <= j < |s.threads| ensures Current(s.threads[j], after) {
      assert Current(s.threads[j], s.state);
    }
  }

  lemma SweepGood(start: System, s: System, i: nat, reply: Reply)
    requires Good(start, s) && i < |s.sweeps|
    ensures Good(start, SweepStep(s, i, reply))
  {
    var s1 := SweepStep(s, i, reply);
    var left := s.sweeps[i].left;
    if left.Some? && left.value != [] {
      DropGood(start, s, left.value[0], s1.sweeps);
      assert s1.state == s.state || s1.state == s.state.(zone := s.state.zone - {left.value[0]});
    }
  }

  lemma DoGood(start: System, s: System, m: Move)
    requires Good(start, s)
    ensures Good(start, Do(s, m))
  {
    match m
    case SweepMove(i, reply) => if i < |s.sweeps| { SweepGood(start, s, i, reply); }
    case ThreadMove(i, reply) =>
      if i < |s.threads| {
        match s.threads[i].phase
        case Waiting => AcquireGood(start, s, i);
        case Holding => ReadGood(start, s, i, reply);
        case HasConfig(_) => RewriteGood(start, s, i, reply);
        case HasRecord(_) => RecordGood(start, s, i, reply);
        case Leaving => LeaveGood(start, s, i);
        case Finished =>
      }
  }

  lemma {:induction false} DoAllGood(start: System, moves: seq<Move>)
    requires Good(start, start)
    ensures Good(start, DoAll(start, moves))
  {
    if moves != [] {
      DoAllGood(start, moves[..|moves| - 1]);
      DoGood(start, DoAll(start, moves[..|moves| - 1]), moves[|moves| - 1]);
    }
  }

  /** No call has been made yet. */
  ghost predicate Initial(s: System) {
    s.mu.None? && s.order == [] && s.log == [] && ValidZone(s.state.zone) &&
    forall i :: 0 <= i < |s.threads| ==> s.threads[i] == Thread(s.threads[i].job, Waiting, false, false)
  }

  /** Serialisability: whatever the schedule and whichever calls fail, the stored configurations are those of
      the rewrites that took effect, done one after another in the order in which they got the mutex; and
      every acknowledged rewrite is among them, so none is lost. */
  lemma Serialisable(start: System, moves: seq<Move>)
    requires Initial(start)
    ensures var s := DoAll(start, moves);
      s.state.remote == Fold(start.state.remote, start.threads, s.log) &&
      s.log == Effective(s.order, s.threads) &&
      (forall a, b :: 0 <= a < b < |s.order| ==> s.order[a] != s.order[b]) &&
      forall i :: 0 <= i < |s.threads| && s.threads[i].acked ==> i in s.log
  {
    DoAllGood(start, moves);
    var s := DoAll(start, moves);
    forall i | 0 <= i < |s.threads| && s.threads[i].acked ensures i in s.log {
      EffectiveHas(s.order, s.threads, i);
    }
  }

  lemma {:induction false} EffectiveHas(order: seq<nat>, threads: seq<Thread>, i: nat)
    requires i in order && i < |threads| && threads[i].took
    ensures i in Effective(order, threads)
  {
    var n := |order| - 1;
    if order[n] != i {
      assert order == order[..n] + [order[n]];
      EffectiveHas(order[..n], threads, i);
    }
  }

  /** A zone with at most one CNAME per name keeps at most one under every interleaving. */
  lemma CnamesStayUnique(start: System, moves: seq<Move>)
    requires Initial(start)
    ensures UniqueCnames(DoAll(start, moves).state.zone)
  {
    DoAllGood(start, moves);
  }
}
