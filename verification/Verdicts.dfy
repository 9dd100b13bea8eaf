/** Why a pod experiment ended the way its stored status says. */
module Verdicts {
  import opened Types
  import opened ExperimentStatus
  import opened Names
  import opened ApiServer
  import opened Process
  import opened Machine
  import opened Invariant
  import opened Phases

  /** A job in the namespace of `k` that bears the label of its name. */
  predicate Labelled(c: Cluster, k: Key, key: Key) {
    key in c.jobs && key.ns == k.ns && EXPERIMENT_LABEL in c.jobs[key].labels && c.jobs[key].labels[EXPERIMENT_LABEL] == k.name
  }

  ghost predicate SomeJobFailed(c: Cluster, k: Key) {
    exists key :: Labelled(c, k, key) && c.jobs[key].failed > 0
  }

  /** There is a labelled job, and every one has succeeded, none failed. */
  ghost predicate EveryJobSucceeded(c: Cluster, k: Key) {
    && (exists key :: Labelled(c, k, key))
    && forall key :: Labelled(c, k, key) ==> c.jobs[key].succeeded > 0 && c.jobs[key].failed <= 0
  }

  /** The listing of a served call decides exactly as the labelled jobs themselves do. */
  lemma ListingDecides(c: Cluster, s: Snapshot, jobs: seq<Job>)
    requires IsJobListing(c, s.key.ns, s.key.name, jobs)
    ensures var pc := Resume(s, ListingJobs, JobList(jobs));
            && (pc == StampingEnd(Phase.Failed, JobFailed) <==> SomeJobFailed(c, s.key))
            && (pc == StampingEnd(Succeeded, JobsCompleted) <==> EveryJobSucceeded(c, s.key))
            && (!SomeJobFailed(c, s.key) && !EveryJobSucceeded(c, s.key) ==> pc == CheckElapsedThen(s, DurationElapsed))
  {
    ListingShows(c, s.key, jobs);
  }

  lemma ListingShows(c: Cluster, k: Key, jobs: seq<Job>)
    requires IsJobListing(c, k.ns, k.name, jobs)
    ensures AnyFailed(jobs) <==> SomeJobFailed(c, k)
    ensures !AnyFailed(jobs) && AllSucceeded(jobs) <==> EveryJobSucceeded(c, k)
  {
    forall j
      ensures j in jobs <==> exists key :: Labelled(c, k, key) && c.jobs[key] == j
    {
      ListedIffLabelled(c, k, jobs, j);
    }
    if EveryJobSucceeded(c, k) {
      var key :| Labelled(c, k, key);
      assert c.jobs[key] in jobs;
    }
    if jobs != [] { assert jobs[0] in jobs; }
  }

  lemma ListedIffLabelled(c: Cluster, k: Key, jobs: seq<Job>, j: Job)
    requires IsJobListing(c, k.ns, k.name, jobs)
    ensures j in jobs <==> exists key :: Labelled(c, k, key) && c.jobs[key] == j
  {
    if j in jobs { var key :| key in c.jobs && Labelled(c, k, key) && c.jobs[key] == j; }
  }

  /** At state `h` the pass of `k` that is still in flight at `i` was about to list its jobs. */
  predicate ListsAt(states: seq<State>, labels: seq<Label>, h: nat, i: nat, k: Key)
    requires |states| == |labels| + 1
  {
    && h <= i <= |labels| && k in states[h].passes && states[h].passes[k].pc.ListingJobs?
    && forall g :: h <= g < i ==> labels[g] != Begin(k)
  }

  /** The jobs, as they were then, warrant ending the pod experiment `x` in `phase` at `end`. */
  ghost predicate Reason(c: Cluster, k: Key, x: Experiment, phase: Phase, end: int) {
    match phase
    case Failed => SomeJobFailed(c, k)
    case Succeeded => !SomeJobFailed(c, k) && (EveryJobSucceeded(c, k) || Lasted(x, end))
    case _ => true
  }

  /** The pass of `k` in flight at `i` has made a listing that warrants this end. */
  ghost predicate Warranted(states: seq<State>, labels: seq<Label>, i: nat, k: Key, x: Experiment, phase: Phase, end: int)
    requires |states| == |labels| + 1
  {
    exists h: nat :: ListsAt(states, labels, h, i, k) && Reason(states[h].c, k, x, phase, end)
  }

  /** It has made one that showed no failed job. */
  ghost predicate SawNoFailure(states: seq<State>, labels: seq<Label>, i: nat, k: Key)
    requires |states| == |labels| + 1
  {
    exists h: nat :: ListsAt(states, labels, h, i, k) && !SomeJobFailed(states[h].c, k)
  }

  lemma StillListed(states: seq<State>, labels: seq<Label>, h: nat, i: nat, k: Key)
    requires |states| == |labels| + 1 && ListsAt(states, labels, h, i, k) && i < |labels| && labels[i] != Begin(k)
    ensures ListsAt(states, labels, h, i + 1, k)
  {
  }

  lemma StillWarranted(states: seq<State>, labels: seq<Label>, i: nat, k: Key, x: Experiment, phase: Phase,
                       end: int, later: int)
    requires |states| == |labels| + 1 && i < |labels| && labels[i] != Begin(k)
    requires Warranted(states, labels, i, k, x, phase, end) && end <= later
    ensures Warranted(states, labels, i + 1, k, x, phase, later)
  {
    hide SomeJobFailed, EveryJobSucceeded;
    var h: nat :| ListsAt(states, labels, h, i, k) && Reason(states[h].c, k, x, phase, end);
    StillListed(states, labels, h, i, k);
    assert Reason(states[h].c, k, x, phase, later);
  }

  lemma StillNoFailure(states: seq<State>, labels: seq<Label>, i: nat, k: Key)
    requires |states| == |labels| + 1 && i < |labels| && labels[i] != Begin(k) && SawNoFailure(states, labels, i, k)
    ensures SawNoFailure(states, labels, i + 1, k)
  {
    hide SomeJobFailed;
    var h: nat :| ListsAt(states, labels, h, i, k) && !SomeJobFailed(states[h].c, k);
    StillListed(states, labels, h, i, k);
  }

  // ── Passes ──

  /** A pass that is about to end a pod experiment has its reasons from its own listing. */
  ghost predicate Grounded(states: seq<State>, labels: seq<Label>, i: nat, p: Pass)
    requires |states| == |labels| + 1 && i <= |labels|
  {
    In(p.snap, Running) && !p.snap.IsEdge() ==>
      match p.pc
      case CheckingElapsed(_) => SawNoFailure(states, labels, i, p.snap.key)
      case StampingEnd(phase, _) => Warranted(states, labels, i, p.snap.key, p.snap.exp, phase, states[i].c.clock)
      case Patching(st) => Warranted(states, labels, i, p.snap.key, p.snap.exp, st.phase, st.completedAt.GetOr(0))
      case _ => true
  }

  lemma StartGrounded(states: seq<State>, labels: seq<Label>, i: nat, s: Snapshot)
    requires |states| == |labels| + 1 && i <= |labels|
    ensures Grounded(states, labels, i, Pass(s, Start(s), true))
  {
    hide Warranted, SawNoFailure, Validate, NeedsFinalizer;
  }

  predicate Judging(pc: Pc) {
    pc.ListingJobs? || pc.CheckingElapsed? || pc.StampingEnd?
  }

  /** Only these points of a Running pod pass lead anywhere but to its end. */
  lemma JudgingOnly(s: Snapshot, pc: Pc, reply: Reply, clock: int)
    requires !pc.Finished? && PcOk(s, pc, clock) && In(s, Running) && !s.IsEdge()
    ensures Judging(pc) || Resume(s, pc, reply).Finished?
  {
    hide Allowed, StatusOk, Validate, NeedsFinalizer;
  }

  lemma CallGrounded(states: seq<State>, labels: seq<Label>, i: nat, p: Pass, delivery: Delivery, reply: Reply)
    requires |states| == |labels| + 1 && i < |labels| && labels[i] != Begin(p.snap.key)
    requires p.snap.key in states[i].passes && states[i].passes[p.snap.key] == p
    requires !p.pc.Finished? && Grounded(states, labels, i, p)
    requires PcOk(p.snap, p.pc, states[i].c.clock) && StatusOk(p.snap.exp, states[i].c.clock)
    requires Serve(Merge, states[i].c, p.snap.exp.uid, Next(p.snap, p.pc), delivery, states[i + 1].c, reply)
    ensures Grounded(states, labels, i + 1, Advance(p, reply))
  {
    hide Serve, Next, Resume, PcOk, StatusOk, Warranted, SawNoFailure;
    if In(p.snap, Running) && !p.snap.IsEdge() {
      JudgingOnly(p.snap, p.pc, reply, states[i].c.clock);
      if p.pc.ListingJobs? {
        ListingGrounded(states, labels, i, p, delivery, reply);
      } else if Judging(p.pc) {
        JudgingGrounded(states, labels, i, p, delivery, reply);
      }
    }
  }

  lemma ListingGrounded(states: seq<State>, labels: seq<Label>, i: nat, p: Pass, delivery: Delivery, reply: Reply)
    requires |states| == |labels| + 1 && i < |labels| && labels[i] != Begin(p.snap.key)
    requires p.snap.key in states[i].passes && states[i].passes[p.snap.key] == p && p.pc.ListingJobs?
    requires Serve(Merge, states[i].c, p.snap.exp.uid, Next(p.snap, p.pc), delivery, states[i + 1].c, reply)
    ensures Grounded(states, labels, i + 1, Advance(p, reply))
  {
    hide Effect, SomeJobFailed, EveryJobSucceeded, AnyFailed, AllSucceeded, IsJobListing, Lasted, NeedsFinalizer;
    var s, c := p.snap, states[i].c;
    assert ListsAt(states, labels, i, i + 1, s.key);
    if reply.JobList? {
      ListingDecides(c, s, reply.jobs);
      FailedNotSucceeded(c, s.key);
      assert SomeJobFailed(c, s.key) ==> Reason(c, s.key, s.exp, Phase.Failed, states[i + 1].c.clock);
      assert EveryJobSucceeded(c, s.key) ==> Reason(c, s.key, s.exp, Succeeded, states[i + 1].c.clock);
    }
  }

  lemma FailedNotSucceeded(c: Cluster, k: Key)
    ensures SomeJobFailed(c, k) ==> !EveryJobSucceeded(c, k)
  {
  }

  lemma JudgingGrounded(states: seq<State>, labels: seq<Label>, i: nat, p: Pass, delivery: Delivery, reply: Reply)
    requires |states| == |labels| + 1 && i < |labels| && labels[i] != Begin(p.snap.key)
    requires p.pc.CheckingElapsed? || p.pc.StampingEnd?
    requires Grounded(states, labels, i, p) && In(p.snap, Running) && !p.snap.IsEdge()
    requires StatusOk(p.snap.exp, states[i].c.clock)
    requires Serve(Merge, states[i].c, p.snap.exp.uid, Next(p.snap, p.pc), delivery, states[i + 1].c, reply)
    ensures Grounded(states, labels, i + 1, Advance(p, reply))
  {
    hide Effect, SomeJobFailed, EveryJobSucceeded, Elapsed, IsJobListing, IsServiceListing, StatusOk, Lasted;
    var s, c := p.snap, states[i].c;
    RunningStarted(s, c.clock);
    assert states[i + 1].c.clock == c.clock && (reply.Time? ==> reply.time == c.clock);
    match p.pc
    case CheckingElapsed(_) =>
      StillNoFailure(states, labels, i, s.key);
      if Elapsed(s.exp.status.startedAt.value, c.clock, s.exp.spec.duration) {
        ElapsedLasted(s.exp, c.clock);
        var h: nat :| ListsAt(states, labels, h, i + 1, s.key) && !SomeJobFailed(states[h].c, s.key);
        assert Reason(states[h].c, s.key, s.exp, Succeeded, c.clock);
      }
    case StampingEnd(phase, _) => StillWarranted(states, labels, i, s.key, s.exp, phase, c.clock, c.clock);
  }

  lemma ElapsedLasted(x: Experiment, now: int)
    requires x.status.startedAt.Some? && x.status.startedAt.value <= now
    requires Elapsed(x.status.startedAt.value, now, x.spec.duration)
    ensures Lasted(x, now)
  {
    ElapsedExactly(x.status.startedAt.value, now, x.spec.duration);
  }

  lemma LaterGrounded(states: seq<State>, labels: seq<Label>, i: nat, p: Pass)
    requires |states| == |labels| + 1 && i < |labels| && labels[i] != Begin(p.snap.key)
    requires Grounded(states, labels, i, p) && states[i].c.clock <= states[i + 1].c.clock
    ensures Grounded(states, labels, i + 1, p)
  {
    hide Warranted, SawNoFailure;
    if In(p.snap, Running) && !p.snap.IsEdge() {
      match p.pc
      case CheckingElapsed(_) => StillNoFailure(states, labels, i, p.snap.key);
      case StampingEnd(phase, _) =>
        StillWarranted(states, labels, i, p.snap.key, p.snap.exp, phase, states[i].c.clock, states[i + 1].c.clock);
      case Patching(st) =>
        var end := st.completedAt.GetOr(0);
        StillWarranted(states, labels, i, p.snap.key, p.snap.exp, st.phase, end, end);
      case _ =>
    }
  }

  lemma {:induction false} PassesAreGrounded(states: seq<State>, labels: seq<Label>, i: nat, k: Key)
    requires IsRun(Merge, states, labels) && Init(states[0]) && i <= |labels| && k in states[i].passes
    ensures states[i].passes[k].snap.key == k && Grounded(states, labels, i, states[i].passes[k])
  {
    hide Serve, Next, Resume, Start, Grounded, Moved, MayMove, PcOk, StatusOk, ClusterOk, Held, Listed, Advances;
    if i > 0 {
      var s, l, s' := states[i - 1], labels[i - 1], states[i];
      assert StepBy(Merge, s, l, s');
      InitOk(states[0]);
      RunKeepsInv(Merge, states, labels, i - 1);
      if l.Begin? && l.key == k {
        StartGrounded(states, labels, i, s'.passes[k].snap);
      } else {
        PassesAreGrounded(states, labels, i - 1, k);
        assert PassOk(s.c, k, s.passes[k]);
        if l.Call? && l.key == k {
          CallGrounded(states, labels, i - 1, s.passes[k], l.delivery, l.reply);
        } else {
          StepAdvances(Merge, s, l, s');
          ClockAdvances(s.c, s'.c);
          LaterGrounded(states, labels, i - 1, s.passes[k]);
        }
      }
    }
  }

  lemma ClockAdvances(c: Cluster, c': Cluster)
    requires Advances(c, c')
    ensures c.clock <= c'.clock
  {
  }

  // ── Stored statuses ──

  /** A pass of `k` that stood before the patch that ended the experiment, with its own listing to warrant it. */
  ghost predicate EndedBy(states: seq<State>, labels: seq<Label>, j: nat, i: nat, k: Key, x: Experiment)
    requires |states| == |labels| + 1
  {
    && j <= i <= |labels| && k in states[j].passes && states[j].passes[k].pc.Patching?
    && var st := states[j].passes[k].pc.status;
       && st.phase == x.status.phase && st.completedAt == x.status.completedAt
       && Warranted(states, labels, j, k, x, st.phase, st.completedAt.GetOr(0))
  }

  ghost predicate Ended(states: seq<State>, labels: seq<Label>, i: nat, k: Key, x: Experiment)
    requires |states| == |labels| + 1
  {
    exists j: nat :: EndedBy(states, labels, j, i, k, x)
  }

  /** A pod experiment that ran to its end. */
  predicate RanPods(x: Experiment) {
    x.status.startedAt.Some? && !x.spec.scenario.IsEdge() && x.status.phase.IsTerminal()
  }

  lemma StillEnded(states: seq<State>, labels: seq<Label>, i: nat, i': nat, k: Key, x: Experiment, y: Experiment)
    requires |states| == |labels| + 1 && i <= i' <= |labels| && Ended(states, labels, i, k, x)
    requires y.spec == x.spec && y.status.startedAt == x.status.startedAt
    requires y.status.phase == x.status.phase && y.status.completedAt == x.status.completedAt
    ensures Ended(states, labels, i', k, y)
  {
    hide SomeJobFailed, EveryJobSucceeded;
    var j: nat :| EndedBy(states, labels, j, i, k, x);
    SameWarrant(states, labels, j, k, x, y, x.status.phase, x.status.completedAt.GetOr(0));
    assert EndedBy(states, labels, j, i', k, y);
  }

  lemma SameWarrant(states: seq<State>, labels: seq<Label>, i: nat, k: Key, x: Experiment, y: Experiment, phase: Phase, end: int)
    requires |states| == |labels| + 1 && Warranted(states, labels, i, k, x, phase, end)
    requires y.spec == x.spec && y.status.startedAt == x.status.startedAt
    ensures Warranted(states, labels, i, k, y, phase, end)
  {
    hide SomeJobFailed, EveryJobSucceeded;
    var h: nat :| ListsAt(states, labels, h, i, k) && Reason(states[h].c, k, x, phase, end);
    assert Reason(states[h].c, k, y, phase, end);
  }

  lemma StepEnded(states: seq<State>, labels: seq<Label>, i: nat, k: Key, uid: string)
    requires IsRun(Merge, states, labels) && Init(states[0]) && i < |labels| && Inv(states[i])
    requires Alive(states[i].c, k, uid) && Alive(states[i + 1].c, k, uid) && uid in states[i].c.registry
    requires RanPods(states[i].c.experiments[k]) ==> Ended(states, labels, i, k, states[i].c.experiments[k])
    ensures RanPods(states[i + 1].c.experiments[k]) ==> Ended(states, labels, i + 1, k, states[i + 1].c.experiments[k])
  {
    hide StepBy, Inv, Grounded, Ended, StatusOk, Allowed;
    var s, l, s' := states[i], labels[i], states[i + 1];
    assert StepBy(Merge, s, l, s');
    StepStatus(s, l, s', k, uid);
    LiveIsRegistered(s, k, uid);
    var x, y := s.c.experiments[k], s'.c.experiments[k];
    if RanPods(y) {
      if y.status == x.status {
        StillEnded(states, labels, i, i + 1, k, x, y);
      } else {
        StatusWrittenBy(s, l, s', k, uid);
        WrittenAtEnd(x, y);
        if x.status.phase.Running? {
          PassesAreGrounded(states, labels, i, k);
          GroundedEnds(states, labels, i, k, y);
        } else {
          StillEnded(states, labels, i, i + 1, k, x, y);
        }
      }
    }
  }

  /** A write that leaves a pod experiment ended either ends it, from Running, or only marks it. */
  lemma WrittenAtEnd(x: Experiment, y: Experiment)
    requires Allowed(x.status, y.status) && RanPods(y) && y.spec == x.spec
    ensures x.status.phase.Running? || (RanPods(x) && y.status == x.status.(cleanupDone := true))
    ensures y.status.startedAt == x.status.startedAt
  {
  }

  lemma GroundedEnds(states: seq<State>, labels: seq<Label>, i: nat, k: Key, y: Experiment)
    requires |states| == |labels| + 1 && i < |labels| && k in states[i].passes && RanPods(y)
    requires var p := states[i].passes[k];
             && p.snap.key == k && Grounded(states, labels, i, p) && p.pc == Patching(y.status)
             && In(p.snap, Running) && p.snap.exp.spec == y.spec && p.snap.exp.status.startedAt == y.status.startedAt
    ensures Ended(states, labels, i + 1, k, y)
  {
    hide Warranted;
    var p := states[i].passes[k];
    SameWarrant(states, labels, i, k, p.snap.exp, y, y.status.phase, y.status.completedAt.GetOr(0));
    assert EndedBy(states, labels, i, i + 1, k, y);
  }

  /**
   However calls fail and passes retry: a pod experiment that ran and ended was ended by a pass whose own listing
   warrants it. If it Failed, a labelled job had failed then. If it Succeeded, none had, and either there was a
   labelled job and all had succeeded, or the duration went by.
   */
  lemma {:induction false} VerdictIsWarranted(states: seq<State>, labels: seq<Label>, i: nat, k: Key, uid: string)
    requires IsRun(Merge, states, labels) && Init(states[0]) && i <= |labels| && Alive(states[i].c, k, uid)
    ensures RanPods(states[i].c.experiments[k]) ==> Ended(states, labels, i, k, states[i].c.experiments[k])
  {
    hide StepBy, ClusterOk, PassOk, Ended, Allowed;
    if i > 0 {
      InitOk(states[0]);
      RunKeepsInv(Merge, states, labels, i - 1);
      var s, s' := states[i - 1], states[i];
      if uid in s.c.registry {
        StepStatus(s, labels[i - 1], s', k, uid);
        VerdictIsWarranted(states, labels, i - 1, k, uid);
        StepEnded(states, labels, i - 1, k, uid);
      } else {
        NewbornIsEmpty(s, labels[i - 1], s', k, uid);
      }
    }
  }
}
