/** An undisturbed experiment, driven by its own requeues, finishes within a bounded number of passes. */
module Liveness {
  import opened Types
  import opened ExperimentStatus
  import opened Names
  import opened Routing
  import opened ApiServer
  import opened Process
  import opened Machine
  import opened Invariant
  import opened Phases

  /**
   The machine together with the scheduler of one experiment. `useful` counts its completed passes other than the
   wasted ones; `resumeAt` is when its last requeue allows the next pass; `done`: some pass has returned Done.
   */
  datatype Sched = Sched(s: State, useful: nat, resumeAt: int, beganAt: int, done: bool)

  /**
   A pass that died, or that had a call fail (other than with 404) and therefore aborted, or cleaned up in vain. It is
   simply retried.
   */
  predicate Wasted(c: Cluster, p: Pass) {
    || !p.pc.Finished?
    || (!p.clean
        && (p.pc.outcome.Aborted?
            || (Cleans(p.snap) && p.snap.key in c.experiments && !c.experiments[p.snap.key].status.cleanupDone)))
  }

  /** The pass is one that cleans up after a finished experiment. */
  predicate Cleans(s: Snapshot) {
    Entitled(s, Terminal) && !NeedsFinalizer(s.exp)
  }

  function Delay(o: Outcome): int {
    if o.Requeue? then o.secs * NANOS else 0
  }

  predicate SchedStep(k: Key, q: Sched, l: Label, q': Sched) {
    && StepBy(Merge, q.s, l, q'.s)
    && if l == Begin(k) then q.s.c.clock >= q.resumeAt && q' == q.(s := q'.s, beganAt := q.s.c.clock)
       else if l == End(k) && !Wasted(q.s.c, q.s.passes[k]) then
         var o := q.s.passes[k].pc.outcome;
         q' == q.(s := q'.s, useful := q.useful + 1, resumeAt := q.s.c.clock + Delay(o), done := q.done || o.Done?)
       else q' == q.(s := q'.s)
  }

  /** Nobody deletes the experiment. */
  predicate Undisturbed(q: Sched, k: Key, uid: string) {
    Alive(q.s.c, k, uid) && !q.s.c.experiments[k].deleting
  }

  predicate IsSchedule(k: Key, uid: string, qs: seq<Sched>, labels: seq<Label>) {
    && |qs| == |labels| + 1
    && (forall i :: 0 <= i < |qs| ==> Undisturbed(qs[i], k, uid))
    && forall i :: 0 <= i < |labels| ==> SchedStep(k, qs[i], labels[i], qs[i + 1])
  }

  /** Just created: empty status, no pass yet. */
  ghost predicate Fresh(q: Sched, k: Key, uid: string) {
    && Inv(q.s) && Undisturbed(q, k, uid)
    && q.s.c.experiments[k].status == EMPTY
    && k !in q.s.passes
    && q.useful == 0 && !q.done
  }

  function CeilDiv(a: nat, b: nat): nat
    requires b > 0
  {
    (a + b - 1) / b
  }

  // ── The bound, stage by stage ──

  /** How many useful passes there can have been, given where the experiment stands. */
  predicate Within(x: Experiment, useful: nat) {
    if NeedsFinalizer(x) then useful == 0
    else match x.status.phase
      case Pending => useful <= 1
      case Running => 5 * (useful - 2) < x.spec.duration
      case _ => 5 * (useful - if x.status.cleanupDone then 4 else 3) < x.spec.duration
  }

  /** Each useful pass in Running has waited out its requeue delay. */
  predicate Timely(x: Experiment, useful: nat, at: int) {
    x.status.phase.Running? ==> useful <= 1 || at >= x.status.startedAt.GetOr(0) + 5 * NANOS * (useful - 1)
  }

  predicate Quiet(x: Experiment) {
    !NeedsFinalizer(x) && x.status.phase.IsTerminal() && x.status.cleanupDone
  }

  /** What a finished pass has achieved: it aborts, or leaves a finished experiment unmarked, only if a call failed. */
  predicate Achieved(before: Experiment, after: Experiment, o: Outcome, clean: bool, useful: nat) {
    if o.Aborted? then !clean
    else if NeedsFinalizer(before) then o == Requeue(0) && !NeedsFinalizer(after)
    else match before.status.phase
      case Pending => o == AFTER_PASS && !after.status.phase.Pending?
      case Running => o == AFTER_PASS && (after.status.phase.IsTerminal() || 5 * (useful - 1) < after.spec.duration)
      case _ => if before.status.cleanupDone then o == Done else o == AFTER_PASS && (clean ==> after.status.cleanupDone)
  }

  predicate PassPace(c: Cluster, p: Pass, useful: nat, beganAt: int)
    requires p.snap.key in c.experiments
  {
    var x, y := p.snap.exp, c.experiments[p.snap.key];
    && !x.deleting && y.uid == x.uid && y.spec == x.spec
    && Within(x, useful)
    && beganAt <= c.clock
    && Timely(x, useful, beganAt)
    && (NeedsFinalizer(y) ==> NeedsFinalizer(x))
    && (y.status == x.status || (p.pc.Finished? && Allowed(x.status, y.status)))
    && (p.pc.Finished? ==> Achieved(x, y, p.pc.outcome, p.clean, useful))
  }

  predicate Pace(q: Sched, k: Key, uid: string) {
    && Undisturbed(q, k, uid)
    && var x := q.s.c.experiments[k];
       if q.done then Quiet(x) && (k in q.s.passes ==> q.s.passes[k].snap.key == k && q.s.passes[k].pc == Finished(Done))
       else
         && Timely(x, q.useful, q.resumeAt)
         && (k !in q.s.passes ==> Within(x, q.useful))
         && (k in q.s.passes ==> q.s.passes[k].snap.key == k && PassPace(q.s.c, q.s.passes[k], q.useful, q.beganAt))
  }

  lemma QuietMakesNoCall(s: Snapshot)
    ensures Start(s) == Finished(Done) <==> !s.exp.deleting && Quiet(s.exp)
  {
  }

  // ── Steps ──

  lemma FramePace(q: Sched, q': Sched, k: Key, uid: string)
    requires Pace(q, k, uid) && Undisturbed(q', k, uid)
    requires q' == q.(s := q'.s) && q'.s.c.clock >= q.s.c.clock
    requires k in q'.s.passes <==> k in q.s.passes
    requires k in q.s.passes ==> q'.s.passes[k] == q.s.passes[k]
    requires q'.s.c.experiments[k] == q.s.c.experiments[k]
    ensures Pace(q', k, uid)
  {
    hide Within, Timely, Achieved, Allowed, NeedsFinalizer;
  }

  lemma BeginPace(q: Sched, q': Sched, k: Key, uid: string)
    requires Inv(q.s) && SchedStep(k, q, Begin(k), q') && Pace(q, k, uid)
    ensures Pace(q', k, uid)
  {
    hide ClusterOk, PassOk, Within, NeedsFinalizer, Validate, JobPrefix;
    var x := q.s.c.experiments[k];
    LiveIsRegistered(q.s, k, uid);
    QuietMakesNoCall(Snapshot(k, x));
    StartAchieves(Snapshot(k, x), q.s.c.clock, q.useful);
  }

  lemma StartAchieves(s: Snapshot, clock: int, useful: nat)
    requires StatusOk(s.exp, clock) && !s.exp.deleting
    ensures Start(s).Finished? ==> Achieved(s.exp, s.exp, Start(s).outcome, true, useful)
  {
    hide Validate, JobPrefix;
  }

  /** A Running pass that sees too little time gone by began early enough for the bound. */
  lemma NotYetElapsed(startedAt: int, now: int, duration: U64, useful: nat)
    requires !Elapsed(startedAt, now, duration) && startedAt <= now && duration > 0
    requires useful <= 1 || now >= startedAt + 5 * NANOS * (useful - 1)
    ensures 5 * (useful - 1) < duration
  {
    if useful > 1 {
      assert (now - startedAt) / NANOS >= 5 * (useful - 1);
    }
  }

  /** They are failures other than 404, so a pass that gives up its cleanup is not clean. */
  lemma GivingUpIsUnclean(c: Cluster, p: Pass, delivery: Delivery, c': Cluster, reply: Reply)
    requires !p.pc.Finished? && GivesUp(p.pc, reply)
    requires Serve(Merge, c, p.snap.exp.uid, Next(p.snap, p.pc), delivery, c', reply)
    ensures !Advance(p, reply).clean
  {
    hide Effect, Resume, Next, IsJobListing, IsServiceListing;
    RequestKinds(p.snap, p.pc);
  }

  /** A live experiment's pass aborts only on a failed call, too: no write finds the object gone. */
  lemma AbortingIsUnclean(c: Cluster, p: Pass, delivery: Delivery, c': Cluster, reply: Reply)
    requires !p.pc.Finished? && Resume(p.snap, p.pc, reply) == Finished(Aborted)
    requires Serve(Merge, c, p.snap.exp.uid, Next(p.snap, p.pc), delivery, c', reply)
    requires p.snap.key in c.experiments && !c.experiments[p.snap.key].deleting
    ensures !Advance(p, reply).clean
  {
    hide Effect, IsJobListing, IsServiceListing, Selected, JobNames, BuildFault, Elapsed, AnyFailed, AllSucceeded, IsChaosManaged,
      Fqdn, EdgeService, JobName, RunnerJob, Started, NeedsFinalizer, VirtualServiceName;
  }

  lemma ResumeAchieves(s: Snapshot, pc: Pc, reply: Reply, clock: int, useful: nat, after: Experiment, clean: bool)
    requires !pc.Finished? && PcOk(s, pc, clock) && StatusOk(s.exp, clock) && !s.exp.deleting
    requires reply.Time? ==> reply.time == clock
    requires Timely(s.exp, useful, clock)
    requires after.spec == s.exp.spec
    requires reply == Ack && pc.AddingFinalizer? ==> !NeedsFinalizer(after)
    requires reply == Ack && pc.Patching? ==> after.status == pc.status
    requires GivesUp(pc, reply) || Resume(s, pc, reply) == Finished(Aborted) ==> !clean
    ensures Resume(s, pc, reply).Finished? ==> Achieved(s.exp, after, Resume(s, pc, reply).outcome, clean, useful)
  {
    hide NeedsFinalizer, BuildFault, JobPrefix, JobNames, Selected, IsChaosManaged, Elapsed, AnyFailed, AllSucceeded, Fqdn;
    if pc.CheckingElapsed? && reply.Time? && !Elapsed(s.exp.status.startedAt.GetOr(0), reply.time, s.exp.spec.duration) {
      NotYetElapsed(s.exp.status.startedAt.GetOr(0), reply.time, s.exp.spec.duration, useful);
    }
  }

  /** The own object after a call of its pass. */
  lemma OwnObject(c: Cluster, k: Key, p: Pass, delivery: Delivery, c': Cluster, reply: Reply)
    requires PassOk(c, k, p) && !p.pc.Finished? && k in c'.experiments
    requires Serve(Merge, c, p.snap.exp.uid, Next(p.snap, p.pc), delivery, c', reply)
    ensures k in c.experiments
    ensures var y, y' := c.experiments[k], c'.experiments[k];
            && y'.uid == y.uid && y'.spec == y.spec && (NeedsFinalizer(y') ==> NeedsFinalizer(y) || y.deleting)
            && (reply == Ack && p.pc.AddingFinalizer? ==> !NeedsFinalizer(y'))
            && (reply == Ack && p.pc.Patching? ==> y'.status == p.pc.status)
            && (y'.status == y.status || (p.pc.Patching? && y'.status == p.pc.status && Allowed(p.snap.exp.status, y'.status)))
  {
    hide PcOk, Next, Listed, StatusOk, Overlay, JobsAfter, ServicesAfter, Allowed, ExperimentsAfter, NeedsFinalizer,
      IsJobListing, IsServiceListing;
    LastWrites(p, c.clock);
    RequestKinds(p.snap, p.pc);
    var req := Next(p.snap, p.pc);
    EffectOnExperiment(Merge, c.experiments, req, k);
    EffectOnFinalizer(c.experiments, req, k);
    if p.pc.Patching? {
      AllowedOverlays(p.snap.exp.status, p.pc.status);
      PatchStores(c.experiments, k, p.pc.status);
    }
  }

  lemma EffectOnFinalizer(xs: map<Key, Experiment>, req: Request, k: Key)
    ensures var now := ExperimentsAfter(Merge, xs, req);
            k in now ==>
              && k in xs
              && (req != RemoveFinalizer(k) && NeedsFinalizer(now[k]) ==> NeedsFinalizer(xs[k]))
              && (req == RemoveFinalizer(k) ==> !xs[k].deleting)
              && (req == AddFinalizer(k) && !RefusesFinalizer(xs[k]) ==> !NeedsFinalizer(now[k]))
  {
    hide Overlay;
  }

  lemma LastWrites(p: Pass, clock: int)
    requires PcOk(p.snap, p.pc, clock)
    ensures p.pc.Patching? ==> Allowed(p.snap.exp.status, p.pc.status)
    ensures p.pc.RemovingFinalizer? ==> p.snap.exp.deleting
  {
  }

  lemma OwnCallPace(q: Sched, l: Label, q': Sched, k: Key, uid: string)
    requires Inv(q.s) && l.Call? && l.key == k && SchedStep(k, q, l, q') && Pace(q, k, uid) && Undisturbed(q', k, uid)
    ensures Pace(q', k, uid)
  {
    hide Serve, Next, Resume, ClusterOk, PcOk, Held, Listed, StatusOk, NeedsFinalizer, Within, Achieved, Allowed;
    var p := q.s.passes[k];
    assert PassOk(q.s.c, k, p);
    LiveIsRegistered(q.s, k, uid);
    OwnObject(q.s.c, k, p, l.delivery, q'.s.c, l.reply);
    ServeKeepsHistory(Merge, q.s.c, p.snap.exp.uid, Next(p.snap, p.pc), l.delivery, q'.s.c, l.reply);
    var y, y' := q.s.c.experiments[k], q'.s.c.experiments[k];
    if GivesUp(p.pc, l.reply) { GivingUpIsUnclean(q.s.c, p, l.delivery, q'.s.c, l.reply); }
    if Resume(p.snap, p.pc, l.reply) == Finished(Aborted) { AbortingIsUnclean(q.s.c, p, l.delivery, q'.s.c, l.reply); }
    ResumeAchieves(p.snap, p.pc, l.reply, q.s.c.clock, q.useful, y', Advance(p, l.reply).clean);
    if y'.status != y.status {
      PatchLast(p.snap, p.pc, l.reply);
      StartsTimely(p.snap.exp, y', q.useful);
    }
  }

  lemma PatchLast(s: Snapshot, pc: Pc, reply: Reply)
    requires pc.Patching?
    ensures Resume(s, pc, reply).Finished?
  {
  }

  /** A pass that starts the experiment is at most its second useful one. */
  lemma StartsTimely(x: Experiment, y: Experiment, useful: nat)
    requires Within(x, useful) && Allowed(x.status, y.status)
    ensures y.status.phase.Running? ==> useful <= 1
  {
  }

  lemma OffPace(q: Sched, l: Label, q': Sched, k: Key, uid: string)
    requires Inv(q.s) && SchedStep(k, q, l, q') && Pace(q, k, uid) && Undisturbed(q', k, uid)
    requires l.Env? || l.key != k
    ensures Pace(q', k, uid)
  {
    hide Serve, Next, Resume, Start, Moved, MayMove, Inv, PassPace, Timely, Wasted;
    StepAdvances(Merge, q.s, l, q'.s);
    OffObject(q.s, l, q'.s, k, uid);
    FramePace(q, q', k, uid);
  }

  lemma OffObject(s: State, l: Label, s': State, k: Key, uid: string)
    requires Inv(s) && StepBy(Merge, s, l, s') && (l.Env? || l.key != k)
    requires Alive(s.c, k, uid) && !s.c.experiments[k].deleting && Alive(s'.c, k, uid) && !s'.c.experiments[k].deleting
    ensures s'.c.experiments[k] == s.c.experiments[k]
    ensures (k in s'.passes <==> k in s.passes) && (k in s.passes ==> s'.passes[k] == s.passes[k])
  {
    hide Next, Resume, Answers, Start, MovedExperiments, MovedServices, MovedJobs, VirtualServiceName, IsChaosManaged, FreshUid,
      StatusesOk, ServicesOk, JobsOk, PassOk, Lawful, ExperimentsAfter, JobsAfter, ServicesAfter, Prefix;
    LiveIsRegistered(s, k, uid);
    match l
    case Env(m) => MoveOnExperiment(s.c.experiments, m, k);
    case Call(caller, _, _) =>
      CallIsLawful(s, caller);
      var p := s.passes[caller];
      LawfulOff(Merge, s.c, caller, p.snap.exp.uid, Next(p.snap, p.pc), k);
    case _ =>
  }

  /** What the bound says after a wasted pass. */
  lemma WastedWithin(x: Experiment, y: Experiment, useful: nat)
    requires Within(x, useful) && y.spec == x.spec && (NeedsFinalizer(y) ==> NeedsFinalizer(x))
    requires y.status == x.status || Allowed(x.status, y.status)
    ensures Within(y, useful)
  {
    hide NeedsFinalizer, NeverRan;
  }

  /** What the bound says after a useful pass. */
  lemma UsefulWithin(x: Experiment, y: Experiment, clock: int, o: Outcome, clean: bool, useful: nat, beganAt: int)
    requires StatusOk(y, clock) && beganAt <= clock && Timely(x, useful, beganAt)
    requires Within(x, useful) && y.spec == x.spec && (NeedsFinalizer(y) ==> NeedsFinalizer(x))
    requires y.status == x.status || Allowed(x.status, y.status)
    requires Achieved(x, y, o, clean, useful) && (o.Aborted? ==> clean)
    requires !NeedsFinalizer(x) && x.status.phase.IsTerminal() && !x.status.cleanupDone && !clean ==> y.status.cleanupDone
    ensures if o.Done? then Quiet(y) else Within(y, useful + 1) && Timely(y, useful + 1, clock + Delay(o))
  {
    hide NeedsFinalizer, NeverRan, JobPrefix;
  }

  lemma EndPace(q: Sched, q': Sched, k: Key, uid: string)
    requires Inv(q.s) && SchedStep(k, q, End(k), q') && Pace(q, k, uid) && Undisturbed(q', k, uid)
    ensures Pace(q', k, uid)
  {
    hide ClusterOk, PassOk, StatusOk, NeedsFinalizer, Within, Achieved, Allowed, Timely, Quiet, Delay;
    if !q.done {
      var p := q.s.passes[k];
      var x, y := p.snap.exp, q.s.c.experiments[k];
      LiveIsRegistered(q.s, k, uid);
      WastedWithin(x, y, q.useful);
      if !Wasted(q.s.c, p) { UsefulWithin(x, y, q.s.c.clock, p.pc.outcome, p.clean, q.useful, q.beganAt); }
    }
  }

  lemma StepPace(q: Sched, l: Label, q': Sched, k: Key, uid: string)
    requires Inv(q.s) && SchedStep(k, q, l, q') && Pace(q, k, uid) && Undisturbed(q', k, uid)
    ensures Pace(q', k, uid)
  {
    hide SchedStep, Inv, PassPace, Timely;
    if l.Env? || l.key != k {
      OffPace(q, l, q', k, uid);
    } else {
      match l
      case Begin(_) => BeginPace(q, q', k, uid);
      case Call(_, _, _) => OwnCallPace(q, l, q', k, uid);
      case End(_) => EndPace(q, q', k, uid);
    }
  }

  lemma FreshPace(q: Sched, k: Key, uid: string)
    requires Fresh(q, k, uid)
    ensures Pace(q, k, uid)
  {
  }

  lemma {:induction false} SchedulePace(k: Key, uid: string, qs: seq<Sched>, labels: seq<Label>, i: nat)
    requires IsSchedule(k, uid, qs, labels) && Fresh(qs[0], k, uid) && i <= |labels|
    ensures Inv(qs[i].s) && Pace(qs[i], k, uid)
  {
    hide StepBy, ClusterOk, PassOk, PassPace, Timely, Wasted;
    if i == 0 {
      FreshPace(qs[0], k, uid);
    } else {
      SchedulePace(k, uid, qs, labels, i - 1);
      assert SchedStep(k, qs[i - 1], labels[i - 1], qs[i]);
      StepKeepsInv(Merge, qs[i - 1].s, labels[i - 1], qs[i].s);
      StepPace(qs[i - 1], labels[i - 1], qs[i], k, uid);
    }
  }

  // ── Main results ──

  /**
   After ceil(D / 5) + 4 passes, not counting those that died, or aborted or cleaned up in vain after a failed call,
   some pass has returned Done. This holds for every 64-bit duration and however the calls of other experiments interleave.
   */
  lemma DoneWithinBound(k: Key, uid: string, qs: seq<Sched>, labels: seq<Label>, i: nat)
    requires IsSchedule(k, uid, qs, labels) && Fresh(qs[0], k, uid) && i <= |labels|
    requires qs[i].useful >= CeilDiv(qs[i].s.c.experiments[k].spec.duration, 5) + 4
    ensures qs[i].done
  {
    hide SchedStep, Fresh, Inv, PassPace, Timely;
    SchedulePace(k, uid, qs, labels, i);
    if !qs[i].done { NotDoneBelowBound(qs[i], k, uid); }
  }

  lemma NotDoneBelowBound(q: Sched, k: Key, uid: string)
    requires Pace(q, k, uid) && !q.done
    ensures q.useful < CeilDiv(q.s.c.experiments[k].spec.duration, 5) + 4
  {
    hide NeedsFinalizer, Achieved, Allowed;
  }

  /** Once some pass has returned Done, no later pass of the experiment makes any call: the cluster is left alone. */
  lemma DoneMeansQuiet(k: Key, uid: string, qs: seq<Sched>, labels: seq<Label>, i: nat, j: nat)
    requires IsSchedule(k, uid, qs, labels) && Fresh(qs[0], k, uid) && i <= j < |labels| && qs[i].done
    ensures !(labels[j].Call? && labels[j].key == k)
    ensures Quiet(qs[j].s.c.experiments[k])
  {
    hide Fresh, Inv, PassPace, Timely, Quiet, Serve, Resume, Next, Wasted;
    SchedulePace(k, uid, qs, labels, j);
    DoneStays(k, uid, qs, labels, i, j);
    assert SchedStep(k, qs[j], labels[j], qs[j + 1]);
  }

  lemma {:induction false} DoneStays(k: Key, uid: string, qs: seq<Sched>, labels: seq<Label>, i: nat, j: nat)
    requires IsSchedule(k, uid, qs, labels) && i <= j <= |labels| && qs[i].done
    ensures qs[j].done
    decreases j - i
  {
    hide StepBy, Wasted;
    if i < j {
      DoneStays(k, uid, qs, labels, i, j - 1);
      assert SchedStep(k, qs[j - 1], labels[j - 1], qs[j]);
    }
  }
}
