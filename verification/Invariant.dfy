/** What every step of the machine keeps. */
module Invariant {
  import opened Types
  import opened ExperimentStatus
  import opened Names
  import opened Routing
  import opened ApiServer
  import opened Process
  import opened Machine

  // ── Statuses ──

  /** The part of a status fixed when the experiment started running. */
  predicate Ran(x: Experiment, clock: int) {
    var st := x.status;
    && st.startedAt.Some? && st.startedAt.value <= clock
    && st.experimentId == Some(x.uid)
    && Validate(x.spec).None?
    && (x.spec.scenario.IsEdge() ==> st.runnerJobs == [])
    && forall n :: n in st.runnerJobs ==> JobPrefix(x.uid) <= n
  }

  predicate NeverRan(st: Status) {
    st.startedAt.None? && st.completedAt.None? && st.experimentId.None? && st.runnerJobs == []
  }

  predicate RanToEnd(x: Experiment, clock: int) {
    && Ran(x, clock)
    && x.status.completedAt.Some?
    && x.status.startedAt.value <= x.status.completedAt.value <= clock
  }

  /** From the stored start to `end` the whole duration went by; no promise from 2^63 seconds on. */
  predicate Lasted(x: Experiment, end: int) {
    x.spec.duration < TWO_63 ==> end - x.status.startedAt.GetOr(0) >= x.spec.duration * NANOS
  }

  predicate StatusOk(x: Experiment, clock: int) {
    match x.status.phase
    case Pending => x.status == EMPTY
    case Running => Ran(x, clock) && x.status.completedAt.None? && !x.status.cleanupDone
    case Succeeded => RanToEnd(x, clock) && (x.spec.scenario.IsEdge() ==> Lasted(x, x.status.completedAt.value))
    case Failed => NeverRan(x.status) || (RanToEnd(x, clock) && !x.spec.scenario.IsEdge())
  }

  /** The only status writes a pass makes. */
  predicate Allowed(st: Status, st': Status) {
    match st.phase
    case Pending => st == EMPTY && !st'.phase.Pending? && !st'.phase.Succeeded? && !st'.cleanupDone
                    && (st'.phase.Running? ==> st'.startedAt.Some?)
                    && (st'.phase.Failed? ==> NeverRan(st'))
    case Running => && st'.phase.IsTerminal() && st'.message.Some? && st'.completedAt.Some?
                    && st' == st.(phase := st'.phase, message := st'.message, completedAt := st'.completedAt)
    case _ => !st.cleanupDone && st' == st.(cleanupDone := true)
  }

  /** An allowed write carries every field the stored status has, so overlaying and replacing agree. */
  lemma AllowedOverlays(st: Status, st': Status)
    requires Allowed(st, st')
    ensures Overlay(st, st') == st'
  {
  }

  // ── Passes ──

  predicate Entitled(s: Snapshot, why: Cleanup) {
    match why
    case Deletion => s.exp.deleting
    case Terminal => !s.exp.deleting && s.exp.status.phase.IsTerminal() && !s.exp.status.cleanupDone
  }

  predicate In(s: Snapshot, phase: Phase) {
    !s.exp.deleting && s.exp.status.phase == phase
  }

  predicate Launching(s: Snapshot) {
    In(s, Pending) && Validate(s.exp.spec).None?
  }

  /** What a pass knows at each of its calls. */
  predicate PcOk(s: Snapshot, pc: Pc, clock: int) {
    && (pc.AddingFinalizer? || pc.Finished? || !NeedsFinalizer(s.exp))
    && match pc
       case AddingFinalizer => NeedsFinalizer(s.exp)
       case DeletingJobs(why, job, rest) =>
         Entitled(s, why) && job in s.exp.status.runnerJobs && forall j :: j in rest ==> j in s.exp.status.runnerJobs
       case ListingManaged(why) => Entitled(s, why) && s.IsEdge()
       case DeletingServices(why, _, _) => Entitled(s, why) && s.IsEdge()
       case RemovingFinalizer => s.exp.deleting
       case ListingNodes => Launching(s) && !s.IsEdge()
       case CreatingJobs(nodes, node, rest) => Launching(s) && !s.IsEdge()
       case StampingNodes(nodes) => Launching(s) && !s.IsEdge()
       case ReadingSelector(_) => Launching(s) && s.IsEdge()
       case ListingConflicts(_, source) => Launching(s) && s.IsEdge() && source != map[]
       case ResolvingEdge(_, source) => Launching(s) && s.IsEdge() && source != map[]
       case CreatingService(_, source, _) => Launching(s) && s.IsEdge() && source != map[]
       case StampingEdge(_) => Launching(s) && s.IsEdge()
       case ListingJobs => In(s, Running) && !s.IsEdge()
       case CheckingElapsed(_) => In(s, Running)
       case StampingEnd(phase, _) =>
         In(s, Running) && phase.IsTerminal() && (s.IsEdge() ==> phase.Succeeded? && Lasted(s.exp, clock))
       case Patching(st) =>
         !s.exp.deleting && Allowed(s.exp.status, st) && StatusOk(s.exp.(status := st), clock)
       case Finished(_) => true
  }

  lemma RejectOk(s: Snapshot, error: ValidationError, clock: int)
    requires In(s, Pending) && s.exp.status == EMPTY && !NeedsFinalizer(s.exp)
    ensures PcOk(s, Reject(error), clock)
  {
  }

  lemma StartedOk(s: Snapshot, clock: int, message: Message, jobs: seq<string>)
    requires Launching(s) && s.exp.status == EMPTY && !NeedsFinalizer(s.exp)
    requires s.IsEdge() ==> jobs == []
    requires forall n :: n in jobs ==> JobPrefix(s.exp.uid) <= n
    ensures PcOk(s, Patching(Started(s, clock, message, jobs)), clock)
  {
  }

  lemma EndedOk(s: Snapshot, clock: int, phase: Phase, verdict: Message)
    requires In(s, Running) && StatusOk(s.exp, clock) && phase.IsTerminal() && !NeedsFinalizer(s.exp)
    requires s.IsEdge() ==> phase.Succeeded? && Lasted(s.exp, clock)
    ensures PcOk(s, Patching(s.exp.status.(phase := phase, message := Some(verdict), completedAt := Some(clock))), clock)
  {
  }

  lemma CleanedUpOk(s: Snapshot, why: Cleanup, clock: int)
    requires Entitled(s, why) && StatusOk(s.exp, clock) && !NeedsFinalizer(s.exp)
    ensures PcOk(s, CleanedUp(s, why), clock)
  {
  }

  lemma StartOk(s: Snapshot, clock: int)
    requires StatusOk(s.exp, clock)
    ensures PcOk(s, Start(s), clock)
  {
    hide JobPrefix;
  }

  lemma PendingIsEmpty(s: Snapshot, clock: int)
    requires StatusOk(s.exp, clock) && In(s, Pending)
    ensures s.exp.status == EMPTY
  {
  }

  lemma RunningStarted(s: Snapshot, clock: int)
    requires StatusOk(s.exp, clock) && In(s, Running)
    ensures s.exp.status.startedAt.Some? && s.exp.status.startedAt.value <= clock
  {
  }

  lemma ResumeCleanupOk(s: Snapshot, pc: Pc, reply: Reply, clock: int)
    requires PcOk(s, pc, clock) && StatusOk(s.exp, clock)
    requires pc.DeletingJobs? || pc.ListingManaged? || pc.DeletingServices?
    ensures PcOk(s, Resume(s, pc, reply), clock)
  {
    hide StatusOk, Allowed, NeedsFinalizer, CleanedUp, Selected;
    CleanedUpOk(s, pc.why, clock);
  }

  lemma ResumeLaunchOk(s: Snapshot, pc: Pc, reply: Reply, clock: int)
    requires PcOk(s, pc, clock) && StatusOk(s.exp, clock) && |s.exp.uid| >= 8
    requires pc.ListingNodes? || pc.CreatingJobs? || pc.StampingNodes? || pc.ReadingSelector? || pc.ListingConflicts?
             || pc.ResolvingEdge? || pc.CreatingService? || pc.StampingEdge?
    requires reply.Time? ==> reply.time == clock
    ensures PcOk(s, Resume(s, pc, reply), clock)
  {
    hide StatusOk, Allowed, NeedsFinalizer, Reject, Started, BuildFault, Validate, JobPrefix, JobNames, IsChaosManaged, Fqdn,
      Elapsed, Selected, AnyFailed, AllSucceeded, Lasted;
    PendingIsEmpty(s, clock);
    forall error { RejectOk(s, error, clock); }
    match pc
    case StampingNodes(nodes) =>
      forall i | 0 <= i < |nodes| { JobNameShape(s.exp.uid, nodes[i]); }
      var names := JobNames(s.Id(), nodes);
      assert forall n :: n in names ==> JobPrefix(s.exp.uid) <= n;
      StartedOk(s, clock, RunningOnNodes(|nodes|, s.exp.spec.duration), names);
    case StampingEdge(edge) => StartedOk(s, clock, RunningOnEdge(edge, s.exp.spec.duration), []);
    case _ =>
  }

  lemma ResumeOk(s: Snapshot, pc: Pc, reply: Reply, clock: int)
    requires !pc.Finished? && PcOk(s, pc, clock) && StatusOk(s.exp, clock) && |s.exp.uid| >= 8
    requires reply.Time? ==> reply.time == clock
    ensures PcOk(s, Resume(s, pc, reply), clock)
  {
    hide PcOk, StatusOk, Resume;
    if pc.DeletingJobs? || pc.ListingManaged? || pc.DeletingServices? {
      ResumeCleanupOk(s, pc, reply, clock);
    } else if pc.ListingNodes? || pc.CreatingJobs? || pc.StampingNodes? || pc.ReadingSelector? || pc.ListingConflicts?
              || pc.ResolvingEdge? || pc.CreatingService? || pc.StampingEdge? {
      ResumeLaunchOk(s, pc, reply, clock);
    } else {
      ResumeRunOk(s, pc, reply, clock);
    }
  }

  lemma ResumeRunOk(s: Snapshot, pc: Pc, reply: Reply, clock: int)
    requires PcOk(s, pc, clock) && StatusOk(s.exp, clock)
    requires pc.AddingFinalizer? || pc.RemovingFinalizer? || pc.ListingJobs? || pc.CheckingElapsed? || pc.StampingEnd?
             || pc.Patching?
    requires reply.Time? ==> reply.time == clock
    ensures PcOk(s, Resume(s, pc, reply), clock)
  {
    hide StatusOk, Allowed, NeedsFinalizer, Elapsed, AnyFailed, AllSucceeded;
    match pc
    case CheckingElapsed(_) =>
      RunningStarted(s, clock);
      ElapsedExactly(s.exp.status.startedAt.value, clock, s.exp.spec.duration);
    case StampingEnd(phase, verdict) => EndedOk(s, clock, phase, verdict);
    case _ =>
  }

  /** Between its first call and its last, a pass's snapshot is the stored object. */
  predicate Held(c: Cluster, p: Pass) {
    p.pc.AddingFinalizer? || p.pc.Finished? ||
    (&& p.snap.key in c.experiments
     && var x := c.experiments[p.snap.key];
        && x.uid == p.snap.exp.uid && x.spec == p.snap.exp.spec && x.status == p.snap.exp.status
        && !NeedsFinalizer(x) && (p.snap.exp.deleting ==> x.deleting))
  }

  /** `name` is the service name of some experiment called `experiment`. */
  predicate Reserved(c: Cluster, name: string, experiment: string) {
    exists u :: u in c.registry && VirtualServiceName(u) == name && c.registry[u].name == experiment
  }

  /** A service a cleanup is about to delete is reserved for the experiment and, if still there, its own. */
  predicate Listed(c: Cluster, s: Snapshot, name: string) {
    && Reserved(c, name, s.key.name)
    && (Key(s.Target(), name) in c.services ==> BelongsTo(c.services[Key(s.Target(), name)].labels, s.key.name))
  }

  predicate PassOk(c: Cluster, k: Key, p: Pass) {
    && p.snap.key == k
    && p.snap.exp.uid in c.registry && c.registry[p.snap.exp.uid] == k
    && StatusOk(p.snap.exp, c.clock)
    && PcOk(p.snap, p.pc, c.clock)
    && Held(c, p)
    && (p.pc.DeletingServices? ==> Listed(c, p.snap, p.pc.name) && forall n :: n in p.pc.rest ==> Listed(c, p.snap, n))
  }

  // ── Objects ──

  predicate RegistryOk(c: Cluster) {
    && (forall u :: u in c.registry ==> |u| >= 8)
    && (forall u, v :: u in c.registry && v in c.registry && Prefix(u) == Prefix(v) ==> u == v)
    && (forall k :: k in c.experiments ==> c.experiments[k].uid in c.registry && c.registry[c.experiments[k].uid] == k)
  }

  /** A service is managed exactly when a pass created it; then its name and labels are its experiment's. */
  ghost predicate ServiceOk(c: Cluster, k: Key, vs: VirtualService) {
    && (IsChaosManaged(vs.labels) <==> vs.creator.Some?)
    && (vs.creator.Some? ==>
          && vs.creator.value in c.registry
          && k.name == VirtualServiceName(vs.creator.value)
          && vs.labels == ManagedLabels(c.registry[vs.creator.value].name)
          && vs.owner == vs.creator
          && exists host, selector, fault :: FaultsExactly(vs, host, selector, fault))
  }

  predicate JobOk(c: Cluster, k: Key, job: Job) {
    job.creator.Some? ==>
      && job.creator.value in c.registry
      && k.ns == c.registry[job.creator.value].ns
      && job.owner == job.creator
      && JobPrefix(job.creator.value) <= k.name
      && EXPERIMENT_LABEL in job.labels && job.labels[EXPERIMENT_LABEL] == c.registry[job.creator.value].name
  }

  predicate StatusesOk(c: Cluster) {
    forall k :: k in c.experiments ==> StatusOk(c.experiments[k], c.clock)
  }

  ghost predicate ServicesOk(c: Cluster) {
    forall k :: k in c.services ==> ServiceOk(c, k, c.services[k])
  }

  predicate JobsOk(c: Cluster) {
    forall k :: k in c.jobs ==> JobOk(c, k, c.jobs[k])
  }

  ghost predicate ClusterOk(c: Cluster) {
    RegistryOk(c) && StatusesOk(c) && ServicesOk(c) && JobsOk(c)
  }

  ghost predicate Inv(s: State) {
    && ClusterOk(s.c)
    && forall k :: k in s.passes ==> PassOk(s.c, k, s.passes[k])
  }

  lemma InitOk(s: State)
    requires Init(s)
    ensures Inv(s)
  {
  }

  // ── What a step may change ──

  /** The requests an experiment's pass is entitled to make. */
  ghost predicate Lawful(c: Cluster, k: Key, uid: string, req: Request) {
    match req
    case AddFinalizer(key) => key == k
    case RemoveFinalizer(key) => key == k
    case PatchStatus(key, st) =>
      && key == k
      && (k in c.experiments ==> Allowed(c.experiments[k].status, st) && StatusOk(c.experiments[k].(status := st), c.clock))
    case CreateJob(key, job) =>
      && key.ns == k.ns && job.owner == Some(uid) && JobPrefix(uid) <= key.name
      && EXPERIMENT_LABEL in job.labels && job.labels[EXPERIMENT_LABEL] == k.name
    case DeleteJob(key) => key.ns == k.ns && JobPrefix(uid) <= key.name
    case CreateService(key, vs) =>
      && key.name == VirtualServiceName(uid)
      && vs.labels == ManagedLabels(k.name)
      && vs.owner == Some(uid)
      && exists host, selector, fault :: FaultsExactly(vs, host, selector, fault)
    case DeleteService(key) => key in c.services ==> BelongsTo(c.services[key].labels, k.name)
    case _ => true
  }

  lemma NextLawful(c: Cluster, k: Key, p: Pass)
    requires PassOk(c, k, p) && !p.pc.Finished? && |p.snap.exp.uid| >= 8
    ensures Lawful(c, k, p.snap.exp.uid, Next(p.snap, p.pc))
  {
    hide Validate, FaultsExactly;
    match p.pc
    case CreatingJobs(_, node, _) => JobNameShape(p.snap.exp.uid, node);
    case CreatingService(edge, source, fault) =>
      var spec := ServiceSpec(k.name, p.snap.exp.uid, Fqdn(edge.destination, p.snap.Target()), source, fault);
      BuiltFaultsExactly(spec);
    case Patching(st) =>
      var x := c.experiments[k];
      assert x.(status := st) == p.snap.exp.(status := st, finalizers := x.finalizers, deleting := x.deleting);
    case _ =>
  }

  /** The registry only grows and the clock only advances. */
  predicate Advances(c: Cluster, c': Cluster) {
    && c.clock <= c'.clock
    && forall u :: u in c.registry ==> u in c'.registry && c'.registry[u] == c.registry[u]
  }

  /** Every service is an old one, or has no reserved name, or is its rightful owner's. */
  predicate ServicesRightful(c: Cluster, c': Cluster) {
    forall key :: key in c'.services ==>
      || (key in c.services && c'.services[key] == c.services[key])
      || forall u :: u in c.registry && key.name == VirtualServiceName(u) ==>
           BelongsTo(c'.services[key].labels, c.registry[u].name)
  }

  /** An experiment that holds the finalizer stays as a pass of another experiment may rely on. */
  predicate KeepsExperiment(c: Cluster, c': Cluster, k: Key) {
    k in c.experiments && !NeedsFinalizer(c.experiments[k]) ==>
      && k in c'.experiments
      && var x, x' := c.experiments[k], c'.experiments[k];
         && x'.uid == x.uid && x'.spec == x.spec && x'.status == x.status
         && !NeedsFinalizer(x') && (x.deleting ==> x'.deleting)
  }

  lemma ListedSurvives(c: Cluster, c': Cluster, s: Snapshot, n: string)
    requires Advances(c, c') && ServicesRightful(c, c') && Listed(c, s, n)
    ensures Listed(c', s, n)
  {
    var u :| u in c.registry && VirtualServiceName(u) == n && c.registry[u].name == s.key.name;
    assert u in c'.registry && c'.registry[u] == c.registry[u];
  }

  lemma StatusLater(x: Experiment, before: int, after: int)
    requires StatusOk(x, before) && before <= after
    ensures StatusOk(x, after)
  {
    hide JobPrefix, Validate;
  }

  lemma PassSurvives(c: Cluster, c': Cluster, k: Key, p: Pass)
    requires Advances(c, c') && ServicesRightful(c, c') && KeepsExperiment(c, c', k) && PassOk(c, k, p)
    ensures PassOk(c', k, p)
  {
    hide StatusOk, Allowed, Validate, Reserved, BelongsTo, NeedsFinalizer, Listed;
    StatusLater(p.snap.exp, c.clock, c'.clock);
    if p.pc.Patching? { StatusLater(p.snap.exp.(status := p.pc.status), c.clock, c'.clock); }
    if p.pc.DeletingServices? {
      forall n | n == p.pc.name || n in p.pc.rest { ListedSurvives(c, c', p.snap, n); }
    }
  }

  // ── Environment moves, facet by facet ──

  lemma MoveOnExperiment(xs: map<Key, Experiment>, m: Move, k: Key)
    requires m.CreateExperiment? ==> m.key !in xs
    ensures var now := MovedExperiments(xs, m);
            && (k in now && !(m.CreateExperiment? && m.key == k) ==>
                  k in xs && now[k] == xs[k].(deleting := now[k].deleting) && (xs[k].deleting ==> now[k].deleting))
            && (m.CreateExperiment? && m.key == k ==>
                  k in now && now[k] == Experiment(m.uid, m.spec, m.finalizers, false, EMPTY))
            && (k in xs && xs[k].finalizers != [] ==> k in now)
  {
  }

  lemma MoveKeepsServices(c: Cluster, m: Move)
    requires MayMove(c, m) && ServicesOk(c)
    ensures ServicesOk(Moved(c, m))
  {
    hide MovedExperiments, MovedJobs, FreshUid, VirtualServiceName, ManagedLabels, FaultsExactly, IsChaosManaged;
    var c' := Moved(c, m);
    forall k | k in c'.services
      ensures ServiceOk(c', k, c'.services[k])
    {
      if k in c.services && c'.services[k] == c.services[k] {
        assert ServiceOk(c, k, c.services[k]);
        if m.CreateExperiment? { NotYetRegistered(c, m); }
      }
    }
  }

  lemma NotYetRegistered(c: Cluster, m: Move)
    requires MayMove(c, m) && m.CreateExperiment?
    ensures m.uid !in c.registry && m.key !in c.experiments
  {
  }

  lemma MoveKeepsJobs(c: Cluster, m: Move)
    requires MayMove(c, m) && JobsOk(c)
    ensures JobsOk(Moved(c, m))
  {
    hide MovedExperiments, MovedServices, Prefix, VirtualServiceName, JobPrefix, IsChaosManaged, OwnerAlive;
    var c' := Moved(c, m);
    forall k | k in c'.jobs
      ensures JobOk(c', k, c'.jobs[k])
    {
      if k in c.jobs { assert JobOk(c, k, c.jobs[k]); }
    }
  }

  lemma MoveKeepsRegistry(c: Cluster, m: Move)
    requires MayMove(c, m) && RegistryOk(c)
    ensures RegistryOk(Moved(c, m))
  {
    hide MovedExperiments, MovedServices, MovedJobs, Prefix, VirtualServiceName, IsChaosManaged;
    var c' := Moved(c, m);
    forall k | k in c'.experiments
      ensures c'.experiments[k].uid in c'.registry && c'.registry[c'.experiments[k].uid] == k
    {
      MoveOnExperiment(c.experiments, m, k);
    }
  }

  lemma MoveKeepsStatuses(c: Cluster, m: Move)
    requires MayMove(c, m) && StatusesOk(c)
    ensures StatusesOk(Moved(c, m))
  {
    hide MovedExperiments, MovedServices, MovedJobs, FreshUid, VirtualServiceName, IsChaosManaged, JobPrefix, Validate;
    var c' := Moved(c, m);
    forall k | k in c'.experiments
      ensures StatusOk(c'.experiments[k], c'.clock)
    {
      MoveOnExperiment(c.experiments, m, k);
      if k in c.experiments { assert StatusOk(c.experiments[k], c.clock); }
    }
  }

  lemma MoveFrame(c: Cluster, m: Move)
    requires MayMove(c, m)
    ensures Advances(c, Moved(c, m)) && ServicesRightful(c, Moved(c, m))
    ensures forall k :: KeepsExperiment(c, Moved(c, m), k)
  {
    hide MovedExperiments, MovedJobs, VirtualServiceName, BelongsTo, NeedsFinalizer, Prefix;
    forall k
      ensures KeepsExperiment(c, Moved(c, m), k)
    {
      MoveOnExperiment(c.experiments, m, k);
      if k in c.experiments { FinalizersNonEmpty(c.experiments[k]); }
    }
  }

  lemma FinalizersNonEmpty(x: Experiment)
    ensures !NeedsFinalizer(x) ==> x.finalizers != []
    ensures forall y: Experiment :: y.finalizers == x.finalizers ==> (NeedsFinalizer(y) <==> NeedsFinalizer(x))
  {
  }

  // ── Effects of requests, facet by facet ──

  lemma EffectOnExperiment(mode: PatchMode, xs: map<Key, Experiment>, req: Request, k: Key)
    ensures var now := ExperimentsAfter(mode, xs, req);
            && (k in now ==> k in xs && now[k] == xs[k].(finalizers := now[k].finalizers, status := now[k].status))
            && (k in now && !(req.PatchStatus? && req.key == k) ==> now[k].status == xs[k].status)
            && (k in xs && (WritesKey(req) ==> req.key != k) ==> k in now && now[k] == xs[k])
  {
    hide Overlay;
  }

  predicate WritesKey(req: Request) {
    req.AddFinalizer? || req.RemoveFinalizer? || req.PatchStatus?
  }

  // ── Calls ──

  lemma NewServiceRightful(c: Cluster, k: Key, uid: string, req: Request)
    requires RegistryOk(c) && uid in c.registry && c.registry[uid] == k && Lawful(c, k, uid, req) && req.CreateService?
    ensures forall u :: u in c.registry && req.key.name == VirtualServiceName(u) ==>
              BelongsTo(req.service.labels, c.registry[u].name)
  {
    hide JobPrefix, FaultsExactly, BelongsTo, ManagedLabels;
    BuiltBelongsTo(k.name, k.name);
    forall u | u in c.registry && req.key.name == VirtualServiceName(u)
      ensures u == uid
    {
      ServiceNamesAgree(u, uid);
    }
  }

  lemma EffectRightful(mode: PatchMode, c: Cluster, k: Key, uid: string, req: Request)
    requires RegistryOk(c) && uid in c.registry && c.registry[uid] == k && Lawful(c, k, uid, req)
    ensures ServicesRightful(c, Effect(mode, c, uid, req))
  {
    hide ExperimentsAfter, JobsAfter, RegistryOk, Lawful, BelongsTo, VirtualServiceName;
    if req.CreateService? { NewServiceRightful(c, k, uid, req); }
  }

  lemma LawfulWritesOwn(c: Cluster, k: Key, uid: string, req: Request)
    requires Lawful(c, k, uid, req) && WritesKey(req)
    ensures req.key == k
  {
  }

  lemma EffectFrame(mode: PatchMode, c: Cluster, k: Key, uid: string, req: Request)
    requires RegistryOk(c) && uid in c.registry && c.registry[uid] == k && Lawful(c, k, uid, req)
    ensures Advances(c, Effect(mode, c, uid, req)) && ServicesRightful(c, Effect(mode, c, uid, req))
    ensures forall k2 :: k2 != k ==> KeepsExperiment(c, Effect(mode, c, uid, req), k2)
  {
    hide ExperimentsAfter, JobsAfter, ServicesAfter, ServicesRightful, RegistryOk, Lawful, NeedsFinalizer;
    EffectRightful(mode, c, k, uid, req);
    if WritesKey(req) { LawfulWritesOwn(c, k, uid, req); }
    forall k2 | k2 != k
      ensures KeepsExperiment(c, Effect(mode, c, uid, req), k2)
    {
      EffectOnExperiment(mode, c.experiments, req, k2);
    }
  }

  /** A pass of another experiment leaves `k` alone. */
  lemma LawfulOff(mode: PatchMode, c: Cluster, caller: Key, uid: string, req: Request, k: Key)
    requires Lawful(c, caller, uid, req) && caller != k
    ensures var now := ExperimentsAfter(mode, c.experiments, req);
            (k in now <==> k in c.experiments) && (k in now ==> now[k] == c.experiments[k])
  {
    hide ExperimentsAfter, Lawful;
    if WritesKey(req) { LawfulWritesOwn(c, caller, uid, req); }
    EffectOnExperiment(mode, c.experiments, req, k);
  }

  lemma PatchStores(xs: map<Key, Experiment>, k: Key, st: Status)
    requires k in xs
    ensures var now := ExperimentsAfter(Merge, xs, PatchStatus(k, st));
            k in now && now[k] == xs[k].(status := Overlay(xs[k].status, st))
  {
    hide Overlay;
  }

  /** An experiment's status changes only by its own pass's allowed write. */
  lemma LawfulStatus(mode: PatchMode, c: Cluster, caller: Key, uid: string, req: Request, k: Key)
    requires Lawful(c, caller, uid, req) && k in Effect(mode, c, uid, req).experiments
    ensures k in c.experiments
    ensures var x, x' := c.experiments[k], Effect(mode, c, uid, req).experiments[k];
            && x'.uid == x.uid && x'.spec == x.spec
            && (x'.status == x.status
                || (Allowed(x.status, x'.status) && StatusOk(x.(status := x'.status), c.clock)))
  {
    hide JobsAfter, ServicesAfter, JobPrefix, VirtualServiceName, ManagedLabels, FaultsExactly, BelongsTo, StatusOk, Allowed, Overlay;
    EffectOnExperiment(mode, c.experiments, req, k);
    if req.PatchStatus? && k == caller {
      AllowedOverlays(c.experiments[k].status, req.status);
    }
  }

  lemma EffectKeepsStatuses(mode: PatchMode, c: Cluster, k: Key, uid: string, req: Request)
    requires StatusesOk(c) && Lawful(c, k, uid, req)
    ensures StatusesOk(Effect(mode, c, uid, req))
  {
    hide ExperimentsAfter, JobsAfter, ServicesAfter, Lawful, Allowed, Validate, JobPrefix;
    var c' := Effect(mode, c, uid, req);
    forall k2 | k2 in c'.experiments
      ensures StatusOk(c'.experiments[k2], c'.clock)
    {
      LawfulStatus(mode, c, k, uid, req, k2);
      assert StatusOk(c.experiments[k2], c.clock);
    }
  }

  lemma EffectKeepsServices(mode: PatchMode, c: Cluster, k: Key, uid: string, req: Request)
    requires ServicesOk(c) && uid in c.registry && c.registry[uid] == k && Lawful(c, k, uid, req)
    ensures ServicesOk(Effect(mode, c, uid, req))
  {
    hide ExperimentsAfter, JobsAfter, Prefix, JobPrefix, Allowed, StatusOk, VirtualServiceName;
    var c' := Effect(mode, c, uid, req);
    forall k2 | k2 in c'.services
      ensures ServiceOk(c', k2, c'.services[k2])
    {
      if k2 in c.services {
        assert ServiceOk(c, k2, c.services[k2]);
      } else {
        BuiltBelongsTo(k.name, k.name);
        var host, selector, fault :| FaultsExactly(req.service, host, selector, fault);
        assert FaultsExactly(c'.services[k2], host, selector, fault);
      }
    }
  }

  lemma EffectKeepsJobs(mode: PatchMode, c: Cluster, k: Key, uid: string, req: Request)
    requires JobsOk(c) && uid in c.registry && c.registry[uid] == k && Lawful(c, k, uid, req)
    ensures JobsOk(Effect(mode, c, uid, req))
  {
    hide ExperimentsAfter, ServicesAfter, JobPrefix, Allowed, StatusOk, FaultsExactly, VirtualServiceName, BelongsTo, ManagedLabels;
    var c' := Effect(mode, c, uid, req);
    forall k2 | k2 in c'.jobs
      ensures JobOk(c', k2, c'.jobs[k2])
    {
      if k2 in c.jobs { assert JobOk(c, k2, c.jobs[k2]); }
    }
  }

  lemma EffectKeepsRegistry(mode: PatchMode, c: Cluster, uid: string, req: Request)
    requires RegistryOk(c)
    ensures RegistryOk(Effect(mode, c, uid, req))
  {
    hide ExperimentsAfter, JobsAfter, ServicesAfter, Prefix;
    var c' := Effect(mode, c, uid, req);
    forall k | k in c'.experiments
      ensures c'.experiments[k].uid in c'.registry && c'.registry[c'.experiments[k].uid] == k
    {
      EffectOnExperiment(mode, c.experiments, req, k);
    }
  }

  lemma ListedNow(c: Cluster, s: Snapshot, i: ServiceInfo)
    requires ClusterOk(c)
    requires Key(s.Target(), i.name) in c.services && c.services[Key(s.Target(), i.name)].labels == i.labels
    requires BelongsTo(i.labels, s.key.name)
    ensures Listed(c, s, i.name)
  {
    var vs := c.services[Key(s.Target(), i.name)];
    assert ServiceOk(c, Key(s.Target(), i.name), vs);
    BuiltBelongsTo(c.registry[vs.creator.value].name, s.key.name);
  }

  lemma ServeKeepsHistory(mode: PatchMode, c: Cluster, who: string, req: Request, delivery: Delivery, c': Cluster, reply: Reply)
    requires Serve(mode, c, who, req, delivery, c', reply)
    ensures c'.clock == c.clock && c'.registry == c.registry
    ensures reply.Time? ==> reply.time == c.clock
  {
  }

  predicate WritesExperiment(pc: Pc) {
    pc.AddingFinalizer? || pc.Patching? || pc.RemovingFinalizer?
  }

  /** A call that writes the experiment is the last one of its pass. */
  lemma WritesLast(mode: PatchMode, c: Cluster, s: Snapshot, pc: Pc, reply: Reply)
    requires !pc.Finished?
    ensures WritesExperiment(pc) ==> Resume(s, pc, reply).Finished?
    ensures !WritesExperiment(pc) ==> Effect(mode, c, s.exp.uid, Next(s, pc)).experiments == c.experiments
  {
  }

  lemma CallKeepsHeld(mode: PatchMode, c: Cluster, p: Pass, delivery: Delivery, c': Cluster, reply: Reply)
    requires !p.pc.Finished? && Held(c, p)
    requires Serve(mode, c, p.snap.exp.uid, Next(p.snap, p.pc), delivery, c', reply)
    ensures Held(c', Advance(p, reply))
  {
    WritesLast(mode, c, p.snap, p.pc, reply);
  }

  /** The services a cleanup still has to delete come from its listing. */
  lemma StillToDelete(s: Snapshot, pc: Pc, reply: Reply, n: string)
    requires !pc.Finished? && Resume(s, pc, reply).DeletingServices?
    requires n == Resume(s, pc, reply).name || n in Resume(s, pc, reply).rest
    ensures (pc.ListingManaged? && reply.ServiceList? && n in Selected(reply.services, s.key.name)) ||
            (pc.DeletingServices? && n in pc.rest)
  {
  }

  lemma CallKeepsListed(mode: PatchMode, c: Cluster, k: Key, p: Pass, delivery: Delivery, c': Cluster, reply: Reply,
                        n: string)
    requires ClusterOk(c) && PassOk(c, k, p) && !p.pc.Finished?
    requires Serve(mode, c, p.snap.exp.uid, Next(p.snap, p.pc), delivery, c', reply)
    requires (p.pc.ListingManaged? && reply.ServiceList? && n in Selected(reply.services, k.name)) ||
             (p.pc.DeletingServices? && n in p.pc.rest)
    ensures Listed(c', p.snap, n)
  {
    hide PcOk, StatusOk, Held, ClusterOk, Effect, Lawful, BelongsTo, Listed, Next, Advances, ServicesRightful;
    var req := Next(p.snap, p.pc);
    Registered(c);
    if p.pc.ListingManaged? {
      var i :| i in reply.services && i.name == n && BelongsTo(i.labels, k.name);
      RequestKinds(p.snap, p.pc);
      ListedNow(c, p.snap, i);
    }
    NextLawful(c, k, p);
    EffectFrame(mode, c, k, p.snap.exp.uid, req);
    Unmoved(c);
    ListedSurvives(c, c', p.snap, n);
  }

  lemma Unmoved(c: Cluster)
    ensures Advances(c, c) && ServicesRightful(c, c)
  {
  }

  lemma Registered(c: Cluster)
    requires ClusterOk(c)
    ensures RegistryOk(c) && forall u :: u in c.registry ==> |u| >= 8
  {
  }

  lemma CallKeepsOwn(mode: PatchMode, c: Cluster, k: Key, p: Pass, delivery: Delivery, c': Cluster, reply: Reply)
    requires ClusterOk(c) && PassOk(c, k, p) && !p.pc.Finished?
    requires Serve(mode, c, p.snap.exp.uid, Next(p.snap, p.pc), delivery, c', reply)
    ensures PassOk(c', k, Advance(p, reply))
  {
    ServeKeepsHistory(mode, c, p.snap.exp.uid, Next(p.snap, p.pc), delivery, c', reply);
    ResumeOk(p.snap, p.pc, reply, c.clock);
    CallKeepsHeld(mode, c, p, delivery, c', reply);
    var pc' := Advance(p, reply).pc;
    if pc'.DeletingServices? {
      forall n | n == pc'.name || n in pc'.rest
        ensures Listed(c', p.snap, n)
      {
        StillToDelete(p.snap, p.pc, reply, n);
        CallKeepsListed(mode, c, k, p, delivery, c', reply, n);
      }
    }
  }

  /** What one call does to the cluster as a whole, and to what the passes of other experiments rely on. */
  lemma CallKeepsCluster(mode: PatchMode, c: Cluster, k: Key, p: Pass, delivery: Delivery, c': Cluster, reply: Reply)
    requires ClusterOk(c) && PassOk(c, k, p) && !p.pc.Finished?
    requires Serve(mode, c, p.snap.exp.uid, Next(p.snap, p.pc), delivery, c', reply)
    ensures ClusterOk(c') && Advances(c, c') && ServicesRightful(c, c')
    ensures forall k2 :: k2 != k ==> KeepsExperiment(c, c', k2)
  {
    hide Next, Effect, Lawful, PcOk, Held, StatusesOk, ServicesOk, JobsOk, Answers, NeedsFinalizer, BelongsTo, VirtualServiceName, Prefix;
    var uid, req := p.snap.exp.uid, Next(p.snap, p.pc);
    NextLawful(c, k, p);
    EffectFrame(mode, c, k, uid, req);
    EffectKeepsRegistry(mode, c, uid, req);
    EffectKeepsStatuses(mode, c, k, uid, req);
    EffectKeepsServices(mode, c, k, uid, req);
    EffectKeepsJobs(mode, c, k, uid, req);
    assert c' == c || c' == Effect(mode, c, uid, req);
  }

  lemma EnvKeepsInv(s: State, m: Move)
    requires Inv(s) && MayMove(s.c, m)
    ensures Inv(s.(c := Moved(s.c, m)))
  {
    var c' := Moved(s.c, m);
    MoveKeepsRegistry(s.c, m);
    MoveKeepsStatuses(s.c, m);
    MoveKeepsServices(s.c, m);
    MoveKeepsJobs(s.c, m);
    MoveFrame(s.c, m);
    forall k | k in s.passes
      ensures PassOk(c', k, s.passes[k])
    {
      PassSurvives(s.c, c', k, s.passes[k]);
    }
  }

  lemma StepKeepsInv(mode: PatchMode, s: State, l: Label, s': State)
    requires Inv(s) && StepBy(mode, s, l, s')
    ensures Inv(s')
  {
    hide Serve, Next, Resume, StatusOk, KeepsExperiment, Advances, ServicesRightful, PcOk, Listed, Moved, MayMove, ServicesOk, JobsOk, Prefix;
    match l
    case Env(m) => EnvKeepsInv(s, m);
    case Begin(k) =>
      StartOk(Snapshot(k, s.c.experiments[k]), s.c.clock);
      assert !Start(Snapshot(k, s.c.experiments[k])).DeletingServices?;
    case Call(k, delivery, reply) =>
      var p := s.passes[k];
      assert PassOk(s.c, k, p);
      CallKeepsCluster(mode, s.c, k, p, delivery, s'.c, reply);
      CallKeepsOwn(mode, s.c, k, p, delivery, s'.c, reply);
      forall k2 | k2 in s'.passes
        ensures PassOk(s'.c, k2, s'.passes[k2])
      {
        if k2 != k { PassSurvives(s.c, s'.c, k2, s.passes[k2]); }
      }
    case End(k) =>
  }

  /** The invariant holds throughout every run. */
  lemma {:induction false} RunKeepsInv(mode: PatchMode, states: seq<State>, labels: seq<Label>, i: nat)
    requires IsRun(mode, states, labels) && Inv(states[0]) && i <= |labels|
    ensures Inv(states[i])
  {
    if i > 0 {
      RunKeepsInv(mode, states, labels, i - 1);
      StepKeepsInv(mode, states[i - 1], labels[i - 1], states[i]);
    }
  }
}
