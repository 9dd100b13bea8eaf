/**
 One reconcile pass as a process: what it asks next, and where each reply takes it. The handlers of
 reconciler.rs hold no state across calls other than what the program counter below carries.
 */
module Process {
  import opened Types
  import opened ExperimentStatus
  import opened Names
  import opened Routing
  import opened ApiServer

  /** The object as read at the start of the pass. */
  datatype Snapshot = Snapshot(key: Key, exp: Experiment) {
    function Target(): string {
      TargetNamespace(key, exp.spec)
    }

    /** The experiment id: the stored one, else derived from the UID. */
    function Id(): string {
      exp.status.experimentId.GetOr(exp.uid)
    }

    predicate IsEdge() {
      exp.spec.scenario.IsEdge()
    }
  }

  datatype Outcome = Requeue(secs: nat) | Done | Aborted

  datatype Cleanup = Deletion | Terminal

  datatype Pc =
    | AddingFinalizer
    | DeletingJobs(why: Cleanup, job: string, rest: seq<string>)
    | ListingManaged(why: Cleanup)
    | DeletingServices(why: Cleanup, name: string, rest: seq<string>)
    | RemovingFinalizer
    | ListingNodes
    | CreatingJobs(nodes: seq<string>, node: string, rest: seq<string>)
    | StampingNodes(nodes: seq<string>)
    | ReadingSelector(edge: Edge)
    | ListingConflicts(edge: Edge, source: Labels)
    | ResolvingEdge(edge: Edge, source: Labels)
    | CreatingService(edge: Edge, source: Labels, fault: Fault)
    | StampingEdge(edge: Edge)
    | ListingJobs
    | CheckingElapsed(verdict: Message)
    | StampingEnd(phase: Phase, verdict: Message)
    | Patching(status: Status)
    | Finished(outcome: Outcome)

  const AFTER_PASS := Requeue(REQUEUE_RUNNING_SECS)

  predicate NeedsFinalizer(x: Experiment) {
    FINALIZER_NAME !in x.finalizers
  }

  function Validate(spec: Spec): Option<ValidationError> {
    if spec.duration == 0 then Some(InvalidDuration)
    else if spec.scenario.IsEdge() && (spec.Edge().None? || spec.Edge().value.source == "" || spec.Edge().value.destination == "")
    then Some(MissingEdgeTarget)
    else None
  }

  function Reject(error: ValidationError): Pc {
    Patching(EMPTY.(phase := Phase.Failed, message := Some(Rejected(error))))
  }

  /** Whole seconds since the start, truncated toward zero, against the duration cast to a signed value. */
  predicate Elapsed(startedAt: int, now: int, duration: U64) {
    var d := now - startedAt;
    (if d >= 0 then d / NANOS else -((-d) / NANOS)) >= AsI64(duration)
  }

  /** On a clock that has not gone back, the duration test is exact below 2^63 seconds and always true from there on. */
  lemma ElapsedExactly(startedAt: int, now: int, duration: U64)
    requires startedAt <= now
    ensures Elapsed(startedAt, now, duration) <==> duration >= TWO_63 || now - startedAt >= duration * NANOS
  {
    var d := now - startedAt;
    assert d / NANOS >= duration <==> d >= duration * NANOS;
  }

  predicate AllSucceeded(jobs: seq<Job>) {
    jobs != [] && forall j :: j in jobs ==> j.succeeded > 0
  }

  predicate AnyFailed(jobs: seq<Job>) {
    exists j :: j in jobs && j.failed > 0
  }

  /** The names a cleanup deletes, in listing order. */
  function Selected(infos: seq<ServiceInfo>, experiment: string): (names: seq<string>)
    ensures forall i :: i in infos && BelongsTo(i.labels, experiment) ==> i.name in names
    ensures forall n :: n in names ==> exists i :: i in infos && i.name == n && BelongsTo(i.labels, experiment)
  {
    if infos == [] then []
    else (if BelongsTo(infos[0].labels, experiment) then [infos[0].name] else []) + Selected(infos[1..], experiment)
  }

  // ── Continuations ──

  function DeleteJobsThen(s: Snapshot, why: Cleanup, jobs: seq<string>): Pc {
    if jobs != [] then DeletingJobs(why, jobs[0], jobs[1..])
    else if s.IsEdge() then ListingManaged(why)
    else CleanedUp(s, why)
  }

  function DeleteServicesThen(s: Snapshot, why: Cleanup, names: seq<string>): Pc {
    if names != [] then DeletingServices(why, names[0], names[1..]) else CleanedUp(s, why)
  }

  function CleanedUp(s: Snapshot, why: Cleanup): Pc {
    match why
    case Deletion => RemovingFinalizer
    case Terminal => Patching(s.exp.status.(cleanupDone := true))
  }

  /** Deletion ignores a failed cleanup; a terminal pass gives up until the next one. */
  function CleanupFailed(why: Cleanup): Pc {
    match why
    case Deletion => RemovingFinalizer
    case Terminal => Finished(AFTER_PASS)
  }

  /** The replies that make a cleanup give up. */
  predicate GivesUp(pc: Pc, reply: Reply) {
    || (pc.ListingManaged? && !reply.ServiceList?)
    || (pc.DeletingServices? && reply != Ack && reply != Error(NotFound))
  }

  function CreateJobsThen(nodes: seq<string>, rest: seq<string>): Pc {
    if rest != [] then CreatingJobs(nodes, rest[0], rest[1..]) else StampingNodes(nodes)
  }

  function CheckElapsedThen(s: Snapshot, verdict: Message): Pc {
    if s.exp.status.startedAt.Some? then CheckingElapsed(verdict) else Finished(AFTER_PASS)
  }

  function Start(s: Snapshot): Pc {
    if NeedsFinalizer(s.exp) then AddingFinalizer
    else if s.exp.deleting then DeleteJobsThen(s, Deletion, s.exp.status.runnerJobs)
    else match s.exp.status.phase
      case Pending =>
        (match Validate(s.exp.spec)
         case Some(error) => Reject(error)
         case None => if s.IsEdge() then ReadingSelector(s.exp.spec.Edge().value) else ListingNodes)
      case Running => if s.IsEdge() then CheckElapsedThen(s, EdgeDurationElapsed) else ListingJobs
      case _ => if s.exp.status.cleanupDone then Finished(Done)
                else DeleteJobsThen(s, Terminal, s.exp.status.runnerJobs)
  }

  function RunnerJob(s: Snapshot): Job {
    Job(map["app" := "chimp-chaos-runner", EXPERIMENT_LABEL := s.key.name], Some(s.exp.uid), 0, 0, None)
  }

  function EdgeService(s: Snapshot, edge: Edge, source: Labels, fault: Fault): VirtualService {
    BuildVirtualService(ServiceSpec(s.key.name, s.exp.uid, Fqdn(edge.destination, s.Target()), source, fault))
  }

  function ServiceKey(s: Snapshot): Key {
    Key(s.Target(), VirtualServiceName(s.Id()))
  }

  /** The call a pass makes at `pc`. */
  function Next(s: Snapshot, pc: Pc): Request
    requires !pc.Finished?
  {
    match pc
    case AddingFinalizer => AddFinalizer(s.key)
    case DeletingJobs(_, job, _) => DeleteJob(Key(s.key.ns, job))
    case ListingManaged(_) => ListServices(s.Target())
    case DeletingServices(_, name, _) => DeleteService(Key(s.Target(), name))
    case RemovingFinalizer => RemoveFinalizer(s.key)
    case ListingNodes => ListNodes(s.Target())
    case CreatingJobs(_, node, _) => CreateJob(Key(s.key.ns, JobName(s.Id(), node)), RunnerJob(s))
    case StampingNodes(_) => ReadClock
    case ReadingSelector(edge) => GetSelector(Key(s.Target(), edge.source))
    case ListingConflicts(_, _) => ListServices(s.Target())
    case ResolvingEdge(edge, _) => ResolveEdge(edge, s.Target())
    case CreatingService(edge, source, fault) => CreateService(ServiceKey(s), EdgeService(s, edge, source, fault))
    case StampingEdge(_) => ReadClock
    case ListingJobs => ListJobs(s.key.ns, s.key.name)
    case CheckingElapsed(_) => ReadClock
    case StampingEnd(_, _) => ReadClock
    case Patching(st) => PatchStatus(s.key, st)
  }

  /** Which points of a pass make which kind of request. */
  lemma RequestKinds(s: Snapshot, pc: Pc)
    requires !pc.Finished?
    ensures Next(s, pc).AddFinalizer? <==> pc.AddingFinalizer?
    ensures Next(s, pc).RemoveFinalizer? <==> pc.RemovingFinalizer?
    ensures Next(s, pc).PatchStatus? <==> pc.Patching?
    ensures Next(s, pc).CreateJob? <==> pc.CreatingJobs?
    ensures Next(s, pc).CreateService? <==> pc.CreatingService?
    ensures Next(s, pc).DeleteService? <==> pc.DeletingServices?
    ensures pc.AddingFinalizer? ==> Next(s, pc) == AddFinalizer(s.key)
    ensures pc.RemovingFinalizer? ==> Next(s, pc) == RemoveFinalizer(s.key)
    ensures pc.Patching? ==> Next(s, pc) == PatchStatus(s.key, pc.status)
    ensures pc.CreatingJobs? ==> Next(s, pc) == CreateJob(Key(s.key.ns, JobName(s.Id(), pc.node)), RunnerJob(s))
    ensures pc.ListingManaged? ==> Next(s, pc) == ListServices(s.Target())
    ensures pc.DeletingServices? ==> Next(s, pc) == DeleteService(Key(s.Target(), pc.name))
  {
  }

  function Started(s: Snapshot, now: int, message: Message, jobs: seq<string>): Status {
    EMPTY.(phase := Running, message := Some(message), startedAt := Some(now),
           experimentId := Some(s.Id()), runnerJobs := jobs)
  }

  /** Where a reply takes the pass. An unexpected reply is an error and aborts it. */
  function Resume(s: Snapshot, pc: Pc, reply: Reply): Pc
    requires !pc.Finished?
  {
    match pc
    case AddingFinalizer => Finished(if reply == Ack then Requeue(0) else Aborted)
    case DeletingJobs(why, _, rest) => DeleteJobsThen(s, why, rest)
    case ListingManaged(why) =>
      if reply.ServiceList? then DeleteServicesThen(s, why, Selected(reply.services, s.key.name)) else CleanupFailed(why)
    case DeletingServices(why, _, rest) =>
      if reply == Ack || reply == Reply.Error(NotFound) then DeleteServicesThen(s, why, rest) else CleanupFailed(why)
    case RemovingFinalizer => Finished(if reply == Ack then Done else Aborted)
    case ListingNodes =>
      if !reply.NodeList? then Finished(Aborted)
      else if reply.nodes == [] then Reject(NoTargetNodes)
      else CreateJobsThen(reply.nodes, reply.nodes)
    case CreatingJobs(nodes, _, rest) =>
      if reply == Ack || reply == Reply.Error(AlreadyExists) then CreateJobsThen(nodes, rest) else Finished(Aborted)
    case StampingNodes(nodes) =>
      if !reply.Time? then Finished(Aborted)
      else Patching(Started(s, reply.time, RunningOnNodes(|nodes|, s.exp.spec.duration), JobNames(s.Id(), nodes)))
    case ReadingSelector(edge) =>
      if reply.Selector? && reply.labels != map[] then ListingConflicts(edge, reply.labels)
      else Reject(SourceServiceNotFound(edge.source))
    case ListingConflicts(edge, source) =>
      if !reply.ServiceList? then Finished(Aborted)
      else if exists i :: i in reply.services && !IsChaosManaged(i.labels)
      then Reject(ConflictingVirtualService(Fqdn(edge.destination, s.Target())))
      else ResolvingEdge(edge, source)
    case ResolvingEdge(edge, source) =>
      if reply != Ack then Reject(EdgeUnresolved)
      else
        (match BuildFault(s.exp.spec.scenario, s.exp.spec.parameters)
         case Some(fault) => CreatingService(edge, source, fault)
         case None => Reject(NoFault))
    case CreatingService(edge, _, _) =>
      if reply == Ack || reply == Reply.Error(AlreadyExists) then StampingEdge(edge) else Finished(Aborted)
    case StampingEdge(edge) =>
      if !reply.Time? then Finished(Aborted)
      else Patching(Started(s, reply.time, RunningOnEdge(edge, s.exp.spec.duration), []))
    case ListingJobs =>
      if !reply.JobList? then Finished(Aborted)
      else if AnyFailed(reply.jobs) then StampingEnd(Phase.Failed, JobFailed)
      else if AllSucceeded(reply.jobs) then StampingEnd(Succeeded, JobsCompleted)
      else CheckElapsedThen(s, DurationElapsed)
    case CheckingElapsed(verdict) =>
      if !reply.Time? then Finished(Aborted)
      else if Elapsed(s.exp.status.startedAt.GetOr(0), reply.time, s.exp.spec.duration) then StampingEnd(Succeeded, verdict)
      else Finished(AFTER_PASS)
    case StampingEnd(phase, verdict) =>
      if !reply.Time? then Finished(Aborted)
      else Patching(s.exp.status.(phase := phase, message := Some(verdict), completedAt := Some(reply.time)))
    case Patching(_) => Finished(if reply == Ack then AFTER_PASS else Aborted)
  }
}
