/**
 What each handler asks of the API server, said about its calls and their replies alone: which requests, in which
 order, where it stops, and when it reports success.
 */
module HandlerCalls {
  import opened Types
  import opened ExperimentStatus
  import opened Names
  import opened Routing
  import opened ApiServer
  import opened Process
  import opened Machine

  type Calls = seq<Exchange>

  // ── Single writes ──

  /** One status patch; success is its acknowledgement. */
  predicate PatchesTo(s: Snapshot, calls: Calls, st: Status, ok: bool) {
    |calls| == 1 && calls[0].request == PatchStatus(s.key, st) && (ok <==> calls[0].reply.Ack?)
  }

  predicate Rejects(s: Snapshot, calls: Calls, error: ValidationError, ok: bool) {
    PatchesTo(s, calls, EMPTY.(phase := Phase.Failed, message := Some(Rejected(error))), ok)
  }

  /** The clock is read, and the time becomes the start of the run. */
  predicate StartsRunning(s: Snapshot, calls: Calls, message: Message, jobs: seq<string>, ok: bool) {
    && |calls| == 2 && calls[0].request == ReadClock && calls[0].reply.Time?
    && PatchesTo(s, calls[1..],
         EMPTY.(phase := Running, message := Some(message), startedAt := Some(calls[0].reply.time),
                experimentId := Some(s.Id()), runnerJobs := jobs), ok)
  }

  /** The clock is read, and the time becomes the end of the run. */
  predicate EndsRunning(s: Snapshot, calls: Calls, phase: Phase, verdict: Message, ok: bool) {
    && |calls| == 2 && calls[0].request == ReadClock && calls[0].reply.Time?
    && PatchesTo(s, calls[1..],
         s.exp.status.(phase := phase, message := Some(verdict), completedAt := Some(calls[0].reply.time)), ok)
  }

  // ── Loops ──

  /** One deletion per listed job, in order, whatever the replies. */
  predicate DeletesJobs(s: Snapshot, calls: Calls) {
    && |calls| == |s.exp.status.runnerJobs|
    && forall i :: 0 <= i < |calls| ==> calls[i].request == DeleteJob(Key(s.key.ns, s.exp.status.runnerJobs[i]))
  }

  predicate Settled(reply: Reply, tolerated: Failure) {
    reply == Ack || reply == Error(tolerated)
  }

  /**
   The calls work off the planned requests in order: to the end if every reply is an acknowledgement or the tolerated
   failure, and otherwise up to and including the first that is not.
   */
  predicate WorksOff(calls: Calls, plan: seq<Request>, tolerated: Failure, ok: bool) {
    && |calls| <= |plan|
    && (forall i :: 0 <= i < |calls| ==> calls[i].request == plan[i])
    && (forall i :: 0 <= i < |calls| - 1 ==> Settled(calls[i].reply, tolerated))
    && (ok ==> |calls| == |plan| && (calls != [] ==> Settled(calls[|calls| - 1].reply, tolerated)))
    && (!ok ==> calls != [] && !Settled(calls[|calls| - 1].reply, tolerated))
  }

  function Deletions(ns: string, names: seq<string>): seq<Request> {
    seq(|names|, i requires 0 <= i < |names| => DeleteService(Key(ns, names[i])))
  }

  /** A listing, then one deletion per selected service in listing order; 404 counts as deleted. */
  predicate CleansUp(s: Snapshot, calls: Calls, ok: bool) {
    && calls != [] && calls[0].request == ListServices(s.Target())
    && if calls[0].reply.ServiceList?
       then WorksOff(calls[1..], Deletions(s.Target(), Selected(calls[0].reply.services, s.key.name)), NotFound, ok)
       else |calls| == 1 && !ok
  }

  function Creations(s: Snapshot, nodes: seq<string>): seq<Request> {
    seq(|nodes|, i requires 0 <= i < |nodes| => CreateJob(Key(s.key.ns, JobName(s.Id(), nodes[i])), RunnerJob(s)))
  }

  // ── Handlers ──

  /** All jobs, then the services of edge chaos, failures of either ignored; then the finalizer, which decides. */
  predicate Deletes(s: Snapshot, calls: Calls, ok: bool) {
    var n := |s.exp.status.runnerJobs|;
    && n < |calls| && DeletesJobs(s, calls[..n])
    && (if s.IsEdge() then CleansUp(s, calls[n..|calls| - 1], true) || CleansUp(s, calls[n..|calls| - 1], false)
        else |calls| == n + 1)
    && calls[|calls| - 1].request == RemoveFinalizer(s.key) && (ok <==> calls[|calls| - 1].reply.Ack?)
  }

  /** One job per node in order, an existing one counting as created; only then the start, with all their names. */
  predicate LaunchesPods(s: Snapshot, calls: Calls, ok: bool) {
    && calls != [] && calls[0].request == ListNodes(s.Target())
    && if !calls[0].reply.NodeList? then |calls| == 1 && !ok
       else
         var nodes := calls[0].reply.nodes;
         if nodes == [] then Rejects(s, calls[1..], NoTargetNodes, ok)
         else if |calls| <= 1 + |nodes| then WorksOff(calls[1..], Creations(s, nodes), AlreadyExists, false) && !ok
         else
           && WorksOff(calls[1..1 + |nodes|], Creations(s, nodes), AlreadyExists, true)
           && StartsRunning(s, calls[1 + |nodes|..], RunningOnNodes(|nodes|, s.exp.spec.duration), JobNames(s.Id(), nodes), ok)
  }

  /** The edge is resolved, the service created (an existing one counting), and only then the start patched. */
  ghost predicate Injects(s: Snapshot, edge: Edge, source: Labels, calls: Calls, ok: bool) {
    && calls != [] && calls[0].request == ResolveEdge(edge, s.Target())
    && if calls[0].reply.Error? then Rejects(s, calls[1..], EdgeUnresolved, ok)
       else if LacksFault(s.exp.spec.scenario, s.exp.spec.parameters) then Rejects(s, calls[1..], NoFault, ok)
       else
         && |calls| >= 2 && CreatesService(s, edge, source, calls[1].request)
         && if Settled(calls[1].reply, AlreadyExists)
            then StartsRunning(s, calls[2..], RunningOnEdge(edge, s.exp.spec.duration), [], ok)
            else |calls| == 2 && !ok
  }

  /** The service goes under the experiment's one name, for the destination's full name, with the fault asked for. */
  ghost predicate CreatesService(s: Snapshot, edge: Edge, source: Labels, request: Request) {
    exists fault ::
      && AsksFor(s.exp.spec.scenario, s.exp.spec.parameters, fault)
      && request == CreateService(
           Key(s.Target(), VirtualServiceName(s.Id())),
           BuildVirtualService(ServiceSpec(
             s.key.name, s.exp.uid, edge.destination + "." + s.Target() + ".svc.cluster.local", source, fault)))
  }

  /** A service without the operator's label, whatever its host. */
  predicate SomeUnmanaged(infos: seq<ServiceInfo>) {
    exists i :: i in infos && !Carries(i.labels, map[MANAGED_BY_LABEL := MANAGED_BY_VALUE])
  }

  lemma SomeUnmanagedIff(infos: seq<ServiceInfo>)
    ensures SomeUnmanaged(infos) <==> exists i :: i in infos && !IsChaosManaged(i.labels)
  {
    hide IsChaosManaged, Carries;
    forall i | i in infos
      ensures IsChaosManaged(i.labels) <==> Carries(i.labels, map[MANAGED_BY_LABEL := MANAGED_BY_VALUE])
    {
      ManagedIffCarries(i.labels, "");
    }
  }

  /** A source without labels, or any unmanaged service in the namespace, rejects; otherwise the fault goes in. */
  ghost predicate LaunchesEdge(s: Snapshot, edge: Edge, calls: Calls, ok: bool) {
    && calls != [] && calls[0].request == GetSelector(Key(s.Target(), edge.source))
    && if !calls[0].reply.Selector? || calls[0].reply.labels == map[]
       then Rejects(s, calls[1..], SourceServiceNotFound(edge.source), ok)
       else
         && |calls| >= 2 && calls[1].request == ListServices(s.Target())
         && if !calls[1].reply.ServiceList? then |calls| == 2 && !ok
            else if SomeUnmanaged(calls[1].reply.services)
            then Rejects(s, calls[2..], ConflictingVirtualService(edge.destination + "." + s.Target() + ".svc.cluster.local"), ok)
            else Injects(s, edge, calls[0].reply.labels, calls[2..], ok)
  }

  /** The edge is there and both of its names are. */
  predicate NamesEdge(spec: Spec) {
    && spec.target.Some? && spec.target.value.edge.Some?
    && spec.target.value.edge.value.source != "" && spec.target.value.edge.value.destination != ""
  }

  /** Without a duration, or for edge chaos without a named edge, it rejects; an edge is asked of edge chaos alone. */
  ghost predicate Launches(s: Snapshot, calls: Calls, ok: bool) {
    if s.exp.spec.duration == 0 then Rejects(s, calls, InvalidDuration, ok)
    else if !s.IsEdge() then LaunchesPods(s, calls, ok)
    else if !NamesEdge(s.exp.spec) then Rejects(s, calls, MissingEdgeTarget, ok)
    else LaunchesEdge(s, s.exp.spec.target.value.edge.value, calls, ok)
  }

  /** Nothing is written before the duration has gone by. */
  predicate EndsIfElapsed(s: Snapshot, calls: Calls, verdict: Message, ok: bool) {
    if s.exp.status.startedAt.None? then calls == [] && ok
    else
      && calls != [] && calls[0].request == ReadClock && calls[0].reply.Time?
      && if Elapsed(s.exp.status.startedAt.value, calls[0].reply.time, s.exp.spec.duration)
         then EndsRunning(s, calls[1..], Succeeded, verdict, ok)
         else |calls| == 1 && ok
  }

  /** A failed job decides before all succeeded, and both before the duration. */
  predicate JudgesPods(s: Snapshot, calls: Calls, ok: bool) {
    && calls != [] && calls[0].request == ListJobs(s.key.ns, s.key.name)
    && if !calls[0].reply.JobList? then |calls| == 1 && !ok
       else if exists j :: j in calls[0].reply.jobs && j.failed > 0
       then EndsRunning(s, calls[1..], Phase.Failed, JobFailed, ok)
       else if calls[0].reply.jobs != [] && forall j :: j in calls[0].reply.jobs ==> j.succeeded > 0
       then EndsRunning(s, calls[1..], Succeeded, JobsCompleted, ok)
       else EndsIfElapsed(s, calls[1..], DurationElapsed, ok)
  }

  predicate Judges(s: Snapshot, calls: Calls, ok: bool) {
    if s.IsEdge() then EndsIfElapsed(s, calls, EdgeDurationElapsed, ok) else JudgesPods(s, calls, ok)
  }

  /** Nothing once marked. The mark is written only behind a cleanup that succeeded; one that failed ends the pass. */
  predicate Finishes(s: Snapshot, calls: Calls, ok: bool) {
    if s.exp.status.cleanupDone then calls == [] && ok
    else
      var n := |s.exp.status.runnerJobs|;
      && n <= |calls| && DeletesJobs(s, calls[..n])
      && if s.IsEdge() && CleansUp(s, calls[n..], false) then ok
         else
           && n < |calls|
           && (if s.IsEdge() then CleansUp(s, calls[n..|calls| - 1], true) else |calls| == n + 1)
           && PatchesTo(s, calls[|calls| - 1..], s.exp.status.(cleanupDone := true), ok)
  }

  /** The whole pass. */
  ghost predicate Reconciles(s: Snapshot, calls: Calls, outcome: Outcome) {
    if FINALIZER_NAME !in s.exp.finalizers then
      && |calls| == 1 && calls[0].request == AddFinalizer(s.key)
      && outcome == if calls[0].reply.Ack? then Requeue(0) else Aborted
    else if s.exp.deleting then Deletes(s, calls, outcome != Aborted) && (outcome == Done || outcome == Aborted)
    else match s.exp.status.phase
      case Pending => Launches(s, calls, outcome != Aborted) && (outcome == Requeue(5) || outcome == Aborted)
      case Running => Judges(s, calls, outcome != Aborted) && (outcome == Requeue(5) || outcome == Aborted)
      case _ =>
        && Finishes(s, calls, outcome != Aborted)
        && outcome in {Aborted, if s.exp.status.cleanupDone then Done else Requeue(5)}
  }

  /** What a pass asks first, in terms of the snapshot's own fields. */
  lemma FirstRequest(s: Snapshot, calls: Calls, outcome: Outcome)
    requires Reconciles(s, calls, outcome)
    requires FINALIZER_NAME in s.exp.finalizers && !s.exp.deleting && s.exp.status.phase.Pending?
    ensures calls != []
    ensures var spec, request := s.exp.spec, calls[0].request;
            var ns := if spec.targetNamespace.Some? then spec.targetNamespace.value else s.key.ns;
            && (request == ListNodes(ns) <==> spec.duration > 0 && !spec.scenario.IsEdge())
            && (request.GetSelector? <==> spec.duration > 0 && spec.scenario.IsEdge() && NamesEdge(spec))
            && (request.GetSelector? ==> request.key == Key(ns, spec.target.value.edge.value.source))
            && (!request.ListNodes? && !request.GetSelector? ==>
                  |calls| == 1 && request.PatchStatus? && request.status.phase.Failed? &&
                  request.status.message == Some(Rejected(if spec.duration == 0 then InvalidDuration else MissingEdgeTarget)))
  {
  }
}
