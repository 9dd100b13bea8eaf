/** The API server's state, the calls the operator makes on it, and what the rest of the world may do to it. */
module ApiServer {
  import opened Types
  import opened ExperimentStatus
  import opened Names
  import opened Routing

  datatype EdgeTarget = EdgeTarget(namespace: Option<string>, edge: Option<Edge>)

  datatype Spec = Spec(
    scenario: Scenario, duration: U64, targetNamespace: Option<string>, target: Option<EdgeTarget>, parameters: Parameters)
  {
    function Edge(): Option<Edge> {
      if target.Some? then target.value.edge else None
    }
  }

  datatype Experiment = Experiment(uid: string, spec: Spec, finalizers: seq<string>, deleting: bool, status: Status)

  /** `creator` is the API server's record of the experiment whose pass created the job. */
  datatype Job = Job(labels: Labels, owner: Option<string>, succeeded: int, failed: int, creator: Option<string>)

  /** `registry` remembers every UID ever handed out and for which object; it never shrinks. */
  datatype Cluster = Cluster(
    experiments: map<Key, Experiment>,
    jobs: map<Key, Job>,
    services: map<Key, VirtualService>,
    selectors: map<Key, Labels>,
    nodes: map<string, seq<string>>,
    clock: int,
    registry: map<string, Key>)

  /** Where the experiment acts. `target.namespace` is not consulted. */
  function TargetNamespace(key: Key, spec: Spec): string {
    spec.targetNamespace.GetOr(key.ns)
  }

  /** Whether a merge patch overlays the stored status (the real server) or replaces it (the reference). */
  datatype PatchMode = Merge | Replace

  datatype Request =
    | AddFinalizer(key: Key)
    | RemoveFinalizer(key: Key)
    | PatchStatus(key: Key, status: Status)
    | ListNodes(ns: string)
    | CreateJob(key: Key, job: Job)
    | ListJobs(ns: string, experiment: string)
    | DeleteJob(key: Key)
    | GetSelector(key: Key)
    | ListServices(ns: string)
    | ResolveEdge(edge: Edge, ns: string)
    | CreateService(key: Key, service: VirtualService)
    | DeleteService(key: Key)
    | ReadClock

  datatype ServiceInfo = ServiceInfo(name: string, labels: Labels)

  datatype Failure = NotFound | AlreadyExists | Other

  datatype Reply =
    | Ack
    | Error(failure: Failure)
    | NodeList(nodes: seq<string>)
    | JobList(jobs: seq<Job>)
    | Selector(labels: Labels)
    | ServiceList(services: seq<ServiceInfo>)
    | Time(time: int)

  /** A call is served; or takes effect but its reply is lost; or never reaches the server. */
  datatype Delivery = Served | ReplyLost | Refused

  // What a request changes when it takes effect. A missing object (404) or an existing one (409) changes nothing.

  /** An object under deletion accepts no new finalizer. */
  predicate RefusesFinalizer(x: Experiment) {
    x.deleting && FINALIZER_NAME !in x.finalizers
  }

  function ExperimentsAfter(mode: PatchMode, xs: map<Key, Experiment>, req: Request): map<Key, Experiment> {
    match req
    case AddFinalizer(k) =>
      if k in xs && !RefusesFinalizer(xs[k]) then xs[k := xs[k].(finalizers := [FINALIZER_NAME])] else xs
    case RemoveFinalizer(k) =>
      if k !in xs then xs
      else if xs[k].deleting then xs - {k}
      else xs[k := xs[k].(finalizers := [])]
    case PatchStatus(k, st) =>
      if k in xs then xs[k := xs[k].(status := if mode.Merge? then Overlay(xs[k].status, st) else st)] else xs
    case _ => xs
  }

  function JobsAfter(jobs: map<Key, Job>, who: string, req: Request): map<Key, Job> {
    match req
    case CreateJob(k, job) => if k in jobs then jobs else jobs[k := job.(creator := Some(who))]
    case DeleteJob(k) => jobs - {k}
    case _ => jobs
  }

  function ServicesAfter(services: map<Key, VirtualService>, who: string, req: Request): map<Key, VirtualService> {
    match req
    case CreateService(k, vs) => if k in services then services else services[k := vs.(creator := Some(who))]
    case DeleteService(k) => services - {k}
    case _ => services
  }

  function Effect(mode: PatchMode, c: Cluster, who: string, req: Request): Cluster {
    c.(experiments := ExperimentsAfter(mode, c.experiments, req),
       jobs := JobsAfter(c.jobs, who, req),
       services := ServicesAfter(c.services, who, req))
  }

  predicate IsJobListing(c: Cluster, ns: string, experiment: string, jobs: seq<Job>) {
    var keys := set k | k in c.jobs && k.ns == ns && EXPERIMENT_LABEL in c.jobs[k].labels
                        && c.jobs[k].labels[EXPERIMENT_LABEL] == experiment;
    && (forall k :: k in keys ==> c.jobs[k] in jobs)
    && (forall j :: j in jobs ==> exists k :: k in keys && c.jobs[k] == j)
  }

  predicate IsServiceListing(c: Cluster, ns: string, infos: seq<ServiceInfo>) {
    && (forall k :: k in c.services && k.ns == ns ==> ServiceInfo(k.name, c.services[k].labels) in infos)
    && (forall i :: i in infos ==> Key(ns, i.name) in c.services && c.services[Key(ns, i.name)].labels == i.labels)
  }

  function Present(found: bool): Reply {
    if found then Ack else Error(NotFound)
  }

  function Created(found: bool): Reply {
    if found then Error(AlreadyExists) else Ack
  }

  /** The reply of a served request, decided by the state it finds. */
  predicate Answers(c: Cluster, req: Request, reply: Reply) {
    match req
    case AddFinalizer(k) =>
      reply == if k in c.experiments && RefusesFinalizer(c.experiments[k]) then Error(Other) else Present(k in c.experiments)
    case RemoveFinalizer(k) => reply == Present(k in c.experiments)
    case PatchStatus(k, _) => reply == Present(k in c.experiments)
    case ListNodes(ns) => reply == NodeList(if ns in c.nodes then c.nodes[ns] else [])
    case CreateJob(k, _) => reply == Created(k in c.jobs)
    case ListJobs(ns, name) => reply.JobList? && IsJobListing(c, ns, name, reply.jobs)
    case DeleteJob(k) => reply == Present(k in c.jobs)
    case GetSelector(k) => reply == if k in c.selectors then Selector(c.selectors[k]) else Error(NotFound)
    case ListServices(ns) => reply.ServiceList? && IsServiceListing(c, ns, reply.services)
    case ResolveEdge(_, _) => reply == Ack || reply == Error(Other)
    case CreateService(k, _) => reply == Created(k in c.services)
    case DeleteService(k) => reply == Present(k in c.services)
    case ReadClock => reply == Time(c.clock)
  }

  predicate Serve(mode: PatchMode, c: Cluster, who: string, req: Request, delivery: Delivery, c': Cluster, reply: Reply) {
    if req.ReadClock? then c' == c && reply == Time(c.clock)
    else match delivery
      case Served => c' == Effect(mode, c, who, req) && Answers(c, req, reply)
      case ReplyLost => c' == Effect(mode, c, who, req) && reply == Error(Other)
      case Refused => c' == c && reply == Error(Other)
  }

  // ── The environment ──

  datatype Move =
    | Tick(time: int)
    | CreateExperiment(key: Key, uid: string, spec: Spec, finalizers: seq<string>)
    | MarkDeleted(key: Key)
    | PutService(key: Key, service: VirtualService)
    | DropService(key: Key)
    | PutJob(key: Key, job: Job)
    | ReportJob(key: Key, succeeded: int, failed: int)
    | DropJob(key: Key)
    | CollectGarbage(ns: string)
    | SetSelectors(selectors: map<Key, Labels>)
    | SetNodes(ns: string, nodes: seq<string>)

  predicate FreshUid(c: Cluster, uid: string) {
    && |uid| >= 8
    && uid !in c.registry
    && forall u :: u in c.registry ==> Prefix(u) != Prefix(uid)
  }

  /** The environment neither carries the operator's marks nor takes the names reserved for its services. */
  predicate MayMove(c: Cluster, m: Move) {
    match m
    case Tick(t) => t >= c.clock
    case CreateExperiment(k, uid, _, _) => k !in c.experiments && FreshUid(c, uid)
    case PutService(k, vs) =>
      && !IsChaosManaged(vs.labels)
      && vs.creator.None?
      && forall u :: u in c.registry ==> k.name != VirtualServiceName(u)
    case PutJob(k, job) => job.creator.None? && (k in c.jobs ==> c.jobs[k].creator.None?)
    case _ => true
  }

  predicate OwnerAlive(c: Cluster, ns: string, owner: string) {
    exists k :: k in c.experiments && k.ns == ns && c.experiments[k].uid == owner
  }

  /** Owner-based garbage collection: dependents in `ns` whose owner is not in `ns` go. */
  function Collect(c: Cluster, ns: string): map<Key, Job> {
    map k | k in c.jobs && (k.ns == ns && c.jobs[k].owner.Some? ==> OwnerAlive(c, ns, c.jobs[k].owner.value)) :: c.jobs[k]
  }

  function MovedExperiments(xs: map<Key, Experiment>, m: Move): map<Key, Experiment> {
    match m
    case CreateExperiment(k, uid, spec, finalizers) => xs[k := Experiment(uid, spec, finalizers, false, EMPTY)]
    case MarkDeleted(k) =>
      if k !in xs then xs
      else if xs[k].finalizers == [] then xs - {k}
      else xs[k := xs[k].(deleting := true)]
    case _ => xs
  }

  function MovedServices(services: map<Key, VirtualService>, m: Move): map<Key, VirtualService> {
    match m
    case PutService(k, vs) => services[k := vs]
    case DropService(k) => services - {k}
    case _ => services
  }

  function MovedJobs(c: Cluster, m: Move): map<Key, Job> {
    match m
    case PutJob(k, job) => c.jobs[k := job]
    case ReportJob(k, s, f) => if k in c.jobs then c.jobs[k := c.jobs[k].(succeeded := s, failed := f)] else c.jobs
    case DropJob(k) => c.jobs - {k}
    case CollectGarbage(ns) => Collect(c, ns)
    case _ => c.jobs
  }

  function Moved(c: Cluster, m: Move): Cluster {
    Cluster(
      MovedExperiments(c.experiments, m), MovedJobs(c, m), MovedServices(c.services, m),
      if m.SetSelectors? then m.selectors else c.selectors,
      if m.SetNodes? then c.nodes[m.ns := m.nodes] else c.nodes,
      if m.Tick? then m.time else c.clock,
      if m.CreateExperiment? then c.registry[m.uid := m.key] else c.registry)
  }
}
