/**
 The handlers as they run: straight code and loops around calls to the API server. Each is proved to drive its pass
 along the process of module Process, so every theorem about runs of the machine is about this code.
 */
module Reconciler {
  import opened Types
  import opened ExperimentStatus
  import opened Names
  import opened Routing
  import opened ApiServer
  import opened Process
  import opened Machine
  import opened CleanupSafety
  import opened HandlerCalls

  /** The kind of reply each request can get. */
  predicate Shaped(req: Request, reply: Reply) {
    reply.Error? ||
    match req
    case ListNodes(_) => reply.NodeList?
    case ListJobs(_, _) => reply.JobList?
    case ListServices(_) => reply.ServiceList?
    case GetSelector(_) => reply.Selector?
    case ReadClock => reply.Time?
    case _ => reply.Ack?
  }

  lemma ServedShaped(mode: PatchMode, c: Cluster, who: string, req: Request, delivery: Delivery, c': Cluster, reply: Reply)
    requires Serve(mode, c, who, req, delivery, c', reply)
    ensures Shaped(req, reply) && (req.ReadClock? ==> reply.Time?)
  {
    hide Effect, IsJobListing, IsServiceListing;
  }

  method ListServicesIn(c: Cluster, ns: string) returns (infos: seq<ServiceInfo>)
    ensures IsServiceListing(c, ns, infos)
  {
    infos := [];
    var rest := set k | k in c.services && k.ns == ns;
    while rest != {}
      invariant forall k :: k in rest ==> k in c.services && k.ns == ns
      invariant forall k :: k in c.services && k.ns == ns && k !in rest ==> ServiceInfo(k.name, c.services[k].labels) in infos
      invariant forall i :: i in infos ==> Key(ns, i.name) in c.services && c.services[Key(ns, i.name)].labels == i.labels
      decreases |rest|
    {
      var k :| k in rest;
      rest := rest - {k};
      infos := infos + [ServiceInfo(k.name, c.services[k].labels)];
    }
  }

  method ListJobsOf(c: Cluster, ns: string, experiment: string) returns (jobs: seq<Job>)
    ensures IsJobListing(c, ns, experiment, jobs)
  {
    jobs := [];
    ghost var keys := set k | k in c.jobs && k.ns == ns && EXPERIMENT_LABEL in c.jobs[k].labels
                              && c.jobs[k].labels[EXPERIMENT_LABEL] == experiment;
    var rest := set k | k in c.jobs && k.ns == ns && EXPERIMENT_LABEL in c.jobs[k].labels
                        && c.jobs[k].labels[EXPERIMENT_LABEL] == experiment;
    while rest != {}
      invariant rest <= keys
      invariant forall k :: k in keys && k !in rest ==> c.jobs[k] in jobs
      invariant forall j :: j in jobs ==> exists k :: k in keys && c.jobs[k] == j
      decreases |rest|
    {
      var k :| k in rest;
      rest := rest - {k};
      jobs := jobs + [c.jobs[k]];
    }
  }

  method Answer(c: Cluster, req: Request) returns (reply: Reply)
    ensures Answers(c, req, reply)
  {
    match req
    case ListNodes(ns) => reply := NodeList(if ns in c.nodes then c.nodes[ns] else []);
    case CreateJob(k, _) => reply := Created(k in c.jobs);
    case ListJobs(ns, name) => var jobs := ListJobsOf(c, ns, name); reply := JobList(jobs);
    case DeleteJob(k) => reply := Present(k in c.jobs);
    case GetSelector(k) => reply := if k in c.selectors then Selector(c.selectors[k]) else Error(NotFound);
    case ListServices(ns) => var infos := ListServicesIn(c, ns); reply := ServiceList(infos);
    case ResolveEdge(_, _) => var found: bool := *; reply := if found then Ack else Error(Other);
    case CreateService(k, _) => reply := Created(k in c.services);
    case DeleteService(k) => reply := Present(k in c.services);
    case ReadClock => reply := Time(c.clock);
    case AddFinalizer(k) =>
      reply := if k in c.experiments && RefusesFinalizer(c.experiments[k]) then Error(Other) else Present(k in c.experiments);
    case RemoveFinalizer(k) => reply := Present(k in c.experiments);
    case PatchStatus(k, _) => reply := Present(k in c.experiments);
  }

  method ServeWith(c: Cluster, who: string, req: Request, delivery: Delivery) returns (c': Cluster, reply: Reply)
    ensures Serve(Merge, c, who, req, delivery, c', reply)
  {
    hide Effect, Answers;
    c' := c;
    if req.ReadClock? {
      reply := Time(c.clock);
      return;
    }
    if !delivery.Refused? { c' := Effect(Merge, c, who, req); }
    if delivery.Served? {
      reply := Answer(c, req);
    } else {
      reply := Error(Other);
    }
  }

  /** The connection to the API server. `state` is the cluster with all passes in flight; `run` is how it got there. */
  class KubeClient {
    var state: State
    ghost var run: Run

    ghost predicate Valid()
      reads this
    {
      LeadsTo(run, state)
    }

    /** The pass of `s` is in flight and stands at `pc`. */
    ghost predicate At(s: Snapshot, pc: Pc)
      reads this
    {
      Valid() && s.key in state.passes && state.passes[s.key].snap == s && state.passes[s.key].pc == pc
    }

    constructor (initial: State)
      ensures Valid() && state == initial && run == Run([initial], [])
    {
      state := initial;
      run := Run([initial], []);
    }

    lemma NothingMade(s: Snapshot, pc: Pc)
      requires At(s, pc)
      ensures Made(run, run, s.key, [])
    {
      MadeNothing(run, s.key);
    }

    /** One step of the pass of `k` itself: it begins or ends. */
    method Step(k: Key, l: Label, next: State)
      requires Valid() && StepBy(Merge, state, l, next) && (l == Begin(k) || l == End(k))
      modifies this
      ensures Valid() && state == next && Made(old(run), run, k, [])
    {
      hide StepBy, Made;
      RunGoesOn(run, state, l, next);
      MadeOne(run, l, next, k);
      state, run := next, Then(run, l, next);
    }

    /**
     Others may move between two calls: the environment, and the passes of other experiments. Callers know only the
     contract, which allows any such moves; the body is the instance in which nobody moved.
     */
    method Interfere(k: Key)
      requires Valid()
      modifies this
      ensures Valid() && Made(old(run), run, k, []) && (k in state.passes <==> k in old(state.passes))
      ensures k in state.passes ==> state.passes[k] == old(state.passes[k])
    {
      MadeNothing(run, k);
    }

    /**
     One call of the pass of `s`, which must be the one its process makes next. Others may move before it, and it may
     fail or lose its reply. `call` is the call with its reply: the only one the pass has made since.
     */
    method Call(s: Snapshot, ghost pc: Pc, req: Request) returns (reply: Reply, ghost call: Calls)
      requires At(s, pc) && !pc.Finished? && req == Next(s, pc)
      modifies this
      ensures At(s, Resume(s, pc, reply))
      ensures call == [Exchange(req, reply)] && Made(old(run), run, s.key, call)
      ensures Shaped(req, reply) && (req.ReadClock? ==> reply.Time?)
    {
      hide Next, Resume, Serve, LeadsTo, Made;
      Interfere(s.key);
      ghost var between := run;
      var delivery: Delivery := *;
      var c := state.c;
      var c';
      c', reply := ServeWith(c, s.exp.uid, req, delivery);
      ServedShaped(Merge, c, s.exp.uid, req, delivery, c', reply);
      var next := State(c', state.passes[s.key := Advance(state.passes[s.key], reply)]);
      ghost var l := Label.Call(s.key, delivery, reply);
      call := [Exchange(req, reply)];
      CallGoesOn(run, state, l, next, s.key);
      state, run := next, Then(run, l, next);
      MadeThen(old(run), between, run, s.key, [], call);
      assert [] + call == call;
    }
  }

  lemma CallGoesOn(r: Run, s: State, l: Label, s': State, k: Key)
    requires LeadsTo(r, s) && StepBy(Merge, s, l, s')
    ensures LeadsTo(Then(r, l, s'), s') && Made(r, Then(r, l, s'), k, ExchangeOf(s, l, k))
  {
    hide StepBy, Made, ExchangeOf;
    RunGoesOn(r, s, l, s');
    MadeOne(r, l, s', k);
  }

  // ── Handlers. `ok` is false where the handler returns an error; `calls` are the calls it made. ──

  method PatchExperimentStatus(kube: KubeClient, s: Snapshot, st: Status) returns (ok: bool, ghost calls: Calls)
    requires kube.At(s, Patching(st))
    modifies kube
    ensures kube.At(s, Finished(if ok then AFTER_PASS else Aborted))
    ensures Made(old(kube.run), kube.run, s.key, calls) && PatchesTo(s, calls, st, ok)
  {
    hide KubeClient.At, Made;
    var reply;
    reply, calls := kube.Call(s, Patching(st), PatchStatus(s.key, st));
    ok := reply.Ack?;
  }

  method PatchFailed(kube: KubeClient, s: Snapshot, error: ValidationError) returns (ok: bool, ghost calls: Calls)
    requires kube.At(s, Reject(error))
    modifies kube
    ensures kube.At(s, Finished(if ok then AFTER_PASS else Aborted))
    ensures Made(old(kube.run), kube.run, s.key, calls) && Rejects(s, calls, error, ok)
  {
    hide KubeClient.At, Made, PatchesTo;
    ok, calls := PatchExperimentStatus(kube, s, EMPTY.(phase := Phase.Failed, message := Some(Rejected(error))));
  }

  lemma SelectedCons(infos: seq<ServiceInfo>, experiment: string)
    requires infos != []
    ensures Selected(infos, experiment) == Chosen(infos[0], experiment) + Selected(infos[1..], experiment)
  {
    hide BelongsTo;
  }

  function Chosen(info: ServiceInfo, experiment: string): seq<string> {
    if BelongsTo(info.labels, experiment) then [info.name] else []
  }

  lemma {:induction false} SelectedConcat(a: seq<ServiceInfo>, b: seq<ServiceInfo>, experiment: string)
    ensures Selected(a + b, experiment) == Selected(a, experiment) + Selected(b, experiment)
  {
    hide Selected, Chosen, BelongsTo;
    if a == [] {
      NothingSelected(experiment);
      assert a + b == b;
    } else {
      SelectedConcat(a[1..], b, experiment);
      SelectedCons(a, experiment);
      SelectedCons(a + b, experiment);
      assert (a + b)[1..] == a[1..] + b && (a + b)[0] == a[0];
    }
  }

  lemma SelectedOne(info: ServiceInfo, experiment: string)
    ensures Selected([info], experiment) == Chosen(info, experiment)
  {
    hide BelongsTo;
    assert [info][1..] == [];
  }

  lemma SelectedFrom(all: seq<ServiceInfo>, i: nat, experiment: string)
    requires i < |all|
    ensures Selected(all[i..], experiment)
            == Chosen(all[i], experiment) + Selected(all[i + 1..], experiment)
    ensures Selected(all[..i + 1], experiment)
            == Selected(all[..i], experiment) + Chosen(all[i], experiment)
  {
    hide BelongsTo, Selected;
    SelectedOne(all[i], experiment);
    SelectedConcat([all[i]], all[i + 1..], experiment);
    SelectedConcat(all[..i], [all[i]], experiment);
    assert all[i..] == [all[i]] + all[i + 1..] && all[..i + 1] == all[..i] + [all[i]];
  }

  /** Working off one more planned request. */
  lemma WorksOffNext(calls: Calls, plan: seq<Request>, call: Exchange, tolerated: Failure)
    requires WorksOff(calls, plan, tolerated, true)
    ensures WorksOff(calls + [call], plan + [call.request], tolerated, Settled(call.reply, tolerated))
  {
    hide Settled;
  }

  lemma WorksOffLonger(calls: Calls, plan: seq<Request>, tolerated: Failure, rest: seq<Request>)
    requires WorksOff(calls, plan, tolerated, false)
    ensures WorksOff(calls, plan + rest, tolerated, false)
  {
    hide Settled;
  }

  lemma DeletionsAppend(ns: string, names: seq<string>, name: string)
    ensures Deletions(ns, names + [name]) == Deletions(ns, names) + [DeleteService(Key(ns, name))]
  {
  }

  lemma DeletionsSplit(ns: string, names: seq<string>, more: seq<string>)
    ensures Deletions(ns, names + more) == Deletions(ns, names) + Deletions(ns, more)
  {
  }

  /** The deletions made by step `i` of a cleanup, after one that failed. */
  lemma StoppedDeleting(s: Snapshot, dels: Calls, all: seq<ServiceInfo>, i: nat)
    requires i < |all|
    requires WorksOff(dels, Deletions(s.Target(), Selected(all[..i + 1], s.key.name)), NotFound, false)
    ensures WorksOff(dels, Deletions(s.Target(), Selected(all, s.key.name)), NotFound, false)
  {
    hide WorksOff, Deletions, Selected;
    SelectedConcat(all[..i + 1], all[i + 1..], s.key.name);
    assert all == all[..i + 1] + all[i + 1..];
    var before, after := Selected(all[..i + 1], s.key.name), Selected(all[i + 1..], s.key.name);
    DeletionsSplit(s.Target(), before, after);
    WorksOffLonger(dels, Deletions(s.Target(), before), NotFound, Deletions(s.Target(), after));
  }

  /** One deletion of a cleanup; a service that is already gone counts as deleted. */
  method DeleteListed(kube: KubeClient, s: Snapshot, ghost why: Cleanup, name: string, ghost rest: seq<string>)
    returns (ok: bool, ghost calls: Calls)
    requires kube.At(s, DeletingServices(why, name, rest))
    modifies kube
    ensures kube.At(s, if ok then DeleteServicesThen(s, why, rest) else CleanupFailed(why))
    ensures Made(old(kube.run), kube.run, s.key, calls) && |calls| == 1
    ensures calls[0].request == DeleteService(Key(s.Target(), name)) && (ok <==> Settled(calls[0].reply, NotFound))
  {
    hide KubeClient.At, Made;
    var reply;
    reply, calls := kube.Call(s, DeletingServices(why, name, rest), DeleteService(Key(s.Target(), name)));
    ok := !(reply.Error? && reply.failure != NotFound);
  }

  lemma Listed(s: Snapshot, calls: Calls, dels: Calls, ok: bool)
    requires calls != [] && calls[0].request == ListServices(s.Target()) && calls[0].reply.ServiceList? && dels == calls[1..]
    requires WorksOff(dels, Deletions(s.Target(), Selected(calls[0].reply.services, s.key.name)), NotFound, ok)
    ensures CleansUp(s, calls, ok)
  {
  }

  lemma NothingDeleted(ns: string)
    ensures WorksOff([], Deletions(ns, []), NotFound, true)
  {
  }

  lemma OneMore(s: Snapshot, listing: Exchange, dels: Calls, names: seq<string>, name: string, call: Calls)
    returns (dels': Calls, calls': Calls)
    requires WorksOff(dels, Deletions(s.Target(), names), NotFound, true)
    requires |call| == 1 && call[0].request == DeleteService(Key(s.Target(), name))
    ensures calls' == ([listing] + dels) + call == [listing] + dels'
    ensures WorksOff(dels', Deletions(s.Target(), names + [name]), NotFound, Settled(call[0].reply, NotFound))
  {
    hide WorksOff, Deletions, Settled;
    DeletionsAppend(s.Target(), names, name);
    WorksOffNext(dels, Deletions(s.Target(), names), call[0], NotFound);
    assert call == [call[0]];
    dels', calls' := dels + call, ([listing] + dels) + call;
  }

  method CleanupVirtualServices(kube: KubeClient, s: Snapshot, ghost why: Cleanup) returns (ok: bool, ghost calls: Calls)
    requires kube.At(s, ListingManaged(why))
    modifies kube
    ensures kube.At(s, if ok then CleanedUp(s, why) else CleanupFailed(why))
    ensures Made(old(kube.run), kube.run, s.key, calls) && CleansUp(s, calls, ok)
  {
    hide KubeClient.At, Made, BelongsTo, Selected, WorksOff, Deletions;
    var reply;
    reply, calls := kube.Call(s, ListingManaged(why), ListServices(s.Target()));
    if reply.Error? { return false, calls; }
    var all := reply.services;
    ghost var listing := calls[0];
    ghost var dels: Calls := [];
    assert all[0..] == all && all[..0] == [] && calls == [listing] + dels;
    NothingSelected(s.key.name);
    NothingDeleted(s.Target());
    for i := 0 to |all|
      invariant kube.At(s, DeleteServicesThen(s, why, Selected(all[i..], s.key.name)))
      invariant Made(old(kube.run), kube.run, s.key, calls) && calls == [listing] + dels
      invariant WorksOff(dels, Deletions(s.Target(), Selected(all[..i], s.key.name)), NotFound, true)
    {
      SelectedFrom(all, i, s.key.name);
      if BelongsTo(all[i].labels, s.key.name) {
        ghost var rest := Selected(all[i + 1..], s.key.name);
        DeletesFirst(s, why, all[i].name, rest);
        ghost var before := kube.run;
        var deleted, call := DeleteListed(kube, s, why, all[i].name, rest);
        MadeThen(old(kube.run), before, kube.run, s.key, calls, call);
        dels, calls := OneMore(s, listing, dels, Selected(all[..i], s.key.name), all[i].name, call);
        if !deleted {
          StoppedDeleting(s, dels, all, i);
          assert calls[1..] == dels;
          Listed(s, calls, dels, false);
          return false, calls;
        }
      } else {
        SkipsNothing(all, i, s.key.name);
      }
    }
    assert all[|all|..] == [] && all[..|all|] == all;
    assert calls[1..] == dels;
    Listed(s, calls, dels, true);
    ok := true;
  }

  lemma SkipsNothing(all: seq<ServiceInfo>, i: nat, experiment: string)
    requires i < |all| && !BelongsTo(all[i].labels, experiment)
    ensures Selected(all[..i + 1], experiment) == Selected(all[..i], experiment)
    ensures Selected(all[i..], experiment) == Selected(all[i + 1..], experiment)
  {
    hide BelongsTo, Selected;
    SelectedFrom(all, i, experiment);
  }

  lemma NothingSelected(experiment: string)
    ensures Selected([], experiment) == []
  {
  }

  lemma DeletesFirst(s: Snapshot, why: Cleanup, name: string, rest: seq<string>)
    ensures DeleteServicesThen(s, why, [name] + rest) == DeletingServices(why, name, rest)
  {
  }

  /** The loop deletion and terminal passes start with: one call per listed job, whatever the replies. */
  method DeleteRunnerJobs(kube: KubeClient, s: Snapshot, ghost why: Cleanup) returns (ghost calls: Calls)
    requires kube.At(s, DeleteJobsThen(s, why, s.exp.status.runnerJobs))
    modifies kube
    ensures kube.At(s, DeleteJobsThen(s, why, []))
    ensures Made(old(kube.run), kube.run, s.key, calls) && DeletesJobs(s, calls)
  {
    hide KubeClient.At, Made;
    var jobs := s.exp.status.runnerJobs;
    calls := [];
    kube.NothingMade(s, DeleteJobsThen(s, why, jobs));
    assert jobs[0..] == jobs;
    for i := 0 to |jobs|
      invariant kube.At(s, DeleteJobsThen(s, why, jobs[i..]))
      invariant Made(old(kube.run), kube.run, s.key, calls) && |calls| == i
      invariant forall j :: 0 <= j < i ==> calls[j].request == DeleteJob(Key(s.key.ns, jobs[j]))
    {
      assert jobs[i..][0] == jobs[i] && jobs[i..][1..] == jobs[i + 1..];
      ghost var before := kube.run;
      var _, call := kube.Call(s, DeletingJobs(why, jobs[i], jobs[i + 1..]), DeleteJob(Key(s.key.ns, jobs[i])));
      MadeThen(old(kube.run), before, kube.run, s.key, calls, call);
      calls := calls + call;
    }
  }

  method HandleDeletion(kube: KubeClient, s: Snapshot) returns (ok: bool, ghost calls: Calls)
    requires kube.At(s, DeleteJobsThen(s, Deletion, s.exp.status.runnerJobs))
    modifies kube
    ensures kube.At(s, Finished(if ok then Done else Aborted))
    ensures Made(old(kube.run), kube.run, s.key, calls) && Deletes(s, calls, ok)
  {
    hide KubeClient.At, Made, DeletesJobs, CleansUp;
    ghost var jobCalls := DeleteRunnerJobs(kube, s, Deletion);
    ghost var cleanupCalls: Calls := [];
    calls := jobCalls;
    if s.IsEdge() {
      ghost var before := kube.run;
      var _, cleanup := CleanupVirtualServices(kube, s, Deletion);
      MadeThen(old(kube.run), before, kube.run, s.key, jobCalls, cleanup);
      cleanupCalls, calls := cleanup, jobCalls + cleanup;
    }
    ghost var before := kube.run;
    var reply, call := kube.Call(s, RemovingFinalizer, RemoveFinalizer(s.key));
    MadeThen(old(kube.run), before, kube.run, s.key, calls, call);
    ok := reply.Ack?;
    DeletionCalls(s, jobCalls, cleanupCalls, call, ok);
    assert jobCalls + [] == jobCalls;
    calls := calls + call;
  }

  lemma DeletionCalls(s: Snapshot, jobCalls: Calls, cleanup: Calls, call: Calls, ok: bool)
    requires DeletesJobs(s, jobCalls) && |call| == 1 && call[0].request == RemoveFinalizer(s.key) && ok == call[0].reply.Ack?
    requires if s.IsEdge() then CleansUp(s, cleanup, true) || CleansUp(s, cleanup, false) else cleanup == []
    ensures Deletes(s, jobCalls + cleanup + call, ok)
  {
    hide CleansUp;
    var calls, n := jobCalls + cleanup + call, |jobCalls|;
    assert calls[..n] == jobCalls && calls[n..|calls| - 1] == cleanup;
  }

  lemma CreationsAppend(s: Snapshot, nodes: seq<string>, node: string)
    ensures Creations(s, nodes + [node])
            == Creations(s, nodes) + [CreateJob(Key(s.key.ns, JobName(s.Id(), node)), RunnerJob(s))]
  {
    hide JobName, RunnerJob;
  }

  lemma StoppedCreating(s: Snapshot, creates: Calls, nodes: seq<string>, i: nat)
    requires i < |nodes| && WorksOff(creates, Creations(s, nodes[..i + 1]), AlreadyExists, false)
    ensures WorksOff(creates, Creations(s, nodes), AlreadyExists, false)
  {
    hide WorksOff, JobName, RunnerJob;
    var rest := Creations(s, nodes[i + 1..]);
    assert Creations(s, nodes) == Creations(s, nodes[..i + 1]) + rest;
    WorksOffLonger(creates, Creations(s, nodes[..i + 1]), AlreadyExists, rest);
  }

  /** The loop that creates one job per node and collects their names. */
  method CreateJobs(kube: KubeClient, s: Snapshot, nodes: seq<string>)
    returns (ok: bool, jobNames: seq<string>, ghost calls: Calls)
    requires nodes != [] && kube.At(s, CreateJobsThen(nodes, nodes))
    modifies kube
    ensures kube.At(s, if ok then StampingNodes(nodes) else Finished(Aborted))
    ensures Made(old(kube.run), kube.run, s.key, calls) && WorksOff(calls, Creations(s, nodes), AlreadyExists, ok)
    ensures ok ==> jobNames == JobNames(s.Id(), nodes)
  {
    hide KubeClient.At, Made, WorksOff, Creations, JobNames, JobName, RunnerJob;
    jobNames, calls := [], [];
    kube.NothingMade(s, CreateJobsThen(nodes, nodes));
    NothingCreated(s);
    assert nodes[0..] == nodes && nodes[..0] == [];
    for i := 0 to |nodes|
      invariant kube.At(s, CreateJobsThen(nodes, nodes[i..]))
      invariant jobNames == JobNames(s.Id(), nodes[..i])
      invariant Made(old(kube.run), kube.run, s.key, calls)
      invariant WorksOff(calls, Creations(s, nodes[..i]), AlreadyExists, true)
    {
      var node := nodes[i];
      var jobName := JobName(s.Id(), node);
      assert nodes[i..][0] == node && nodes[i..][1..] == nodes[i + 1..] && nodes[..i + 1] == nodes[..i] + [node];
      ghost var before := kube.run;
      var reply, call :=
        kube.Call(s, CreatingJobs(nodes, node, nodes[i + 1..]), CreateJob(Key(s.key.ns, jobName), RunnerJob(s)));
      MadeThen(old(kube.run), before, kube.run, s.key, calls, call);
      CreationsAppend(s, nodes[..i], node);
      WorksOffNext(calls, Creations(s, nodes[..i]), call[0], AlreadyExists);
      calls := calls + call;
      if reply.Error? && reply.failure != AlreadyExists {
        StoppedCreating(s, calls, nodes, i);
        return false, jobNames, calls;
      }
      JobNamesAppend(s.Id(), nodes[..i], node);
      jobNames := jobNames + [jobName];
    }
    assert nodes[..|nodes|] == nodes;
    ok := true;
  }

  lemma NothingCreated(s: Snapshot)
    ensures WorksOff([], Creations(s, []), AlreadyExists, true) && JobNames(s.Id(), []) == []
  {
  }

  method HandlePendingPod(kube: KubeClient, s: Snapshot) returns (ok: bool, ghost calls: Calls)
    requires kube.At(s, ListingNodes)
    modifies kube
    ensures kube.At(s, Finished(if ok then AFTER_PASS else Aborted))
    ensures Made(old(kube.run), kube.run, s.key, calls) && LaunchesPods(s, calls, ok)
  {
    hide KubeClient.At, Made, WorksOff, Creations, JobNames, StartsRunning, Rejects;
    var reply;
    reply, calls := kube.Call(s, ListingNodes, ListNodes(s.Target()));
    if reply.Error? { return false, calls; }
    var nodes := reply.nodes;
    ghost var listing, before := calls, kube.run;
    ghost var more: Calls;
    if nodes == [] {
      ok, more := PatchFailed(kube, s, NoTargetNodes);
      MadeThen(old(kube.run), before, kube.run, s.key, listing, more);
      calls := listing + more;
      assert calls[1..] == more;
      return;
    }
    var jobNames;
    ok, jobNames, more := CreateJobs(kube, s, nodes);
    MadeThen(old(kube.run), before, kube.run, s.key, listing, more);
    calls := listing + more;
    if !ok {
      StoppedShort(s, nodes, more);
      assert calls[1..] == more;
      return;
    }
    ghost var start;
    before := kube.run;
    ok, start := StampStart(kube, s, StampingNodes(nodes), RunningOnNodes(|nodes|, s.exp.spec.duration), jobNames);
    MadeThen(old(kube.run), before, kube.run, s.key, calls, start);
    calls := calls + start;
    AllCreated(s, nodes, more);
    StartTakesCalls(s, start, RunningOnNodes(|nodes|, s.exp.spec.duration), jobNames, ok);
    assert calls[1..1 + |nodes|] == more && calls[1 + |nodes|..] == start;
  }

  lemma StoppedShort(s: Snapshot, nodes: seq<string>, creates: Calls)
    requires WorksOff(creates, Creations(s, nodes), AlreadyExists, false)
    ensures |creates| <= |nodes|
  {
  }

  lemma AllCreated(s: Snapshot, nodes: seq<string>, creates: Calls)
    requires WorksOff(creates, Creations(s, nodes), AlreadyExists, true)
    ensures |creates| == |nodes|
  {
  }

  lemma StartTakesCalls(s: Snapshot, calls: Calls, message: Message, jobs: seq<string>, ok: bool)
    requires StartsRunning(s, calls, message, jobs, ok)
    ensures |calls| == 2
  {
  }

  /** Where both kinds of launch end: stamp the start and patch the status. */
  method StampStart(kube: KubeClient, s: Snapshot, ghost pc: Pc, message: Message, jobs: seq<string>)
    returns (ok: bool, ghost calls: Calls)
    requires kube.At(s, pc)
    requires || (pc.StampingNodes? && message == RunningOnNodes(|pc.nodes|, s.exp.spec.duration)
                 && jobs == JobNames(s.Id(), pc.nodes))
             || (pc.StampingEdge? && message == RunningOnEdge(pc.edge, s.exp.spec.duration) && jobs == [])
    modifies kube
    ensures kube.At(s, Finished(if ok then AFTER_PASS else Aborted))
    ensures Made(old(kube.run), kube.run, s.key, calls) && StartsRunning(s, calls, message, jobs, ok)
  {
    hide KubeClient.At, Made, JobNames, PatchesTo;
    var reply;
    ghost var patch;
    reply, calls := kube.Call(s, pc, ReadClock);
    ghost var before := kube.run;
    ok, patch := PatchExperimentStatus(kube, s, EMPTY.(
      phase := Running, message := Some(message), startedAt := Some(reply.time),
      experimentId := Some(s.Id()), runnerJobs := jobs));
    MadeThen(old(kube.run), before, kube.run, s.key, calls, patch);
    assert |patch| == 1 by { PatchIsOne(s, patch, EMPTY.(
      phase := Running, message := Some(message), startedAt := Some(reply.time),
      experimentId := Some(s.Id()), runnerJobs := jobs), ok); }
    calls := calls + patch;
    assert calls[1..] == patch;
  }

  lemma PatchIsOne(s: Snapshot, calls: Calls, st: Status, ok: bool)
    requires PatchesTo(s, calls, st, ok)
    ensures |calls| == 1
  {
  }

  /** The second half of `HandlePendingEdge`, from resolving the edge on. */
  method InjectFault(kube: KubeClient, s: Snapshot, edge: Edge, source: Labels) returns (ok: bool, ghost calls: Calls)
    requires kube.At(s, ResolvingEdge(edge, source))
    modifies kube
    ensures kube.At(s, Finished(if ok then AFTER_PASS else Aborted))
    ensures Made(old(kube.run), kube.run, s.key, calls) && Injects(s, edge, source, calls, ok)
  {
    hide KubeClient.At, Made, BuildFault, AsksFor, LacksFault, VirtualServiceName, BuildVirtualService, StartsRunning, Rejects,
      JobNames, Selected, RunnerJob, Elapsed, AnyFailed, AllSucceeded, IsChaosManaged;
    var reply;
    reply, calls := kube.Call(s, ResolvingEdge(edge, source), ResolveEdge(edge, s.Target()));
    ghost var before := kube.run;
    ghost var more: Calls;
    if reply.Error? {
      ok, more := PatchFailed(kube, s, EdgeUnresolved);
      MadeThen(old(kube.run), before, kube.run, s.key, calls, more);
      calls := calls + more;
      assert calls[1..] == more;
      return;
    }
    var fault := BuildFault(s.exp.spec.scenario, s.exp.spec.parameters);
    FaultAskedFor(s.exp.spec.scenario, s.exp.spec.parameters);
    if fault.None? {
      ok, more := PatchFailed(kube, s, NoFault);
      MadeThen(old(kube.run), before, kube.run, s.key, calls, more);
      calls := calls + more;
      assert calls[1..] == more;
      return;
    }
    var host := Fqdn(edge.destination, s.Target());
    var vs := BuildVirtualService(ServiceSpec(s.key.name, s.exp.uid, host, source, fault.value));
    reply, more := kube.Call(s, CreatingService(edge, source, fault.value),
                             CreateService(Key(s.Target(), VirtualServiceName(s.Id())), vs));
    MadeThen(old(kube.run), before, kube.run, s.key, calls, more);
    calls := calls + more;
    if reply.Error? && reply.failure != AlreadyExists { return false, calls; }

    before := kube.run;
    ok, more := StampStart(kube, s, StampingEdge(edge), RunningOnEdge(edge, s.exp.spec.duration), []);
    MadeThen(old(kube.run), before, kube.run, s.key, calls, more);
    calls := calls + more;
    assert calls[2..] == more;
  }

  method HandlePendingEdge(kube: KubeClient, s: Snapshot, edge: Edge) returns (ok: bool, ghost calls: Calls)
    requires kube.At(s, ReadingSelector(edge))
    modifies kube
    ensures kube.At(s, Finished(if ok then AFTER_PASS else Aborted))
    ensures Made(old(kube.run), kube.run, s.key, calls) && LaunchesEdge(s, edge, calls, ok)
  {
    hide KubeClient.At, Made, SomeUnmanaged, IsChaosManaged, Rejects, Injects, JobNames, Selected, BuildFault, RunnerJob, EdgeService, Elapsed,
      AnyFailed, AllSucceeded, VirtualServiceName;
    var reply;
    reply, calls := kube.Call(s, ReadingSelector(edge), GetSelector(Key(s.Target(), edge.source)));
    ghost var before := kube.run;
    ghost var more: Calls;
    if reply.Error? || reply.labels == map[] {
      ok, more := PatchFailed(kube, s, SourceServiceNotFound(edge.source));
      MadeThen(old(kube.run), before, kube.run, s.key, calls, more);
      calls := calls + more;
      assert calls[1..] == more;
      return;
    }
    var source := reply.labels;
    reply, more := kube.Call(s, ListingConflicts(edge, source), ListServices(s.Target()));
    MadeThen(old(kube.run), before, kube.run, s.key, calls, more);
    calls := calls + more;
    if reply.Error? { return false, calls; }
    var existing := reply.services;
    SomeUnmanagedIff(existing);
    before := kube.run;
    for i := 0 to |existing|
      invariant kube.run == before && kube.At(s, Resume(s, ListingConflicts(edge, source), reply))
      invariant forall j :: 0 <= j < i ==> IsChaosManaged(existing[j].labels)
    {
      if !IsChaosManaged(existing[i].labels) {
        assert existing[i] in existing;
        ok, more := PatchFailed(kube, s, ConflictingVirtualService(Fqdn(edge.destination, s.Target())));
        MadeThen(old(kube.run), before, kube.run, s.key, calls, more);
        ghost var asked := calls;
        calls := calls + more;
        assert calls[2..] == more && calls[0] == asked[0] && calls[1] == asked[1];
        return;
      }
    }
    ok, more := InjectFault(kube, s, edge, source);
    MadeThen(old(kube.run), before, kube.run, s.key, calls, more);
    calls := calls + more;
    assert calls[2..] == more;
  }

  method HandlePending(kube: KubeClient, s: Snapshot) returns (ok: bool, ghost calls: Calls)
    requires kube.At(s, Start(s)) && !NeedsFinalizer(s.exp) && !s.exp.deleting && s.exp.status.phase.Pending?
    modifies kube
    ensures kube.At(s, Finished(if ok then AFTER_PASS else Aborted))
    ensures Made(old(kube.run), kube.run, s.key, calls) && Launches(s, calls, ok)
  {
    hide KubeClient.At, Made, NeedsFinalizer, Rejects, LaunchesEdge, LaunchesPods;
    var error := Validate(s.exp.spec);
    if error.Some? {
      ok, calls := PatchFailed(kube, s, error.value);
    } else if s.IsEdge() {
      ok, calls := HandlePendingEdge(kube, s, s.exp.spec.Edge().value);
    } else {
      ok, calls := HandlePendingPod(kube, s);
    }
  }

  /** The end of a run: stamp the completion time and patch. */
  method Complete(kube: KubeClient, s: Snapshot, phase: Phase, verdict: Message) returns (ok: bool, ghost calls: Calls)
    requires kube.At(s, StampingEnd(phase, verdict))
    modifies kube
    ensures kube.At(s, Finished(if ok then AFTER_PASS else Aborted))
    ensures Made(old(kube.run), kube.run, s.key, calls) && EndsRunning(s, calls, phase, verdict, ok)
  {
    hide KubeClient.At, Made, PatchesTo;
    var reply;
    ghost var patch;
    reply, calls := kube.Call(s, StampingEnd(phase, verdict), ReadClock);
    ghost var before := kube.run;
    var st := s.exp.status.(phase := phase, message := Some(verdict), completedAt := Some(reply.time));
    ok, patch := PatchExperimentStatus(kube, s, st);
    MadeThen(old(kube.run), before, kube.run, s.key, calls, patch);
    PatchIsOne(s, patch, st, ok);
    calls := calls + patch;
    assert calls[1..] == patch;
  }

  method CompleteIfElapsed(kube: KubeClient, s: Snapshot, verdict: Message) returns (ok: bool, ghost calls: Calls)
    requires kube.At(s, CheckElapsedThen(s, verdict))
    modifies kube
    ensures kube.At(s, Finished(if ok then AFTER_PASS else Aborted))
    ensures Made(old(kube.run), kube.run, s.key, calls) && EndsIfElapsed(s, calls, verdict, ok)
  {
    hide KubeClient.At, Made, Elapsed, EndsRunning, JobNames, Selected, BuildFault, RunnerJob, EdgeService, IsChaosManaged, Fqdn,
      AnyFailed, AllSucceeded;
    ok, calls := true, [];
    kube.NothingMade(s, CheckElapsedThen(s, verdict));
    if s.exp.status.startedAt.Some? {
      var reply;
      reply, calls := kube.Call(s, CheckingElapsed(verdict), ReadClock);
      if Elapsed(s.exp.status.startedAt.value, reply.time, s.exp.spec.duration) {
        ghost var before, more := kube.run, calls;
        ok, more := Complete(kube, s, Succeeded, verdict);
        MadeThen(old(kube.run), before, kube.run, s.key, calls, more);
        calls := calls + more;
        assert calls[1..] == more;
      }
    }
  }

  method HandleRunningPod(kube: KubeClient, s: Snapshot) returns (ok: bool, ghost calls: Calls)
    requires kube.At(s, ListingJobs)
    modifies kube
    ensures kube.At(s, Finished(if ok then AFTER_PASS else Aborted))
    ensures Made(old(kube.run), kube.run, s.key, calls) && JudgesPods(s, calls, ok)
  {
    hide KubeClient.At, Made, EndsRunning, EndsIfElapsed;
    var reply;
    reply, calls := kube.Call(s, ListingJobs, ListJobs(s.key.ns, s.key.name));
    if reply.Error? { return false, calls; }
    ghost var before, more := kube.run, calls;
    if AnyFailed(reply.jobs) {
      ok, more := Complete(kube, s, Phase.Failed, JobFailed);
    } else if AllSucceeded(reply.jobs) {
      ok, more := Complete(kube, s, Succeeded, JobsCompleted);
    } else {
      ok, more := CompleteIfElapsed(kube, s, DurationElapsed);
    }
    MadeThen(old(kube.run), before, kube.run, s.key, calls, more);
    calls := calls + more;
    assert calls[1..] == more;
  }

  method HandleRunning(kube: KubeClient, s: Snapshot) returns (ok: bool, ghost calls: Calls)
    requires kube.At(s, Start(s)) && !NeedsFinalizer(s.exp) && !s.exp.deleting && s.exp.status.phase.Running?
    modifies kube
    ensures kube.At(s, Finished(if ok then AFTER_PASS else Aborted))
    ensures Made(old(kube.run), kube.run, s.key, calls) && Judges(s, calls, ok)
  {
    hide KubeClient.At, Made, NeedsFinalizer, EndsIfElapsed, JudgesPods;
    if s.IsEdge() {
      ok, calls := CompleteIfElapsed(kube, s, EdgeDurationElapsed);
    } else {
      ok, calls := HandleRunningPod(kube, s);
    }
  }

  method HandleTerminal(kube: KubeClient, s: Snapshot) returns (ok: bool, ghost calls: Calls)
    requires kube.At(s, Start(s)) && !NeedsFinalizer(s.exp) && !s.exp.deleting && s.exp.status.phase.IsTerminal()
    modifies kube
    ensures kube.At(s, Finished(if !ok then Aborted else if s.exp.status.cleanupDone then Done else AFTER_PASS))
    ensures Made(old(kube.run), kube.run, s.key, calls) && Finishes(s, calls, ok)
  {
    hide KubeClient.At, Made, NeedsFinalizer, DeletesJobs, CleansUp, PatchesTo, JobNames, Selected, BuildFault, RunnerJob, EdgeService,
      Elapsed, AnyFailed, AllSucceeded, IsChaosManaged, Fqdn, Validate;
    calls := [];
    kube.NothingMade(s, Start(s));
    if s.exp.status.cleanupDone { return true, calls; }
    ghost var jobCalls := DeleteRunnerJobs(kube, s, Terminal);
    ghost var cleanupCalls: Calls := [];
    calls := jobCalls;
    if s.IsEdge() {
      ghost var before := kube.run;
      var cleaned, cleanup := CleanupVirtualServices(kube, s, Terminal);
      MadeThen(old(kube.run), before, kube.run, s.key, jobCalls, cleanup);
      cleanupCalls, calls := cleanup, jobCalls + cleanup;
      if !cleaned {
        TerminalGivesUp(s, jobCalls, cleanup);
        return true, calls;
      }
    }
    ghost var before := kube.run;
    ghost var patch;
    ok, patch := PatchExperimentStatus(kube, s, s.exp.status.(cleanupDone := true));
    MadeThen(old(kube.run), before, kube.run, s.key, calls, patch);
    TerminalCalls(s, jobCalls, cleanupCalls, patch, ok);
    assert jobCalls + [] == jobCalls;
    calls := calls + patch;
  }

  lemma TerminalGivesUp(s: Snapshot, jobCalls: Calls, cleanup: Calls)
    requires !s.exp.status.cleanupDone && DeletesJobs(s, jobCalls) && s.IsEdge() && CleansUp(s, cleanup, false)
    ensures Finishes(s, jobCalls + cleanup, true)
  {
    hide CleansUp, PatchesTo;
    var calls, n := jobCalls + cleanup, |jobCalls|;
    assert calls[..n] == jobCalls && calls[n..] == cleanup;
  }

  lemma TerminalCalls(s: Snapshot, jobCalls: Calls, cleanup: Calls, patch: Calls, ok: bool)
    requires !s.exp.status.cleanupDone && DeletesJobs(s, jobCalls)
    requires if s.IsEdge() then CleansUp(s, cleanup, true) else cleanup == []
    requires PatchesTo(s, patch, s.exp.status.(cleanupDone := true), ok)
    ensures Finishes(s, jobCalls + cleanup + patch, ok)
  {
    var calls, n := jobCalls + cleanup + patch, |jobCalls|;
    assert calls[..n] == jobCalls && calls[n..] == cleanup + patch;
    assert calls[n..|calls| - 1] == cleanup && calls[|calls| - 1..] == patch;
    if s.IsEdge() { NotGivenUp(s, cleanup, patch); }
  }

  /** A cleanup that went through, and a patch behind it, do not read as one that gave up. */
  lemma NotGivenUp(s: Snapshot, cleanup: Calls, patch: Calls)
    requires CleansUp(s, cleanup, true) && |patch| == 1 && patch[0].request.PatchStatus?
    ensures !CleansUp(s, cleanup + patch, false)
  {
    hide Selected, Settled;
  }

  method Reconcile(kube: KubeClient, s: Snapshot) returns (outcome: Outcome, ghost calls: Calls)
    requires kube.At(s, Start(s))
    modifies kube
    ensures kube.At(s, Finished(outcome))
    ensures Made(old(kube.run), kube.run, s.key, calls) && Reconciles(s, calls, outcome)
  {
    hide KubeClient.At, Made, Deletes, Launches, Judges, Finishes;
    if NeedsFinalizer(s.exp) {
      var reply;
      reply, calls := kube.Call(s, AddingFinalizer, AddFinalizer(s.key));
      return if reply.Ack? then Requeue(0) else Aborted, calls;
    }
    var ok: bool;
    if s.exp.deleting {
      ok, calls := HandleDeletion(kube, s);
      return if ok then Done else Aborted, calls;
    }
    match s.exp.status.phase
    case Pending =>
      ok, calls := HandlePending(kube, s);
      outcome := if ok then Requeue(REQUEUE_RUNNING_SECS) else Aborted;
    case Running =>
      ok, calls := HandleRunning(kube, s);
      outcome := if ok then Requeue(REQUEUE_RUNNING_SECS) else Aborted;
    case _ =>
      ok, calls := HandleTerminal(kube, s);
      outcome := if !ok then Aborted else if s.exp.status.cleanupDone then Done else Requeue(REQUEUE_RUNNING_SECS);
  }

  /** What the controller does with one experiment: read it, reconcile the snapshot, and be ready for the next pass. */
  method ReconcileOnce(kube: KubeClient, k: Key) returns (outcome: Outcome, ghost calls: Calls)
    requires kube.Valid() && k in kube.state.c.experiments && k !in kube.state.passes
    modifies kube
    ensures kube.Valid() && k !in kube.state.passes
    ensures Made(old(kube.run), kube.run, k, calls)
    ensures Reconciles(Snapshot(k, old(kube.state.c.experiments[k])), calls, outcome)
    ensures kube.run.states != [] && (Init(kube.run.states[0]) ==> MarksHonest(kube.run.states))
  {
    hide Start, LeadsTo, Made, Init, MarksHonest, Reconciles;
    var s := Snapshot(k, kube.state.c.experiments[k]);
    kube.Step(k, Begin(k), kube.state.(passes := kube.state.passes[k := Pass(s, Start(s), true)]));
    ghost var before := kube.run;
    outcome, calls := Reconcile(kube, s);
    MadeThen(old(kube.run), before, kube.run, k, [], calls);
    assert [] + calls == calls && calls + [] == calls;
    before := kube.run;
    kube.Step(k, End(k), kube.state.(passes := kube.state.passes - {k}));
    MadeThen(old(kube.run), before, kube.run, k, calls, []);
    HonestIfInit(kube.run, kube.state);
  }

  lemma HonestIfInit(r: Run, s: State)
    requires LeadsTo(r, s)
    ensures r.states != [] && (Init(r.states[0]) ==> MarksHonest(r.states))
  {
    hide StepBy, Init, MarksHonest;
    if Init(r.states[0]) { RunMarksHonest(r.states, r.labels); }
  }
}
