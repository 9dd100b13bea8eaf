/** Which fault a Pending edge pass puts in front of which service, over whole runs. */
module FaultInjection {
  import opened Types
  import opened ExperimentStatus
  import opened Names
  import opened Routing
  import opened ApiServer
  import opened Process
  import opened Machine
  import opened Invariant
  import opened Phases

  /** The pass acts on the edge of its spec, with the fault its parameters describe. */
  predicate OnTarget(s: Snapshot, pc: Pc) {
    match pc
    case ReadingSelector(edge) => s.exp.spec.Edge() == Some(edge)
    case ListingConflicts(edge, _) => s.exp.spec.Edge() == Some(edge)
    case ResolvingEdge(edge, _) => s.exp.spec.Edge() == Some(edge)
    case CreatingService(edge, _, fault) =>
      s.exp.spec.Edge() == Some(edge) && AsksFor(s.exp.spec.scenario, s.exp.spec.parameters, fault)
    case _ => true
  }

  /** The source labels the pass goes by, once it has read them. */
  function SourceOf(pc: Pc): Option<Labels> {
    match pc
    case ListingConflicts(_, source) => Some(source)
    case ResolvingEdge(_, source) => Some(source)
    case CreatingService(_, source, _) => Some(source)
    case _ => None
  }

  /** The pass has found no unmanaged service in its target namespace. */
  predicate PastConflicts(pc: Pc) {
    pc.ResolvingEdge? || pc.CreatingService?
  }

  lemma StartOnTarget(s: Snapshot)
    ensures OnTarget(s, Start(s)) && SourceOf(Start(s)).None? && !PastConflicts(Start(s))
  {
    hide NeedsFinalizer, BuildFault;
  }

  lemma ResumeOnTarget(s: Snapshot, pc: Pc, reply: Reply)
    requires !pc.Finished? && OnTarget(s, pc)
    ensures var pc' := Resume(s, pc, reply);
            && OnTarget(s, pc')
            && (SourceOf(pc').Some? ==> s.exp.spec.Edge().Some?)
            && (PastConflicts(pc') && !PastConflicts(pc) ==>
                  pc.ListingConflicts? && reply.ServiceList? && forall i :: i in reply.services ==> IsChaosManaged(i.labels))
            && (SourceOf(pc').Some? ==>
                  if pc.ReadingSelector? then reply == Selector(SourceOf(pc').value) else SourceOf(pc) == SourceOf(pc'))
  {
    hide BuildFault, AsksFor, Fqdn, Elapsed, Selected, IsChaosManaged, AnyFailed, AllSucceeded, JobNames;
    FaultAskedFor(s.exp.spec.scenario, s.exp.spec.parameters);
  }

  /** `key` had these selector labels at some point of the run so far. */
  predicate WasSelector(states: seq<State>, i: nat, key: Key, labels: Labels)
    requires i < |states|
  {
    exists h :: 0 <= h <= i && key in states[h].c.selectors && states[h].c.selectors[key] == labels
  }

  /** At some point of the run so far every service in `ns` was managed. */
  predicate WasClear(states: seq<State>, i: nat, ns: string)
    requires i < |states|
  {
    exists h :: 0 <= h <= i && IsClear(states[h].c, ns)
  }

  predicate IsClear(c: Cluster, ns: string) {
    forall key :: key in c.services && key.ns == ns ==> IsChaosManaged(c.services[key].labels)
  }

  function SourceKey(k: Key, spec: Spec): Key {
    Key(TargetNamespace(k, spec), if spec.Edge().Some? then spec.Edge().value.source else "")
  }

  predicate Aimed(states: seq<State>, i: nat, p: Pass)
    requires i < |states|
  {
    && OnTarget(p.snap, p.pc)
    && (SourceOf(p.pc).Some? ==> WasSelector(states, i, SourceKey(p.snap.key, p.snap.exp.spec), SourceOf(p.pc).value))
    && (PastConflicts(p.pc) ==> WasClear(states, i, p.snap.Target()))
  }

  lemma SelectorReply(c: Cluster, p: Pass, delivery: Delivery, c': Cluster, reply: Reply)
    requires p.pc.ReadingSelector? && OnTarget(p.snap, p.pc) && reply.Selector?
    requires Serve(Merge, c, p.snap.exp.uid, Next(p.snap, p.pc), delivery, c', reply)
    ensures var key := SourceKey(p.snap.key, p.snap.exp.spec); key in c.selectors && c.selectors[key] == reply.labels
  {
    hide Effect;
  }

  lemma ListingReply(c: Cluster, p: Pass, delivery: Delivery, c': Cluster, reply: Reply)
    requires p.pc.ListingConflicts? && reply.ServiceList? && forall i :: i in reply.services ==> IsChaosManaged(i.labels)
    requires Serve(Merge, c, p.snap.exp.uid, Next(p.snap, p.pc), delivery, c', reply)
    ensures IsClear(c, p.snap.Target())
  {
    hide Effect, IsChaosManaged;
    forall key | key in c.services && key.ns == p.snap.Target()
      ensures IsChaosManaged(c.services[key].labels)
    {
      assert ServiceInfo(key.name, c.services[key].labels) in reply.services;
    }
  }

  lemma {:induction false} PassesAreAimed(states: seq<State>, labels: seq<Label>, i: nat, k: Key)
    requires IsRun(Merge, states, labels) && Init(states[0]) && i <= |labels| && k in states[i].passes
    ensures Aimed(states, i, states[i].passes[k])
  {
    hide Serve, Next, Resume, Start, OnTarget, SourceOf, Moved, MayMove, PastConflicts, IsClear, TargetNamespace;
    if i > 0 {
      var s, l, s' := states[i - 1], labels[i - 1], states[i];
      assert StepBy(Merge, s, l, s');
      if l.Begin? && l.key == k {
        StartOnTarget(s'.passes[k].snap);
      } else {
        PassesAreAimed(states, labels, i - 1, k);
        if l.Call? && l.key == k {
          var p := s.passes[k];
          ResumeOnTarget(p.snap, p.pc, l.reply);
          if PastConflicts(s'.passes[k].pc) && !PastConflicts(p.pc) { ListingReply(s.c, p, l.delivery, s'.c, l.reply); }
          if p.pc.ReadingSelector? && l.reply.Selector? { SelectorReply(s.c, p, l.delivery, s'.c, l.reply); }
        }
      }
    }
  }

  /**
   `vs` faults the spec's destination as its parameters say, for the sources its source service once selected, and
   there was a moment without unmanaged services in its namespace.
   */
  ghost predicate RoutesAsSpecified(states: seq<State>, i: nat, k: Key, spec: Spec, vs: VirtualService)
    requires i < |states|
  {
    && spec.Edge().Some?
    && WasClear(states, i, TargetNamespace(k, spec))
    && exists selector, fault ::
         && FaultsExactly(vs, HostOf(k, spec), selector, fault)
         && AsksFor(spec.scenario, spec.parameters, fault)
         && WasSelector(states, i, SourceKey(k, spec), selector)
  }

  /** The full name of the destination service in the cluster. */
  function HostOf(k: Key, spec: Spec): string
    requires spec.Edge().Some?
  {
    spec.Edge().value.destination + "." + TargetNamespace(k, spec) + ".svc.cluster.local"
  }

  lemma CreatedRoutes(states: seq<State>, i: nat, p: Pass)
    requires i < |states| && Aimed(states, i, p) && p.pc.CreatingService? && p.pc.source != map[]
    requires p.snap.exp.status.experimentId.None?
    ensures RoutesAsSpecified(states, i, p.snap.key, p.snap.exp.spec, Next(p.snap, p.pc).service)
    ensures Next(p.snap, p.pc).key ==
            Key(TargetNamespace(p.snap.key, p.snap.exp.spec), VirtualServiceName(p.snap.exp.uid))
  {
    hide AsksFor, VirtualServiceName, BuildVirtualService, FaultsExactly;
    var edge := p.snap.exp.spec.Edge().value;
    BuiltFaultsExactly(
      ServiceSpec(p.snap.key.name, p.snap.exp.uid, Fqdn(edge.destination, p.snap.Target()), p.pc.source, p.pc.fault));
  }

  /** A created service that was not there before was put there by a call of its creator's pass. */
  lemma CreatedByCall(s: State, l: Label, s': State, key: Key, uid: string)
    requires Inv(s) && StepBy(Merge, s, l, s') && key in s'.c.services && s'.c.services[key].creator == Some(uid)
    ensures uid in s.c.registry
    ensures !(key in s.c.services && s.c.services[key] == s'.c.services[key]) ==>
              && l.Call? && l.key in s.passes && !s.passes[l.key].pc.Finished?
              && var p := s.passes[l.key];
                 && Launches(s.c, p, uid)
                 && Next(p.snap, p.pc).CreateService? && key == Next(p.snap, p.pc).key
                 && s'.c.services[key] == Next(p.snap, p.pc).service.(creator := Some(uid))
  {
    hide Serve, Next, ClusterOk, PassOk, Launches, MovedExperiments, MovedJobs, ServiceOk, IsChaosManaged, VirtualServiceName,
      Resume, Start;
    if key in s.c.services && s.c.services[key] == s'.c.services[key] {
      CreatorRegistered(s.c, key);
    } else if l.Call? {
      assert PassOk(s.c, l.key, s.passes[l.key]);
      ServiceFromCall(s.c, s.passes[l.key], l.delivery, s'.c, l.reply, key);
      LaunchingPass(s.c, l.key, s.passes[l.key]);
    }
  }

  lemma CreatorRegistered(c: Cluster, key: Key)
    requires ClusterOk(c) && key in c.services && c.services[key].creator.Some?
    ensures c.services[key].creator.value in c.registry
  {
    assert ServiceOk(c, key, c.services[key]);
  }

  lemma ServiceFromCall(c: Cluster, p: Pass, delivery: Delivery, c': Cluster, reply: Reply, key: Key)
    requires !p.pc.Finished? && Serve(Merge, c, p.snap.exp.uid, Next(p.snap, p.pc), delivery, c', reply)
    requires key in c'.services && !(key in c.services && c.services[key] == c'.services[key])
    ensures var req := Next(p.snap, p.pc);
            && req.CreateService? && p.pc.CreatingService? && key == req.key
            && c'.services[key] == req.service.(creator := Some(p.snap.exp.uid))
  {
    hide Next, ExperimentsAfter, JobsAfter, Answers;
    RequestKinds(p.snap, p.pc);
  }

  /** The pass is about to create the service of the live experiment `uid`, which has not started yet. */
  predicate Launches(c: Cluster, p: Pass, uid: string) {
    && p.snap.exp.uid == uid && p.pc.CreatingService? && p.pc.source != map[] && p.snap.exp.status.experimentId.None?
    && Alive(c, p.snap.key, uid) && c.experiments[p.snap.key].spec == p.snap.exp.spec
  }

  lemma LaunchingPass(c: Cluster, k: Key, p: Pass)
    requires PassOk(c, k, p) && p.pc.CreatingService?
    ensures Launches(c, p, p.snap.exp.uid) && p.snap.exp.uid in c.registry
  {
    hide NeedsFinalizer, Validate;
  }

  lemma SameKeys(c: Cluster, k: Key, k2: Key, uid: string)
    requires ClusterOk(c) && Alive(c, k, uid) && Alive(c, k2, uid)
    ensures k == k2
  {
  }

  /** What routing does depends neither on the server's own record nor on how long ago the selector was read. */
  lemma StillRoutes(states: seq<State>, i: nat, j: nat, k: Key, spec: Spec, vs: VirtualService, creator: Option<string>)
    requires i <= j < |states| && RoutesAsSpecified(states, i, k, spec, vs)
    ensures RoutesAsSpecified(states, j, k, spec, vs.(creator := creator))
  {
    hide AsksFor, Carries, SourceKey, HostOf;
    var selector, fault :| FaultsExactly(vs, HostOf(k, spec), selector, fault)
                           && AsksFor(spec.scenario, spec.parameters, fault)
                           && WasSelector(states, i, SourceKey(k, spec), selector);
    assert FaultsExactly(vs.(creator := creator), HostOf(k, spec), selector, fault);
  }

  /**
   Whatever failed or was retried on the way: a service that a pass of a live experiment created sits under that
   experiment's one name, sends every request to the full name of its destination, and injects the delay or abort its
   parameters ask for exactly into requests from sources carrying every label the source service had when it was read.
   */
  lemma {:induction false} InstalledFaultIsTheOneAskedFor(
    states: seq<State>, labels: seq<Label>, i: nat, k: Key, uid: string, key: Key)
    requires IsRun(Merge, states, labels) && Init(states[0]) && i <= |labels| && Alive(states[i].c, k, uid)
    requires key in states[i].c.services && states[i].c.services[key].creator == Some(uid)
    ensures var spec := states[i].c.experiments[k].spec;
            && key == Key(TargetNamespace(k, spec), VirtualServiceName(uid))
            && RoutesAsSpecified(states, i, k, spec, states[i].c.services[key])
  {
    hide StepBy, ClusterOk, PassOk, RoutesAsSpecified, VirtualServiceName, Next, Aimed, Allowed;
    assert i > 0;
    InitOk(states[0]);
    RunKeepsInv(Merge, states, labels, i - 1);
    var s, l, s' := states[i - 1], labels[i - 1], states[i];
    var vs, spec := s'.c.services[key], s'.c.experiments[k].spec;
    CreatedByCall(s, l, s', key, uid);
    StepStatus(s, l, s', k, uid);
    if key in s.c.services && s.c.services[key] == vs {
      InstalledFaultIsTheOneAskedFor(states, labels, i - 1, k, uid, key);
      StillRoutes(states, i - 1, i, k, spec, vs, vs.creator);
    } else {
      var p := s.passes[l.key];
      SameKeys(s.c, p.snap.key, k, uid);
      PassesAreAimed(states, labels, i - 1, l.key);
      CreatedRoutes(states, i - 1, p);
      StillRoutes(states, i - 1, i, k, spec, Next(p.snap, p.pc).service, vs.creator);
    }
  }
}
