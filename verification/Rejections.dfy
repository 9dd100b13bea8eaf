/** Why an experiment was rejected, as its stored status says. */
module Rejections {
  import opened Types
  import opened ExperimentStatus
  import opened Names
  import opened Routing
  import opened ApiServer
  import opened Process
  import opened Machine
  import opened Invariant
  import opened Phases
  import opened FaultInjection
  import opened HandlerCalls

  // ── Causes ──

  /** Valid edge chaos: a duration, and an edge with both names. */
  predicate ValidEdge(spec: Spec) {
    spec.duration > 0 && spec.scenario.IsEdge() && NamesEdge(spec)
  }

  /** What the error says about the spec alone. */
  predicate SpecShows(k: Key, spec: Spec, error: ValidationError) {
    match error
    case InvalidDuration => spec.duration == 0
    case MissingEdgeTarget => spec.duration > 0 && spec.scenario.IsEdge() && !NamesEdge(spec)
    case NoTargetNodes => spec.duration > 0 && !spec.scenario.IsEdge()
    case SourceServiceNotFound(service) => ValidEdge(spec) && service == spec.target.value.edge.value.source
    case ConflictingVirtualService(host) => ValidEdge(spec) && host == HostOf(k, spec)
    case EdgeUnresolved => ValidEdge(spec)
    case NoFault => ValidEdge(spec) && LacksFault(spec.scenario, spec.parameters)
  }

  /** The errors that a call brought to light. */
  predicate FoundOut(error: ValidationError) {
    error.NoTargetNodes? || error.SourceServiceNotFound? || error.ConflictingVirtualService? || error.EdgeUnresolved?
  }

  /** What that call, made in state `s`, was and found. */
  predicate CallShows(s: State, l: Label, k: Key, spec: Spec, error: ValidationError) {
    && l.Call? && l.key == k && k in s.passes
    && var pc, ns := s.passes[k].pc, TargetNamespace(k, spec);
       match error
       case NoTargetNodes => pc.ListingNodes? && (ns in s.c.nodes ==> s.c.nodes[ns] == [])
       case SourceServiceNotFound(service) =>
         && pc.ReadingSelector?
         && (l.delivery.Served? && Key(ns, service) in s.c.selectors ==> s.c.selectors[Key(ns, service)] == map[])
       case ConflictingVirtualService(_) =>
         && pc.ListingConflicts?
         && exists key :: key in s.c.services && key.ns == ns &&
                          !Carries(s.c.services[key].labels, map[MANAGED_BY_LABEL := MANAGED_BY_VALUE])
       case EdgeUnresolved => pc.ResolvingEdge? && l.reply.Error?
       case _ => true
  }

  predicate Caused(states: seq<State>, labels: seq<Label>, i: nat, k: Key, spec: Spec, error: ValidationError)
    requires |states| == |labels| + 1 && i <= |labels|
  {
    && SpecShows(k, spec, error)
    && (FoundOut(error) ==> exists h :: 0 <= h < i && CallShows(states[h], labels[h], k, spec, error))
  }

  lemma StillCaused(states: seq<State>, labels: seq<Label>, i: nat, k: Key, spec: Spec, error: ValidationError)
    requires |states| == |labels| + 1 && i < |labels| && Caused(states, labels, i, k, spec, error)
    ensures Caused(states, labels, i + 1, k, spec, error)
  {
    hide CallShows, SpecShows;
  }

  // ── Passes ──

  predicate IsRejection(m: Option<Message>) {
    m.Some? && m.value.Rejected?
  }

  /** A pending pass about to reject has cause to; a running one never rejects. */
  predicate Founded(states: seq<State>, labels: seq<Label>, i: nat, p: Pass)
    requires |states| == |labels| + 1 && i <= |labels|
  {
    match p.pc
    case CheckingElapsed(verdict) => !verdict.Rejected?
    case StampingEnd(_, verdict) => !verdict.Rejected?
    case Patching(st) =>
      && (In(p.snap, Running) ==> !IsRejection(st.message))
      && (In(p.snap, Pending) && IsRejection(st.message) ==>
            Caused(states, labels, i, p.snap.key, p.snap.exp.spec, st.message.value.error))
    case _ => true
  }

  lemma ValidateSays(spec: Spec)
    ensures Validate(spec) == Some(InvalidDuration) <==> spec.duration == 0
    ensures Validate(spec) == Some(MissingEdgeTarget) <==> spec.duration > 0 && spec.scenario.IsEdge() && !NamesEdge(spec)
    ensures Validate(spec).None? <==> spec.duration > 0 && (spec.scenario.IsEdge() ==> NamesEdge(spec))
  {
  }

  lemma StartFounded(states: seq<State>, labels: seq<Label>, i: nat, s: Snapshot)
    requires |states| == |labels| + 1 && i <= |labels|
    ensures Founded(states, labels, i, Pass(s, Start(s), true))
  {
    hide Validate, NeedsFinalizer, NamesEdge;
    ValidateSays(s.exp.spec);
  }

  /** If the call leads to a rejection, spec and call show the error. */
  predicate Shown(s: State, l: Label, p: Pass)
    requires l.Call? && !p.pc.Finished?
  {
    var pc' := Resume(p.snap, p.pc, l.reply);
    pc'.Patching? && IsRejection(pc'.status.message) ==>
      var error := pc'.status.message.value.error;
      && SpecShows(p.snap.key, p.snap.exp.spec, error)
      && (FoundOut(error) ==> CallShows(s, l, p.snap.key, p.snap.exp.spec, error))
  }

  /** The call `l` of the launching pass `p`, served or not, took the cluster to `c'`. */
  predicate Calls(s: State, l: Label, c': Cluster, p: Pass) {
    && l.Call? && l.key == p.snap.key && l.key in s.passes && s.passes[l.key] == p && !p.pc.Finished?
    && Serve(Merge, s.c, p.snap.exp.uid, Next(p.snap, p.pc), l.delivery, c', l.reply)
    && Launching(p.snap) && PcOk(p.snap, p.pc, s.c.clock) && OnTarget(p.snap, p.pc)
  }

  lemma NodesShown(s: State, l: Label, c': Cluster, p: Pass)
    requires Calls(s, l, c', p) && p.pc.ListingNodes?
    ensures Shown(s, l, p)
  {
    hide Effect, Validate, NeedsFinalizer, IsJobListing, IsServiceListing, NamesEdge;
    ValidateSays(p.snap.exp.spec);
  }

  lemma SelectorShown(s: State, l: Label, c': Cluster, p: Pass)
    requires Calls(s, l, c', p) && p.pc.ReadingSelector?
    ensures Shown(s, l, p)
  {
    hide Effect, Validate, NeedsFinalizer, IsJobListing, IsServiceListing, NamesEdge;
    ValidateSays(p.snap.exp.spec);
    NamedEdge(p.snap.exp.spec);
  }

  lemma ConflictShown(s: State, l: Label, c': Cluster, p: Pass)
    requires Calls(s, l, c', p) && p.pc.ListingConflicts?
    ensures Shown(s, l, p)
  {
    hide Effect, Validate, NeedsFinalizer, IsJobListing, IsServiceListing, NamesEdge, IsChaosManaged, Carries;
    ValidateSays(p.snap.exp.spec);
    NamedEdge(p.snap.exp.spec);
    if l.reply.ServiceList? { ConflictShows(s.c, p.snap.Target(), l.reply.services); }
  }

  lemma EdgeShown(s: State, l: Label, c': Cluster, p: Pass)
    requires Calls(s, l, c', p) && p.pc.ResolvingEdge?
    ensures Shown(s, l, p)
  {
    hide Effect, Validate, NeedsFinalizer, IsJobListing, IsServiceListing, NamesEdge, BuildFault, LacksFault, AsksFor;
    ValidateSays(p.snap.exp.spec);
    FaultAskedFor(p.snap.exp.spec.scenario, p.snap.exp.spec.parameters);
  }

  /** Elsewhere a launching pass does not reject. */
  lemma NothingShown(s: State, l: Label, c': Cluster, p: Pass)
    requires Calls(s, l, c', p) && !p.pc.Patching?
    requires !p.pc.ListingNodes? && !p.pc.ReadingSelector? && !p.pc.ListingConflicts? && !p.pc.ResolvingEdge?
    ensures Shown(s, l, p)
  {
    hide Serve, Next, Validate, NeedsFinalizer, NamesEdge, CallShows, SpecShows, Elapsed, AnyFailed, AllSucceeded, Selected, JobNames,
      StatusOk, Allowed;
  }

  lemma RejectionShows(s: State, l: Label, c': Cluster, p: Pass)
    requires Calls(s, l, c', p) && !p.pc.Patching?
    ensures Shown(s, l, p)
  {
    hide Calls, Shown;
    match p.pc
    case ListingNodes => NodesShown(s, l, c', p);
    case ReadingSelector(_) => SelectorShown(s, l, c', p);
    case ListingConflicts(_, _) => ConflictShown(s, l, c', p);
    case ResolvingEdge(_, _) => EdgeShown(s, l, c', p);
    case _ => NothingShown(s, l, c', p);
  }

  /** With the edge resolved, a pass rejects for want of a fault exactly if the parameter for it is missing. */
  lemma NoFaultIff(s: Snapshot, edge: Edge, source: Labels)
    ensures Resume(s, ResolvingEdge(edge, source), Ack) == Reject(NoFault) <==>
            LacksFault(s.exp.spec.scenario, s.exp.spec.parameters)
  {
    hide BuildFault, LacksFault;
    FaultAskedFor(s.exp.spec.scenario, s.exp.spec.parameters);
  }

  lemma NamedEdge(spec: Spec)
    requires NamesEdge(spec)
    ensures spec.Edge() == Some(spec.target.value.edge.value)
  {
  }

  lemma ConflictShows(c: Cluster, ns: string, infos: seq<ServiceInfo>)
    requires IsServiceListing(c, ns, infos)
    ensures (exists i :: i in infos && !IsChaosManaged(i.labels)) <==>
            exists key :: key in c.services && key.ns == ns &&
                          !Carries(c.services[key].labels, map[MANAGED_BY_LABEL := MANAGED_BY_VALUE])
  {
    hide IsChaosManaged, Carries;
    forall labels { ManagedIffCarries(labels, ""); }
    if i :| i in infos && !IsChaosManaged(i.labels) {
      assert Key(ns, i.name) in c.services && !Carries(c.services[Key(ns, i.name)].labels, map[MANAGED_BY_LABEL := MANAGED_BY_VALUE]);
    }
    if key :| key in c.services && key.ns == ns && !Carries(c.services[key].labels, map[MANAGED_BY_LABEL := MANAGED_BY_VALUE]) {
      assert ServiceInfo(key.name, c.services[key].labels) in infos;
    }
  }

  /** A pending pass still making calls other than its patch is launching, or only adds the finalizer. */
  lemma PendingLaunches(s: Snapshot, pc: Pc, reply: Reply, clock: int)
    requires In(s, Pending) && PcOk(s, pc, clock) && !pc.Finished? && !pc.Patching?
    ensures Launching(s) || Resume(s, pc, reply).Finished?
  {
    hide NeedsFinalizer, Validate, StatusOk, Allowed;
  }

  /** No call of a running pass leads to a rejection. */
  lemma RunningNeverRejects(s: Snapshot, pc: Pc, reply: Reply, clock: int)
    requires !In(s, Pending) && PcOk(s, pc, clock) && !pc.Finished?
    requires pc.CheckingElapsed? || pc.StampingEnd? ==> !pc.verdict.Rejected?
    ensures var pc' := Resume(s, pc, reply);
            && (pc'.CheckingElapsed? || pc'.StampingEnd? ==> !pc'.verdict.Rejected?)
            && (pc'.Patching? && In(s, Running) ==> !IsRejection(pc'.status.message))
  {
    hide NeedsFinalizer, Validate, StatusOk, Allowed, Elapsed, AnyFailed, AllSucceeded, Selected;
  }

  /** A pending pass never gets to judge a run. */
  lemma PendingNeverJudges(s: Snapshot, pc: Pc, reply: Reply, clock: int)
    requires In(s, Pending) && PcOk(s, pc, clock) && !pc.Finished?
    ensures !Resume(s, pc, reply).CheckingElapsed? && !Resume(s, pc, reply).StampingEnd?
  {
    hide NeedsFinalizer, Validate, StatusOk, Allowed, Elapsed, AnyFailed, AllSucceeded, Selected;
  }

  lemma CallFounded(states: seq<State>, labels: seq<Label>, i: nat, p: Pass)
    requires |states| == |labels| + 1 && i < |labels| && labels[i].Call? && labels[i].key == p.snap.key
    requires p.snap.key in states[i].passes && states[i].passes[p.snap.key] == p && !p.pc.Finished?
    requires Founded(states, labels, i, p) && PcOk(p.snap, p.pc, states[i].c.clock) && OnTarget(p.snap, p.pc)
    requires Serve(Merge, states[i].c, p.snap.exp.uid, Next(p.snap, p.pc), labels[i].delivery, states[i + 1].c, labels[i].reply)
    ensures Founded(states, labels, i + 1, Advance(p, labels[i].reply))
  {
    hide Serve, Next, Resume, PcOk, OnTarget, SpecShows, CallShows, Launching, IsRejection;
    var reply, clock := labels[i].reply, states[i].c.clock;
    if p.pc.Patching? {
      PatchingEnds(p.snap, p.pc, reply);
    } else if In(p.snap, Pending) {
      PendingLaunches(p.snap, p.pc, reply, clock);
      PendingNeverJudges(p.snap, p.pc, reply, clock);
      if Launching(p.snap) { RejectionShows(states[i], labels[i], states[i + 1].c, p); }
    } else {
      RunningNeverRejects(p.snap, p.pc, reply, clock);
    }
  }

  lemma PatchingEnds(s: Snapshot, pc: Pc, reply: Reply)
    requires pc.Patching?
    ensures Resume(s, pc, reply).Finished?
  {
  }

  lemma LaterFounded(states: seq<State>, labels: seq<Label>, i: nat, p: Pass)
    requires |states| == |labels| + 1 && i < |labels| && Founded(states, labels, i, p)
    ensures Founded(states, labels, i + 1, p)
  {
    hide Caused;
    if p.pc.Patching? && In(p.snap, Pending) && IsRejection(p.pc.status.message) {
      StillCaused(states, labels, i, p.snap.key, p.snap.exp.spec, p.pc.status.message.value.error);
    }
  }

  lemma {:induction false} PassesAreFounded(states: seq<State>, labels: seq<Label>, i: nat, k: Key)
    requires IsRun(Merge, states, labels) && Init(states[0]) && i <= |labels| && k in states[i].passes
    ensures states[i].passes[k].snap.key == k && Founded(states, labels, i, states[i].passes[k])
  {
    hide Serve, Next, Resume, Start, Founded, Moved, MayMove, PcOk, StatusOk, ClusterOk, Held, Listed, OnTarget;
    if i > 0 {
      var s, l, s' := states[i - 1], labels[i - 1], states[i];
      assert StepBy(Merge, s, l, s');
      InitOk(states[0]);
      RunKeepsInv(Merge, states, labels, i - 1);
      if l.Begin? && l.key == k {
        StartFounded(states, labels, i, s'.passes[k].snap);
      } else {
        PassesAreFounded(states, labels, i - 1, k);
        assert PassOk(s.c, k, s.passes[k]);
        if l.Call? && l.key == k {
          PassesAreAimed(states, labels, i - 1, k);
          CallFounded(states, labels, i - 1, s.passes[k]);
        } else {
          LaterFounded(states, labels, i - 1, s.passes[k]);
        }
      }
    }
  }

  // ── Stored statuses ──

  /** A rejection is written by a pending pass; a marking keeps it. */
  lemma RejectionWritten(x: Experiment, st: Status)
    requires Allowed(x.status, st) && IsRejection(st.message)
    ensures x.status.phase.Pending? || x.status.phase.Running? || st.message == x.status.message
  {
  }

  /** Whatever failed on the way: the error of a stored rejection is true of the spec, and of what its call found. */
  lemma {:induction false} RejectionIsTrue(states: seq<State>, labels: seq<Label>, i: nat, k: Key, uid: string)
    requires IsRun(Merge, states, labels) && Init(states[0]) && i <= |labels| && Alive(states[i].c, k, uid)
    ensures var x := states[i].c.experiments[k];
            IsRejection(x.status.message) ==> Caused(states, labels, i, k, x.spec, x.status.message.value.error)
  {
    hide StepBy, ClusterOk, PassOk, Caused, Allowed, IsRejection;
    if i > 0 {
      InitOk(states[0]);
      RunKeepsInv(Merge, states, labels, i - 1);
      var s, l, s' := states[i - 1], labels[i - 1], states[i];
      if uid in s.c.registry {
        StepStatus(s, l, s', k, uid);
        RejectionIsTrue(states, labels, i - 1, k, uid);
        StepRejection(states, labels, i - 1, k, uid);
      } else {
        NewbornIsEmpty(s, l, s', k, uid);
        NoRejection();
      }
    }
  }

  lemma NoRejection()
    ensures !IsRejection(EMPTY.message)
  {
  }

  lemma StepRejection(states: seq<State>, labels: seq<Label>, i: nat, k: Key, uid: string)
    requires IsRun(Merge, states, labels) && Init(states[0]) && i < |labels| && Inv(states[i])
    requires Alive(states[i].c, k, uid) && Alive(states[i + 1].c, k, uid) && uid in states[i].c.registry
    requires var x := states[i].c.experiments[k];
             IsRejection(x.status.message) ==> Caused(states, labels, i, k, x.spec, x.status.message.value.error)
    ensures var y := states[i + 1].c.experiments[k];
            IsRejection(y.status.message) ==> Caused(states, labels, i + 1, k, y.spec, y.status.message.value.error)
  {
    hide StepBy, Inv, Caused, Allowed;
    var s, l, s' := states[i], labels[i], states[i + 1];
    assert StepBy(Merge, s, l, s');
    StepStatus(s, l, s', k, uid);
    var x, y := s.c.experiments[k], s'.c.experiments[k];
    if IsRejection(y.status.message) {
      var error := y.status.message.value.error;
      if y.status != x.status {
        StatusWrittenBy(s, l, s', k, uid);
        PassesAreFounded(states, labels, i, k);
        RejectionWritten(x, y.status);
      }
      assert Caused(states, labels, i, k, y.spec, error);
      StillCaused(states, labels, i, k, y.spec, error);
    }
  }
}
