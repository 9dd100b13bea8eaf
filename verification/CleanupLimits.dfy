/** Where the cleanup guarantees end: runs in which they fail, and when exactly a single step breaks them. */
module CleanupLimits {
  import opened Types
  import opened ExperimentStatus
  import opened Names
  import opened Routing
  import opened ApiServer
  import opened Process
  import opened Machine
  import opened Invariant
  import opened CleanupSafety

  const NOTHING := Cluster(map[], map[], map[], map[], map[], 0, map[])
  const ORIGIN := State(NOTHING, map[])

  const THE_EDGE := Edge("front", "back")
  const THE_LABELS: Labels := map["app" := "front"]
  const THE_FAULT := Delay(100)

  /** An edge experiment of `duration` seconds in `ns`. */
  function EdgeSpec(ns: string, duration: U64): Spec {
    Spec(EdgeDelay, duration, Some(ns), Some(EdgeTarget(None, Some(THE_EDGE))), Parameters(Some(100), None, None))
  }

  function NewExperiment(uid: string, ns: string, duration: U64): Experiment {
    Experiment(uid, EdgeSpec(ns, duration), [FINALIZER_NAME], false, EMPTY)
  }

  predicate EmptyIn(c: Cluster, ns: string) {
    forall key :: key in c.services ==> key.ns != ns
  }

  lemma NothingListed(c: Cluster, ns: string)
    requires EmptyIn(c, ns)
    ensures IsServiceListing(c, ns, [])
  {
  }

  // ── A run that sets the mark ──

  const REJECTED := EMPTY.(phase := Phase.Failed, message := Some(Message.Rejected(InvalidDuration)))

  /** The cluster that holds just this experiment, with no pass in flight. */
  function Holding(k: Key, x: Experiment): State {
    State(NOTHING.(experiments := map[k := x], registry := map[x.uid := k]), map[])
  }

  function At(s: State, k: Key, x: Experiment, pc: Pc): State {
    s.(passes := s.passes[k := Pass(Snapshot(k, x), pc, true)])
  }

  lemma Creates(k: Key, uid: string, ns: string)
    requires |uid| >= 8
    ensures Reaches(ORIGIN, Holding(k, NewExperiment(uid, ns, 0)))
  {
    hide Reaches, Prefix;
    ReachesSelf(ORIGIN);
    var x := NewExperiment(uid, ns, 0);
    ReachesStep(ORIGIN, ORIGIN, Env(CreateExperiment(k, uid, x.spec, x.finalizers)), Holding(k, x));
  }

  /** A pass of one call that patches the status. */
  lemma Patches(k: Key, x: Experiment, st: Status)
    requires Reaches(ORIGIN, At(Holding(k, x), k, x, Patching(st))) && Overlay(x.status, st) == st
    ensures Reaches(ORIGIN, Holding(k, x.(status := st)))
  {
    hide Reaches, Overlay;
    var s, s' := At(Holding(k, x), k, x, Patching(st)), Holding(k, x.(status := st));
    assert s'.c == Effect(Merge, s.c, x.uid, PatchStatus(k, st));
    var done := At(s', k, x, Finished(AFTER_PASS));
    ReachesStep(ORIGIN, s, Call(k, Served, Ack), done);
    assert done.passes - {k} == map[];
    ReachesStep(ORIGIN, done, End(k), s');
  }

  /** An invalid experiment is rejected; its cleanup then finds no service and marks it. */
  lemma Marks(k: Key, uid: string, ns: string)
    requires |uid| >= 8
    ensures Reaches(ORIGIN, Holding(k, NewExperiment(uid, ns, 0).(status := REJECTED.(cleanupDone := true))))
  {
    hide Reaches, Overlay, Serve;
    Creates(k, uid, ns);
    var x := NewExperiment(uid, ns, 0);
    ReachesStep(ORIGIN, Holding(k, x), Begin(k), At(Holding(k, x), k, x, Patching(REJECTED)));
    Overlays();
    Patches(k, x, REJECTED);
    var y := x.(status := REJECTED);
    var s := Holding(k, y);
    ReachesStep(ORIGIN, s, Begin(k), At(s, k, y, ListingManaged(Terminal)));
    ListsNothing(At(s, k, y, ListingManaged(Terminal)), k, ns);
    var marked := REJECTED.(cleanupDone := true);
    ReachesStep(ORIGIN, At(s, k, y, ListingManaged(Terminal)), Call(k, Served, ServiceList([])), At(s, k, y, Patching(marked)));
    Patches(k, y, marked);
  }

  lemma Overlays()
    ensures Overlay(EMPTY, REJECTED) == REJECTED
    ensures Overlay(REJECTED, REJECTED.(cleanupDone := true)) == REJECTED.(cleanupDone := true)
  {
  }

  /** A listing in an empty namespace is served with nothing. */
  lemma ListsNothing(s: State, k: Key, ns: string)
    requires k in s.passes && EmptyIn(s.c, ns)
    ensures Serve(Merge, s.c, s.passes[k].snap.exp.uid, ListServices(ns), Served, s.c, ServiceList([]))
  {
    NothingListed(s.c, ns);
  }

  // ── A run that installs a fault ──

  /** `s` with a live, valid edge experiment whose source service can be resolved. */
  function Live(s: State, k: Key, uid: string, ns: string): State {
    s.(c := s.c.(experiments := s.c.experiments[k := NewExperiment(uid, ns, 1)],
                 registry := s.c.registry[uid := k],
                 selectors := s.c.selectors[Key(ns, THE_EDGE.source) := THE_LABELS]))
  }

  function TheService(k: Key, uid: string, ns: string): VirtualService {
    EdgeService(Snapshot(k, NewExperiment(uid, ns, 1)), THE_EDGE, THE_LABELS, THE_FAULT).(creator := Some(uid))
  }

  /** The same with its service installed and a pass about to patch the status. */
  function Installed(s: State, k: Key, uid: string, ns: string): State {
    var t := Live(s, k, uid, ns);
    At(t.(c := t.c.(services := t.c.services[Key(ns, VirtualServiceName(uid)) := TheService(k, uid, ns)])),
       k, NewExperiment(uid, ns, 1), StampingEdge(THE_EDGE))
  }

  lemma Arrives(s: State, k: Key, uid: string, ns: string)
    requires Reaches(ORIGIN, s) && k !in s.c.experiments && k !in s.passes && FreshUid(s.c, uid)
    ensures Reaches(ORIGIN, At(Live(s, k, uid, ns), k, NewExperiment(uid, ns, 1), ReadingSelector(THE_EDGE)))
  {
    hide Reaches, FreshUid;
    var x, t := NewExperiment(uid, ns, 1), Live(s, k, uid, ns);
    var s1 := s.(c := s.c.(experiments := t.c.experiments, registry := t.c.registry));
    ReachesStep(ORIGIN, s, Env(CreateExperiment(k, uid, x.spec, x.finalizers)), s1);
    ReachesStep(ORIGIN, s1, Env(SetSelectors(t.c.selectors)), t);
    ReachesStep(ORIGIN, t, Begin(k), At(t, k, x, ReadingSelector(THE_EDGE)));
  }

  /** One served call of the pass. */
  lemma Answered(t: State, k: Key, x: Experiment, pc: Pc, reply: Reply, c': Cluster)
    requires !pc.Finished? && Reaches(ORIGIN, At(t, k, x, pc)) && !reply.Error?
    requires Serve(Merge, t.c, x.uid, Next(Snapshot(k, x), pc), Served, c', reply)
    ensures Reaches(ORIGIN, At(t.(c := c'), k, x, Resume(Snapshot(k, x), pc, reply)))
  {
    hide Reaches, Serve, Next, Resume;
    ReachesStep(ORIGIN, At(t, k, x, pc), Call(k, Served, reply), At(t.(c := c'), k, x, Resume(Snapshot(k, x), pc, reply)));
  }

  lemma SelectorServed(c: Cluster, k: Key, x: Experiment, ns: string)
    requires x.spec == EdgeSpec(ns, 1)
    requires Key(ns, THE_EDGE.source) in c.selectors && c.selectors[Key(ns, THE_EDGE.source)] == THE_LABELS
    ensures Serve(Merge, c, x.uid, Next(Snapshot(k, x), ReadingSelector(THE_EDGE)), Served, c, Selector(THE_LABELS))
    ensures Resume(Snapshot(k, x), ReadingSelector(THE_EDGE), Selector(THE_LABELS)) == ListingConflicts(THE_EDGE, THE_LABELS)
  {
    assert "app" in THE_LABELS;
  }

  lemma ConflictsServed(c: Cluster, k: Key, x: Experiment, ns: string)
    requires x.spec == EdgeSpec(ns, 1) && EmptyIn(c, ns)
    ensures var pc := ListingConflicts(THE_EDGE, THE_LABELS);
            && Serve(Merge, c, x.uid, Next(Snapshot(k, x), pc), Served, c, ServiceList([]))
            && Resume(Snapshot(k, x), pc, ServiceList([])) == ResolvingEdge(THE_EDGE, THE_LABELS)
  {
    hide IsServiceListing, EmptyIn;
    NothingListed(c, ns);
  }

  lemma EdgeServed(c: Cluster, k: Key, x: Experiment, ns: string)
    requires x.spec == EdgeSpec(ns, 1)
    ensures var pc := ResolvingEdge(THE_EDGE, THE_LABELS);
            && Serve(Merge, c, x.uid, Next(Snapshot(k, x), pc), Served, c, Ack)
            && Resume(Snapshot(k, x), pc, Ack) == CreatingService(THE_EDGE, THE_LABELS, THE_FAULT)
  {
  }

  lemma Resolves(t: State, k: Key, x: Experiment, ns: string)
    requires Reaches(ORIGIN, At(t, k, x, ReadingSelector(THE_EDGE))) && x.spec == EdgeSpec(ns, 1) && EmptyIn(t.c, ns)
    requires Key(ns, THE_EDGE.source) in t.c.selectors && t.c.selectors[Key(ns, THE_EDGE.source)] == THE_LABELS
    ensures Reaches(ORIGIN, At(t, k, x, CreatingService(THE_EDGE, THE_LABELS, THE_FAULT)))
  {
    hide Reaches, Serve, Next, Resume, EmptyIn, At, EdgeSpec;
    assert t.(c := t.c) == t;
    SelectorServed(t.c, k, x, ns);
    Answered(t, k, x, ReadingSelector(THE_EDGE), Selector(THE_LABELS), t.c);
    ConflictsServed(t.c, k, x, ns);
    Answered(t, k, x, ListingConflicts(THE_EDGE, THE_LABELS), ServiceList([]), t.c);
    EdgeServed(t.c, k, x, ns);
    Answered(t, k, x, ResolvingEdge(THE_EDGE, THE_LABELS), Ack, t.c);
  }

  /** The create is served and the service is there, recorded as the experiment's. */
  lemma CreateServed(c: Cluster, k: Key, uid: string, ns: string)
    requires EmptyIn(c, ns)
    ensures Serve(Merge, c, uid,
                  Next(Snapshot(k, NewExperiment(uid, ns, 1)), CreatingService(THE_EDGE, THE_LABELS, THE_FAULT)), Served,
                  c.(services := c.services[Key(ns, VirtualServiceName(uid)) := TheService(k, uid, ns)]), Ack)
  {
    hide VirtualServiceName, EdgeService;
  }

  lemma LiveHas(s: State, k: Key, uid: string, ns: string)
    requires EmptyIn(s.c, ns)
    ensures var c := Live(s, k, uid, ns).c;
            && EmptyIn(c, ns)
            && Key(ns, THE_EDGE.source) in c.selectors && c.selectors[Key(ns, THE_EDGE.source)] == THE_LABELS
    ensures NewExperiment(uid, ns, 1).spec == EdgeSpec(ns, 1) && NewExperiment(uid, ns, 1).uid == uid
    ensures var pc := CreatingService(THE_EDGE, THE_LABELS, THE_FAULT);
            Resume(Snapshot(k, NewExperiment(uid, ns, 1)), pc, Ack) == StampingEdge(THE_EDGE)
  {
  }

  lemma Installs(s: State, k: Key, uid: string, ns: string)
    requires Reaches(ORIGIN, s) && k !in s.c.experiments && k !in s.passes && FreshUid(s.c, uid) && EmptyIn(s.c, ns)
    ensures Reaches(ORIGIN, Installed(s, k, uid, ns))
  {
    hide Reaches, FreshUid, VirtualServiceName, TheService, Serve, Next, Resume, Live, NewExperiment, EmptyIn, EdgeSpec, At;
    var x, t := NewExperiment(uid, ns, 1), Live(s, k, uid, ns);
    LiveHas(s, k, uid, ns);
    Arrives(s, k, uid, ns);
    Resolves(t, k, x, ns);
    CreateServed(t.c, k, uid, ns);
    Answered(t, k, x, CreatingService(THE_EDGE, THE_LABELS, THE_FAULT), Ack,
             t.c.(services := t.c.services[Key(ns, VirtualServiceName(uid)) := TheService(k, uid, ns)]));
  }

  lemma InstalledIsLeft(s: State, k: Key, uid: string, ns: string)
    ensures !NoneLeft(Installed(s, k, uid, ns).c, ns, k.name)
    ensures Bears(Installed(s, k, uid, ns).c, k, k.name, ns)
  {
    hide VirtualServiceName, Fqdn;
    BuiltBelongsTo(k.name, k.name);
    var c := Installed(s, k, uid, ns).c;
    assert Key(ns, VirtualServiceName(uid)) in c.services;
    assert BelongsTo(c.services[Key(ns, VirtualServiceName(uid))].labels, k.name);
  }

  // ── The cleanup mark ──

  /**
   The other direction of `MarkMeansNoneLeft`: whatever two keys share a name across namespaces, and wherever their
   experiments act, there is a run in which the mark of one lies, because the label does not say whose service it is
   on. The marked one need only have been rejected.
   */
  lemma SharedNameRefutesMark(k: Key, uid: string, rival: Key, uid2: string, ns: string) returns (s: State)
    requires k != rival && k.name == rival.name && |uid| >= 8 && |uid2| >= 8 && Prefix(uid) != Prefix(uid2)
    ensures Init(ORIGIN) && Reaches(ORIGIN, s)
    ensures Marked(s.c, k, ns) && Bears(s.c, rival, k.name, ns) && !NoneLeft(s.c, ns, k.name)
  {
    hide Reaches, NoneLeft, Prefix, VirtualServiceName, EdgeService;
    Marks(k, uid, ns);
    var marked := Holding(k, NewExperiment(uid, ns, 0).(status := REJECTED.(cleanupDone := true)));
    s := Installed(marked, rival, uid2, ns);
    Installs(marked, rival, uid2, ns);
    InstalledIsLeft(marked, rival, uid2, ns);
  }

  /** One step: a create by an experiment acting in the same namespace breaks the guarantee exactly if it shares the name. */
  lemma CreateKeepsCleanIff(s: State, k: Key, k2: Key, s': State, ns: string)
    requires Inv(s) && StepBy(Merge, s, Call(k2, Served, Ack), s') && s.passes[k2].pc.CreatingService?
    requires s.passes[k2].snap.Target() == ns
    ensures NoneLeft(s'.c, ns, k.name) <==> NoneLeft(s.c, ns, k.name) && k2.name != k.name
  {
    hide ClusterOk, ExperimentsAfter, JobsAfter, BelongsTo, PcOk, StatusOk, Held, Fqdn, VirtualServiceName;
    var p := s.passes[k2];
    assert PassOk(s.c, k2, p);
    var key := ServiceKey(p.snap);
    assert key !in s.c.services && key in s'.c.services;
    assert s'.c.services[key].labels == ManagedLabels(k2.name);
    BuiltBelongsTo(k2.name, k.name);
    forall key2 | key2 in s.c.services
      ensures s'.c.services[key2] == s.c.services[key2]
    {
    }
  }

  // ── Deletion ──

  /** `s` with the experiment under deletion, and a pass that has given up its cleanup. */
  function Deleting(s: State, k: Key, x: Experiment, pc: Pc, clean: bool): State {
    s.(c := s.c.(experiments := s.c.experiments[k := x.(deleting := true)]),
       passes := s.passes[k := Pass(Snapshot(k, x.(deleting := true)), pc, clean)])
  }

  lemma GivesUpDeletion(s: State, k: Key, x: Experiment)
    requires Reaches(ORIGIN, s) && k in s.c.experiments && s.c.experiments[k] == x && k !in s.passes
    requires x.finalizers == [FINALIZER_NAME] && !x.deleting && x.status == EMPTY && x.spec.scenario.IsEdge()
    ensures Reaches(ORIGIN, Deleting(s, k, x, RemovingFinalizer, false))
  {
    hide Reaches, IsServiceListing, IsJobListing, BuildFault, EdgeService, Overlay, Answers;
    var s1 := s.(c := s.c.(experiments := s.c.experiments[k := x.(deleting := true)]));
    ReachesStep(ORIGIN, s, Env(MarkDeleted(k)), s1);
    var s2 := Deleting(s, k, x, ListingManaged(Deletion), true);
    ReachesStep(ORIGIN, s1, Begin(k), s2);
    ReachesStep(ORIGIN, s2, Call(k, Refused, Error(Other)), Deleting(s, k, x, RemovingFinalizer, false));
  }

  /**
   Deletion does not guarantee cleanup: under every key and in every namespace there is a run in which the service of
   an edge experiment is created, the listing of its deletion pass fails, the finalizer goes all the same, and the
   service stays without its experiment.
   */
  lemma FailedListingLeavesService(k: Key, uid: string, ns: string) returns (s: State)
    requires |uid| >= 8
    ensures Init(ORIGIN) && Reaches(ORIGIN, s)
    ensures k !in s.c.experiments && k in s.passes && s.passes[k].pc == Finished(Done) && s.passes[k].snap.exp.deleting
    ensures !NoneLeft(s.c, ns, k.name)
  {
    hide Reaches, NoneLeft, Prefix, VirtualServiceName, EdgeService;
    ReachesSelf(ORIGIN);
    Installs(ORIGIN, k, uid, ns);
    var installed := Installed(ORIGIN, k, uid, ns);
    InstalledIsLeft(ORIGIN, k, uid, ns);
    var x := NewExperiment(uid, ns, 1);
    var died := installed.(passes := map[]);
    assert installed.passes - {k} == map[];
    ReachesStep(ORIGIN, installed, End(k), died);
    GivesUpDeletion(died, k, x);
    var before := Deleting(died, k, x, RemovingFinalizer, false);
    s := RemovesFinalizer(before, k);
    SameServices(installed.c, s.c, ns, k.name);
  }

  lemma RemovesFinalizer(s: State, k: Key) returns (s': State)
    requires Reaches(ORIGIN, s) && k in s.passes && s.passes[k].pc.RemovingFinalizer? && s.passes[k].snap.key == k
    requires k in s.c.experiments && s.c.experiments[k].deleting
    ensures Reaches(ORIGIN, s')
    ensures s'.c == s.c.(experiments := s.c.experiments - {k})
    ensures s'.passes == s.passes[k := Pass(s.passes[k].snap, Finished(Done), s.passes[k].clean)]
  {
    hide Reaches;
    s' := State(s.c.(experiments := s.c.experiments - {k}),
                s.passes[k := Pass(s.passes[k].snap, Finished(Done), s.passes[k].clean)]);
    ReachesStep(ORIGIN, s, Call(k, Served, Ack), s');
  }

  lemma SameServices(c: Cluster, c': Cluster, ns: string, name: string)
    requires c'.services == c.services
    ensures NoneLeft(c', ns, name) <==> NoneLeft(c, ns, name)
  {
  }

  /**
   Exactly when a failed cleanup call costs a deletion its guarantee: after that call and the removal of the finalizer
   no labelled service is left iff there was none but the one the failed call deleted after all.
   */
  lemma FailedCleanupIff(s: State, k: Key, delivery: Delivery, reply: Reply, s': State,
                         delivery': Delivery, reply': Reply, s'': State)
    requires Inv(s) && StepBy(Merge, s, Call(k, delivery, reply), s') && StepBy(Merge, s', Call(k, delivery', reply'), s'')
    requires var p := s.passes[k]; p.snap.exp.deleting && p.snap.IsEdge() && GivesUp(p.pc, reply)
    ensures s''.passes[k].pc.Finished?
    ensures var p := s.passes[k];
            NoneLeft(s''.c, p.snap.Target(), k.name) <==>
            forall key :: key in s.c.services && key.ns == p.snap.Target() && BelongsTo(s.c.services[key].labels, k.name) ==>
              p.pc.DeletingServices? && !delivery.Refused? && key.name == p.pc.name
  {
    hide ClusterOk, BelongsTo, StatusOk, Held, Serve, Next, Resume;
    var p := s.passes[k];
    assert PassOk(s.c, k, p);
    GivingUp(p, reply, s.c.clock);
    GivingUpServices(s.c, p, delivery, s'.c, reply);
    RemovalServices(s'.c, s'.passes[k], delivery', s''.c, reply');
    SameServices(s'.c, s''.c, p.snap.Target(), k.name);
    if p.pc.DeletingServices? && !delivery.Refused? { NoneLeftWithout(s.c, s'.c, p.snap.Target(), p.pc.name, k.name); }
  }

  lemma NoneLeftWithout(c: Cluster, c': Cluster, ns: string, gone: string, name: string)
    requires c'.services == c.services - {Key(ns, gone)}
    ensures NoneLeft(c', ns, name) <==>
            forall key :: key in c.services && key.ns == ns && BelongsTo(c.services[key].labels, name) ==> key.name == gone
  {
    hide BelongsTo;
    if NoneLeft(c', ns, name) {
      forall key | key in c.services && key.ns == ns && BelongsTo(c.services[key].labels, name)
        ensures key.name == gone
      {
        assert key !in c'.services;
      }
    }
  }

  lemma GivingUp(p: Pass, reply: Reply, clock: int)
    requires PcOk(p.snap, p.pc, clock) && p.snap.exp.deleting && GivesUp(p.pc, reply)
    ensures Resume(p.snap, p.pc, reply) == RemovingFinalizer
  {
    hide NeedsFinalizer, StatusOk, Selected;
  }

  lemma GivingUpServices(c: Cluster, p: Pass, delivery: Delivery, c': Cluster, reply: Reply)
    requires GivesUp(p.pc, reply) && Serve(Merge, c, p.snap.exp.uid, Next(p.snap, p.pc), delivery, c', reply)
    ensures c'.services ==
            if p.pc.DeletingServices? && !delivery.Refused? then c.services - {Key(p.snap.Target(), p.pc.name)} else c.services
  {
    hide ExperimentsAfter, JobsAfter, IsJobListing, IsServiceListing;
  }

  lemma RemovalServices(c: Cluster, p: Pass, delivery: Delivery, c': Cluster, reply: Reply)
    requires p.pc.RemovingFinalizer? && Serve(Merge, c, p.snap.exp.uid, Next(p.snap, p.pc), delivery, c', reply)
    ensures c'.services == c.services && Resume(p.snap, p.pc, reply).Finished?
  {
    hide ExperimentsAfter, JobsAfter, IsJobListing, IsServiceListing;
  }
}
