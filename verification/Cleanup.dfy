/** Edge chaos leaves no fault behind: what the cleanup mark and a clean deletion guarantee. */
module CleanupSafety {
  import opened Types
  import opened ExperimentStatus
  import opened Names
  import opened Routing
  import opened ApiServer
  import opened Process
  import opened Machine
  import opened Invariant
  import opened Phases

  /** No service in `ns` is managed and labelled with `name`. */
  predicate NoneLeft(c: Cluster, ns: string, name: string) {
    forall key :: key in c.services && key.ns == ns ==> !BelongsTo(c.services[key].labels, name)
  }

  /** `k` is a live edge experiment called `name` that acts in `ns`: its services there would carry that label. */
  predicate Bears(c: Cluster, k: Key, name: string, ns: string) {
    && k.name == name && k in c.experiments
    && c.experiments[k].spec.scenario.IsEdge() && TargetNamespace(k, c.experiments[k].spec) == ns
  }

  /** Another experiment, necessarily of another namespace, shares the name of `k` and acts in `ns`. */
  ghost predicate Rival(c: Cluster, k: Key, ns: string) {
    exists k2 :: k2 != k && Bears(c, k2, k.name, ns)
  }

  /** The edge experiment `k` acts in `ns` and carries the cleanup mark. */
  predicate Marked(c: Cluster, k: Key, ns: string) {
    Bears(c, k, k.name, ns) && c.experiments[k].status.cleanupDone
  }

  predicate ExperimentClean(c: Cluster, k: Key, ns: string) {
    Marked(c, k, ns) ==> NoneLeft(c, ns, k.name)
  }

  /** How far the cleanup of an edge experiment's pass has got, if it acts in `ns`. */
  predicate PassClean(c: Cluster, p: Pass, ns: string) {
    var s := p.snap;
    s.IsEdge() && s.Target() == ns ==>
      match p.pc
      case DeletingServices(_, name, rest) =>
        forall key :: key in c.services && key.ns == ns && BelongsTo(c.services[key].labels, s.key.name) ==>
          key.name in [name] + rest
      case Patching(st) => st.cleanupDone ==> NoneLeft(c, ns, s.key.name)
      case RemovingFinalizer => p.clean ==> NoneLeft(c, ns, s.key.name)
      case Finished(Done) =>
        s.exp.deleting && !NeedsFinalizer(s.exp) && p.clean ==> NoneLeft(c, ns, s.key.name)
      case _ => true
  }

  predicate CleanInv(s: State, k: Key, ns: string) {
    ExperimentClean(s.c, k, ns) && (k in s.passes ==> PassClean(s.c, s.passes[k], ns))
  }

  /** The services in `ns` labelled with `name` are among those there before. */
  predicate OnlyFewer(c: Cluster, c': Cluster, name: string, ns: string) {
    forall key :: key in c'.services && key.ns == ns && BelongsTo(c'.services[key].labels, name) ==>
      key in c.services && BelongsTo(c.services[key].labels, name)
  }

  lemma FewerKeepsPass(c: Cluster, c': Cluster, p: Pass, ns: string)
    requires PassClean(c, p, ns) && OnlyFewer(c, c', p.snap.key.name, ns)
    ensures PassClean(c', p, ns)
  {
    hide BelongsTo, NeedsFinalizer;
  }

  lemma MoveFewer(c: Cluster, m: Move, name: string, ns: string)
    requires MayMove(c, m)
    ensures OnlyFewer(c, Moved(c, m), name, ns)
  {
    hide MovedExperiments, MovedJobs, VirtualServiceName, FreshUid;
  }

  lemma EffectFewer(c: Cluster, caller: Key, uid: string, req: Request, name: string, ns: string)
    requires Lawful(c, caller, uid, req) && (req.CreateService? && req.key.ns == ns ==> caller.name != name)
    ensures OnlyFewer(c, Effect(Merge, c, uid, req), name, ns)
  {
    hide ExperimentsAfter, JobsAfter, JobPrefix, Allowed, StatusOk, FaultsExactly, VirtualServiceName, BelongsTo, ManagedLabels;
    BuiltBelongsTo(caller.name, name);
  }

  /** A pass about to create a service is that of a live experiment acting there. */
  lemma CreatorBears(c: Cluster, k: Key, p: Pass)
    requires PassOk(c, k, p) && p.pc.CreatingService?
    ensures Bears(c, k, k.name, p.snap.Target())
  {
    hide Validate, NeedsFinalizer, StatusOk;
  }

  lemma CallFewer(s: State, l: Label, s': State, name: string, ns: string)
    requires Inv(s) && StepBy(Merge, s, l, s') && l.Call?
    requires !Bears(s.c, l.key, name, ns)
    ensures OnlyFewer(s.c, s'.c, name, ns)
  {
    hide Next, Resume, Answers, BelongsTo, PcOk, StatusOk, Held, ClusterOk, Effect, Lawful, Bears;
    var p := s.passes[l.key];
    var req := Next(p.snap, p.pc);
    CallIsLawful(s, l.key);
    RequestKinds(p.snap, p.pc);
    if p.pc.CreatingService? {
      assert PassOk(s.c, l.key, p);
      CreatorBears(s.c, l.key, p);
      CreatesInTarget(p.snap, p.pc);
      NamesItself(s.c, l.key, name, p.snap.Target());
    }
    EffectFewer(s.c, l.key, p.snap.exp.uid, req, name, ns);
  }

  lemma CreatesInTarget(s: Snapshot, pc: Pc)
    requires pc.CreatingService?
    ensures Next(s, pc).CreateService? && Next(s, pc).key.ns == s.Target()
  {
  }

  lemma NamesItself(c: Cluster, k: Key, name: string, ns: string)
    requires Bears(c, k, k.name, ns)
    ensures Bears(c, k, name, ns) <==> k.name == name
  {
  }

  /** Neither the environment nor another experiment disturbs what the cleanup of `k` relies on. */
  lemma OthersKeepClean(s: State, l: Label, s': State, k: Key, ns: string)
    requires Inv(s) && StepBy(Merge, s, l, s') && !Rival(s.c, k, ns) && CleanInv(s, k, ns)
    requires l.Env? || (l.Call? && l.key != k)
    ensures CleanInv(s', k, ns)
  {
    hide Serve, Next, Resume, Effect, MovedExperiments, MovedServices, MovedJobs, BelongsTo, ClusterOk, PassOk, Start, PassClean,
      NoneLeft, Lawful, Bears, OnlyFewer, ExperimentClean;
    if l.Env? {
      MoveFewer(s.c, l.move, k.name, ns);
      MoveOnExperiment(s.c.experiments, l.move, k);
    } else {
      CallOnOthers(s, l, s', k);
      CallFewer(s, l, s', k.name, ns);
    }
    if k in s'.passes {
      PassKey(s, k);
      FewerKeepsPass(s.c, s'.c, s.passes[k], ns);
    }
    ExperimentStaysClean(s.c, s'.c, k, ns);
  }

  lemma PassKey(s: State, k: Key)
    requires Inv(s) && k in s.passes
    ensures s.passes[k].snap.key == k
  {
    assert PassOk(s.c, k, s.passes[k]);
  }

  lemma ExperimentStaysClean(c: Cluster, c': Cluster, k: Key, ns: string)
    requires ExperimentClean(c, k, ns) && OnlyFewer(c, c', k.name, ns)
    requires k in c'.experiments ==>
               c'.experiments[k].status == EMPTY ||
               (k in c.experiments && c'.experiments[k].spec == c.experiments[k].spec &&
                c'.experiments[k].status.cleanupDone == c.experiments[k].status.cleanupDone)
    ensures ExperimentClean(c', k, ns)
  {
    hide BelongsTo;
  }

  lemma CallOnOthers(s: State, l: Label, s': State, k: Key)
    requires Inv(s) && StepBy(Merge, s, l, s') && l.Call? && l.key != k
    ensures k in s'.c.experiments ==> k in s.c.experiments && s'.c.experiments[k] == s.c.experiments[k]
    ensures s'.passes.Keys == s.passes.Keys && (k in s.passes ==> s'.passes[k] == s.passes[k])
  {
    hide Next, Resume, Answers, PassOk, ClusterOk, ExperimentsAfter, JobsAfter, ServicesAfter, Lawful;
    CallIsLawful(s, l.key);
    var p := s.passes[l.key];
    LawfulOff(Merge, s.c, l.key, p.snap.exp.uid, Next(p.snap, p.pc), k);
  }

  // ── The experiment's own calls ──

  /** A served listing, filtered, covers every labelled service. */
  lemma ListingCovers(c: Cluster, s: Snapshot, infos: seq<ServiceInfo>)
    requires IsServiceListing(c, s.Target(), infos)
    ensures forall key :: key in c.services && key.ns == s.Target() && BelongsTo(c.services[key].labels, s.key.name) ==>
              key.name in Selected(infos, s.key.name)
  {
    hide BelongsTo, Selected;
    forall key | key in c.services && key.ns == s.Target() && BelongsTo(c.services[key].labels, s.key.name)
      ensures key.name in Selected(infos, s.key.name)
    {
      assert ServiceInfo(key.name, c.services[key].labels) in infos;
    }
  }

  lemma DeletedCovers(s: Snapshot, why: Cleanup, names: seq<string>, c: Cluster, clean: bool)
    requires Entitled(s, why)
    requires forall key :: key in c.services && key.ns == s.Target() && BelongsTo(c.services[key].labels, s.key.name) ==>
               key.name in names
    ensures PassClean(c, Pass(s, DeleteServicesThen(s, why, names), clean), s.Target())
  {
    hide BelongsTo;
    if names != [] { assert names == [names[0]] + names[1..]; }
  }

  predicate Cleaning(pc: Pc) {
    pc.ListingManaged? || pc.DeletingServices? || pc.RemovingFinalizer?
  }

  /** Outside the cleanup, no call of an edge experiment's pass leads to a point where the cleanup claims anything. */
  lemma ElsewhereClaimsNothing(s: Snapshot, pc: Pc, reply: Reply, clock: int)
    requires !pc.Finished? && !Cleaning(pc) && PcOk(s, pc, clock) && StatusOk(s.exp, clock) && s.IsEdge()
    ensures var pc' := Resume(s, pc, reply);
            && !pc'.DeletingServices? && !pc'.RemovingFinalizer? && pc' != Finished(Done)
            && (pc'.Patching? ==> !pc'.status.cleanupDone)
  {
    hide Ran, Allowed, Validate, BuildFault, Elapsed, JobNames, Selected, Fqdn, IsChaosManaged, NeedsFinalizer;
  }

  lemma ListingKeepsClean(c: Cluster, p: Pass, delivery: Delivery, c': Cluster, reply: Reply)
    requires p.pc.ListingManaged? && Entitled(p.snap, p.pc.why)
    requires Serve(Merge, c, p.snap.exp.uid, Next(p.snap, p.pc), delivery, c', reply)
    ensures PassClean(c', Advance(p, reply), p.snap.Target())
  {
    hide BelongsTo, Selected, ExperimentsAfter, JobsAfter, NeedsFinalizer, IsJobListing, Entitled;
    if reply.ServiceList? {
      ListingCovers(c, p.snap, reply.services);
      DeletedCovers(p.snap, p.pc.why, Selected(reply.services, p.snap.key.name), c', Advance(p, reply).clean);
    }
  }

  lemma DeletingKeepsClean(c: Cluster, p: Pass, delivery: Delivery, c': Cluster, reply: Reply)
    requires p.pc.DeletingServices? && Entitled(p.snap, p.pc.why) && PassClean(c, p, p.snap.Target()) && p.snap.IsEdge()
    requires Serve(Merge, c, p.snap.exp.uid, Next(p.snap, p.pc), delivery, c', reply)
    ensures PassClean(c', Advance(p, reply), p.snap.Target())
  {
    hide BelongsTo, ExperimentsAfter, JobsAfter, NeedsFinalizer, IsJobListing, IsServiceListing, Entitled;
    if reply == Ack || reply == Error(NotFound) {
      assert Key(p.snap.Target(), p.pc.name) !in c'.services;
      DeletedCovers(p.snap, p.pc.why, p.pc.rest, c', Advance(p, reply).clean);
    }
  }

  lemma RemovingKeepsClean(c: Cluster, p: Pass, delivery: Delivery, c': Cluster, reply: Reply)
    requires p.pc.RemovingFinalizer? && PassClean(c, p, p.snap.Target()) && p.snap.IsEdge()
    requires Serve(Merge, c, p.snap.exp.uid, Next(p.snap, p.pc), delivery, c', reply)
    ensures PassClean(c', Advance(p, reply), p.snap.Target())
  {
    hide BelongsTo, ExperimentsAfter, JobsAfter, NeedsFinalizer, IsJobListing, IsServiceListing;
  }

  lemma CleaningKeepsClean(c: Cluster, p: Pass, delivery: Delivery, c': Cluster, reply: Reply)
    requires Cleaning(p.pc) && PcOk(p.snap, p.pc, c.clock) && PassClean(c, p, p.snap.Target()) && p.snap.IsEdge()
    requires Serve(Merge, c, p.snap.exp.uid, Next(p.snap, p.pc), delivery, c', reply)
    ensures PassClean(c', Advance(p, reply), p.snap.Target())
  {
    hide Serve, Next, Resume, PassClean, NeedsFinalizer, Entitled;
    match p.pc
    case ListingManaged(_) => ListingKeepsClean(c, p, delivery, c', reply);
    case DeletingServices(_, _, _) => DeletingKeepsClean(c, p, delivery, c', reply);
    case _ => RemovingKeepsClean(c, p, delivery, c', reply);
  }

  lemma OwnCallKeepsClean(c: Cluster, k: Key, p: Pass, delivery: Delivery, c': Cluster, reply: Reply,
                          ns: string)
    requires ClusterOk(c) && PassOk(c, k, p) && !p.pc.Finished? && PassClean(c, p, ns)
    requires Serve(Merge, c, p.snap.exp.uid, Next(p.snap, p.pc), delivery, c', reply)
    ensures PassClean(c', Advance(p, reply), ns)
  {
    hide Next, Resume, Serve, ClusterOk, Held, StatusOk, BelongsTo, Listed, PcOk, NoneLeft, NeedsFinalizer;
    if p.snap.IsEdge() && p.snap.Target() == ns {
      if Cleaning(p.pc) {
        CleaningKeepsClean(c, p, delivery, c', reply);
      } else {
        ElsewhereClaimsNothing(p.snap, p.pc, reply, c.clock);
      }
    }
  }

  lemma OwnExperiment(c: Cluster, k: Key, p: Pass, delivery: Delivery, c': Cluster, reply: Reply)
    requires p.snap.key == k && !p.pc.Finished? && k in c'.experiments
    requires Serve(Merge, c, p.snap.exp.uid, Next(p.snap, p.pc), delivery, c', reply)
    ensures k in c.experiments && c'.experiments[k].spec == c.experiments[k].spec
    ensures || c'.experiments[k].status == c.experiments[k].status
            || (p.pc.Patching? && c'.experiments[k].status.cleanupDone == p.pc.status.cleanupDone)
  {
    hide Next, Answers, ExperimentsAfter, JobsAfter, ServicesAfter;
    RequestKinds(p.snap, p.pc);
    EffectOnExperiment(Merge, c.experiments, Next(p.snap, p.pc), k);
    if p.pc.Patching? { PatchStores(c.experiments, k, p.pc.status); }
  }

  lemma OwnServices(c: Cluster, p: Pass, delivery: Delivery, c': Cluster, reply: Reply)
    requires !p.pc.Finished? && !p.pc.CreatingService?
    requires Serve(Merge, c, p.snap.exp.uid, Next(p.snap, p.pc), delivery, c', reply)
    ensures c'.services.Keys <= c.services.Keys
    ensures forall key :: key in c'.services ==> c'.services[key] == c.services[key]
    ensures p.pc.Patching? ==> c'.services == c.services
  {
    hide Next, Answers, ExperimentsAfter, JobsAfter;
    RequestKinds(p.snap, p.pc);
  }

  lemma HeldHere(c: Cluster, k: Key, p: Pass)
    requires PassOk(c, k, p) && (p.pc.Patching? || p.pc.CreatingService?)
    ensures p.snap.key == k && k in c.experiments
    ensures c.experiments[k].spec == p.snap.exp.spec && c.experiments[k].status == p.snap.exp.status
    ensures p.pc.CreatingService? ==> !c.experiments[k].status.cleanupDone
  {
    hide Allowed, NeedsFinalizer, Validate, JobPrefix, Listed;
  }

  /** The mark is set only by a pass that has seen every labelled service gone. */
  lemma OwnCallKeepsMark(c: Cluster, k: Key, p: Pass, delivery: Delivery, c': Cluster, reply: Reply,
                         ns: string)
    requires PassOk(c, k, p) && !p.pc.Finished? && PassClean(c, p, ns) && ExperimentClean(c, k, ns)
    requires Serve(Merge, c, p.snap.exp.uid, Next(p.snap, p.pc), delivery, c', reply)
    ensures ExperimentClean(c', k, ns)
  {
    hide Serve, Next, PcOk, StatusOk, Held, Listed, PassClean, ExperimentClean;
    if k !in c'.experiments {
      UnmarkedIsClean(c', k, ns);
      return;
    }
    OwnExperiment(c, k, p, delivery, c', reply);
    if p.pc.CreatingService? {
      HeldHere(c, k, p);
      UnmarkedIsClean(c', k, ns);
    } else {
      OwnServices(c, p, delivery, c', reply);
      if p.pc.Patching? {
        HeldHere(c, k, p);
        PatchKeepsMark(c, c', k, p, ns);
      } else {
        FewerKeepsMark(c, c', k, ns);
      }
    }
  }

  lemma UnmarkedIsClean(c: Cluster, k: Key, ns: string)
    requires k in c.experiments ==> !c.experiments[k].status.cleanupDone
    ensures ExperimentClean(c, k, ns)
  {
  }

  lemma PatchKeepsMark(c: Cluster, c': Cluster, k: Key, p: Pass, ns: string)
    requires p.pc.Patching? && p.snap.key == k && k in c.experiments && c.experiments[k].spec == p.snap.exp.spec
    requires PassClean(c, p, ns) && ExperimentClean(c, k, ns) && c'.services == c.services && k in c'.experiments
    requires c'.experiments[k].spec == c.experiments[k].spec
    requires c'.experiments[k].status == c.experiments[k].status ||
             c'.experiments[k].status.cleanupDone == p.pc.status.cleanupDone
    ensures ExperimentClean(c', k, ns)
  {
    hide BelongsTo;
  }

  lemma FewerKeepsMark(c: Cluster, c': Cluster, k: Key, ns: string)
    requires ExperimentClean(c, k, ns) && c'.services.Keys <= c.services.Keys
    requires forall key :: key in c'.services ==> c'.services[key] == c.services[key]
    requires k in c'.experiments ==> k in c.experiments && c'.experiments[k].spec == c.experiments[k].spec &&
                                     c'.experiments[k].status == c.experiments[k].status
    ensures ExperimentClean(c', k, ns)
  {
    hide BelongsTo;
  }

  lemma BeginsClean(c: Cluster, s: Snapshot, ns: string)
    requires StatusOk(s.exp, c.clock)
    ensures PassClean(c, Pass(s, Start(s), true), ns)
  {
    hide BelongsTo, Ran;
  }

  lemma StepKeepsClean(s: State, l: Label, s': State, k: Key, ns: string)
    requires Inv(s) && StepBy(Merge, s, l, s') && !Rival(s.c, k, ns) && CleanInv(s, k, ns)
    ensures CleanInv(s', k, ns)
  {
    hide Serve, Next, Resume, PassClean, ExperimentClean, Rival, Start, Moved, MayMove, StatusOk, RegistryOk, ServicesOk, JobsOk;
    match l
    case Env(_) => OthersKeepClean(s, l, s', k, ns);
    case Begin(b) =>
      if b == k { BeginsClean(s.c, Snapshot(k, s.c.experiments[k]), ns); }
    case Call(caller, delivery, reply) =>
      if caller == k {
        OwnCallKeepsClean(s.c, k, s.passes[k], delivery, s'.c, reply, ns);
        OwnCallKeepsMark(s.c, k, s.passes[k], delivery, s'.c, reply, ns);
      } else {
        OthersKeepClean(s, l, s', k, ns);
      }
    case End(_) =>
  }

  /** No rival of `k` in `ns` before state `i`. */
  ghost predicate NoRivalBefore(states: seq<State>, i: nat, k: Key, ns: string)
    requires i <= |states|
  {
    forall h :: 0 <= h < i ==> !Rival(states[h].c, k, ns)
  }

  lemma {:induction false} RunKeepsClean(states: seq<State>, labels: seq<Label>, i: nat, k: Key, ns: string)
    requires IsRun(Merge, states, labels) && Init(states[0]) && i <= |labels| && NoRivalBefore(states, i, k, ns)
    ensures CleanInv(states[i], k, ns)
  {
    hide StepBy, ClusterOk, PassOk, Rival, ExperimentClean, PassClean;
    InitOk(states[0]);
    if i == 0 {
      InitClean(states[0], k, ns);
    } else {
      RunKeepsClean(states, labels, i - 1, k, ns);
      RunKeepsInv(Merge, states, labels, i - 1);
      StepKeepsClean(states[i - 1], labels[i - 1], states[i], k, ns);
    }
  }

  lemma InitClean(s: State, k: Key, ns: string)
    requires Init(s)
    ensures CleanInv(s, k, ns)
  {
  }

  // ── Main results ──

  /**
   Whatever calls failed or lost their replies and wherever passes died: once an edge experiment's stored status
   carries the cleanup mark, no managed service labelled with its name is left in its target namespace, unless at some
   point another live edge experiment of that name acted there too.
   */
  lemma MarkMeansNoneLeft(states: seq<State>, labels: seq<Label>, i: nat, k: Key, ns: string)
    requires IsRun(Merge, states, labels) && Init(states[0]) && i <= |labels| && NoRivalBefore(states, i, k, ns)
    requires Marked(states[i].c, k, ns)
    ensures NoneLeft(states[i].c, ns, k.name)
  {
    hide StepBy, Init, Rival, Marked;
    RunKeepsClean(states, labels, i, k, ns);
  }

  /** Every cleanup mark at the end of the run tells the truth, but for the marks of experiments with a rival in it. */
  ghost predicate MarksHonest(states: seq<State>)
    requires states != []
  {
    var c := states[|states| - 1].c;
    forall k, ns :: Marked(c, k, ns) && NoRivalBefore(states, |states| - 1, k, ns) ==> NoneLeft(c, ns, k.name)
  }

  lemma RunMarksHonest(states: seq<State>, labels: seq<Label>)
    requires IsRun(Merge, states, labels) && Init(states[0])
    ensures MarksHonest(states)
  {
    hide StepBy, Init, Marked, NoneLeft, NoRivalBefore;
    var c := states[|labels|].c;
    forall k, ns | Marked(c, k, ns) && NoRivalBefore(states, |labels|, k, ns)
      ensures NoneLeft(c, ns, k.name)
    {
      MarkMeansNoneLeft(states, labels, |labels|, k, ns);
    }
  }

  /** From `h` on, until state `i`, no live edge experiment called `name` acts in `ns`. */
  ghost predicate NoBearer(states: seq<State>, h: nat, i: nat, name: string, ns: string)
    requires i <= |states|
  {
    forall g, k :: h <= g < i ==> !Bears(states[g].c, k, name, ns)
  }

  /** Where no live experiment can put a labelled service back, none comes back. */
  lemma {:induction false} NoneComesBack(states: seq<State>, labels: seq<Label>, h: nat, i: nat, name: string, ns: string)
    requires IsRun(Merge, states, labels) && Init(states[0]) && h <= i <= |labels| && NoBearer(states, h, i, name, ns)
    requires NoneLeft(states[h].c, ns, name)
    ensures NoneLeft(states[i].c, ns, name)
    decreases i - h
  {
    hide Serve, Next, Resume, Start, Moved, MayMove, Init, Inv, Bears, BelongsTo;
    if h < i {
      NoneComesBack(states, labels, h, i - 1, name, ns);
      InitOk(states[0]);
      RunKeepsInv(Merge, states, labels, i - 1);
      var s, l, s' := states[i - 1], labels[i - 1], states[i];
      assert StepBy(Merge, s, l, s');
      if l.Env? {
        MoveFewer(s.c, l.move, name, ns);
      } else if l.Call? {
        CallFewer(s, l, s', name, ns);
      }
    }
  }

  /**
   A deletion pass none of whose calls failed other than with 404 leaves no labelled service either, and none comes
   back as long as no live edge experiment of that name acts there.
   */
  lemma CleanDeletionMeansNoneLeft(states: seq<State>, labels: seq<Label>, h: nat, i: nat, k: Key)
    requires IsRun(Merge, states, labels) && Init(states[0]) && h <= i <= |labels|
    requires k in states[h].passes && states[h].passes[k].pc == Finished(Done) && states[h].passes[k].clean
    requires var x := states[h].passes[k].snap.exp; x.deleting && !NeedsFinalizer(x) && x.spec.scenario.IsEdge()
    requires NoRivalBefore(states, h, k, states[h].passes[k].snap.Target())
    requires NoBearer(states, h, i, k.name, states[h].passes[k].snap.Target())
    ensures NoneLeft(states[i].c, states[h].passes[k].snap.Target(), k.name)
  {
    hide StepBy, Init, NeedsFinalizer, Rival, NoBearer, ClusterOk, PassOk, ExperimentClean;
    var ns := states[h].passes[k].snap.Target();
    RunKeepsClean(states, labels, h, k, ns);
    InitOk(states[0]);
    RunKeepsInv(Merge, states, labels, h);
    PassKey(states[h], k);
    NoneComesBack(states, labels, h, i, k.name, ns);
  }
}
