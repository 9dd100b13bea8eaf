/** What becomes of the runner jobs of a pod experiment. */
module RunnerJobs {
  import opened Types
  import opened ExperimentStatus
  import opened Names
  import opened Routing
  import opened ApiServer
  import opened Process
  import opened Machine
  import opened Invariant
  import opened Phases

  // ── Ownership and garbage collection ──

  predicate NoJobOf(c: Cluster, uid: string) {
    forall key :: key in c.jobs ==> c.jobs[key].creator != Some(uid)
  }

  predicate Gone(c: Cluster, uid: string) {
    uid in c.registry && forall k :: k in c.experiments ==> c.experiments[k].uid != uid
  }

  /** Removing the finalizer of an experiment being deleted removes it for good, even if the reply is lost. */
  lemma RemovalIsFinal(s: State, k: Key, delivery: Delivery, reply: Reply, s': State)
    requires Inv(s) && StepBy(Merge, s, Call(k, delivery, reply), s') && s.passes[k].pc.RemovingFinalizer?
    requires !delivery.Refused?
    ensures k !in s'.c.experiments && Gone(s'.c, s.passes[k].snap.exp.uid)
  {
    hide StatusOk, Listed, ServicesOk, JobsOk, StatusesOk, NeedsFinalizer, Prefix;
    assert PassOk(s.c, k, s.passes[k]);
  }

  lemma CollectionLeavesNoJob(c: Cluster, uid: string)
    requires ClusterOk(c) && Gone(c, uid)
    ensures NoJobOf(Moved(c, CollectGarbage(c.registry[uid].ns)), uid)
  {
    hide StatusesOk, ServicesOk, RegistryOk, JobPrefix;
    forall key | key in c.jobs && c.jobs[key].creator == Some(uid)
      ensures key !in Collect(c, c.registry[uid].ns)
    {
      assert JobOk(c, key, c.jobs[key]);
      assert !OwnerAlive(c, key.ns, uid);
    }
  }

  lemma MoveStaysGone(c: Cluster, m: Move, uid: string)
    requires MayMove(c, m) && Gone(c, uid) && NoJobOf(c, uid)
    ensures Gone(Moved(c, m), uid) && NoJobOf(Moved(c, m), uid)
  {
    hide MovedServices, MovedExperiments, VirtualServiceName, IsChaosManaged, OwnerAlive, Prefix;
    forall k | k in Moved(c, m).experiments
      ensures Moved(c, m).experiments[k].uid != uid
    {
      MoveOnExperiment(c.experiments, m, k);
    }
  }

  lemma CallStaysGone(s: State, k: Key, delivery: Delivery, reply: Reply, s': State, uid: string)
    requires Inv(s) && StepBy(Merge, s, Call(k, delivery, reply), s') && Gone(s.c, uid) && NoJobOf(s.c, uid)
    ensures Gone(s'.c, uid) && NoJobOf(s'.c, uid)
  {
    hide Next, Resume, Answers, StatusOk, Listed, ServicesOk, JobsOk, StatusesOk, RegistryOk, NeedsFinalizer,
      ExperimentsAfter, ServicesAfter;
    var p := s.passes[k];
    assert PassOk(s.c, k, p);
    var req := Next(p.snap, p.pc);
    forall k2 | k2 in s'.c.experiments
      ensures s'.c.experiments[k2].uid != uid
    {
      EffectOnExperiment(Merge, s.c.experiments, req, k2);
    }
    RequestKinds(p.snap, p.pc);
  }

  lemma {:induction false} StaysGone(states: seq<State>, labels: seq<Label>, i: nat, j: nat, uid: string)
    requires IsRun(Merge, states, labels) && Inv(states[0]) && i <= j <= |labels|
    requires Gone(states[i].c, uid) && NoJobOf(states[i].c, uid)
    ensures Gone(states[j].c, uid) && NoJobOf(states[j].c, uid)
    decreases j - i
  {
    hide Serve, Next, Resume, Moved, MayMove, Inv, Start;
    if i < j {
      StaysGone(states, labels, i, j - 1, uid);
      RunKeepsInv(Merge, states, labels, j - 1);
      assert StepBy(Merge, states[j - 1], labels[j - 1], states[j]);
      match labels[j - 1]
      case Env(m) => MoveStaysGone(states[j - 1].c, m, uid);
      case Call(k, delivery, reply) => CallStaysGone(states[j - 1], k, delivery, reply, states[j], uid);
      case _ =>
    }
  }

  /**
   Once an experiment is gone and its namespace has been garbage-collected by owner, no job that any of its passes
   ever created remains or comes back, whatever calls failed before.
   */
  lemma CollectedForGood(states: seq<State>, labels: seq<Label>, i: nat, j: nat, uid: string)
    requires IsRun(Merge, states, labels) && Init(states[0]) && i < j <= |labels|
    requires Gone(states[i].c, uid) && labels[i] == Env(CollectGarbage(states[i].c.registry[uid].ns))
    ensures NoJobOf(states[j].c, uid)
  {
    hide Moved, Init;
    InitOk(states[0]);
    RunKeepsInv(Merge, states, labels, i);
    assert StepBy(Merge, states[i], labels[i], states[i + 1]);
    CollectionLeavesNoJob(states[i].c, uid);
    CollectionKeepsRest(states[i].c, states[i].c.registry[uid].ns);
    StaysGone(states, labels, i + 1, j, uid);
  }

  lemma CollectionKeepsRest(c: Cluster, ns: string)
    ensures Moved(c, CollectGarbage(ns)) == c.(jobs := Collect(c, ns))
  {
  }

  /** Every job a pass created, while it is there, is in every listing its experiment can be served. */
  lemma CreatedJobIsFound(states: seq<State>, labels: seq<Label>, i: nat, key: Key, uid: string, jobs: seq<Job>)
    requires IsRun(Merge, states, labels) && Init(states[0]) && i <= |labels|
    requires key in states[i].c.jobs && states[i].c.jobs[key].creator == Some(uid)
    ensures uid in states[i].c.registry
    ensures var k := states[i].c.registry[uid];
            IsJobListing(states[i].c, k.ns, k.name, jobs) ==> states[i].c.jobs[key] in jobs
  {
    hide StepBy, Init, JobPrefix;
    InitOk(states[0]);
    RunKeepsInv(Merge, states, labels, i);
    assert JobOk(states[i].c, key, states[i].c.jobs[key]);
  }

  // ── Every job is listed ──

  function NodesIn(c: Cluster, ns: string): seq<string> {
    if ns in c.nodes then c.nodes[ns] else []
  }

  predicate Within(names: set<string>, list: seq<string>) {
    forall n :: n in names ==> n in list
  }

  function JobNamesOf(c: Cluster, uid: string): set<string> {
    set key | key in c.jobs && c.jobs[key].creator == Some(uid) :: key.name
  }

  /** The names of all jobs created for `uid` and seen in the first `i + 1` states. */
  function Born(states: seq<State>, i: nat, uid: string): set<string>
    requires i < |states|
  {
    JobNamesOf(states[i].c, uid) + if i == 0 then {} else Born(states, i - 1, uid)
  }

  lemma JobNamesMember(id: string, nodes: seq<string>, node: string)
    requires node in nodes
    ensures JobName(id, node) in JobNames(id, nodes)
  {
    var i :| 0 <= i < |nodes| && nodes[i] == node;
    assert JobNames(id, nodes)[i] == JobName(id, node);
  }

  lemma JobNamesMonotone(id: string, few: seq<string>, many: seq<string>, name: string)
    requires forall n :: n in few ==> n in many
    requires name in JobNames(id, few)
    ensures name in JobNames(id, many)
  {
    var i :| 0 <= i < |few| && JobNames(id, few)[i] == name;
    JobNamesMember(id, many, few[i]);
  }

  predicate Nodes(few: seq<string>, many: seq<string>) {
    forall n :: n in few ==> n in many
  }

  /** Where a launching pass stands relative to the jobs born so far. */
  predicate PassTracks(c: Cluster, p: Pass, born: set<string>) {
    match p.pc
    case CreatingJobs(nodes, node, rest) =>
      && node in nodes && Nodes(rest, nodes) && Nodes(nodes, NodesIn(c, p.snap.Target()))
      && Within(born, JobNames(p.snap.exp.uid, nodes))
    case StampingNodes(nodes) => Within(born, JobNames(p.snap.exp.uid, nodes))
    case Patching(st) => st.phase.Running? ==> Within(born, st.runnerJobs)
    case _ => true
  }

  predicate Tracks(s: State, k: Key, uid: string, born: set<string>) {
    && Alive(s.c, k, uid) && !s.c.experiments[k].spec.scenario.IsEdge()
    && JobNamesOf(s.c, uid) <= born
    && (s.c.experiments[k].status.phase.Pending? ==>
          Within(born, JobNames(uid, NodesIn(s.c, TargetNamespace(k, s.c.experiments[k].spec)))))
    && (s.c.experiments[k].status.startedAt.Some? ==> Within(born, s.c.experiments[k].status.runnerJobs))
    && (k in s.passes && In(s.passes[k].snap, Pending) ==> PassTracks(s.c, s.passes[k], born))
  }

  /** While the experiment is pending, the nodes of its target namespace only grow. */
  predicate NodesGrow(s: State, s': State, k: Key, uid: string) {
    Alive(s.c, k, uid) && s.c.experiments[k].status.phase.Pending? ==>
      var ns := TargetNamespace(k, s.c.experiments[k].spec);
      Nodes(NodesIn(s.c, ns), NodesIn(s'.c, ns))
  }

  lemma TrackedRegistered(s: State, k: Key, uid: string, born: set<string>)
    requires Inv(s) && Tracks(s, k, uid, born)
    ensures uid in s.c.registry && s.c.registry[uid] == k && k in s.c.experiments && JobNamesOf(s.c, uid) <= born
    ensures StatusOk(s.c.experiments[k], s.c.clock)
    ensures k in s.passes ==> PassOk(s.c, k, s.passes[k])
  {
    hide JobNamesOf, StatusOk;
  }

  lemma MoveTracks(s: State, m: Move, k: Key, uid: string, born: set<string>)
    requires Inv(s) && MayMove(s.c, m) && Tracks(s, k, uid, born) && Alive(Moved(s.c, m), k, uid)
    ensures JobNamesOf(Moved(s.c, m), uid) <= born
    ensures var x, x' := s.c.experiments[k], Moved(s.c, m).experiments[k]; x'.status == x.status && x'.spec == x.spec
  {
    hide MovedServices, MovedExperiments, VirtualServiceName, IsChaosManaged, OwnerAlive, PassOk, StatusesOk, ServicesOk,
      JobsOk, PassTracks, Within, Prefix;
    TrackedRegistered(s, k, uid, born);
    MoveOnExperiment(s.c.experiments, m, k);
  }

  /** Only the call that creates a job adds to the jobs of its experiment, and only its name. */
  lemma CallBirth(c: Cluster, p: Pass, delivery: Delivery, c': Cluster, reply: Reply, uid: string)
    requires !p.pc.Finished? && Serve(Merge, c, p.snap.exp.uid, Next(p.snap, p.pc), delivery, c', reply)
    ensures c'.nodes == c.nodes
    ensures JobNamesOf(c', uid) <=
            JobNamesOf(c, uid) +
            if p.pc.CreatingJobs? && p.snap.exp.uid == uid then {JobName(p.snap.Id(), p.pc.node)} else {}
  {
    hide Next, Answers, ExperimentsAfter, ServicesAfter, JobName;
    RequestKinds(p.snap, p.pc);
  }

  lemma OtherCallTracks(s: State, l: Label, s': State, k: Key, uid: string, born: set<string>)
    requires Inv(s) && StepBy(Merge, s, l, s') && l.Call? && l.key != k && Tracks(s, k, uid, born)
    ensures JobNamesOf(s'.c, uid) <= born && s'.c.nodes == s.c.nodes
    ensures k in s'.c.experiments && s'.c.experiments[k] == s.c.experiments[k]
    ensures s'.passes.Keys == s.passes.Keys && (k in s.passes ==> s'.passes[k] == s.passes[k])
  {
    hide Next, Resume, Answers, PassOk, ClusterOk, Tracks, Lawful, ExperimentsAfter, ServicesAfter, JobsAfter, JobNamesOf;
    TrackedRegistered(s, k, uid, born);
    CallIsLawful(s, l.key);
    var p := s.passes[l.key];
    LawfulOff(Merge, s.c, l.key, p.snap.exp.uid, Next(p.snap, p.pc), k);
    CallBirth(s.c, p, l.delivery, s'.c, l.reply, uid);
  }

  lemma FrameTracks(s: State, s': State, k: Key, uid: string, born: set<string>)
    requires Inv(s) && Tracks(s, k, uid, born) && NodesGrow(s, s', k, uid) && Alive(s'.c, k, uid)
    requires JobNamesOf(s'.c, uid) <= born
    requires var x, x' := s.c.experiments[k], s'.c.experiments[k]; x'.status == x.status && x'.spec == x.spec
    requires k in s'.passes ==> k in s.passes && s'.passes[k] == s.passes[k]
    ensures Tracks(s', k, uid, born)
  {
    hide JobNamesOf, ClusterOk, StatusOk, JobNames, NeedsFinalizer, Allowed, Listed;
    TrackedRegistered(s, k, uid, born);
    var ns := TargetNamespace(k, s.c.experiments[k].spec);
    if s.c.experiments[k].status.phase.Pending? {
      forall n | n in born { JobNamesMonotone(uid, NodesIn(s.c, ns), NodesIn(s'.c, ns), n); }
    }
  }

  lemma BeginTracks(s: State, k: Key, uid: string, born: set<string>)
    requires Tracks(s, k, uid, born)
    ensures var snap := Snapshot(k, s.c.experiments[k]);
            Tracks(s.(passes := s.passes[k := Pass(snap, Start(snap), true)]), k, uid, born)
  {
    hide JobNamesOf, JobNames;
  }

  lemma OwnCallBirth(s: State, l: Label, s': State, k: Key, uid: string, born: set<string>)
    requires Inv(s) && StepBy(Merge, s, l, s') && l.Call? && l.key == k && Tracks(s, k, uid, born)
    ensures s'.c.nodes == s.c.nodes
    ensures var p := s.passes[k];
            JobNamesOf(s'.c, uid) <= born + if p.pc.CreatingJobs? then {JobName(p.snap.Id(), p.pc.node)} else {}
  {
    hide Serve, Next, Resume, PassOk, ClusterOk, Tracks, JobNamesOf, JobName;
    TrackedRegistered(s, k, uid, born);
    CallBirth(s.c, s.passes[k], l.delivery, s'.c, l.reply, uid);
  }

  /** Where a launching pass goes, in terms of the jobs born by then. */
  lemma LaunchTracks(c: Cluster, k: Key, p: Pass, reply: Reply, born: set<string>)
    requires PassOk(c, k, p) && Launching(p.snap) && !p.snap.IsEdge() && !p.pc.Finished? && PassTracks(c, p, born)
    requires Within(born, JobNames(p.snap.exp.uid, NodesIn(c, p.snap.Target())))
    requires reply.NodeList? ==> reply.nodes == NodesIn(c, p.snap.Target())
    ensures PassTracks(c, Advance(p, reply), born)
  {
    hide Listed, Held, Validate, NeedsFinalizer, BuildFault, IsChaosManaged, Selected, JobNames, Fqdn, EdgeService, Elapsed,
      Allowed, Nodes, Ran, RanToEnd, AnyFailed, AllSucceeded, Within, Lasted;
    match p.pc
    case ListingNodes =>
      if reply.NodeList? && reply.nodes != [] {
        AllNodes(reply.nodes);
        TailNodes(reply.nodes, reply.nodes);
      }
    case CreatingJobs(nodes, _, rest) => if rest != [] { TailNodes(rest, nodes); }
    case _ =>
  }

  lemma AllNodes(nodes: seq<string>)
    ensures Nodes(nodes, nodes)
  {
  }

  lemma TailNodes(rest: seq<string>, nodes: seq<string>)
    requires Nodes(rest, nodes) && rest != []
    ensures rest[0] in nodes && Nodes(rest[1..], nodes)
  {
  }

  lemma NodeReplies(c: Cluster, s: Snapshot, pc: Pc, delivery: Delivery, c': Cluster, reply: Reply)
    requires !pc.Finished? && Serve(Merge, c, s.exp.uid, Next(s, pc), delivery, c', reply)
    ensures reply.NodeList? ==> reply.nodes == NodesIn(c, s.Target())
  {
    hide IsServiceListing, IsJobListing, Effect;
  }

  lemma PatchTracks(c: Cluster, k: Key, p: Pass, st: Status, born: set<string>)
    requires PassOk(c, k, p) && p.pc == Patching(st) && k in c.experiments
    requires c.experiments[k].status.startedAt.Some? ==> Within(born, c.experiments[k].status.runnerJobs)
    requires In(p.snap, Pending) ==> PassTracks(c, p, born)
    ensures Overlay(c.experiments[k].status, st) == st && !st.phase.Pending?
    ensures st.startedAt.Some? ==> Within(born, st.runnerJobs)
  {
    hide Listed, Validate, NeedsFinalizer, Within, JobPrefix;
    AllowedOverlays(p.snap.exp.status, st);
  }

  lemma CreateTracks(c: Cluster, k: Key, p: Pass, reply: Reply, born: set<string>)
    requires PassOk(c, k, p) && p.pc.CreatingJobs? && PassTracks(c, p, born)
    requires Within(born, JobNames(p.snap.exp.uid, NodesIn(c, p.snap.Target())))
    ensures p.snap.Id() == p.snap.exp.uid
    ensures var born' := born + {JobName(p.snap.exp.uid, p.pc.node)};
            Within(born', JobNames(p.snap.exp.uid, NodesIn(c, p.snap.Target()))) && PassTracks(c, Advance(p, reply), born')
  {
    hide Listed, Held, Validate, NeedsFinalizer, JobName, JobNames;
    JobNamesMember(p.snap.exp.uid, p.pc.nodes, p.pc.node);
    JobNamesMember(p.snap.exp.uid, NodesIn(c, p.snap.Target()), p.pc.node);
  }

  /** A pending pass past its first call is launching, or about to patch. */
  lemma PendingPass(c: Cluster, k: Key, p: Pass)
    requires PassOk(c, k, p) && In(p.snap, Pending) && !p.pc.AddingFinalizer? && !p.pc.Finished?
    ensures Launching(p.snap) || p.pc.Patching?
    ensures k in c.experiments && c.experiments[k].status == EMPTY && c.experiments[k].spec == p.snap.exp.spec
    ensures c.experiments[k].uid == p.snap.exp.uid
  {
    hide Listed, Validate, NeedsFinalizer, Allowed;
  }

  lemma PatchedStatus(s: State, l: Label, s': State, k: Key)
    requires StepBy(Merge, s, l, s') && l.Call? && l.key == k && k in s'.c.experiments
    requires s.passes[k].snap.key == k
    ensures k in s.c.experiments
    ensures var x, x' := s.c.experiments[k], s'.c.experiments[k];
            && x'.spec == x.spec && x'.uid == x.uid
            && (x'.status == x.status
                || (s.passes[k].pc.Patching? && x'.status == Overlay(x.status, s.passes[k].pc.status)))
  {
    hide Next, Resume, Answers, JobsAfter, ServicesAfter, ExperimentsAfter, Overlay;
    var p := s.passes[k];
    EffectOnExperiment(Merge, s.c.experiments, Next(p.snap, p.pc), k);
    if p.pc.Patching? && k in s.c.experiments { PatchStores(s.c.experiments, k, p.pc.status); }
    RequestKinds(p.snap, p.pc);
  }

  lemma OwnCallTracks(s: State, l: Label, s': State, k: Key, uid: string, born: set<string>)
    requires Inv(s) && StepBy(Merge, s, l, s') && l.Call? && l.key == k && Tracks(s, k, uid, born) && Alive(s'.c, k, uid)
    ensures Tracks(s', k, uid, born + JobNamesOf(s'.c, uid))
  {
    hide Serve, Next, Resume, JobNamesOf, JobNames, JobName, ClusterOk, Held, PcOk, Listed, StatusOk, PassTracks, Validate,
      Overlay;
    TrackedRegistered(s, k, uid, born);
    var p := s.passes[k];
    OwnCallBirth(s, l, s', k, uid, born);
    PatchedStatus(s, l, s', k);
    NodeReplies(s.c, p.snap, p.pc, l.delivery, s'.c, l.reply);
    var born' := born + JobNamesOf(s'.c, uid);
    if p.pc.Patching? {
      assert born' == born;
      PatchTracks(s.c, k, p, p.pc.status, born);
      PatchEnds(s'.c, p, l.reply, born);
    } else if In(p.snap, Pending) && !p.pc.AddingFinalizer? {
      PendingPass(s.c, k, p);
      if p.pc.CreatingJobs? {
        CreateTracks(s.c, k, p, l.reply, born);
        TracksAcross(s.c, s'.c, Advance(p, l.reply), born + {JobName(uid, p.pc.node)}, born');
      } else {
        assert born' == born;
        LaunchTracks(s.c, k, p, l.reply, born);
        TracksAcross(s.c, s'.c, Advance(p, l.reply), born, born);
      }
    } else {
      if p.pc.CreatingJobs? { NotLaunching(s.c, k, p); }
      assert born' == born;
      if p.pc.AddingFinalizer? { PatchEnds(s'.c, p, l.reply, born); }
    }
  }

  lemma PatchEnds(c: Cluster, p: Pass, reply: Reply, born: set<string>)
    requires p.pc.Patching? || p.pc.AddingFinalizer?
    ensures PassTracks(c, Advance(p, reply), born)
  {
  }

  lemma NotLaunching(c: Cluster, k: Key, p: Pass)
    requires PassOk(c, k, p) && p.pc.CreatingJobs?
    ensures In(p.snap, Pending)
  {
  }

  lemma TracksAcross(c: Cluster, c': Cluster, p: Pass, born: set<string>, born': set<string>)
    requires PassTracks(c, p, born) && c'.nodes == c.nodes && born' <= born
    ensures PassTracks(c', p, born')
  {
    hide JobNames;
  }

  lemma StepTracks(s: State, l: Label, s': State, k: Key, uid: string, born: set<string>)
    requires Inv(s) && StepBy(Merge, s, l, s') && Tracks(s, k, uid, born)
    requires NodesGrow(s, s', k, uid) && Alive(s'.c, k, uid)
    ensures Tracks(s', k, uid, born + JobNamesOf(s'.c, uid))
  {
    hide Serve, Next, Resume, Moved, MayMove, JobNamesOf, ClusterOk, PassOk, PassTracks, Within, NodesGrow, Start;
    TrackedRegistered(s, k, uid, born);
    var born' := born + JobNamesOf(s'.c, uid);
    match l
    case Env(m) =>
      MoveTracks(s, m, k, uid, born);
      assert born' == born;
      FrameTracks(s, s', k, uid, born);
    case Begin(b) =>
      assert born' == born;
      if b == k { BeginTracks(s, k, uid, born); } else { FrameTracks(s, s', k, uid, born); }
    case Call(caller, _, _) =>
      if caller == k {
        OwnCallTracks(s, l, s', k, uid, born);
      } else {
        OtherCallTracks(s, l, s', k, uid, born);
        assert born' == born;
        FrameTracks(s, s', k, uid, born);
      }
    case End(_) =>
      assert born' == born;
      FrameTracks(s, s', k, uid, born);
  }

  lemma UnregisteredJobless(s: State, uid: string)
    requires Inv(s) && uid !in s.c.registry
    ensures JobNamesOf(s.c, uid) == {}
  {
    hide RegistryOk, StatusesOk, ServicesOk, PassOk, JobPrefix;
    forall key | key in s.c.jobs
      ensures s.c.jobs[key].creator != Some(uid)
    {
      assert JobOk(s.c, key, s.c.jobs[key]);
    }
  }

  lemma {:induction false} NothingBorn(states: seq<State>, labels: seq<Label>, i: nat, uid: string)
    requires IsRun(Merge, states, labels) && Inv(states[0]) && i <= |labels| && uid !in states[i].c.registry
    ensures Born(states, i, uid) == {}
  {
    hide StepBy, ClusterOk, PassOk, JobNamesOf;
    RunKeepsInv(Merge, states, labels, i);
    UnregisteredJobless(states[i], uid);
    if i > 0 {
      RegistryGrows(states, labels, i - 1, i);
      NothingBorn(states, labels, i - 1, uid);
    }
  }

  lemma MoveJobless(c: Cluster, m: Move, uid: string)
    requires MayMove(c, m) && JobNamesOf(c, uid) == {}
    ensures JobNamesOf(Moved(c, m), uid) == {}
  {
    hide MovedServices, MovedExperiments, VirtualServiceName, IsChaosManaged, OwnerAlive, FreshUid;
    assert forall key :: key in c.jobs && c.jobs[key].creator == Some(uid) ==> key.name in JobNamesOf(c, uid);
  }

  /** A pass older than the object it finds under its key is past relying on it. */
  lemma OlderPass(s: State, k: Key)
    requires Inv(s) && k in s.passes && k !in s.c.experiments
    ensures s.passes[k].pc.AddingFinalizer? || s.passes[k].pc.Finished?
  {
    assert PassOk(s.c, k, s.passes[k]);
  }

  lemma NewbornTracks(s: State, l: Label, s': State, k: Key, uid: string)
    requires Inv(s) && StepBy(Merge, s, l, s') && Alive(s'.c, k, uid) && uid !in s.c.registry
    requires !s'.c.experiments[k].spec.scenario.IsEdge()
    ensures Tracks(s', k, uid, JobNamesOf(s'.c, uid)) && JobNamesOf(s'.c, uid) == {}
  {
    hide Serve, Next, Resume, Start, MovedServices, MovedJobs, PassOk, StatusesOk, ServicesOk, JobsOk, VirtualServiceName,
      IsChaosManaged, Prefix, JobNamesOf, JobNames, MovedExperiments, Lawful, ExperimentsAfter;
    NewbornIsEmpty(s, l, s', k, uid);
    UnregisteredJobless(s, uid);
    match l
    case Env(m) =>
      MoveOnExperiment(s.c.experiments, m, k);
      assert k !in s.c.experiments;
      MoveJobless(s.c, m, uid);
      if k in s.passes { OlderPass(s, k); }
    case Call(caller, _, _) =>
      CallIsLawful(s, caller);
      CallStatus(s, l, s', k);
      LiveIsRegistered(s, k, uid);
    case _ => LiveIsRegistered(s, k, uid);
  }

  lemma {:induction false} RunTracks(states: seq<State>, labels: seq<Label>, i: nat, k: Key, uid: string)
    requires IsRun(Merge, states, labels) && Init(states[0]) && i <= |labels| && Alive(states[i].c, k, uid)
    requires !states[i].c.experiments[k].spec.scenario.IsEdge()
    requires forall h :: 0 <= h < i ==> NodesGrow(states[h], states[h + 1], k, uid)
    ensures Tracks(states[i], k, uid, Born(states, i, uid))
  {
    hide StepBy, ClusterOk, PassOk, NodesGrow, JobNamesOf, Tracks;
    InitOk(states[0]);
    RunKeepsInv(Merge, states, labels, i);
    LiveIsRegistered(states[i], k, uid);
    var s, s' := states[i - 1], states[i];
    RunKeepsInv(Merge, states, labels, i - 1);
    if uid in s.c.registry {
      StepStatus(s, labels[i - 1], s', k, uid);
      RunTracks(states, labels, i - 1, k, uid);
      assert NodesGrow(states[i - 1], states[i - 1 + 1], k, uid);
      StepTracks(s, labels[i - 1], s', k, uid, Born(states, i - 1, uid));
      assert Born(states, i, uid) == Born(states, i - 1, uid) + JobNamesOf(s'.c, uid);
    } else {
      NothingBorn(states, labels, i - 1, uid);
      NewbornTracks(s, labels[i - 1], s', k, uid);
      assert Born(states, i, uid) == JobNamesOf(s'.c, uid);
    }
  }

  lemma {:induction false} BornContains(states: seq<State>, h: nat, i: nat, uid: string)
    requires h <= i < |states|
    ensures JobNamesOf(states[h].c, uid) <= Born(states, i, uid)
    decreases i - h
  {
    hide JobNamesOf;
    if h < i { BornContains(states, h, i - 1, uid); }
  }

  /**
   If the target nodes only grow while the experiment is pending, then from Running on `runner_jobs` lists every job
   that any of its passes ever created, despite partly failed job creation and retries.
   */
  lemma EveryJobIsListed(states: seq<State>, labels: seq<Label>, h: nat, i: nat, k: Key, uid: string, key: Key)
    requires IsRun(Merge, states, labels) && Init(states[0]) && h <= i <= |labels| && Alive(states[i].c, k, uid)
    requires forall j :: 0 <= j < i ==> NodesGrow(states[j], states[j + 1], k, uid)
    requires !states[i].c.experiments[k].spec.scenario.IsEdge() && states[i].c.experiments[k].status.startedAt.Some?
    requires key in states[h].c.jobs && states[h].c.jobs[key].creator == Some(uid)
    ensures key.name in states[i].c.experiments[k].status.runnerJobs
  {
    hide StepBy, NodesGrow, Init, PassTracks;
    RunTracks(states, labels, i, k, uid);
    BornContains(states, h, i, uid);
    assert key.name in JobNamesOf(states[h].c, uid);
  }
}
