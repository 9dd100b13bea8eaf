/**
 Passes of one edge experiment that start from stale snapshots and run concurrently: two operator replicas, or a
 cache that lags behind. Phases may then go back, but the VirtualService name cannot change.
 */
module StaleReads {
  import opened Types
  import opened ExperimentStatus
  import opened Names
  import opened Routing
  import opened ApiServer
  import opened Process
  import opened Machine

  /**
   `seen` holds every stored version of the experiment so far; a pass may start from any of them. `backed` holds the
   passes that have seen their service in the cluster: their create put it there, or was told it already exists.
   */
  datatype World = World(c: Cluster, seen: set<Experiment>, passes: map<nat, Pass>, backed: set<nat>)

  datatype Label = Env(move: Move) | Begin(id: nat, from: Experiment) | Call(id: nat, delivery: Delivery, reply: Reply) | End(id: nat)

  predicate StepBy(k: Key, w: World, l: Label, w': World) {
    && w'.seen == w.seen + (if k in w'.c.experiments then {w'.c.experiments[k]} else {})
    && match l
       case Env(m) =>
         && MayMove(w.c, m) && !(m.CreateExperiment? && m.key == k)
         && w' == w.(c := Moved(w.c, m), seen := w'.seen)
       case Begin(id, x) =>
         && x in w.seen && id !in w.passes
         && w' == w.(seen := w'.seen, passes := w.passes[id := Pass(Snapshot(k, x), Start(Snapshot(k, x)), true)],
                     backed := w.backed - {id})
       case Call(id, delivery, reply) =>
         && id in w.passes && !w.passes[id].pc.Finished?
         && var p := w.passes[id];
         && Serve(Merge, w.c, p.snap.exp.uid, Next(p.snap, p.pc), delivery, w'.c, reply)
         && w'.passes == w.passes[id := Advance(p, reply)]
         && w'.backed == w.backed + if p.pc.CreatingService? && ServiceKey(p.snap) in w'.c.services then {id} else {}
       case End(id) => w' == w.(seen := w'.seen, passes := w.passes - {id})
  }

  predicate IsRun(k: Key, worlds: seq<World>, labels: seq<Label>) {
    && |worlds| == |labels| + 1
    && forall i :: 0 <= i < |labels| ==> StepBy(k, worlds[i], labels[i], worlds[i + 1])
  }

  /** The experiment was just created, and nothing carries its UID yet. */
  predicate Init(w: World, k: Key, x: Experiment) {
    && x.status == EMPTY && x.spec.scenario.IsEdge()
    && k in w.c.experiments && w.c.experiments[k] == x && w.seen == {x}
    && w.passes == map[] && w.backed == {}
    && forall key :: key in w.c.services ==> w.c.services[key].creator != Some(x.uid)
  }

  predicate Known(x: Experiment, origin: Experiment) {
    x.uid == origin.uid && x.spec == origin.spec && IdOk(x.status, origin.uid)
  }

  predicate IdOk(st: Status, uid: string) {
    st.experimentId == None || st.experimentId == Some(uid)
  }

  /** The one service key the experiment can ever use. */
  function TheKey(k: Key, origin: Experiment): Key {
    Key(TargetNamespace(k, origin.spec), VirtualServiceName(origin.uid))
  }

  predicate PassOk(k: Key, p: Pass, origin: Experiment, isBacked: bool) {
    && p.snap.key == k && Known(p.snap.exp, origin)
    && (p.pc.StampingEdge? ==> isBacked)
    && (p.pc.StampingEnd? ==> p.pc.phase.IsTerminal())
    && (p.pc.Patching? ==> IdOk(p.pc.status, origin.uid)
                           && (p.snap.exp.status.phase.Pending? && p.pc.status.phase.Running? ==> isBacked))
    && !p.pc.ListingNodes? && !p.pc.CreatingJobs? && !p.pc.StampingNodes?
  }

  predicate OwnServicesAt(c: Cluster, k: Key, origin: Experiment) {
    forall key :: key in c.services && c.services[key].creator == Some(origin.uid) ==> key == TheKey(k, origin)
  }

  predicate WorldOk(w: World, k: Key, origin: Experiment) {
    && (forall x :: x in w.seen ==> Known(x, origin))
    && (k in w.c.experiments ==> w.c.experiments[k] in w.seen)
    && (forall id :: id in w.passes ==> PassOk(k, w.passes[id], origin, id in w.backed))
    && OwnServicesAt(w.c, k, origin)
  }

  lemma StartOk(k: Key, x: Experiment, origin: Experiment, isBacked: bool)
    requires Known(x, origin) && origin.spec.scenario.IsEdge()
    ensures PassOk(k, Pass(Snapshot(k, x), Start(Snapshot(k, x)), true), origin, isBacked)
  {
    hide Validate, NeedsFinalizer;
  }

  lemma ResumeOk(k: Key, p: Pass, origin: Experiment, before: bool, reply: Reply, after: bool)
    requires PassOk(k, p, origin, before) && origin.spec.scenario.IsEdge() && !p.pc.Finished?
    requires before ==> after
    requires p.pc.CreatingService? && (reply == Ack || reply == Error(AlreadyExists)) ==> after
    ensures PassOk(k, Advance(p, reply), origin, after)
  {
    hide Validate, NeedsFinalizer, BuildFault, Selected, IsChaosManaged, Elapsed, AnyFailed, AllSucceeded, Fqdn, EdgeService;
  }

  /** A create that is acknowledged, or refused as existing, means the service is there. */
  lemma CreateIsBacked(c: Cluster, p: Pass, delivery: Delivery, c': Cluster, reply: Reply)
    requires p.pc.CreatingService? && Serve(Merge, c, p.snap.exp.uid, Next(p.snap, p.pc), delivery, c', reply)
    requires reply == Ack || reply == Error(AlreadyExists)
    ensures ServiceKey(p.snap) in c'.services
  {
    hide EdgeService, VirtualServiceName;
  }

  lemma CallOnServices(k: Key, c: Cluster, p: Pass, req: Request, origin: Experiment)
    requires PassOk(k, p, origin, true) || PassOk(k, p, origin, false)
    requires !p.pc.Finished? && req == Next(p.snap, p.pc)
    ensures req.CreateService? ==> req.key == TheKey(k, origin)
    ensures req.PatchStatus? ==> req.key == k && IdOk(req.status, origin.uid)
    ensures (req.AddFinalizer? || req.RemoveFinalizer?) ==> req.key == k
  {
    hide VirtualServiceName, EdgeService, Fqdn;
  }

  lemma PatchKeepsKnown(mode: PatchMode, xs: map<Key, Experiment>, req: Request, k: Key, origin: Experiment)
    requires k in ExperimentsAfter(mode, xs, req) && mode.Merge?
    requires req.PatchStatus? ==> IdOk(req.status, origin.uid)
    requires k in xs ==> Known(xs[k], origin)
    ensures Known(ExperimentsAfter(mode, xs, req)[k], origin)
  {
  }

  lemma CallKeepsServices(k: Key, c: Cluster, p: Pass, delivery: Delivery, c': Cluster, reply: Reply, origin: Experiment)
    requires !p.pc.Finished? && Serve(Merge, c, p.snap.exp.uid, Next(p.snap, p.pc), delivery, c', reply)
    requires PassOk(k, p, origin, true) || PassOk(k, p, origin, false)
    requires OwnServicesAt(c, k, origin)
    ensures OwnServicesAt(c', k, origin)
  {
    hide Next, ExperimentsAfter, JobsAfter, Answers, PassOk, TheKey;
    CallOnServices(k, c, p, Next(p.snap, p.pc), origin);
  }

  lemma CallKeepsKnown(k: Key, c: Cluster, p: Pass, delivery: Delivery, c': Cluster, reply: Reply, origin: Experiment)
    requires !p.pc.Finished? && Serve(Merge, c, p.snap.exp.uid, Next(p.snap, p.pc), delivery, c', reply)
    requires PassOk(k, p, origin, true) || PassOk(k, p, origin, false)
    requires k in c.experiments ==> Known(c.experiments[k], origin)
    ensures k in c'.experiments ==> Known(c'.experiments[k], origin)
  {
    hide Next, ExperimentsAfter, JobsAfter, ServicesAfter, Answers, PassOk, Known;
    var req := Next(p.snap, p.pc);
    CallOnServices(k, c, p, req, origin);
    if k in ExperimentsAfter(Merge, c.experiments, req) { PatchKeepsKnown(Merge, c.experiments, req, k, origin); }
  }

  lemma CallKeepsOk(k: Key, w: World, l: Label, w': World, origin: Experiment)
    requires StepBy(k, w, l, w') && l.Call? && WorldOk(w, k, origin) && origin.spec.scenario.IsEdge()
    ensures WorldOk(w', k, origin)
  {
    hide Serve, Next, Resume, PassOk, Known, TheKey, ServiceKey;
    var p := w.passes[l.id];
    CallKeepsServices(k, w.c, p, l.delivery, w'.c, l.reply, origin);
    CallKeepsKnown(k, w.c, p, l.delivery, w'.c, l.reply, origin);
    if p.pc.CreatingService? && (l.reply == Ack || l.reply == Error(AlreadyExists)) {
      CreateIsBacked(w.c, p, l.delivery, w'.c, l.reply);
    }
    ResumeOk(k, p, origin, l.id in w.backed, l.reply, l.id in w'.backed);
  }

  lemma StepKeepsOk(k: Key, w: World, l: Label, w': World, origin: Experiment)
    requires StepBy(k, w, l, w') && WorldOk(w, k, origin) && origin.spec.scenario.IsEdge()
    ensures WorldOk(w', k, origin)
  {
    hide Serve, Next, Resume, Start, MovedExperiments, MovedJobs, PassOk, Known, TheKey, ServiceKey, IsChaosManaged, FreshUid,
      VirtualServiceName;
    match l
    case Env(m) => MoveKeepsKnown(w.c.experiments, m, k, origin);
    case Begin(id, x) => StartOk(k, x, origin, false);
    case Call(id, _, _) => CallKeepsOk(k, w, l, w', origin);
    case End(_) =>
  }

  lemma MoveKeepsKnown(xs: map<Key, Experiment>, m: Move, k: Key, origin: Experiment)
    requires !(m.CreateExperiment? && m.key == k)
    requires k in xs ==> Known(xs[k], origin)
    ensures k in MovedExperiments(xs, m) ==> Known(MovedExperiments(xs, m)[k], origin)
  {
  }

  lemma {:induction false} RunKeepsOk(k: Key, worlds: seq<World>, labels: seq<Label>, i: nat, origin: Experiment)
    requires IsRun(k, worlds, labels) && Init(worlds[0], k, origin) && i <= |labels|
    ensures WorldOk(worlds[i], k, origin)
  {
    hide StepBy, PassOk;
    if i > 0 {
      RunKeepsOk(k, worlds, labels, i - 1, origin);
      StepKeepsOk(k, worlds[i - 1], labels[i - 1], worlds[i], origin);
    }
  }

  // ── Main results ──

  /** However many stale passes race, at most one service of the experiment exists, always under the same key. */
  lemma AtMostOneService(k: Key, worlds: seq<World>, labels: seq<Label>, i: nat, origin: Experiment, key: Key)
    requires IsRun(k, worlds, labels) && Init(worlds[0], k, origin) && i <= |labels|
    requires key in worlds[i].c.services && worlds[i].c.services[key].creator == Some(origin.uid)
    ensures key == Key(TargetNamespace(k, origin.spec), VirtualServiceName(origin.uid))
  {
    hide StepBy, Init;
    RunKeepsOk(k, worlds, labels, i, origin);
  }

  /** A Pending pass that moves the experiment to Running has had its service in the cluster. */
  lemma RunningIsBacked(k: Key, worlds: seq<World>, labels: seq<Label>, i: nat, origin: Experiment, id: nat)
    requires IsRun(k, worlds, labels) && Init(worlds[0], k, origin) && i < |labels|
    requires labels[i].Call? && labels[i].id == id && id in worlds[i].passes
    requires var p := worlds[i].passes[id];
             p.snap.exp.status.phase.Pending? && p.pc.Patching? && p.pc.status.phase.Running?
    ensures exists h :: 0 <= h < i && CreatedOrFound(k, worlds[h], labels[h], worlds[h + 1], id, origin) &&
                        SamePass(labels, h, i, id)
  {
    hide StepBy, Init, PassOk;
    RunKeepsOk(k, worlds, labels, i, origin);
    BackedPatch(k, worlds[i].passes[id], origin, id in worlds[i].backed);
    BackedSince(k, worlds, labels, i, origin, id);
  }

  lemma BackedPatch(k: Key, p: Pass, origin: Experiment, isBacked: bool)
    requires PassOk(k, p, origin, isBacked)
    requires p.snap.exp.status.phase.Pending? && p.pc.Patching? && p.pc.status.phase.Running?
    ensures isBacked
  {
  }

  /** This step is a create by pass `id` after which the service is in the cluster. */
  predicate CreatedOrFound(k: Key, w: World, l: Label, w': World, id: nat, origin: Experiment) {
    && l.Call? && l.id == id && id in w.passes && w.passes[id].pc.CreatingService?
    && TheKey(k, origin) in w'.c.services
  }

  /** No other pass took the identity `id` over in between. */
  predicate SamePass(labels: seq<Label>, h: nat, i: nat, id: nat)
    requires i <= |labels|
  {
    forall g :: h < g < i ==> !(labels[g].Begin? && labels[g].id == id)
  }

  lemma {:induction false} BackedSince(k: Key, worlds: seq<World>, labels: seq<Label>, i: nat, origin: Experiment, id: nat)
    requires IsRun(k, worlds, labels) && Init(worlds[0], k, origin) && i <= |labels| && id in worlds[i].backed
    ensures exists h :: 0 <= h < i && CreatedOrFound(k, worlds[h], labels[h], worlds[h + 1], id, origin) &&
                        SamePass(labels, h, i, id)
  {
    hide Next, Resume, Serve, Start, Moved, MayMove, VirtualServiceName, PassOk;
    assert StepBy(k, worlds[i - 1], labels[i - 1], worlds[i]);
    RunKeepsOk(k, worlds, labels, i - 1, origin);
    if id in worlds[i - 1].backed {
      BackedSince(k, worlds, labels, i - 1, origin, id);
      var h :| 0 <= h < i - 1 && CreatedOrFound(k, worlds[h], labels[h], worlds[h + 1], id, origin) &&
               SamePass(labels, h, i - 1, id);
      assert SamePass(labels, h, i, id);
    } else {
      SameKey(k, worlds[i - 1].passes[id], origin, id in worlds[i - 1].backed);
      assert CreatedOrFound(k, worlds[i - 1], labels[i - 1], worlds[i - 1 + 1], id, origin) && SamePass(labels, i - 1, i, id);
    }
  }

  lemma SameKey(k: Key, p: Pass, origin: Experiment, isBacked: bool)
    requires PassOk(k, p, origin, isBacked)
    ensures ServiceKey(p.snap) == TheKey(k, origin)
  {
  }
}
