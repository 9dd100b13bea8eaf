/** How one experiment's status evolves over a whole run, and why merge patches are harmless here. */
module Phases {
  import opened Types
  import opened ExperimentStatus
  import opened Names
  import opened Routing
  import opened ApiServer
  import opened Process
  import opened Machine
  import opened Invariant

  predicate Alive(c: Cluster, k: Key, uid: string) {
    k in c.experiments && c.experiments[k].uid == uid
  }

  /** A step back from a live experiment: it was live before, and its status moved only by an allowed write. */
  lemma StepStatus(s: State, l: Label, s': State, k: Key, uid: string)
    requires Inv(s) && StepBy(Merge, s, l, s') && Alive(s'.c, k, uid) && uid in s.c.registry
    ensures Alive(s.c, k, uid)
    ensures var x, x' := s.c.experiments[k], s'.c.experiments[k];
            x'.spec == x.spec && (x'.status == x.status || Allowed(x.status, x'.status))
  {
    hide Serve, Next, Effect, Allowed, PassOk, StatusesOk, ServicesOk, JobsOk;
    match l
    case Env(m) => MoveStatus(s.c, m, k, uid);
    case Call(caller, _, _) =>
      assert PassOk(s.c, caller, s.passes[caller]);
      CallIsLawful(s, caller);
      CallStatus(s, l, s', k);
    case _ =>
  }

  lemma MoveStatus(c: Cluster, m: Move, k: Key, uid: string)
    requires MayMove(c, m) && Alive(Moved(c, m), k, uid) && uid in c.registry
    ensures Alive(c, k, uid)
    ensures Moved(c, m).experiments[k].spec == c.experiments[k].spec
    ensures Moved(c, m).experiments[k].status == c.experiments[k].status
  {
    hide MovedExperiments, MovedJobs, MovedServices, VirtualServiceName, IsChaosManaged, Prefix;
    MoveOnExperiment(c.experiments, m, k);
  }

  lemma CallIsLawful(s: State, k: Key)
    requires Inv(s) && k in s.passes && !s.passes[k].pc.Finished?
    ensures Lawful(s.c, k, s.passes[k].snap.exp.uid, Next(s.passes[k].snap, s.passes[k].pc))
    ensures s.passes[k].snap.exp.uid in s.c.registry && s.c.registry[s.passes[k].snap.exp.uid] == k
  {
    hide Next, Lawful, PcOk, ServicesOk, JobsOk, StatusesOk, StatusOk;
    assert PassOk(s.c, k, s.passes[k]);
    NextLawful(s.c, k, s.passes[k]);
  }

  lemma CallStatus(s: State, l: Label, s': State, k: Key)
    requires StepBy(Merge, s, l, s') && l.Call? && k in s'.c.experiments
    requires Lawful(s.c, l.key, s.passes[l.key].snap.exp.uid, Next(s.passes[l.key].snap, s.passes[l.key].pc))
    ensures k in s.c.experiments
    ensures var x, x' := s.c.experiments[k], s'.c.experiments[k];
            x'.uid == x.uid && x'.spec == x.spec && (x'.status == x.status || Allowed(x.status, x'.status))
  {
    hide Effect, Next, Lawful, Allowed, Resume, Answers, StatusOk;
    var p := s.passes[l.key];
    var c' := Effect(Merge, s.c, p.snap.exp.uid, Next(p.snap, p.pc));
    if s'.c == c' {
      LawfulStatus(Merge, s.c, l.key, p.snap.exp.uid, Next(p.snap, p.pc), k);
    }
  }

  /** Phases go forward, terminal statuses only gain the cleanup mark, and what a start fixed stays fixed. */
  predicate Forward(a: Status, b: Status) {
    && (a.phase.Pending? || a.phase == b.phase || (a.phase.Running? && b.phase.IsTerminal()))
    && (!a.phase.Pending? ==>
          b.startedAt == a.startedAt && b.experimentId == a.experimentId && b.runnerJobs == a.runnerJobs)
    && (a.phase.IsTerminal() ==> b == a.(cleanupDone := b.cleanupDone) && (a.cleanupDone ==> b.cleanupDone))
  }

  lemma {:induction false} StatusMovesForward(states: seq<State>, labels: seq<Label>, i: nat, j: nat, k: Key, uid: string)
    requires IsRun(Merge, states, labels) && Inv(states[0]) && i <= j <= |labels|
    requires Alive(states[i].c, k, uid) && Alive(states[j].c, k, uid)
    ensures Forward(states[i].c.experiments[k].status, states[j].c.experiments[k].status)
    decreases j - i
  {
    hide StepBy, ClusterOk, PassOk, Allowed;
    if i < j {
      RunKeepsInv(Merge, states, labels, j - 1);
      RunKeepsInv(Merge, states, labels, i);
      RegistryGrows(states, labels, i, j - 1);
      LiveIsRegistered(states[i], k, uid);
      StepStatus(states[j - 1], labels[j - 1], states[j], k, uid);
      StatusMovesForward(states, labels, i, j - 1, k, uid);
      AllowedIsForward(states[j - 1].c.experiments[k].status, states[j].c.experiments[k].status);
    }
  }

  lemma LiveIsRegistered(s: State, k: Key, uid: string)
    requires Inv(s) && Alive(s.c, k, uid)
    ensures uid in s.c.registry && StatusOk(s.c.experiments[k], s.c.clock)
  {
  }

  lemma AllowedIsForward(a: Status, b: Status)
    requires a == b || Allowed(a, b)
    ensures Forward(a, b)
  {
  }

  lemma StepAdvances(mode: PatchMode, s: State, l: Label, s': State)
    requires Inv(s) && StepBy(mode, s, l, s')
    ensures Advances(s.c, s'.c)
  {
    match l
    case Env(m) => MoveFrame(s.c, m);
    case Call(k, delivery, reply) =>
      CallKeepsCluster(mode, s.c, k, s.passes[k], delivery, s'.c, reply);
    case _ =>
  }

  lemma {:induction false} RegistryGrows(states: seq<State>, labels: seq<Label>, i: nat, j: nat)
    requires IsRun(Merge, states, labels) && Inv(states[0]) && i <= j <= |labels|
    ensures Advances(states[i].c, states[j].c)
    decreases j - i
  {
    hide StepBy, ClusterOk, PassOk;
    if i < j {
      RegistryGrows(states, labels, i, j - 1);
      RunKeepsInv(Merge, states, labels, j - 1);
      StepAdvances(Merge, states[j - 1], labels[j - 1], states[j]);
    }
  }

  /** A status changes only by the own pass's patch, which is then stored as sent. */
  lemma StatusWrittenBy(s: State, l: Label, s': State, k: Key, uid: string)
    requires Inv(s) && StepBy(Merge, s, l, s') && Alive(s.c, k, uid) && Alive(s'.c, k, uid) && uid in s.c.registry
    requires s'.c.experiments[k].status != s.c.experiments[k].status
    ensures l.Call? && l.key == k && k in s.passes && s.passes[k].pc == Patching(s'.c.experiments[k].status)
    ensures var p, x := s.passes[k], s.c.experiments[k];
            p.snap.key == k && p.snap.exp.spec == x.spec && p.snap.exp.status == x.status && !p.snap.exp.deleting
  {
    hide Serve, Next, ClusterOk, PassOk, Allowed, MovedJobs, MovedServices, MayMove, Resume, Start;
    match l
    case Env(m) => MoveStatus(s.c, m, k, uid);
    case Call(caller, delivery, reply) =>
      assert PassOk(s.c, caller, s.passes[caller]);
      CallWrites(s.c, caller, s.passes[caller], delivery, s'.c, reply, k);
    case _ =>
  }

  lemma CallWrites(c: Cluster, caller: Key, p: Pass, delivery: Delivery, c': Cluster, reply: Reply, k: Key)
    requires PassOk(c, caller, p) && !p.pc.Finished? && k in c.experiments && k in c'.experiments
    requires Serve(Merge, c, p.snap.exp.uid, Next(p.snap, p.pc), delivery, c', reply)
    requires c'.experiments[k].status != c.experiments[k].status
    ensures caller == k && p.snap.key == k && p.pc == Patching(c'.experiments[k].status) && !p.snap.exp.deleting
    ensures p.snap.exp.spec == c.experiments[k].spec && p.snap.exp.status == c.experiments[k].status
  {
    hide Next, StatusOk, Allowed, Overlay, JobsAfter, ServicesAfter, Answers, Validate, NeedsFinalizer, Listed, ExperimentsAfter;
    EffectOnExperiment(Merge, c.experiments, Next(p.snap, p.pc), k);
    RequestKinds(p.snap, p.pc);
    AllowedOverlays(p.snap.exp.status, p.pc.status);
    PatchStores(c.experiments, k, p.pc.status);
  }

  // ── Terminal statuses and readiness ──

  /** The run so far has shown the experiment in phase Running. */
  predicate WasRunning(states: seq<State>, i: nat, k: Key, uid: string)
    requires i < |states|
  {
    exists h :: 0 <= h <= i && Alive(states[h].c, k, uid) && states[h].c.experiments[k].status.phase.Running?
  }

  /** Both ends of the chaos window are recorded, in order. */
  predicate HasWindow(st: Status) {
    st.startedAt.Some? && st.completedAt.Some? && st.startedAt.value <= st.completedAt.value
  }

  /** An experiment whose UID is new was just created, with an empty status. */
  lemma NewbornIsEmpty(s: State, l: Label, s': State, k: Key, uid: string)
    requires Inv(s) && StepBy(Merge, s, l, s') && Alive(s'.c, k, uid) && uid !in s.c.registry
    ensures s'.c.experiments[k].status == EMPTY
  {
    hide Serve, Next, Effect, Resume, Moved, Start, PassOk, StatusesOk, ServicesOk, JobsOk, Allowed;
    match l
    case Env(m) => MoveNewborn(s.c, m, k, uid);
    case Call(caller, _, _) =>
      CallIsLawful(s, caller);
      CallStatus(s, l, s', k);
      LiveIsRegistered(s, k, uid);
    case _ => LiveIsRegistered(s, k, uid);
  }

  lemma MoveNewborn(c: Cluster, m: Move, k: Key, uid: string)
    requires RegistryOk(c) && MayMove(c, m) && Alive(Moved(c, m), k, uid) && uid !in c.registry
    ensures Moved(c, m).experiments[k].status == EMPTY
  {
    hide MovedExperiments, MovedJobs, MovedServices, VirtualServiceName, IsChaosManaged, Prefix;
    MoveOnExperiment(c.experiments, m, k);
  }

  lemma UnregisteredNeverLived(states: seq<State>, labels: seq<Label>, i: nat, k: Key, uid: string)
    requires IsRun(Merge, states, labels) && Inv(states[0]) && i <= |labels| && uid !in states[i].c.registry
    ensures !WasRunning(states, i, k, uid)
  {
    hide StepBy, ClusterOk, PassOk;
    forall h | 0 <= h <= i
      ensures !Alive(states[h].c, k, uid)
    {
      RunKeepsInv(Merge, states, labels, h);
      RegistryGrows(states, labels, h, i);
      if Alive(states[h].c, k, uid) { LiveIsRegistered(states[h], k, uid); }
    }
  }

  /** A start time is recorded exactly when the run has passed through Running. */
  lemma {:induction false} StartedIffWasRunning(states: seq<State>, labels: seq<Label>, i: nat, k: Key, uid: string)
    requires IsRun(Merge, states, labels) && Init(states[0]) && i <= |labels| && Alive(states[i].c, k, uid)
    ensures states[i].c.experiments[k].status.startedAt.Some? <==> WasRunning(states, i, k, uid)
  {
    hide StepBy, ClusterOk, PassOk, Allowed, StatusOk;
    InitOk(states[0]);
    if i > 0 {
      var s, s' := states[i - 1], states[i];
      var st' := s'.c.experiments[k].status;
      RunKeepsInv(Merge, states, labels, i - 1);
      RunKeepsInv(Merge, states, labels, i);
      LiveIsRegistered(s', k, uid);
      assert WasRunning(states, i, k, uid) <==> WasRunning(states, i - 1, k, uid) || st'.phase.Running?;
      if uid in s.c.registry {
        StepStatus(s, labels[i - 1], s', k, uid);
        StartedIffWasRunning(states, labels, i - 1, k, uid);
        LiveIsRegistered(s, k, uid);
        StepAdvances(Merge, s, labels[i - 1], s');
        StartedAcross(s.c.experiments[k], s.c.clock, s'.c.experiments[k], s'.c.clock);
      } else {
        UnregisteredNeverLived(states, labels, i - 1, k, uid);
        NewbornIsEmpty(s, labels[i - 1], s', k, uid);
      }
    }
  }

  lemma StartedAcross(x: Experiment, clock: int, x': Experiment, clock': int)
    requires StatusOk(x, clock) && StatusOk(x', clock')
    requires x'.status == x.status || Allowed(x.status, x'.status)
    ensures x'.status.startedAt.Some? <==> x.status.startedAt.Some? || x'.status.phase.Running?
  {
  }

  /** A finished experiment has a chaos window exactly when its run passed through Running. */
  lemma WindowIffWasRunning(states: seq<State>, labels: seq<Label>, i: nat, k: Key, uid: string)
    requires IsRun(Merge, states, labels) && Init(states[0]) && i <= |labels| && Alive(states[i].c, k, uid)
    requires states[i].c.experiments[k].status.phase.IsTerminal()
    ensures HasWindow(states[i].c.experiments[k].status) <==> WasRunning(states, i, k, uid)
  {
    hide StepBy;
    StartedIffWasRunning(states, labels, i, k, uid);
    InitOk(states[0]);
    RunKeepsInv(Merge, states, labels, i);
    assert StatusOk(states[i].c.experiments[k], states[i].c.clock);
  }

  /** An edge experiment that succeeded has stored times at least its duration apart, if that is below 2^63 seconds. */
  lemma EdgeChaosLasts(states: seq<State>, labels: seq<Label>, i: nat, k: Key)
    requires IsRun(Merge, states, labels) && Init(states[0]) && i <= |labels| && k in states[i].c.experiments
    requires var x := states[i].c.experiments[k];
             x.spec.scenario.IsEdge() && x.status.phase.Succeeded? && x.spec.duration < TWO_63
    ensures var x := states[i].c.experiments[k];
            HasWindow(x.status) && x.status.completedAt.value - x.status.startedAt.value >= x.spec.duration * NANOS
  {
    hide StepBy, Init, JobPrefix;
    InitOk(states[0]);
    RunKeepsInv(Merge, states, labels, i);
    assert StatusOk(states[i].c.experiments[k], states[i].c.clock);
  }

  // ── Merge patches against whole replacement ──

  lemma SameStep(s: State, l: Label, s': State)
    requires Inv(s)
    ensures StepBy(Merge, s, l, s') <==> StepBy(Replace, s, l, s')
  {
    hide Next, Effect, Resume, Answers, PcOk, StatusOk, Held, ClusterOk;
    if l.Call? && l.key in s.passes && !s.passes[l.key].pc.Finished? {
      var p := s.passes[l.key];
      assert PassOk(s.c, l.key, p);
      SameEffect(s.c, l.key, p);
    }
  }

  lemma SameEffect(c: Cluster, k: Key, p: Pass)
    requires PassOk(c, k, p) && !p.pc.Finished?
    ensures Effect(Merge, c, p.snap.exp.uid, Next(p.snap, p.pc)) == Effect(Replace, c, p.snap.exp.uid, Next(p.snap, p.pc))
  {
    hide Allowed, StatusOk, Listed, Overlay, NeedsFinalizer;
    if p.pc.Patching? {
      AllowedOverlays(p.snap.exp.status, p.pc.status);
    }
  }

  /** A cluster that merges and one that replaces the whole status have exactly the same runs. */
  lemma {:induction false} MergeRunsAreReplaceRuns(states: seq<State>, labels: seq<Label>)
    requires |states| > 0 && Init(states[0])
    ensures IsRun(Merge, states, labels) <==> IsRun(Replace, states, labels)
    decreases |labels|
  {
    hide StepBy, Inv, Init;
    if |states| == |labels| + 1 && labels != [] {
      var n := |labels| - 1;
      var states', labels' := states[..n + 1], labels[..n];
      MergeRunsAreReplaceRuns(states', labels');
      if IsRun(Merge, states, labels) || IsRun(Replace, states, labels) {
        assert IsRun(Merge, states', labels') || IsRun(Replace, states', labels');
        InitOk(states[0]);
        RunKeepsInv(Merge, states', labels', n);
        assert states[n] == states'[n];
        SameStep(states[n], labels[n], states[n + 1]);
      }
    }
  }
}
