/** When an experiment is ready to be analysed. */
module Readiness {
  import opened Types
  import opened ExperimentStatus
  import opened ApiServer
  import opened Machine
  import opened Invariant
  import opened Durations
  import opened Phases

  datatype AnalysisPhase = Pending | Completed | Failed

  datatype Readiness = Ready(started: int, completed: int) | Waiting | NoWindow

  function CheckReadiness(st: ExperimentStatus.Status): Readiness {
    if !st.phase.IsTerminal() then Waiting
    else if st.startedAt.Some? && st.completedAt.Some? then Ready(st.startedAt.value, st.completedAt.value)
    else NoWindow
  }

  /** Over whole runs: ready means finished after having been Running, and the window is then in order. */
  lemma ReadyIffRanAndFinished(states: seq<State>, labels: seq<Label>, i: nat, k: Key, uid: string)
    requires IsRun(Merge, states, labels) && Init(states[0]) && i <= |labels| && Alive(states[i].c, k, uid)
    ensures var st := states[i].c.experiments[k].status;
            && (CheckReadiness(st).Ready? <==> st.phase.IsTerminal() && WasRunning(states, i, k, uid))
            && (CheckReadiness(st).Ready? ==> CheckReadiness(st).started <= CheckReadiness(st).completed)
  {
    hide StepBy, Init, WasRunning;
    StartedIffWasRunning(states, labels, i, k, uid);
    if states[i].c.experiments[k].status.phase.IsTerminal() {
      WindowIffWasRunning(states, labels, i, k, uid);
    }
  }

  /** The rate window of a succeeded edge experiment covers its chaos but for less than a second, and nothing before it. */
  lemma RateWindowInsideChaos(states: seq<State>, labels: seq<Label>, i: nat, k: Key)
    requires IsRun(Merge, states, labels) && Init(states[0]) && i <= |labels| && k in states[i].c.experiments
    requires var x := states[i].c.experiments[k];
             x.spec.scenario.IsEdge() && x.status.phase.Succeeded? && x.spec.duration < TWO_63
    ensures var r := CheckReadiness(states[i].c.experiments[k].status);
            r.Ready? && r.started <= r.completed - ChaosSeconds(r.started, r.completed) * NANOS < r.started + NANOS
  {
    hide StepBy, Init, ClusterOk, PassOk, ChaosSeconds;
    EdgeChaosLasts(states, labels, i, k);
    InitOk(states[0]);
    RunKeepsInv(Merge, states, labels, i);
    var x := states[i].c.experiments[k];
    LiveIsRegistered(states[i], k, x.uid);
    PositiveDuration(x, states[i].c.clock);
    ChaosRateWindowInside(x.status.startedAt.value, x.status.completedAt.value);
  }

  lemma PositiveDuration(x: Experiment, clock: int)
    requires StatusOk(x, clock) && x.status.phase.Succeeded?
    ensures x.spec.duration > 0
  {
  }
}
