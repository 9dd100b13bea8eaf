/**
 All experiments together: their passes interleave call by call, with one another and with the environment.
 Any call may fail or lose its reply, and a pass may die at any point.
 */
module Machine {
  import opened Types
  import opened ApiServer
  import opened Process

  /** `clean`: no call of the pass has failed, except with 404. */
  datatype Pass = Pass(snap: Snapshot, pc: Pc, clean: bool)

  datatype State = State(c: Cluster, passes: map<Key, Pass>)

  datatype Label = Env(move: Move) | Begin(key: Key) | Call(key: Key, delivery: Delivery, reply: Reply) | End(key: Key)

  function Advance(p: Pass, reply: Reply): Pass
    requires !p.pc.Finished?
  {
    Pass(p.snap, Resume(p.snap, p.pc, reply), p.clean && (reply.Error? ==> reply.failure == NotFound))
  }

  predicate StepBy(mode: PatchMode, s: State, l: Label, s': State) {
    match l
    case Env(m) => MayMove(s.c, m) && s' == s.(c := Moved(s.c, m))
    case Begin(k) =>
      && k in s.c.experiments && k !in s.passes
      && var snap := Snapshot(k, s.c.experiments[k]);
      s' == s.(passes := s.passes[k := Pass(snap, Start(snap), true)])
    case Call(k, delivery, reply) =>
      && k in s.passes && !s.passes[k].pc.Finished?
      && var p := s.passes[k];
      && Serve(mode, s.c, p.snap.exp.uid, Next(p.snap, p.pc), delivery, s'.c, reply)
      && s'.passes == s.passes[k := Advance(p, reply)]
    case End(k) => k in s.passes && s' == s.(passes := s.passes - {k})
  }

  /** A run: `states[i + 1]` follows from `states[i]` by `labels[i]`. */
  predicate IsRun(mode: PatchMode, states: seq<State>, labels: seq<Label>) {
    && |states| == |labels| + 1
    && forall i :: 0 <= i < |labels| ==> StepBy(mode, states[i], labels[i], states[i + 1])
  }

  /** An empty operator on a cluster that holds none of its objects yet. */
  predicate Init(s: State) {
    && s.passes == map[]
    && s.c.experiments == map[] && s.c.registry == map[]
    && (forall k :: k in s.c.jobs ==> s.c.jobs[k].creator.None?)
    && (forall k :: k in s.c.services ==> s.c.services[k].creator.None? && !Routing.IsChaosManaged(s.c.services[k].labels))
  }

  ghost predicate Reaches(s: State, t: State) {
    exists states: seq<State>, labels: seq<Label> ::
      IsRun(Merge, states, labels) && states[0] == s && states[|labels|] == t
  }

  lemma ReachesSelf(s: State)
    ensures Reaches(s, s)
  {
    var states, labels: seq<Label> := [s], [];
    assert IsRun(Merge, states, labels) && states[0] == s && states[|labels|] == s;
  }

  lemma ReachesStep(s: State, t: State, l: Label, u: State)
    requires Reaches(s, t) && StepBy(Merge, t, l, u)
    ensures Reaches(s, u)
  {
    var states, labels :| IsRun(Merge, states, labels) && states[0] == s && states[|labels|] == t;
    var states', labels' := states + [u], labels + [l];
    assert IsRun(Merge, states', labels') && states'[0] == s && states'[|labels'|] == u;
  }

  // ── Runs as histories ──

  datatype Run = Run(states: seq<State>, labels: seq<Label>)

  /** `r` is a run that has got to `s`. */
  ghost predicate LeadsTo(r: Run, s: State) {
    IsRun(Merge, r.states, r.labels) && r.states[|r.labels|] == s
  }

  function Then(r: Run, l: Label, s: State): Run {
    Run(r.states + [s], r.labels + [l])
  }

  lemma RunGoesOn(r: Run, s: State, l: Label, s': State)
    requires LeadsTo(r, s) && StepBy(Merge, s, l, s')
    ensures LeadsTo(Then(r, l, s'), s')
  {
    hide StepBy;
  }

  /** A call and its reply. */
  datatype Exchange = Exchange(request: Request, reply: Reply)

  function ExchangeOf(s: State, l: Label, k: Key): seq<Exchange> {
    if l.Call? && l.key == k && k in s.passes && !s.passes[k].pc.Finished?
    then [Exchange(Next(s.passes[k].snap, s.passes[k].pc), l.reply)] else []
  }

  /** The calls that the passes of `k` make in a run, from step `from` on. */
  function CallsFrom(r: Run, k: Key, from: nat): seq<Exchange>
    requires |r.states| == |r.labels| + 1 && from <= |r.labels|
    decreases |r.labels| - from
  {
    if from == |r.labels| then [] else ExchangeOf(r.states[from], r.labels[from], k) + CallsFrom(r, k, from + 1)
  }

  /** `r'` continues `r`, and since then the passes of `k` have made exactly these calls. */
  ghost predicate Made(r: Run, r': Run, k: Key, calls: seq<Exchange>) {
    && |r.states| == |r.labels| + 1 && |r'.states| == |r'.labels| + 1
    && r.states <= r'.states && r.labels <= r'.labels
    && CallsFrom(r', k, |r.labels|) == calls
  }

  lemma MadeNothing(r: Run, k: Key)
    requires |r.states| == |r.labels| + 1
    ensures Made(r, r, k, [])
  {
  }

  lemma MadeOne(r: Run, l: Label, s: State, k: Key)
    requires |r.states| == |r.labels| + 1
    ensures Made(r, Then(r, l, s), k, ExchangeOf(r.states[|r.labels|], l, k))
  {
    hide ExchangeOf;
    var r' := Then(r, l, s);
    var n := |r.labels|;
    assert r'.labels[n] == l && r'.states[n] == r.states[n];
    assert CallsFrom(r', k, n + 1) == [];
  }

  lemma {:induction false} CallsAppend(r: Run, r': Run, k: Key, from: nat)
    requires |r.states| == |r.labels| + 1 && |r'.states| == |r'.labels| + 1
    requires r.states <= r'.states && r.labels <= r'.labels && from <= |r.labels|
    ensures CallsFrom(r', k, from) == CallsFrom(r, k, from) + CallsFrom(r', k, |r.labels|)
    decreases |r.labels| - from
  {
    hide ExchangeOf;
    if from < |r.labels| {
      CallsAppend(r, r', k, from + 1);
      assert r'.labels[from] == r.labels[from] && r'.states[from] == r.states[from];
    }
  }

  lemma MadeThen(r: Run, r': Run, r'': Run, k: Key, calls: seq<Exchange>, more: seq<Exchange>)
    requires Made(r, r', k, calls) && Made(r', r'', k, more)
    ensures Made(r, r'', k, calls + more)
  {
    CallsAppend(r', r'', k, |r.labels|);
  }
}
