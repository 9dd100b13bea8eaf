/** The analysis' status and what a merge patch does to it. */
module AnalysisStatus {
  import opened Types
  import opened MergePatch
  import opened Readiness
  import opened Scoring

  datatype Note =
    | NoExperiment
    | WaitingFor(phase: Phase)
    | BaselineQueryFailed
    | ChaosQueryFailed
    | Impact(score: nat, baseline: real, during: real, degradation: real, maxImpact: nat)

  datatype Status = Status(
    phase: AnalysisPhase, verdict: Option<Verdict>, score: Option<nat>, baseline: Option<real>, during: Option<real>,
    degradation: Option<real>, message: Option<Note>)

  const EMPTY := Status(AnalysisPhase.Pending, None, None, None, None, None, None)

  datatype Field = FPhase | FVerdict | FScore | FBaseline | FDuring | FDegradation | FMessage

  datatype Value =
    | PhaseValue(phase: AnalysisPhase)
    | VerdictValue(verdict: Verdict)
    | ScoreValue(score: nat)
    | RealValue(number: real)
    | NoteValue(note: Note)

  type Document = Json<Field, Value>

  function Real(x: Option<real>): Option<Value> {
    if x.Some? then Some(RealValue(x.value)) else None
  }

  /** Serialisation: `None` is omitted, the phase never is. */
  function Serialised(s: Status, field: Field): Option<Value> {
    match field
    case FPhase => Some(PhaseValue(s.phase))
    case FVerdict => if s.verdict.Some? then Some(VerdictValue(s.verdict.value)) else None
    case FScore => if s.score.Some? then Some(ScoreValue(s.score.value)) else None
    case FBaseline => Real(s.baseline)
    case FDuring => Real(s.during)
    case FDegradation => Real(s.degradation)
    case FMessage => if s.message.Some? then Some(NoteValue(s.message.value)) else None
  }

  function Encode(s: Status): Document {
    Object(map f: Field | Serialised(s, f).Some? :: Leaf(Serialised(s, f).value))
  }

  function AsReal(v: Option<Value>): Option<real> {
    if v.Some? && v.value.RealValue? then Some(v.value.number) else None
  }

  function Decode(d: Document): Status {
    var phase, verdict, score, message := Scalar(d, FPhase), Scalar(d, FVerdict), Scalar(d, FScore), Scalar(d, FMessage);
    Status(
      if phase.Some? && phase.value.PhaseValue? then phase.value.phase else AnalysisPhase.Pending,
      if verdict.Some? && verdict.value.VerdictValue? then Some(verdict.value.verdict) else None,
      if score.Some? && score.value.ScoreValue? then Some(score.value.score) else None,
      AsReal(Scalar(d, FBaseline)), AsReal(Scalar(d, FDuring)), AsReal(Scalar(d, FDegradation)),
      if message.Some? && message.value.NoteValue? then Some(message.value.note) else None)
  }

  /** Omitted fields keep their stored value. */
  function Overlay(stored: Status, patch: Status): Status {
    Status(
      patch.phase, patch.verdict.Or(stored.verdict), patch.score.Or(stored.score), patch.baseline.Or(stored.baseline),
      patch.during.Or(stored.during), patch.degradation.Or(stored.degradation), patch.message.Or(stored.message))
  }

  lemma ScalarEncode(s: Status, f: Field)
    ensures Encode(s).Object? && (Get(Encode(s), f).Some? ==> Get(Encode(s), f).value.Leaf?)
    ensures Scalar(Encode(s), f) == Serialised(s, f)
  {
  }

  /** On documents, a merge patch of a serialised status is exactly the overlay, whatever was stored. */
  lemma MergeIsOverlay(stored: Document, patch: Status)
    ensures Decode(Apply(stored, Encode(patch))) == Overlay(Decode(stored), patch)
  {
    hide Apply, Scalar, Get, Encode;
    forall f: Field
      ensures Scalar(Apply(stored, Encode(patch)), f) == Serialised(patch, f).Or(Scalar(stored, f))
    {
      ScalarEncode(patch, f);
      ScalarApply(stored, Encode(patch), f);
    }
  }
}

/** The analysis reconciler: one pass per visit, over any number of visits. */
module Analysis {
  import opened Types
  import opened MergePatch
  import opened ApiServer
  import opened Machine
  import opened Phases
  import opened Readiness
  import opened Durations
  import opened Scoring
  import opened AnalysisStatus
  import Experiments = ExperimentStatus

  /** What one pass finds: its own spec, and the answers of everything it asks. `None` is an error. */
  datatype World = World(
    baselineWindow: string,
    direction: Direction,
    maxImpact: nat,
    experiment: Option<Experiments.Status>,
    baselineQuery: int -> Option<real>,
    chaosQuery: int -> Option<real>)

  /** The baseline query time, or `None` where the pass ends without a status: an unreadable or too long window. */
  function QueryTime(started: int, window: string): Option<int> {
    match ParseDuration(window)
    case None => None
    case Some(secs) => BaselineTime(started, secs)
  }

  function FailedWith(note: Note): AnalysisStatus.Status {
    EMPTY.(phase := AnalysisPhase.Failed, message := Some(note))
  }

  function Judged(w: World, baseline: real, during: real): AnalysisStatus.Status {
    var (score, verdict, degradation) := CalculateImpact(baseline, during, w.direction, w.maxImpact);
    AnalysisStatus.Status(
      AnalysisPhase.Completed, Some(verdict), Some(score), Some(baseline), Some(during), Some(degradation),
      Some(Impact(score, baseline, during, degradation, w.maxImpact)))
  }

  /** The status a pass in this world patches; `None` where it ends in an error without a patch. */
  function PatchFor(w: World): Option<AnalysisStatus.Status> {
    match w.experiment
    case None => Some(FailedWith(NoExperiment))
    case Some(e) =>
      match CheckReadiness(e)
      case Waiting => Some(EMPTY.(message := Some(WaitingFor(e.phase))))
      case NoWindow => None
      case Ready(started, completed) =>
        match QueryTime(started, w.baselineWindow)
        case None => None
        case Some(time) =>
          var baseline, during := w.baselineQuery(time), w.chaosQuery(ChaosTime(started, completed));
          if baseline.None? then Some(FailedWith(BaselineQueryFailed))
          else if during.None? then Some(FailedWith(ChaosQueryFailed))
          else Some(Judged(w, baseline.value, during.value))
  }

  /** One pass over the stored document: nothing once Completed, otherwise at most one patch. */
  function Sent(d: Document, w: World): Option<AnalysisStatus.Status> {
    if Decode(d).phase.Completed? then None else PatchFor(w)
  }

  function After(d: Document, w: World, delivery: Delivery): Document {
    var sent := Sent(d, w);
    if sent.Some? && !delivery.Refused? then Apply(d, Encode(sent.value)) else d
  }

  // ── The operation ──

  /** The stored object. */
  class AnalysisResource {
    var document: Document

    constructor (initial: Document)
      ensures document == initial
    {
      document := initial;
    }

    method PatchStatus(st: AnalysisStatus.Status, delivery: Delivery) returns (ok: bool)
      modifies this
      ensures document == if delivery.Refused? then old(document) else Apply(old(document), Encode(st))
      ensures ok == delivery.Served?
    {
      if !delivery.Refused? { document := Apply(document, Encode(st)); }
      ok := delivery.Served?;
    }

    method PatchFailed(note: Note, delivery: Delivery) returns (ok: bool)
      modifies this
      ensures document == if delivery.Refused? then old(document) else Apply(old(document), Encode(FailedWith(note)))
      ensures ok == delivery.Served?
    {
      ok := PatchStatus(EMPTY.(phase := AnalysisPhase.Failed, message := Some(note)), delivery);
    }
  }

  method ReconcileAnalysis(resource: AnalysisResource, w: World, delivery: Delivery) returns (ok: bool)
    modifies resource
    ensures resource.document == After(old(resource.document), w, delivery)
    ensures ok <==> old(Decode(resource.document)).phase.Completed? || (PatchFor(w).Some? && delivery.Served?)
  {
    hide Apply, Encode, Decode, ParseDuration, BaselineTime, ChaosTime, CalculateImpact;
    if Decode(resource.document).phase.Completed? { return true; }
    if w.experiment.None? {
      ok := resource.PatchFailed(NoExperiment, delivery);
      return;
    }
    var e := w.experiment.value;
    if !e.phase.IsTerminal() {
      ok := resource.PatchStatus(EMPTY.(message := Some(WaitingFor(e.phase))), delivery);
      return;
    }
    if e.startedAt.None? || e.completedAt.None? { return false; }
    var secs := ParseDuration(w.baselineWindow);
    if secs.None? { return false; }
    var time := BaselineTime(e.startedAt.value, secs.value);
    if time.None? { return false; }

    var baseline := w.baselineQuery(time.value);
    if baseline.None? {
      ok := resource.PatchFailed(BaselineQueryFailed, delivery);
      return;
    }
    var during := w.chaosQuery(ChaosTime(e.startedAt.value, e.completedAt.value));
    if during.None? {
      ok := resource.PatchFailed(ChaosQueryFailed, delivery);
      return;
    }
    var (score, verdict, degradation) := CalculateImpact(baseline.value, during.value, w.direction, w.maxImpact);
    ok := resource.PatchStatus(
      AnalysisStatus.Status(
        AnalysisPhase.Completed, Some(verdict), Some(score), Some(baseline.value), Some(during.value), Some(degradation),
        Some(Impact(score, baseline.value, during.value, degradation, w.maxImpact))),
      delivery);
  }

  // ── Over any number of passes ──

  /** The stored document before and after each visit, from an absent status on. */
  predicate IsHistory(docs: seq<Document>, visits: seq<(World, Delivery)>) {
    && |docs| == |visits| + 1
    && Decode(docs[0]) == EMPTY
    && forall i :: 0 <= i < |visits| ==> docs[i + 1] == After(docs[i], visits[i].0, visits[i].1)
  }

  lemma {:induction false} CompletedIsFinal(docs: seq<Document>, visits: seq<(World, Delivery)>, i: nat, j: nat)
    requires IsHistory(docs, visits) && i <= j <= |visits| && Decode(docs[i]).phase.Completed?
    ensures docs[j] == docs[i]
    decreases j - i
  {
    hide Decode, PatchFor;
    if i < j { CompletedIsFinal(docs, visits, i, j - 1); }
  }

  predicate CarriesResults(st: AnalysisStatus.Status) {
    st.verdict.Some? || st.score.Some? || st.baseline.Some? || st.during.Some? || st.degradation.Some?
  }

  lemma {:induction false} OnlyCompletedCarriesResults(docs: seq<Document>, visits: seq<(World, Delivery)>, i: nat)
    requires IsHistory(docs, visits) && i <= |visits|
    ensures CarriesResults(Decode(docs[i])) <==> Decode(docs[i]).phase.Completed?
  {
    hide Decode, Apply, Encode, CheckReadiness, QueryTime, ChaosTime, CalculateImpact;
    if i > 0 {
      OnlyCompletedCarriesResults(docs, visits, i - 1);
      var sent := Sent(docs[i - 1], visits[i - 1].0);
      if sent.Some? { MergeIsOverlay(docs[i - 1], sent.value); }
    }
  }

  /** A stored result is exactly the one a pass built: here the message is part of it, so nothing is left over. */
  lemma {:induction false} StoredIsBuilt(docs: seq<Document>, visits: seq<(World, Delivery)>, i: nat) returns (h: nat)
    requires IsHistory(docs, visits) && i <= |visits| && Decode(docs[i]).phase.Completed?
    ensures h < i && PatchFor(visits[h].0) == Some(Decode(docs[i]))
  {
    hide Decode, Apply, Encode, CheckReadiness, QueryTime, ChaosTime, CalculateImpact;
    assert i > 0;
    h := i - 1;
    if Decode(docs[h]).phase.Completed? {
      h := StoredIsBuilt(docs, visits, i - 1);
    } else {
      MergeIsOverlay(docs[h], Sent(docs[h], visits[h].0).value);
    }
  }

  /** A stored verdict is Pass iff the stored degradation is below the threshold plus a half, or the threshold is 100. */
  lemma StoredVerdict(docs: seq<Document>, visits: seq<(World, Delivery)>, i: nat) returns (h: nat)
    requires IsHistory(docs, visits) && i <= |visits| && Decode(docs[i]).phase.Completed?
    ensures h < i && PatchFor(visits[h].0) == Some(Decode(docs[i]))
    ensures var st, w := Decode(docs[i]), visits[h].0;
            && st.degradation.Some? && st.score.Some? && st.score.value <= 100
            && -0.5 <= st.score.value as real - Clamp(st.degradation.value) <= 0.5
            && (st.verdict == Some(Verdict.Pass) <==>
                  w.maxImpact >= 100 || st.degradation.value < w.maxImpact as real + 0.5)
  {
    hide Decode, CheckReadiness, QueryTime, ChaosTime, CalculateImpact, Clamp;
    h := StoredIsBuilt(docs, visits, i);
    var st, w := Decode(docs[i]), visits[h].0;
    ScoreNearDegradation(st.baseline.value, st.during.value, w.direction, w.maxImpact);
    PassIffBelow(st.baseline.value, st.during.value, w.direction, w.maxImpact);
  }

  /** A stored result holds the answers of the two queries, each at its own time, and the score they give. */
  lemma StoredMeasures(docs: seq<Document>, visits: seq<(World, Delivery)>, i: nat) returns (h: nat)
    requires IsHistory(docs, visits) && i <= |visits| && Decode(docs[i]).phase.Completed?
    ensures h < i && visits[h].0.experiment.Some? && CheckReadiness(visits[h].0.experiment.value).Ready?
    ensures var st, w := Decode(docs[i]), visits[h].0;
            var r := CheckReadiness(w.experiment.value);
            var time := QueryTime(r.started, w.baselineWindow);
            && time.Some?
            && w.baselineQuery(time.value).Some? && st.baseline == w.baselineQuery(time.value)
            && w.chaosQuery(ChaosTime(r.started, r.completed)).Some?
            && st.during == w.chaosQuery(ChaosTime(r.started, r.completed))
            && st.score == Some(CalculateImpact(st.baseline.value, st.during.value, w.direction, w.maxImpact).0)
            && st.verdict == Some(CalculateImpact(st.baseline.value, st.during.value, w.direction, w.maxImpact).1)
            && st.degradation == Some(CalculateImpact(st.baseline.value, st.during.value, w.direction, w.maxImpact).2)
  {
    hide IsHistory, Decode, CheckReadiness, QueryTime, ChaosTime, CalculateImpact;
    h := StoredIsBuilt(docs, visits, i);
  }

  // ── Against the experiment's own run ──

  /** The experiment a pass reads is one of a run's. */
  predicate Reads(w: World, states: seq<State>, i: nat, k: Key) {
    i < |states| && k in states[i].c.experiments && w.experiment == Some(states[i].c.experiments[k].status)
  }

  /** A pass ends without a status exactly for an experiment that never ran, or a window it cannot use. */
  lemma NoPatchIff(states: seq<State>, labels: seq<Label>, i: nat, k: Key, uid: string, w: World)
    requires IsRun(Merge, states, labels) && Init(states[0]) && i <= |labels| && Alive(states[i].c, k, uid)
    requires Reads(w, states, i, k)
    ensures PatchFor(w).None? <==>
            && w.experiment.value.phase.IsTerminal()
            && var r := CheckReadiness(w.experiment.value);
               WasRunning(states, i, k, uid) ==> r.Ready? && QueryTime(r.started, w.baselineWindow).None?
  {
    hide StepBy, Init, WasRunning, Alive, QueryTime, ChaosTime, CalculateImpact;
    ReadyIffRanAndFinished(states, labels, i, k, uid);
  }

  /** Both query times lie in the middle of their windows; the first unless the window's cast to a signed number turned negative. */
  lemma QueriesInsideWindows(states: seq<State>, labels: seq<Label>, i: nat, k: Key, uid: string, w: World, secs: U64)
    requires IsRun(Merge, states, labels) && Init(states[0]) && i <= |labels| && Alive(states[i].c, k, uid)
    requires Reads(w, states, i, k) && CheckReadiness(w.experiment.value).Ready?
    requires ParseDuration(w.baselineWindow) == Some(secs) && QueryTime(CheckReadiness(w.experiment.value).started, w.baselineWindow).Some?
    ensures var r := CheckReadiness(w.experiment.value);
            var time := QueryTime(r.started, w.baselineWindow).value;
            && (r.started - secs * NANOS <= time <= r.started <==> secs < TWO_63 || secs == TWO_64 - 1)
            && (secs < TWO_63 ==> 0 <= secs * NANOS - 2 * (r.started - time) <= NANOS)
            && r.started <= ChaosTime(r.started, r.completed) <= r.completed
            && 0 <= (r.completed - r.started) - 2 * (ChaosTime(r.started, r.completed) - r.started) <= 1
  {
    hide StepBy, Init, WasRunning, Alive, BaselineTime, ChaosTime, ParseDuration;
    ReadyIffRanAndFinished(states, labels, i, k, uid);
    var r := CheckReadiness(w.experiment.value);
    BaselineTimeInWindow(r.started, secs);
    if secs < TWO_63 { BaselineTimeIsMidpoint(r.started, secs); }
    ChaosTimeInWindow(r.started, r.completed);
  }
}
