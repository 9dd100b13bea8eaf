/** The impact map's status, with its nested summary, and what a merge patch does to it. */
module ImpactMapStatus {
  import opened Types
  import opened MergePatch
  import opened Readiness
  import opened AffectedServices

  datatype Note = NoExperiment | WaitingFor(phase: Phase) | NoTimes | NoMetrics

  /** The summary sentence: the two totals, and the workload and score of the first service. */
  datatype Headline = Headline(affected: nat, scanned: nat, highest: Option<(string, nat)>)

  datatype Summary = Summary(totalScanned: nat, totalAffected: nat, message: Option<Headline>)

  datatype Status = Status(
    phase: AnalysisPhase, summary: Option<Summary>, services: seq<Affected>, message: Option<Note>)

  const EMPTY := Status(AnalysisPhase.Pending, None, [], None)

  datatype Field = FPhase | FSummary | FServices | FMessage | FTotalScanned | FTotalAffected | FHeadline

  datatype Value =
    | PhaseValue(phase: AnalysisPhase)
    | ServicesValue(services: seq<Affected>)
    | NoteValue(note: Note)
    | NumberValue(number: nat)
    | HeadlineValue(headline: Headline)

  type Document = Json<Field, Value>

  function EncodeSummary(s: Summary): (d: Document)
    ensures d.Object?
  {
    var fields := map[FTotalScanned := Leaf(NumberValue(s.totalScanned)),
                      FTotalAffected := Leaf(NumberValue(s.totalAffected))];
    Object(if s.message.Some? then fields[FHeadline := Leaf(HeadlineValue(s.message.value))] else fields)
  }

  /** `None` and the empty list are omitted, the phase never is. */
  function Encode(s: Status): Document {
    var phase: map<Field, Document> := map[FPhase := Leaf(PhaseValue(s.phase))];
    var summary := if s.summary.Some? then phase[FSummary := EncodeSummary(s.summary.value)] else phase;
    var services := if s.services != [] then summary[FServices := Leaf(ServicesValue(s.services))] else summary;
    Object(if s.message.Some? then services[FMessage := Leaf(NoteValue(s.message.value))] else services)
  }

  function DecodeSummary(d: Document): (s: Summary)
    ensures !d.Object? ==> s.message.None?
  {
    var scanned, affected, headline := Scalar(d, FTotalScanned), Scalar(d, FTotalAffected), Scalar(d, FHeadline);
    Summary(
      if scanned.Some? && scanned.value.NumberValue? then scanned.value.number else 0,
      if affected.Some? && affected.value.NumberValue? then affected.value.number else 0,
      if headline.Some? && headline.value.HeadlineValue? then Some(headline.value.headline) else None)
  }

  function Decode(d: Document): Status {
    var phase, summary, services, message :=
      Scalar(d, FPhase), Get(d, FSummary), Scalar(d, FServices), Scalar(d, FMessage);
    Status(
      if phase.Some? && phase.value.PhaseValue? then phase.value.phase else AnalysisPhase.Pending,
      if summary.Some? && summary.value.Object? then Some(DecodeSummary(summary.value)) else None,
      if services.Some? && services.value.ServicesValue? then services.value.services else [],
      if message.Some? && message.value.NoteValue? then Some(message.value.note) else None)
  }

  /** Omitted fields keep their stored value, inside the summary too. */
  function Overlay(stored: Status, patch: Status): Status {
    Status(
      patch.phase,
      match patch.summary
      case None => stored.summary
      case Some(p) =>
        Some(p.(message := p.message.Or(if stored.summary.Some? then stored.summary.value.message else None))),
      if patch.services == [] then stored.services else patch.services,
      patch.message.Or(stored.message))
  }

  lemma EncodedSummary(s: Summary)
    ensures var d := EncodeSummary(s);
            && Get(d, FTotalScanned) == Some(Leaf(NumberValue(s.totalScanned)))
            && Get(d, FTotalAffected) == Some(Leaf(NumberValue(s.totalAffected)))
            && Get(d, FHeadline) == if s.message.Some? then Some(Leaf(HeadlineValue(s.message.value))) else None
  {
  }

  lemma Encoded(s: Status)
    ensures var d := Encode(s);
            && d.Object?
            && Get(d, FPhase) == Some(Leaf(PhaseValue(s.phase)))
            && Get(d, FSummary) == (if s.summary.Some? then Some(EncodeSummary(s.summary.value)) else None)
            && Get(d, FServices) == (if s.services != [] then Some(Leaf(ServicesValue(s.services))) else None)
            && Get(d, FMessage) == if s.message.Some? then Some(Leaf(NoteValue(s.message.value))) else None
  {
    hide EncodeSummary;
  }

  lemma SummaryOverlay(stored: Document, patch: Summary)
    ensures Apply(stored, EncodeSummary(patch)).Object?
    ensures DecodeSummary(Apply(stored, EncodeSummary(patch))) ==
            patch.(message := patch.message.Or(DecodeSummary(stored).message))
  {
    assert Apply(stored, EncodeSummary(patch)).Object?;
    hide Apply, Get, EncodeSummary;
    EncodedSummary(patch);
    GetApply(stored, EncodeSummary(patch), FTotalScanned);
    GetApply(stored, EncodeSummary(patch), FTotalAffected);
    GetApply(stored, EncodeSummary(patch), FHeadline);
  }

  /** On documents, a merge patch of a serialised status is exactly the overlay, whatever was stored. */
  lemma MergeIsOverlay(stored: Document, patch: Status)
    ensures Decode(Apply(stored, Encode(patch))) == Overlay(Decode(stored), patch)
  {
    hide Apply, Get, Encode, EncodeSummary, DecodeSummary;
    Encoded(patch);
    GetApply(stored, Encode(patch), FPhase);
    GetApply(stored, Encode(patch), FSummary);
    GetApply(stored, Encode(patch), FServices);
    GetApply(stored, Encode(patch), FMessage);
    if patch.summary.Some? {
      SummaryOverlay(Get(stored, FSummary).GetOr(Null), patch.summary.value);
    }
  }
}

/** The impact-map reconciler: one pass per visit, over any number of visits. */
module ImpactMap {
  import opened Types
  import opened MergePatch
  import opened ApiServer
  import opened Readiness
  import opened Durations
  import opened ServiceGraph
  import opened AffectedServices
  import opened ImpactMapStatus
  import Experiments = ExperimentStatus

  datatype Metric = Latency | ErrorRate | Throughput

  type Vector = map<ServiceKey, real>

  /** What one pass finds: its own spec, and the answers of everything it asks. `None` is an error. */
  datatype World = World(
    ns: string,
    baselineWindow: string,
    minImpact: nat,
    experiment: Option<Experiments.Status>,
    query: (Metric, string, int) -> Option<Vector>,
    spec: Option<Spec>,
    graph: Option<Graph>)

  // ── What a pass should send ──

  /** The `as u32` cast of a length. */
  function Wrap32(n: nat): nat {
    n % 0x1_0000_0000
  }

  function BuildCompleted(totalScanned: nat, services: seq<Affected>): ImpactMapStatus.Status {
    var totalAffected := Wrap32(|services|);
    var highest := if services == [] then None else Some((services[0].key.workload, services[0].score));
    ImpactMapStatus.Status(
      AnalysisPhase.Completed,
      Some(Summary(totalScanned, totalAffected, Some(Headline(totalAffected, totalScanned, highest)))),
      services, None)
  }

  function BuildPending(note: Note): ImpactMapStatus.Status {
    EMPTY.(message := Some(note))
  }

  function BuildFailed(note: Note): ImpactMapStatus.Status {
    EMPTY.(phase := AnalysisPhase.Failed, message := Some(note))
  }

  /** Each metric before and during the chaos: baseline values at its start, chaos values at its end. */
  predicate Measured(w: World, tw: TimeWindows, m: Metrics) {
    && w.query(Latency, tw.baselineRate, tw.baselineTime) == Some(m.latency.baseline)
    && w.query(Latency, tw.chaosRate, tw.chaosTime) == Some(m.latency.during)
    && w.query(ErrorRate, tw.baselineRate, tw.baselineTime) == Some(m.errorRate.baseline)
    && w.query(ErrorRate, tw.chaosRate, tw.chaosTime) == Some(m.errorRate.during)
    && w.query(Throughput, tw.baselineRate, tw.baselineTime) == Some(m.throughput.baseline)
    && w.query(Throughput, tw.chaosRate, tw.chaosTime) == Some(m.throughput.during)
  }

  predicate QueryFails(w: World, tw: TimeWindows) {
    exists metric: Metric ::
      w.query(metric, tw.baselineRate, tw.baselineTime).None? || w.query(metric, tw.chaosRate, tw.chaosTime).None?
  }

  /** A record as reported: classified when both the experiment's spec and the graph could be had. */
  ghost function Reported(w: World, a: Affected): Affected {
    if w.spec.Some? && w.graph.Some? then Classified(a, w.spec.value, w.graph.value, w.ns) else a
  }

  ghost predicate IsReport(w: World, m: Metrics, base: seq<Affected>, report: seq<Affected>) {
    && IsAffectedList(base, m, w.minImpact)
    && |report| == |base|
    && forall i :: 0 <= i < |base| ==> report[i] == Reported(w, base[i])
  }

  /** The completed status `st` reports the metrics `m`, as found in this world. */
  ghost predicate Reports(w: World, m: Metrics, st: ImpactMapStatus.Status) {
    exists base, report :: IsReport(w, m, base, report) && st == BuildCompleted(Wrap32(|AllServices(m)|), report)
  }

  /** An unreadable baseline window aborts the pass of a ready experiment. */
  predicate Aborts(w: World) {
    && w.experiment.Some?
    && var r := CheckReadiness(w.experiment.value);
       r.Ready? && CalculateTimeWindows(r.started, r.completed, w.baselineWindow).None?
  }

  /** `st` is the status a pass in this world patches. */
  ghost predicate Sends(w: World, st: ImpactMapStatus.Status) {
    match w.experiment
    case None => st == BuildFailed(NoExperiment)
    case Some(e) =>
      match CheckReadiness(e)
      case Waiting => st == BuildPending(WaitingFor(e.phase))
      case NoWindow => st == BuildFailed(NoTimes)
      case Ready(started, completed) =>
        match CalculateTimeWindows(started, completed, w.baselineWindow)
        case None => false
        case Some(tw) =>
          if QueryFails(w, tw) then st == BuildFailed(NoMetrics)
          else exists m :: Measured(w, tw, m) && Reports(w, m, st)
  }

  /** One pass over the stored document: nothing once Completed, otherwise at most one patch. */
  ghost predicate Pass(
    d: Document, w: World, delivery: Delivery, sent: Option<ImpactMapStatus.Status>, d': Document)
  {
    && (sent.None? <==> Decode(d).phase.Completed? || Aborts(w))
    && (sent.Some? ==> Sends(w, sent.value))
    && d' == if sent.Some? && !delivery.Refused? then Apply(d, Encode(sent.value)) else d
  }

  // ── The operations ──

  /** The stored object. */
  class ImpactMapResource {
    var document: Document

    constructor (initial: Document)
      ensures document == initial
    {
      document := initial;
    }

    method PatchStatus(st: ImpactMapStatus.Status, delivery: Delivery) returns (ok: bool)
      modifies this
      ensures document == if delivery.Refused? then old(document) else Apply(old(document), Encode(st))
      ensures ok == delivery.Served?
    {
      if !delivery.Refused? { document := Apply(document, Encode(st)); }
      ok := delivery.Served?;
    }
  }

  method QueryPair(w: World, metric: Metric, tw: TimeWindows) returns (pair: Option<MetricPair>)
    ensures pair.None? <==> w.query(metric, tw.baselineRate, tw.baselineTime).None?
                            || w.query(metric, tw.chaosRate, tw.chaosTime).None?
    ensures pair.Some? ==> w.query(metric, tw.baselineRate, tw.baselineTime) == Some(pair.value.baseline)
                           && w.query(metric, tw.chaosRate, tw.chaosTime) == Some(pair.value.during)
  {
    var baseline := w.query(metric, tw.baselineRate, tw.baselineTime);
    if baseline.None? { return None; }
    var during := w.query(metric, tw.chaosRate, tw.chaosTime);
    if during.None? { return None; }
    pair := Some(MetricPair(baseline.value, during.value));
  }

  method QueryAll(w: World, tw: TimeWindows) returns (m: Option<Metrics>)
    ensures m.None? <==> QueryFails(w, tw)
    ensures m.Some? ==> Measured(w, tw, m.value)
  {
    var latency := QueryPair(w, Latency, tw);
    if latency.None? { return None; }
    var errorRate := QueryPair(w, ErrorRate, tw);
    if errorRate.None? { return None; }
    var throughput := QueryPair(w, Throughput, tw);
    if throughput.None? { return None; }
    m := Some(Metrics(latency.value, errorRate.value, throughput.value));
    forall metric: Metric
      ensures w.query(metric, tw.baselineRate, tw.baselineTime).Some? && w.query(metric, tw.chaosRate, tw.chaosTime).Some?
    {
      match metric
      case Latency =>
      case ErrorRate =>
      case Throughput =>
    }
  }

  method Compute(w: World, m: Metrics) returns (st: ImpactMapStatus.Status)
    ensures Reports(w, m, st)
  {
    hide IsAffectedList, Classified, AllServices;
    var totalScanned, base := ComputeAffectedServices(m, w.minImpact);
    var affected := new Affected[|base|](i requires 0 <= i < |base| => base[i]);
    if w.spec.Some? && w.graph.Some? {
      ClassifyServices(affected, w.spec.value, w.graph.value, w.ns);
    }
    st := BuildCompleted(Wrap32(totalScanned), affected[..]);
    assert IsReport(w, m, base, affected[..]);
  }

  method ReconcileImpactMap(resource: ImpactMapResource, w: World, delivery: Delivery)
    returns (ok: bool, sent: Option<ImpactMapStatus.Status>)
    modifies resource
    ensures Pass(old(resource.document), w, delivery, sent, resource.document)
    ensures ok <==> old(Decode(resource.document)).phase.Completed? || (sent.Some? && delivery.Served?)
  {
    hide Reports, QueryFails, Measured, Apply, Encode, Decode, CalculateTimeWindows;
    if Decode(resource.document).phase.Completed? { return true, None; }
    if w.experiment.None? {
      sent := Some(BuildFailed(NoExperiment));
    } else {
      match CheckReadiness(w.experiment.value)
      case Waiting => sent := Some(BuildPending(WaitingFor(w.experiment.value.phase)));
      case NoWindow => sent := Some(BuildFailed(NoTimes));
      case Ready(started, completed) =>
        var tw := CalculateTimeWindows(started, completed, w.baselineWindow);
        if tw.None? { return false, None; }
        var m := QueryAll(w, tw.value);
        if m.None? {
          sent := Some(BuildFailed(NoMetrics));
        } else {
          var st := Compute(w, m.value);
          sent := Some(st);
        }
    }
    ok := resource.PatchStatus(sent.value, delivery);
  }

  // ── Over any number of passes ──

  datatype Visit = Visit(world: World, delivery: Delivery, sent: Option<ImpactMapStatus.Status>)

  /** The stored document before and after each visit, from an absent status on. */
  ghost predicate IsHistory(docs: seq<Document>, visits: seq<Visit>) {
    && |docs| == |visits| + 1
    && Decode(docs[0]) == EMPTY
    && forall i :: 0 <= i < |visits| ==> Pass(docs[i], visits[i].world, visits[i].delivery, visits[i].sent, docs[i + 1])
  }

  /** Completed is absorbing, to the letter of the stored document, and is never computed twice. */
  lemma {:induction false} CompletedIsFinal(docs: seq<Document>, visits: seq<Visit>, i: nat, j: nat)
    requires IsHistory(docs, visits) && i <= j <= |visits| && Decode(docs[i]).phase.Completed?
    ensures docs[j] == docs[i]
    ensures j < |visits| ==> visits[j].sent.None?
    decreases j - i
  {
    hide Decode, Sends;
    if i < j {
      CompletedIsFinal(docs, visits, i, j - 1);
      assert Pass(docs[j - 1], visits[j - 1].world, visits[j - 1].delivery, visits[j - 1].sent, docs[j]);
    }
    if j < |visits| { assert Pass(docs[j], visits[j].world, visits[j].delivery, visits[j].sent, docs[j + 1]); }
  }

  predicate CarriesResults(st: ImpactMapStatus.Status) {
    st.summary.Some? || st.services != []
  }

  lemma SentCarriesResults(w: World, st: ImpactMapStatus.Status)
    requires Sends(w, st)
    ensures CarriesResults(st) <==> st.phase.Completed?
    ensures st.phase.Completed? ==> st.summary.Some? && st.summary.value.message.Some? && st.message.None?
    ensures !st.phase.Completed? ==> st.message.Some?
  {
    hide QueryFails, Measured, IsReport, CalculateTimeWindows, Wrap32;
  }

  /** Until it is completed, the stored status holds no summary and no service. */
  lemma {:induction false} OnlyCompletedCarriesResults(docs: seq<Document>, visits: seq<Visit>, i: nat)
    requires IsHistory(docs, visits) && i <= |visits|
    ensures CarriesResults(Decode(docs[i])) <==> Decode(docs[i]).phase.Completed?
  {
    hide Decode, Sends, Aborts, Apply, Encode;
    if i > 0 {
      OnlyCompletedCarriesResults(docs, visits, i - 1);
      var v := visits[i - 1];
      assert Pass(docs[i - 1], v.world, v.delivery, v.sent, docs[i]);
      if docs[i] != docs[i - 1] {
        SentCarriesResults(v.world, v.sent.value);
        MergeIsOverlay(docs[i - 1], v.sent.value);
      }
    }
  }

  /** A stored result is exactly one that a pass built, except that the last note before it stays behind. */
  lemma {:induction false} StoredIsBuilt(docs: seq<Document>, visits: seq<Visit>, i: nat) returns (h: nat)
    requires IsHistory(docs, visits) && i <= |visits| && Decode(docs[i]).phase.Completed?
    ensures h < i && !Decode(docs[h]).phase.Completed? && visits[h].sent.Some?
    ensures var st := visits[h].sent.value;
            && Sends(visits[h].world, st) && st.phase.Completed?
            && Decode(docs[i]) == st.(message := Decode(docs[h]).message)
  {
    hide Decode, Sends, Aborts, Apply, Encode;
    assert i > 0;
    h := i - 1;
    var v := visits[h];
    assert Pass(docs[h], v.world, v.delivery, v.sent, docs[i]);
    if Decode(docs[h]).phase.Completed? {
      h := StoredIsBuilt(docs, visits, i - 1);
    } else {
      OnlyCompletedCarriesResults(docs, visits, h);
      SentCarriesResults(v.world, v.sent.value);
      MergeIsOverlay(docs[h], v.sent.value);
    }
  }

  /** The leftover note shows exactly when some earlier pass stored one; without it the result is stored as built. */
  lemma {:induction false} LeftoverNote(docs: seq<Document>, visits: seq<Visit>, i: nat)
    requires IsHistory(docs, visits) && i <= |visits|
    ensures Decode(docs[i]).message.Some? <==>
            exists h :: 0 <= h < i && visits[h].sent.Some? && !visits[h].sent.value.phase.Completed?
                        && !visits[h].delivery.Refused?
  {
    hide Decode, Sends, Aborts, Apply, Encode;
    if i > 0 {
      LeftoverNote(docs, visits, i - 1);
      var v := visits[i - 1];
      assert Pass(docs[i - 1], v.world, v.delivery, v.sent, docs[i]);
      if v.sent.Some? {
        SentCarriesResults(v.world, v.sent.value);
        MergeIsOverlay(docs[i - 1], v.sent.value);
      }
    }
  }

  // ── What a result says ──

  lemma ReportKeepsOrder(w: World, m: Metrics, base: seq<Affected>, report: seq<Affected>)
    requires IsReport(w, m, base, report)
    ensures InOrder(report) && |report| <= |AllServices(m)|
    ensures forall i :: 0 <= i < |report| ==> report[i].score == Scored(m, report[i].key).score >= w.minImpact
  {
    hide KeyLess, Scored, AllServices, Reaches, ResolveWorkload;
    OrderedListFits(base, AllServices(m));
    forall i | 0 <= i < |base|
      ensures report[i].score == base[i].score && report[i].key == base[i].key
      ensures base[i] == Scored(m, base[i].key) && base[i].score >= w.minImpact
    {
      assert base[i] in base;
    }
  }

  /** A completed status in terms of the measurements: who is in it, with which values, which mean, in which order. */
  lemma ReportedByMean(w: World, m: Metrics, st: ImpactMapStatus.Status)
    requires Reports(w, m, st)
    ensures ListsByMean(st.services, m, w.minImpact)
  {
    hide IsAffectedList, ListsByMean, Reported, AllServices;
    var base, report :| IsReport(w, m, base, report) && st == BuildCompleted(Wrap32(|AllServices(m)|), report);
    ListedByMean(base, m, w.minImpact);
    forall i | 0 <= i < |base|
      ensures SameButLabel(base[i], report[i])
    {
      ReportedSame(w, base[i]);
    }
    RelabelledLists(base, report, m, w.minImpact);
  }

  lemma RelabelledLists(base: seq<Affected>, report: seq<Affected>, m: Metrics, minImpact: nat)
    requires ListsByMean(base, m, minImpact) && |report| == |base|
    requires forall i :: 0 <= i < |base| ==> SameButLabel(base[i], report[i])
    ensures ListsByMean(report, m, minImpact)
  {
    hide MetricSum, CarriesMetrics, Measures, StrLess;
    forall i | 0 <= i < |base|
      ensures report[i].key == base[i].key && report[i].score == base[i].score && CarriesMetrics(report[i], m)
    {
      SameMetrics(base[i], report[i], m);
    }
    forall s
      ensures Lists(report, s) <==> Lists(base, s)
    {
      if Lists(report, s) { var i :| 0 <= i < |report| && report[i].key == s; assert base[i].key == s; }
      if Lists(base, s) { var i :| 0 <= i < |base| && base[i].key == s; assert report[i].key == s; }
    }
  }

  predicate SameButLabel(a: Affected, b: Affected) {
    b == a.(impactType := b.impactType)
  }

  lemma ReportedSame(w: World, a: Affected)
    ensures SameButLabel(a, Reported(w, a))
  {
    hide Reaches, ResolveWorkload;
  }

  lemma SameMetrics(a: Affected, b: Affected, m: Metrics)
    requires SameButLabel(a, b) && CarriesMetrics(a, m)
    ensures CarriesMetrics(b, m)
  {
  }

  /** Which phase a pass stores: Pending until the experiment has ended, Completed only on all six answers. */
  lemma SentPhase(w: World, st: ImpactMapStatus.Status)
    requires Sends(w, st)
    ensures st.phase.Pending? <==> w.experiment.Some? && !w.experiment.value.phase.IsTerminal()
    ensures st.phase.Completed? <==>
            && w.experiment.Some? && CheckReadiness(w.experiment.value).Ready?
            && var r := CheckReadiness(w.experiment.value);
               var tw := CalculateTimeWindows(r.started, r.completed, w.baselineWindow);
               tw.Some? && !QueryFails(w, tw.value)
  {
    hide QueryFails, Measured, IsReport, CalculateTimeWindows, Wrap32;
  }

  /** The totals are those of the metrics and the list, exactly so below 2^32 services. */
  predicate TotalsTrue(m: Metrics, st: ImpactMapStatus.Status)
    requires st.summary.Some?
  {
    var sum := st.summary.value;
    && (sum.totalAffected == |st.services| <==> |st.services| < 0x1_0000_0000)
    && (sum.totalScanned == |AllServices(m)| <==> |AllServices(m)| < 0x1_0000_0000)
    && (|AllServices(m)| < 0x1_0000_0000 ==> sum.totalAffected == |st.services| <= sum.totalScanned)
  }

  /** The headline repeats the totals, and names a service with the maximum score if there is any service. */
  predicate HeadlineTrue(st: ImpactMapStatus.Status)
    requires st.summary.Some?
  {
    && st.summary.value.message.Some?
    && st.summary.value.message.value.affected == st.summary.value.totalAffected
    && st.summary.value.message.value.scanned == st.summary.value.totalScanned
    && var highest := st.summary.value.message.value.highest;
       && (highest.None? <==> st.services == [])
       && (highest.Some? ==> exists a :: a in st.services && (a.key.workload, a.score) == highest.value
                                         && forall b :: b in st.services ==> b.score <= a.score)
  }

  lemma HeadlineOfOrdered(total: nat, report: seq<Affected>)
    requires InOrder(report)
    ensures HeadlineTrue(BuildCompleted(total, report))
  {
    hide KeyLess;
    if report != [] {
      assert report[0] in report;
      forall b | b in report
        ensures b.score <= report[0].score
      {
        var i :| 0 <= i < |report| && report[i] == b;
        assert i > 0 ==> Before(report[0], report[i]);
      }
    }
  }

  lemma TotalsOfFitting(m: Metrics, report: seq<Affected>)
    requires |report| <= |AllServices(m)|
    ensures TotalsTrue(m, BuildCompleted(Wrap32(|AllServices(m)|), report))
  {
    hide AllServices;
  }

  lemma SummaryIsTrue(w: World, m: Metrics, st: ImpactMapStatus.Status)
    requires Reports(w, m, st)
    ensures st.summary.Some? && TotalsTrue(m, st) && HeadlineTrue(st)
  {
    hide IsReport, AllServices, InOrder, TotalsTrue, HeadlineTrue;
    var base, report :| IsReport(w, m, base, report) && st == BuildCompleted(Wrap32(|AllServices(m)|), report);
    ReportKeepsOrder(w, m, base, report);
    TotalsOfFitting(m, report);
    HeadlineOfOrdered(Wrap32(|AllServices(m)|), report);
  }

  lemma SentReports(w: World, st: ImpactMapStatus.Status) returns (m: Metrics)
    requires Sends(w, st) && st.phase.Completed?
    ensures Reports(w, m, st)
  {
    hide QueryFails, Measured, Reports, CalculateTimeWindows;
    m :| Reports(w, m, st);
  }

  /** The same of whatever is stored after any number of visits, for the metrics of the visit `h` that built it. */
  lemma StoredSummaryIsTrue(docs: seq<Document>, visits: seq<Visit>, i: nat) returns (h: nat, m: Metrics)
    requires IsHistory(docs, visits) && i <= |visits| && Decode(docs[i]).phase.Completed?
    ensures h < i && visits[h].sent.Some? && Reports(visits[h].world, m, visits[h].sent.value)
    ensures var st := Decode(docs[i]);
            && st == visits[h].sent.value.(message := st.message)
            && st.summary.Some? && TotalsTrue(m, st) && HeadlineTrue(st)
  {
    hide Decode, Sends, Reports, TotalsTrue, HeadlineTrue;
    h := StoredIsBuilt(docs, visits, i);
    var w, st := visits[h].world, visits[h].sent.value;
    m := SentReports(w, st);
    SummaryIsTrue(w, m, st);
    SameSummary(m, st, Decode(docs[i]));
  }

  lemma SameSummary(m: Metrics, st: ImpactMapStatus.Status, st': ImpactMapStatus.Status)
    requires st' == st.(message := st'.message) && st.summary.Some? && TotalsTrue(m, st) && HeadlineTrue(st)
    ensures TotalsTrue(m, st') && HeadlineTrue(st')
  {
  }

  /** End to end: in a report for edge chaos a service is Direct iff the rows lead to it from the target. */
  lemma ReportedDirectIffLed(w: World, m: Metrics, base: seq<Affected>, report: seq<Affected>, rows: seq<Row>, i: nat)
    requires IsReport(w, m, base, report) && i < |report|
    requires w.spec.Some? && w.graph.Some? && Represents(w.graph.value, rows)
    ensures var spec := w.spec.value;
            report[i].impactType ==
            if !spec.scenario.IsEdge() || spec.Edge().None? then None
            else if Leads(rows, TargetOf(rows, spec.Edge().value.destination, ChaosNamespace(spec, w.ns)), report[i].key)
            then Some(Direct) else Some(Indirect)
  {
    hide Reaches, Leads, ResolveWorkload, InOrder, Represents, AllServices, TargetOf;
    assert base[i] in base && base[i].impactType == None;
    var spec := w.spec.value;
    if spec.scenario.IsEdge() && spec.Edge().Some? {
      DirectIffLed(base[i], w.graph.value, rows, spec.Edge().value.destination, ChaosNamespace(spec, w.ns));
    }
  }
}
