/** From six metric maps to the ordered list of affected services, and their Direct/Indirect labels. */
module AffectedServices {
  import opened Types
  import opened Scoring
  import opened ServiceGraph
  import opened ApiServer

  datatype MetricPair = MetricPair(baseline: map<ServiceKey, real>, during: map<ServiceKey, real>)

  datatype Metrics = Metrics(latency: MetricPair, errorRate: MetricPair, throughput: MetricPair)

  datatype MetricImpact = MetricImpact(baseline: real, during: real, score: nat)

  datatype ImpactType = Direct | Indirect

  datatype Affected = Affected(
    key: ServiceKey, score: nat, impactType: Option<ImpactType>,
    latency: MetricImpact, errorRate: MetricImpact, throughput: MetricImpact)

  // ── Order ──

  /** Lexicographic order of strings, by character code. */
  predicate StrLess(a: string, b: string) {
    b != "" && (a == "" || a[0] < b[0] || (a[0] == b[0] && StrLess(a[1..], b[1..])))
  }

  lemma {:induction false} StrLessTotal(a: string, b: string)
    ensures StrLess(a, b) || a == b || StrLess(b, a)
    ensures !(StrLess(a, b) && StrLess(b, a)) && !StrLess(a, a)
  {
    if a != "" {
      StrLessTotal(a[1..], a[1..]);
      if b != "" {
        StrLessTotal(a[1..], b[1..]);
        assert a == [a[0]] + a[1..] && b == [b[0]] + b[1..];
      }
    }
  }

  lemma {:induction false} StrLessTransitive(a: string, b: string, c: string)
    requires StrLess(a, b) && StrLess(b, c)
    ensures StrLess(a, c)
  {
    if a != "" && a[0] == b[0] && b[0] == c[0] { StrLessTransitive(a[1..], b[1..], c[1..]); }
  }

  predicate KeyLess(a: ServiceKey, b: ServiceKey) {
    StrLess(a.workload, b.workload) || (a.workload == b.workload && StrLess(a.namespace, b.namespace))
  }

  lemma KeyLessTotal(a: ServiceKey, b: ServiceKey)
    ensures KeyLess(a, b) || a == b || KeyLess(b, a)
    ensures !(KeyLess(a, b) && KeyLess(b, a)) && !KeyLess(a, a)
  {
    hide StrLess;
    StrLessTotal(a.workload, b.workload);
    StrLessTotal(a.namespace, b.namespace);
  }

  lemma KeyLessTransitive(a: ServiceKey, b: ServiceKey, c: ServiceKey)
    requires KeyLess(a, b) && KeyLess(b, c)
    ensures KeyLess(a, c)
  {
    hide StrLess;
    if StrLess(a.workload, b.workload) && StrLess(b.workload, c.workload) {
      StrLessTransitive(a.workload, b.workload, c.workload);
    }
    if StrLess(a.namespace, b.namespace) && StrLess(b.namespace, c.namespace) {
      StrLessTransitive(a.namespace, b.namespace, c.namespace);
    }
  }

  predicate KeysSorted(keys: seq<ServiceKey>) {
    forall i, j :: 0 <= i < j < |keys| ==> KeyLess(keys[i], keys[j])
  }

  /** Score descending, then workload, then namespace. */
  predicate Before(a: Affected, b: Affected) {
    a.score > b.score || (a.score == b.score && KeyLess(a.key, b.key))
  }

  predicate InOrder(list: seq<Affected>) {
    forall i, j :: 0 <= i < j < |list| ==> Before(list[i], list[j])
  }

  // ── What the list should be ──

  function AllServices(m: Metrics): set<ServiceKey> {
    m.latency.baseline.Keys + m.latency.during.Keys + m.errorRate.baseline.Keys + m.errorRate.during.Keys
    + m.throughput.baseline.Keys + m.throughput.during.Keys
  }

  function At(values: map<ServiceKey, real>, s: ServiceKey): real {
    if s in values then values[s] else 0.0
  }

  function ScoreMetric(p: MetricPair, s: ServiceKey, direction: Direction): MetricImpact {
    MetricImpact(At(p.baseline, s), At(p.during, s), Score(At(p.baseline, s), At(p.during, s), direction))
  }

  function ScoreErrorRate(p: MetricPair, s: ServiceKey): MetricImpact {
    MetricImpact(At(p.baseline, s), At(p.during, s), ErrorScore(At(p.baseline, s), At(p.during, s)))
  }

  /** The record of one service; its score is the integer mean of the three metric scores. */
  function Scored(m: Metrics, s: ServiceKey): Affected {
    var lat, err, thr := ScoreMetric(m.latency, s, Up), ScoreErrorRate(m.errorRate, s), ScoreMetric(m.throughput, s, Down);
    Affected(s, (lat.score + err.score + thr.score) / 3, None, lat, err, thr)
  }

  /** Exactly the services scoring at least `minImpact`, each with its record, in strict order. */
  ghost predicate IsAffectedList(list: seq<Affected>, m: Metrics, minImpact: nat) {
    && InOrder(list)
    && (forall a :: a in list ==> a.key in AllServices(m) && a == Scored(m, a.key))
    && (forall s :: s in AllServices(m) ==> (Scored(m, s) in list <==> Scored(m, s).score >= minImpact))
  }

  /** Two strictly ordered lists of the same records are the same list. */
  lemma {:induction false} OrderedUnique(a: seq<Affected>, b: seq<Affected>)
    requires InOrder(a) && InOrder(b) && forall x :: x in a <==> x in b
    ensures a == b
    decreases |a| + |b|
  {
    hide Before;
    assert b != [] ==> b[0] in a;
    if a != [] {
      assert a[0] in b && b != [] && b[0] in a;
      FirstsAgree(a, b);
      RestMembers(a, b);
      OrderedUnique(a[1..], b[1..]);
      assert a == [a[0]] + a[1..] && b == [b[0]] + b[1..];
    }
  }

  lemma FirstsAgree(a: seq<Affected>, b: seq<Affected>)
    requires InOrder(a) && InOrder(b) && a != [] && b != [] && a[0] in b && b[0] in a
    ensures a[0] == b[0]
  {
    hide KeyLess;
    KeyLessTotal(a[0].key, b[0].key);
  }

  lemma RestMembers(a: seq<Affected>, b: seq<Affected>)
    requires InOrder(a) && InOrder(b) && a != [] && b != [] && a[0] == b[0] && forall x :: x in a <==> x in b
    ensures InOrder(a[1..]) && InOrder(b[1..]) && forall x :: x in a[1..] <==> x in b[1..]
  {
    hide KeyLess;
    forall x
      ensures x in a[1..] <==> x in b[1..]
    {
      NotFirst(a, x);
      NotFirst(b, x);
    }
  }

  lemma NotFirst(a: seq<Affected>, x: Affected)
    requires InOrder(a) && a != []
    ensures x in a[1..] <==> x in a && x != a[0]
  {
    hide KeyLess;
    if x in a[1..] {
      var i :| 0 <= i < |a[1..]| && a[1..][i] == x;
      assert Before(a[0], a[i + 1]);
      KeyLessTotal(x.key, x.key);
    }
    if x in a && x != a[0] {
      var i :| 0 <= i < |a| && a[i] == x;
      assert a[1..][i - 1] == x;
    }
  }

  /** The metrics and the threshold determine the list: hash iteration order cannot show. */
  lemma AffectedListUnique(a: seq<Affected>, b: seq<Affected>, m: Metrics, minImpact: nat)
    requires IsAffectedList(a, m, minImpact) && IsAffectedList(b, m, minImpact)
    ensures a == b
  {
    hide InOrder, Scored, AllServices;
    forall x
      ensures x in a <==> x in b
    {
      if x in a { assert Scored(m, x.key) in a; }
      if x in b { assert Scored(m, x.key) in b; }
    }
    OrderedUnique(a, b);
  }

  /** Strictly ordered records of services among `all` are no more than those services. */
  lemma {:induction false} OrderedListFits(list: seq<Affected>, all: set<ServiceKey>)
    requires InOrder(list) && forall a :: a in list ==> a.key in all
    requires forall a, b :: a in list && b in list && a.key == b.key ==> a == b
    ensures |list| <= |all|
  {
    hide KeyLess;
    if list != [] {
      var first := list[0];
      forall a | a in list[1..]
        ensures a.key in all - {first.key}
      {
        NotFirst(list, a);
      }
      OrderedListFits(list[1..], all - {first.key});
    }
  }

  // ── Sorting: the standard library's sorts, by insertion ──

  function InsertKey(k: ServiceKey, sorted: seq<ServiceKey>): (r: seq<ServiceKey>)
    requires KeysSorted(sorted) && k !in sorted
    ensures KeysSorted(r) && |r| == |sorted| + 1
    ensures forall x :: x in r <==> x == k || x in sorted
  {
    if sorted == [] || KeyLess(k, sorted[0]) then
      assert forall i :: 0 <= i < |sorted| ==> KeyLess(k, sorted[i]) by { InsertFirst(k, sorted); }
      [k] + sorted
    else
      var rest := InsertKey(k, sorted[1..]);
      assert forall x :: x in rest ==> KeyLess(sorted[0], x) by { InsertLater(k, sorted); }
      [sorted[0]] + rest
  }

  lemma InsertFirst(k: ServiceKey, sorted: seq<ServiceKey>)
    requires KeysSorted(sorted) && (sorted == [] || KeyLess(k, sorted[0]))
    ensures forall i :: 0 <= i < |sorted| ==> KeyLess(k, sorted[i])
  {
    hide KeyLess;
    forall i | 0 < i < |sorted| { KeyLessTransitive(k, sorted[0], sorted[i]); }
  }

  lemma InsertLater(k: ServiceKey, sorted: seq<ServiceKey>)
    requires KeysSorted(sorted) && sorted != [] && !KeyLess(k, sorted[0]) && k !in sorted
    ensures forall x :: x == k || x in sorted[1..] ==> KeyLess(sorted[0], x)
  {
    hide KeyLess;
    KeyLessTotal(k, sorted[0]);
  }

  function SortKeys(keys: seq<ServiceKey>): (r: seq<ServiceKey>)
    requires forall i, j :: 0 <= i < j < |keys| ==> keys[i] != keys[j]
    ensures KeysSorted(r) && |r| == |keys|
    ensures forall x :: x in r <==> x in keys
  {
    if keys == [] then [] else InsertKey(keys[0], SortKeys(keys[1..]))
  }

  /** Stable insertion: `x` goes in front of the first record that does not score higher. */
  function InsertByScore(x: Affected, sorted: seq<Affected>): (r: seq<Affected>)
    requires InOrder(sorted) && forall y :: y in sorted ==> KeyLess(x.key, y.key)
    ensures InOrder(r) && |r| == |sorted| + 1
    ensures forall y :: y in r <==> y == x || y in sorted
  {
    if sorted == [] || sorted[0].score <= x.score then
      assert forall i :: 0 <= i < |sorted| ==> Before(x, sorted[i]) by { InsertByScoreFirst(x, sorted); }
      [x] + sorted
    else
      var rest := InsertByScore(x, sorted[1..]);
      assert forall y :: y in rest ==> Before(sorted[0], y);
      [sorted[0]] + rest
  }

  lemma InsertByScoreFirst(x: Affected, sorted: seq<Affected>)
    requires InOrder(sorted) && forall y :: y in sorted ==> KeyLess(x.key, y.key)
    requires sorted != [] ==> sorted[0].score <= x.score
    ensures forall i :: 0 <= i < |sorted| ==> Before(x, sorted[i])
  {
    hide KeyLess;
    forall i | 0 <= i < |sorted|
      ensures Before(x, sorted[i])
    {
      assert sorted[i] in sorted;
      assert i > 0 ==> Before(sorted[0], sorted[i]);
    }
  }

  predicate ByKey(list: seq<Affected>) {
    forall i, j :: 0 <= i < j < |list| ==> KeyLess(list[i].key, list[j].key)
  }

  /** A stable sort by descending score keeps the key order among equal scores. */
  function StableSortByScore(list: seq<Affected>): (r: seq<Affected>)
    requires ByKey(list)
    ensures InOrder(r) && |r| == |list|
    ensures forall x :: x in r <==> x in list
  {
    if list == [] then []
    else
      var rest := StableSortByScore(list[1..]);
      assert forall y :: y in rest ==> KeyLess(list[0].key, y.key);
      InsertByScore(list[0], rest)
  }

  // ── The operations ──

  /** A hash set is iterated in an arbitrary order. */
  method Iterate(s: set<ServiceKey>) returns (keys: seq<ServiceKey>)
    ensures forall i, j :: 0 <= i < j < |keys| ==> keys[i] != keys[j]
    ensures |keys| == |s| && forall x :: x in keys <==> x in s
  {
    keys := [];
    var rest := s;
    while rest != {}
      invariant rest <= s && |keys| + |rest| == |s|
      invariant forall x :: x in keys <==> x in s - rest
      invariant forall i, j :: 0 <= i < j < |keys| ==> keys[i] != keys[j]
      decreases |rest|
    {
      var x :| x in rest;
      assert forall i :: 0 <= i < |keys| ==> keys[i] in s - rest;
      keys := keys + [x];
      rest := rest - {x};
    }
  }

  method DiscoverServices(m: Metrics) returns (services: seq<ServiceKey>)
    ensures KeysSorted(services) && |services| == |AllServices(m)|
    ensures forall s :: s in services <==> s in AllServices(m)
  {
    var maps := [m.latency.baseline, m.latency.during, m.errorRate.baseline, m.errorRate.during,
                 m.throughput.baseline, m.throughput.during];
    var found: set<ServiceKey> := {};
    for i := 0 to |maps|
      invariant forall s :: s in found <==> exists j :: 0 <= j < i && s in maps[j]
    {
      found := found + maps[i].Keys;
    }
    forall s
      ensures s in found <==> s in AllServices(m)
    {
      if s in AllServices(m) {
        assert s in maps[0] || s in maps[1] || s in maps[2] || s in maps[3] || s in maps[4] || s in maps[5];
      }
    }
    assert found == AllServices(m);
    var keys := Iterate(found);
    services := SortKeys(keys);
  }

  method ComputeAffectedServices(m: Metrics, minImpact: nat) returns (totalScanned: nat, affected: seq<Affected>)
    ensures totalScanned == |AllServices(m)|
    ensures IsAffectedList(affected, m, minImpact)
    ensures |affected| <= totalScanned
  {
    hide KeyLess, Scored, AllServices;
    var services := DiscoverServices(m);
    totalScanned := |services|;
    var list: seq<Affected> := [];
    for i := 0 to |services|
      invariant |list| <= i && ByKey(list)
      invariant forall a :: a in list ==> exists j :: 0 <= j < i && a == Scored(m, services[j]) && a.score >= minImpact
      invariant forall j :: 0 <= j < i && Scored(m, services[j]).score >= minImpact ==> Scored(m, services[j]) in list
    {
      var a := Scored(m, services[i]);
      ScoredKeys(m);
      if a.score >= minImpact {
        forall j | 0 <= j < |list|
          ensures KeyLess(list[j].key, a.key)
        {
          assert list[j] in list;
        }
        list := list + [a];
      }
    }
    ScoredKeys(m);
    affected := StableSortByScore(list);
    forall s | s in AllServices(m)
      ensures Scored(m, s) in affected <==> Scored(m, s).score >= minImpact
    {
      var j :| 0 <= j < |services| && services[j] == s;
    }
  }

  lemma ScoredKeys(m: Metrics)
    ensures forall s :: Scored(m, s).key == s
  {
  }

  // ── Consequences ──

  /** Measured for the service by any of the six queries. */
  predicate Measures(m: Metrics, s: ServiceKey) {
    || s in m.latency.baseline || s in m.latency.during || s in m.errorRate.baseline || s in m.errorRate.during
    || s in m.throughput.baseline || s in m.throughput.during
  }

  /** The three metric scores of a service, straight from the maps; what was not measured counts as zero. */
  function MetricSum(m: Metrics, s: ServiceKey): nat {
    Score(if s in m.latency.baseline then m.latency.baseline[s] else 0.0,
          if s in m.latency.during then m.latency.during[s] else 0.0, Up)
    + ErrorScore(if s in m.errorRate.baseline then m.errorRate.baseline[s] else 0.0,
                 if s in m.errorRate.during then m.errorRate.during[s] else 0.0)
    + Score(if s in m.throughput.baseline then m.throughput.baseline[s] else 0.0,
            if s in m.throughput.during then m.throughput.during[s] else 0.0, Down)
  }

  /** The record carries the values of each metric's own maps. */
  predicate CarriesMetrics(a: Affected, m: Metrics) {
    && a.latency.baseline == (if a.key in m.latency.baseline then m.latency.baseline[a.key] else 0.0)
    && a.latency.during == (if a.key in m.latency.during then m.latency.during[a.key] else 0.0)
    && a.errorRate.baseline == (if a.key in m.errorRate.baseline then m.errorRate.baseline[a.key] else 0.0)
    && a.errorRate.during == (if a.key in m.errorRate.during then m.errorRate.during[a.key] else 0.0)
    && a.throughput.baseline == (if a.key in m.throughput.baseline then m.throughput.baseline[a.key] else 0.0)
    && a.throughput.during == (if a.key in m.throughput.during then m.throughput.during[a.key] else 0.0)
    && a.latency.score == Score(a.latency.baseline, a.latency.during, Up)
    && a.errorRate.score == ErrorScore(a.errorRate.baseline, a.errorRate.during)
    && a.throughput.score == Score(a.throughput.baseline, a.throughput.during, Down)
  }

  lemma ScoredIsMean(m: Metrics, s: ServiceKey)
    ensures var a := Scored(m, s);
            && a.key == s && CarriesMetrics(a, m) && 3 * a.score <= MetricSum(m, s) < 3 * a.score + 3
  {
    hide Score, ErrorScore;
  }

  lemma MeasuredIsDiscovered(m: Metrics, s: ServiceKey)
    ensures Measures(m, s) <==> s in AllServices(m)
  {
  }

  /** The list in terms of the measurements: who is on it, with which values, which mean, and in which order. */
  ghost predicate ListsByMean(list: seq<Affected>, m: Metrics, minImpact: nat) {
    && (forall i :: 0 <= i < |list| ==>
          CarriesMetrics(list[i], m) && 3 * list[i].score <= MetricSum(m, list[i].key) < 3 * list[i].score + 3)
    && (forall s :: Lists(list, s) <==> Measures(m, s) && MetricSum(m, s) >= 3 * minImpact)
    && SortedByScoreThenName(list)
  }

  predicate Lists(list: seq<Affected>, s: ServiceKey) {
    exists i :: 0 <= i < |list| && list[i].key == s
  }

  lemma ListedByMean(list: seq<Affected>, m: Metrics, minImpact: nat)
    requires IsAffectedList(list, m, minImpact)
    ensures ListsByMean(list, m, minImpact)
  {
    hide Scored, MetricSum, CarriesMetrics, AllServices, Measures, KeyLess, SortedByScoreThenName;
    forall i | 0 <= i < |list|
      ensures CarriesMetrics(list[i], m) && 3 * list[i].score <= MetricSum(m, list[i].key) < 3 * list[i].score + 3
    {
      assert list[i] in list;
      ScoredIsMean(m, list[i].key);
    }
    forall s
      ensures Lists(list, s) <==> Measures(m, s) && MetricSum(m, s) >= 3 * minImpact
    {
      ScoredIsMean(m, s);
      MeasuredIsDiscovered(m, s);
      if Lists(list, s) {
        var i :| 0 <= i < |list| && list[i].key == s;
        assert list[i] in list;
      }
    }
    OrderSpelledOut(list);
  }

  /** Scores descend; equal scores ascend by workload, and equal workloads by namespace. */
  predicate SortedByScoreThenName(list: seq<Affected>) {
    forall i, j :: 0 <= i < j < |list| ==>
      var a, b := list[i], list[j];
      && a.score >= b.score
      && (a.score == b.score ==> a.key.workload == b.key.workload || StrLess(a.key.workload, b.key.workload))
      && (a.score == b.score && a.key.workload == b.key.workload ==> StrLess(a.key.namespace, b.key.namespace))
  }

  lemma OrderSpelledOut(list: seq<Affected>)
    requires InOrder(list)
    ensures SortedByScoreThenName(list)
  {
    hide StrLess;
    forall i, j | 0 <= i < j < |list|
      ensures var a, b := list[i], list[j];
              && a.score >= b.score
              && (a.score == b.score ==> a.key.workload == b.key.workload || StrLess(a.key.workload, b.key.workload))
              && (a.score == b.score && a.key.workload == b.key.workload ==> StrLess(a.key.namespace, b.key.namespace))
    {
      assert Before(list[i], list[j]);
      StrLessTotal(list[i].key.workload, list[j].key.workload);
    }
  }

  /** `a` and `b` agree up to `n`, where `a` ends or has the smaller character. */
  predicate DecidedAt(a: string, b: string, n: nat) {
    n <= |a| && n < |b| && (forall i :: 0 <= i < n ==> a[i] == b[i]) && (n == |a| || a[n] < b[n])
  }

  /** The order of strings is the dictionary's: a proper prefix comes first, else the first differing character decides. */
  lemma {:induction false} StrLessIff(a: string, b: string)
    ensures StrLess(a, b) <==> exists n :: DecidedAt(a, b, n)
  {
    if b != "" && (a == "" || a[0] < b[0]) {
      assert DecidedAt(a, b, 0);
    } else if b != "" && a[0] == b[0] {
      StrLessIff(a[1..], b[1..]);
      if n: nat :| DecidedAt(a[1..], b[1..], n) { DecidedLater(a, b, n); }
      if n: nat :| DecidedAt(a, b, n) {
        assert n != 0;
        DecidedLater(a, b, n - 1);
      }
    }
  }

  lemma DecidedLater(a: string, b: string, n: nat)
    requires a != "" && b != "" && a[0] == b[0]
    ensures DecidedAt(a[1..], b[1..], n) <==> DecidedAt(a, b, n + 1)
  {
    if DecidedAt(a[1..], b[1..], n) {
      forall i | 0 <= i < n + 1
        ensures a[i] == b[i]
      {
        assert i > 0 ==> a[1..][i - 1] == b[1..][i - 1];
      }
    }
  }

  lemma MeanBounded(m: Metrics, s: ServiceKey)
    ensures Scored(m, s).score <= 100
  {
    var r := Scored(m, s);
    CappedNear(Degradation(r.latency.baseline, r.latency.during, Up));
    CappedNear(Degradation(r.errorRate.baseline, r.errorRate.during, Up));
    CappedNear(r.errorRate.during * 100.0);
    CappedNear(Degradation(r.throughput.baseline, r.throughput.during, Down));
  }

  /** In `w` the service fares no better than in `m` on any metric, against the same baselines. */
  predicate NoBetter(m: Metrics, w: Metrics, s: ServiceKey) {
    && At(w.latency.baseline, s) == At(m.latency.baseline, s) >= 0.0
    && 0.0 <= At(m.latency.during, s) <= At(w.latency.during, s)
    && At(w.errorRate.baseline, s) == At(m.errorRate.baseline, s) >= 0.0
    && 0.0 <= At(m.errorRate.during, s) <= At(w.errorRate.during, s)
    && At(w.throughput.baseline, s) == At(m.throughput.baseline, s) >= 0.0
    && 0.0 <= At(w.throughput.during, s) <= At(m.throughput.during, s)
  }

  /** Then it scores no lower, unless it had no traffic before, and less traffic now means none. */
  lemma NoBetterScoresNoLower(m: Metrics, w: Metrics, s: ServiceKey)
    requires NoBetter(m, w, s)
    requires At(m.throughput.baseline, s) > 0.0 || At(w.throughput.during, s) != 0.0 || At(m.throughput.during, s) == 0.0
    ensures Scored(m, s).score <= Scored(w, s).score
  {
    hide Score, ErrorScore;
    UpMonotone(At(m.latency.baseline, s), At(m.latency.during, s), At(w.latency.during, s));
    ErrorMonotone(At(m.errorRate.baseline, s), At(m.errorRate.during, s), At(w.errorRate.during, s));
    if At(m.throughput.baseline, s) > 0.0 {
      DownAntitone(At(m.throughput.baseline, s), At(w.throughput.during, s), At(m.throughput.during, s));
    } else {
      NoBaseline(At(m.throughput.during, s), Down);
      NoBaseline(At(w.throughput.during, s), Down);
    }
  }

  /** Faring worse never lowers the score of a service with this throughput baseline. */
  ghost predicate MeanOrdered(s: ServiceKey, baseline: real) {
    forall m, w | NoBetter(m, w, s) && At(m.throughput.baseline, s) == baseline :: Scored(m, s).score <= Scored(w, s).score
  }

  /** A throughput baseline is what that needs, and all it needs. */
  lemma MeanOrderedIff(s: ServiceKey, baseline: real)
    requires baseline >= 0.0
    ensures MeanOrdered(s, baseline) <==> baseline > 0.0
  {
    hide Scored;
    if baseline > 0.0 {
      forall m, w | NoBetter(m, w, s) && At(m.throughput.baseline, s) == baseline { NoBetterScoresNoLower(m, w, s); }
    } else {
      var silent := Metrics(MetricPair(map[], map[]), MetricPair(map[], map[]), MetricPair(map[], map[]));
      var busy := silent.(throughput := MetricPair(map[], map[s := 1.0]));
      assert NoBetter(busy, silent, s);
      NewTrafficScores(s, busy, silent);
    }
  }

  lemma NewTrafficScores(s: ServiceKey, busy: Metrics, silent: Metrics)
    requires silent == Metrics(MetricPair(map[], map[]), MetricPair(map[], map[]), MetricPair(map[], map[]))
    requires busy == silent.(throughput := MetricPair(map[], map[s := 1.0]))
    ensures Scored(silent, s).score == 0 && Scored(busy, s).score == 33
  {
    hide Score;
    NoBaseline(0.0, Up);
    NoBaseline(0.0, Down);
    NoBaseline(1.0, Down);
    assert Capped(0.0) == 0;
  }

  // ── Classification ──

  /** Unlike the reconciler, the classification falls back on the target's own namespace first. */
  function ChaosNamespace(spec: Spec, defaultNs: string): string {
    spec.targetNamespace.Or(if spec.target.Some? then spec.target.value.namespace else None).GetOr(defaultNs)
  }

  /** Where the reconciler injects and where the classification looks agree exactly then. */
  lemma NamespacesAgreeIff(key: Key, spec: Spec, defaultNs: string)
    ensures ChaosNamespace(spec, defaultNs) == TargetNamespace(key, spec) <==>
            || spec.targetNamespace.Some?
            || (if spec.target.Some? && spec.target.value.namespace.Some? then spec.target.value.namespace.value else defaultNs)
               == key.ns
    ensures spec.targetNamespace.Some? ==> TargetNamespace(key, spec) == spec.targetNamespace.value
    ensures spec.targetNamespace.None? ==> TargetNamespace(key, spec) == key.ns
  {
  }

  /** The label of a record for a resolved target. */
  ghost function Labelled(a: Affected, g: Graph, target: ServiceKey): Affected {
    a.(impactType := Some(if Reaches(g.adjacency, target, a.key) then Direct else Indirect))
  }

  /** Records are labelled for edge chaos with an edge, and left alone otherwise. */
  ghost function Classified(a: Affected, spec: Spec, g: Graph, defaultNs: string): Affected {
    if spec.scenario.IsEdge() && spec.Edge().Some?
    then Labelled(a, g, ResolveWorkload(g, spec.Edge().value.destination, ChaosNamespace(spec, defaultNs)))
    else a
  }

  method ClassifyServices(affected: array<Affected>, spec: Spec, g: Graph, defaultNs: string)
    modifies affected
    ensures forall i :: 0 <= i < affected.Length ==> affected[i] == Classified(old(affected[i]), spec, g, defaultNs)
  {
    hide Reaches, ResolveWorkload;
    if !spec.scenario.IsEdge() || spec.Edge().None? { return; }
    var target := ResolveWorkload(g, spec.Edge().value.destination, ChaosNamespace(spec, defaultNs));
    var reachable, _ := ReachableFrom(g.adjacency, target);
    for i := 0 to affected.Length
      invariant forall j :: 0 <= j < i ==> affected[j] == Labelled(old(affected[j]), g, target)
      invariant forall j :: i <= j < affected.Length ==> affected[j] == old(affected[j])
    {
      affected[i] := affected[i].(impactType := Some(if affected[i].key in reachable then Direct else Indirect));
    }
  }

  /** End to end: Direct means the resolved target itself, or a service some chain of metric rows leads to from it. */
  lemma DirectIffLed(a: Affected, g: Graph, rows: seq<Row>, service: string, namespace: string)
    requires Represents(g, rows)
    ensures Labelled(a, g, ResolveWorkload(g, service, namespace)).impactType == Some(Direct) <==>
            Leads(rows, TargetOf(rows, service, namespace), a.key)
  {
    hide Reaches, Leads;
    ReachesIffLeads(g, rows, TargetOf(rows, service, namespace), a.key);
  }
}
