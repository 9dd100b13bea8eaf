/** The fault-injecting VirtualService of an edge experiment, and what Istio's first-match routing does with it. */
module Routing {
  import opened Types

  datatype Fault = Delay(millis: nat) | Abort(percent: nat, httpStatus: nat)

  datatype Parameters = Parameters(latencyMs: Option<U64>, abortPercent: Option<U64>, abortHttpStatus: Option<U64>)

  /** The `as u32` and `as u16` casts keep the low bits. */
  function BuildFault(scenario: Scenario, p: Parameters): Option<Fault> {
    match scenario
    case EdgeDelay => if p.latencyMs.Some? then Some(Delay(p.latencyMs.value)) else None
    case EdgeAbort =>
      if p.abortPercent.Some?
      then Some(Abort(p.abortPercent.value % 0x1_0000_0000, p.abortHttpStatus.GetOr(503) % 0x1_0000))
      else None
    case _ => None
  }

  /** An empty list of matches accepts every request. */
  datatype HttpRule = HttpRule(matches: seq<Labels>, fault: Option<Fault>, destination: string)

  /** `creator` is the API server's record of the experiment whose pass created the object. */
  datatype VirtualService = VirtualService(
    labels: Labels, owner: Option<string>, hosts: seq<string>, http: seq<HttpRule>, creator: Option<string>)

  datatype ServiceSpec = ServiceSpec(
    experiment: string, uid: string, destination: string, sourceLabels: Labels, fault: Fault)

  function Fqdn(service: string, ns: string): string {
    service + "." + ns + ".svc.cluster.local"
  }

  function ManagedLabels(experiment: string): Labels {
    map[EXPERIMENT_LABEL := experiment, MANAGED_BY_LABEL := MANAGED_BY_VALUE]
  }

  function BuildVirtualService(spec: ServiceSpec): VirtualService {
    VirtualService(
      ManagedLabels(spec.experiment), Some(spec.uid), [spec.destination],
      [HttpRule([spec.sourceLabels], Some(spec.fault), spec.destination), HttpRule([], None, spec.destination)],
      None)
  }

  predicate IsChaosManaged(labels: Labels) {
    MANAGED_BY_LABEL in labels && labels[MANAGED_BY_LABEL] == MANAGED_BY_VALUE
  }

  /** What the cleanup looks for: managed, and labelled with this experiment's name. */
  predicate BelongsTo(labels: Labels, experiment: string) {
    IsChaosManaged(labels) && EXPERIMENT_LABEL in labels && labels[EXPERIMENT_LABEL] == experiment
  }

  lemma BuiltBelongsTo(experiment: string, name: string)
    ensures BelongsTo(ManagedLabels(experiment), name) <==> experiment == name
  {
    LabelsDiffer();
  }

  predicate Carries(source: Labels, selector: Labels) {
    forall k :: k in selector ==> k in source && source[k] == selector[k]
  }

  /** What the cleanup and the conflict check look for, as label selectors: exactly what the builder puts on. */
  lemma ManagedIffCarries(labels: Labels, experiment: string)
    ensures IsChaosManaged(labels) <==> Carries(labels, map[MANAGED_BY_LABEL := MANAGED_BY_VALUE])
    ensures BelongsTo(labels, experiment) <==> Carries(labels, ManagedLabels(experiment))
    ensures ManagedLabels(experiment) == map["chaos.io/experiment" := experiment, "chaos.io/managed-by" := "chimp-chaos"]
  {
    LabelsDiffer();
    var one: Labels := map[MANAGED_BY_LABEL := MANAGED_BY_VALUE];
    assert MANAGED_BY_LABEL in one;
    assert MANAGED_BY_LABEL in ManagedLabels(experiment) && EXPERIMENT_LABEL in ManagedLabels(experiment);
  }

  /** The fault a spec asks for, in terms of its parameters; the casts are exact below 2^32 and 2^16. */
  predicate AsksFor(scenario: Scenario, p: Parameters, fault: Fault) {
    match scenario
    case EdgeDelay => p.latencyMs.Some? && fault.Delay? && fault.millis == p.latencyMs.value
    case EdgeAbort =>
      && p.abortPercent.Some? && fault.Abort?
      && (fault.percent == p.abortPercent.value <==> p.abortPercent.value < 0x1_0000_0000)
      && (p.abortHttpStatus.None? ==> fault.httpStatus == 503)
      && (p.abortHttpStatus.Some? ==>
            (fault.httpStatus == p.abortHttpStatus.value <==> p.abortHttpStatus.value < 0x1_0000))
    case _ => false
  }

  /** The parameter without which there is no fault. */
  predicate LacksFault(scenario: Scenario, p: Parameters) {
    match scenario
    case EdgeDelay => p.latencyMs.None?
    case EdgeAbort => p.abortPercent.None?
    case _ => true
  }

  lemma FaultAskedFor(scenario: Scenario, p: Parameters)
    ensures BuildFault(scenario, p).None? <==> LacksFault(scenario, p)
    ensures BuildFault(scenario, p).Some? ==> AsksFor(scenario, p, BuildFault(scenario, p).value)
  {
  }

  predicate Accepts(rule: HttpRule, source: Labels) {
    rule.matches == [] || exists i :: 0 <= i < |rule.matches| && Carries(source, rule.matches[i])
  }

  function FirstMatch(http: seq<HttpRule>, source: Labels): Option<HttpRule> {
    if http == [] then None
    else if Accepts(http[0], source) then Some(http[0])
    else FirstMatch(http[1..], source)
  }

  /** `vs` sends everything to `host` and faults exactly the sources that carry the non-empty `selector`. */
  ghost predicate FaultsExactly(vs: VirtualService, host: string, selector: Labels, fault: Fault) {
    && vs.hosts == [host]
    && selector != map[]
    && forall source: Labels ::
         && FirstMatch(vs.http, source).Some?
         && FirstMatch(vs.http, source).value.destination == host
         && FirstMatch(vs.http, source).value.fault == if Carries(source, selector) then Some(fault) else None
  }

  lemma BuiltFaultsExactly(spec: ServiceSpec)
    requires spec.sourceLabels != map[]
    ensures FaultsExactly(BuildVirtualService(spec), spec.destination, spec.sourceLabels, spec.fault)
  {
    var http := BuildVirtualService(spec).http;
    forall source: Labels
      ensures FirstMatch(http, source) == Some(if Carries(source, spec.sourceLabels) then http[0] else http[1])
    {
      assert http[0].matches == [spec.sourceLabels];
      assert Accepts(http[0], source) <==> Carries(source, spec.sourceLabels) by {
        if Carries(source, spec.sourceLabels) { assert Carries(source, http[0].matches[0]); }
      }
      assert Accepts(http[1], source);
      assert FirstMatch(http[1..], source) == Some(http[1]);
    }
  }

  /** A source without labels is never faulted, because the selector is never empty. */
  lemma UnlabelledIsSafe(vs: VirtualService, host: string, selector: Labels, fault: Fault)
    requires FaultsExactly(vs, host, selector, fault)
    ensures FirstMatch(vs.http, map[]).Some? && FirstMatch(vs.http, map[]).value.fault == None
  {
    var k :| k in selector;
    assert !Carries(map[], selector);
  }
}
