/** What a pass of one experiment may delete when many run interleaved. */
module Isolation {
  import opened Types
  import opened ExperimentStatus
  import opened Names
  import opened Routing
  import opened ApiServer
  import opened Process
  import opened Machine
  import opened Invariant

  /** The parts of the cluster that do not belong to experiment `k`, whose UID is `uid`, are as before. */
  predicate TouchesOnlyOwn(c: Cluster, c': Cluster, k: Key, uid: string) {
    && c'.experiments - {k} == c.experiments - {k}
    && (forall key :: key in c.services && !BelongsTo(c.services[key].labels, k.name) ==>
          key in c'.services && c'.services[key] == c.services[key])
    && (forall key :: key in c.jobs && c.jobs[key].creator.Some? && c.jobs[key].creator != Some(uid) ==>
          key in c'.jobs && c'.jobs[key] == c.jobs[key])
    && (forall key :: key in c'.services && key !in c.services ==> c'.services[key].creator == Some(uid))
    && (forall key :: key in c'.jobs && key !in c.jobs ==> c'.jobs[key].creator == Some(uid) && key.ns == k.ns)
    && c'.selectors == c.selectors && c'.nodes == c.nodes && c'.registry == c.registry && c'.clock == c.clock
  }

  lemma LawfulTouchesOnlyOwn(c: Cluster, k: Key, uid: string, req: Request)
    requires ClusterOk(c) && uid in c.registry && Lawful(c, k, uid, req)
    ensures TouchesOnlyOwn(c, Effect(Merge, c, uid, req), k, uid)
  {
    hide ExperimentsAfter, Allowed, StatusOk, FaultsExactly, StatusesOk, ServicesOk, VirtualServiceName, JobPrefix, RegistryOk,
      JobsOk, BelongsTo, ManagedLabels;
    OthersUntouched(c, k, uid, req);
    if req.DeleteJob? { DeletesOwnJob(c, k, uid, req); }
  }

  /** A created job a pass deletes is its own: only its own UID has the prefix in the job's name. */
  lemma DeletesOwnJob(c: Cluster, k: Key, uid: string, req: Request)
    requires ClusterOk(c) && uid in c.registry && Lawful(c, k, uid, req) && req.DeleteJob?
    ensures req.key in c.jobs ==> c.jobs[req.key].creator.None? || c.jobs[req.key].creator == Some(uid)
  {
    hide StatusesOk, ServicesOk, JobPrefix;
    if req.key in c.jobs && c.jobs[req.key].creator.Some? {
      assert JobOk(c, req.key, c.jobs[req.key]);
      JobPrefixInjective(c.jobs[req.key].creator.value, uid, req.key.name);
    }
  }

  lemma OthersUntouched(c: Cluster, k: Key, uid: string, req: Request)
    requires Lawful(c, k, uid, req)
    ensures Effect(Merge, c, uid, req).experiments - {k} == c.experiments - {k}
  {
    hide Allowed, StatusOk, FaultsExactly, VirtualServiceName, JobPrefix, Overlay, BelongsTo;
  }

  lemma SelfUntouched(c: Cluster, k: Key, uid: string)
    ensures TouchesOnlyOwn(c, c, k, uid)
  {
  }

  /**
   No call ever deletes or changes an unmanaged service, a service labelled with another experiment's name, a job
   that a pass of another experiment created, or another experiment.
   */
  lemma CallsTouchOnlyOwn(states: seq<State>, labels: seq<Label>, i: nat)
    requires IsRun(Merge, states, labels) && Init(states[0]) && i < |labels| && labels[i].Call?
    ensures labels[i].key in states[i].passes
    ensures TouchesOnlyOwn(states[i].c, states[i + 1].c, labels[i].key, states[i].passes[labels[i].key].snap.exp.uid)
  {
    hide Effect, Next, Lawful, TouchesOnlyOwn, PcOk, StatusOk, Held, Resume, Answers, StatusesOk, ServicesOk, JobsOk;
    InitOk(states[0]);
    RunKeepsInv(Merge, states, labels, i);
    var s, k := states[i], labels[i].key;
    assert StepBy(Merge, s, labels[i], states[i + 1]);
    var p := s.passes[k];
    assert PassOk(s.c, k, p);
    NextLawful(s.c, k, p);
    SelfUntouched(s.c, k, p.snap.exp.uid);
    LawfulTouchesOnlyOwn(s.c, k, p.snap.exp.uid, Next(p.snap, p.pc));
  }

  /**
   In every reachable cluster each managed service is owned by the experiment whose pass created it, and faults exactly
   the sources carrying its non-empty selector.
   */
  lemma ManagedServicesRouteExactly(states: seq<State>, labels: seq<Label>, i: nat, key: Key)
    requires IsRun(Merge, states, labels) && Init(states[0]) && i <= |labels|
    requires key in states[i].c.services && IsChaosManaged(states[i].c.services[key].labels)
    ensures states[i].c.services[key].creator.Some?
    ensures states[i].c.services[key].owner == states[i].c.services[key].creator
    ensures exists host, selector, fault :: FaultsExactly(states[i].c.services[key], host, selector, fault)
    ensures FirstMatch(states[i].c.services[key].http, map[]).Some?
    ensures FirstMatch(states[i].c.services[key].http, map[]).value.fault == None
  {
    InitOk(states[0]);
    RunKeepsInv(Merge, states, labels, i);
    var vs := states[i].c.services[key];
    assert ServiceOk(states[i].c, key, vs);
    var host, selector, fault :| FaultsExactly(vs, host, selector, fault);
    UnlabelledIsSafe(vs, host, selector, fault);
  }
}
