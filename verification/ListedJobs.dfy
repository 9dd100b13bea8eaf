/** The converse of `EveryJobIsListed`: what is listed in a status was there. */
module ListedJobs {
  import opened Types
  import opened ExperimentStatus
  import opened Names
  import opened ApiServer
  import opened Process
  import opened Machine
  import opened Invariant
  import opened Phases

  /** Some state of the run so far has a job under `key`. */
  ghost predicate WasThere(states: seq<State>, i: nat, key: Key)
    requires i < |states|
  {
    exists h :: 0 <= h <= i && key in states[h].c.jobs
  }

  /** The jobs of the first `n` nodes were there. */
  ghost predicate Covered(states: seq<State>, i: nat, s: Snapshot, nodes: seq<string>, n: nat)
    requires i < |states| && n <= |nodes|
  {
    forall j :: 0 <= j < n ==> WasThere(states, i, Key(s.key.ns, JobName(s.Id(), nodes[j])))
  }

  ghost predicate AllThere(states: seq<State>, i: nat, k: Key, names: seq<string>)
    requires i < |states|
  {
    forall name :: name in names ==> WasThere(states, i, Key(k.ns, name))
  }

  /** What a launching pass has behind it. */
  ghost predicate Backed(states: seq<State>, i: nat, p: Pass)
    requires i < |states|
  {
    In(p.snap, Pending) ==>
      match p.pc
      case CreatingJobs(nodes, node, rest) =>
        |rest| < |nodes| && nodes[|nodes| - 1 - |rest|..] == [node] + rest
        && Covered(states, i, p.snap, nodes, |nodes| - 1 - |rest|)
      case StampingNodes(nodes) => Covered(states, i, p.snap, nodes, |nodes|)
      case Patching(st) => AllThere(states, i, p.snap.key, st.runnerJobs)
      case _ => true
  }

  lemma StillThere(states: seq<State>, i: nat, j: nat, key: Key)
    requires i <= j < |states| && WasThere(states, i, key)
    ensures WasThere(states, j, key)
  {
  }

  lemma LaterBacked(states: seq<State>, i: nat, j: nat, p: Pass)
    requires i <= j < |states| && Backed(states, i, p)
    ensures Backed(states, j, p)
  {
    hide JobName;
  }

  lemma StartBacked(states: seq<State>, i: nat, s: Snapshot)
    requires i < |states|
    ensures Backed(states, i, Pass(s, Start(s), true))
  {
    hide Validate, NeedsFinalizer, JobName;
  }

  /** A create that is acknowledged, or refused as existing, leaves the job in the cluster. */
  lemma CreateIsThere(c: Cluster, p: Pass, delivery: Delivery, c': Cluster, reply: Reply)
    requires p.pc.CreatingJobs? && Serve(Merge, c, p.snap.exp.uid, Next(p.snap, p.pc), delivery, c', reply)
    requires reply == Ack || reply == Error(AlreadyExists)
    ensures Key(p.snap.key.ns, JobName(p.snap.Id(), p.pc.node)) in c'.jobs
  {
    hide JobName, RunnerJob, IsJobListing, IsServiceListing;
  }

  lemma CreatedBacked(states: seq<State>, i: nat, p: Pass, delivery: Delivery, reply: Reply)
    requires i + 1 < |states| && p.pc.CreatingJobs? && In(p.snap, Pending) && Backed(states, i, p)
    requires Serve(Merge, states[i].c, p.snap.exp.uid, Next(p.snap, p.pc), delivery, states[i + 1].c, reply)
    ensures Backed(states, i + 1, Advance(p, reply))
  {
    hide JobName, Serve, Next;
    if reply == Ack || reply == Error(AlreadyExists) {
      var nodes, rest := p.pc.nodes, p.pc.rest;
      var n := |nodes| - 1 - |rest|;
      CreateIsThere(states[i].c, p, delivery, states[i + 1].c, reply);
      assert nodes[n] == nodes[n..][0] == p.pc.node;
      assert nodes[n + 1..] == nodes[n..][1..] == rest;
      assert WasThere(states, i + 1, Key(p.snap.key.ns, JobName(p.snap.Id(), nodes[n])));
      forall j | 0 <= j < n 
        ensures WasThere(states, i + 1, Key(p.snap.key.ns, JobName(p.snap.Id(), nodes[j])))
      {
        StillThere(states, i, i + 1, Key(p.snap.key.ns, JobName(p.snap.Id(), nodes[j])));
      }
      assert Covered(states, i + 1, p.snap, nodes, n + 1);
      if rest != [] { assert rest == [rest[0]] + rest[1..]; }
    }
  }

  lemma StampedBacked(states: seq<State>, i: nat, p: Pass, reply: Reply)
    requires i + 1 < |states| && p.pc.StampingNodes? && In(p.snap, Pending) && Backed(states, i, p)
    ensures Backed(states, i + 1, Advance(p, reply))
  {
    hide JobName, WasThere;
    var nodes := p.pc.nodes;
    var names := JobNames(p.snap.Id(), nodes);
    forall name | name in names
      ensures WasThere(states, i + 1, Key(p.snap.key.ns, name))
    {
      var j :| 0 <= j < |names| && names[j] == name;
      StillThere(states, i, i + 1, Key(p.snap.key.ns, JobName(p.snap.Id(), nodes[j])));
    }
  }

  /** Elsewhere a pending pass lists nothing, or starts with all nodes before it. */
  lemma OtherwiseBacked(states: seq<State>, i: nat, p: Pass, reply: Reply)
    requires i < |states| && !p.pc.Finished? && !p.pc.CreatingJobs? && !p.pc.StampingNodes?
    requires In(p.snap, Pending) && PcOk(p.snap, p.pc, states[i].c.clock)
    ensures Backed(states, i, Advance(p, reply))
  {
    hide JobName, WasThere, NeedsFinalizer, Validate, Elapsed, Selected, StatusOk, Allowed, AnyFailed, AllSucceeded;
    if p.pc.ListingNodes? && reply.NodeList? && reply.nodes != [] {
      assert reply.nodes == [reply.nodes[0]] + reply.nodes[1..];
    }
  }

  lemma CallBacked(states: seq<State>, i: nat, p: Pass, delivery: Delivery, reply: Reply)
    requires i + 1 < |states| && !p.pc.Finished? && Backed(states, i, p) && PcOk(p.snap, p.pc, states[i].c.clock)
    requires Serve(Merge, states[i].c, p.snap.exp.uid, Next(p.snap, p.pc), delivery, states[i + 1].c, reply)
    ensures Backed(states, i + 1, Advance(p, reply))
  {
    hide Serve, Next, Resume, PcOk, Covered, AllThere;
    if In(p.snap, Pending) {
      if p.pc.CreatingJobs? {
        CreatedBacked(states, i, p, delivery, reply);
      } else if p.pc.StampingNodes? {
        StampedBacked(states, i, p, reply);
      } else {
        OtherwiseBacked(states, i, p, reply);
        LaterBacked(states, i, i + 1, Advance(p, reply));
      }
    }
  }

  lemma {:induction false} PassesAreBacked(states: seq<State>, labels: seq<Label>, i: nat, k: Key)
    requires IsRun(Merge, states, labels) && Init(states[0]) && i <= |labels| && k in states[i].passes
    ensures Backed(states, i, states[i].passes[k])
  {
    hide Serve, Next, Resume, Start, Backed, Moved, MayMove, PcOk, StatusOk, ClusterOk, Held, Listed;
    if i > 0 {
      var s, l, s' := states[i - 1], labels[i - 1], states[i];
      assert StepBy(Merge, s, l, s');
      InitOk(states[0]);
      RunKeepsInv(Merge, states, labels, i - 1);
      if l.Begin? && l.key == k {
        StartBacked(states, i, s'.passes[k].snap);
      } else {
        PassesAreBacked(states, labels, i - 1, k);
        assert PassOk(s.c, k, s.passes[k]);
        if l.Call? && l.key == k {
          CallBacked(states, i - 1, s.passes[k], l.delivery, l.reply);
        } else {
          LaterBacked(states, i - 1, i, s.passes[k]);
        }
      }
    }
  }

  lemma StepListed(states: seq<State>, labels: seq<Label>, i: nat, k: Key, uid: string)
    requires IsRun(Merge, states, labels) && Init(states[0]) && i < |labels| && Inv(states[i])
    requires Alive(states[i].c, k, uid) && Alive(states[i + 1].c, k, uid) && uid in states[i].c.registry
    requires AllThere(states, i, k, states[i].c.experiments[k].status.runnerJobs)
    ensures AllThere(states, i + 1, k, states[i + 1].c.experiments[k].status.runnerJobs)
  {
    hide StepBy, Inv, WasThere, StatusOk, Covered;
    var s, l, s' := states[i], labels[i], states[i + 1];
    assert StepBy(Merge, s, l, s');
    StepStatus(s, l, s', k, uid);
    var st, st' := s.c.experiments[k].status, s'.c.experiments[k].status;
    if st' != st {
      StatusWrittenBy(s, l, s', k, uid);
      PassesAreBacked(states, labels, i, k);
    }
    forall name | name in st'.runnerJobs
      ensures WasThere(states, i + 1, Key(k.ns, name))
    {
      StillThere(states, i, i + 1, Key(k.ns, name));
    }
  }

  /** Every name in `runner_jobs` named a job that was in the experiment's namespace at some point of the run. */
  lemma {:induction false} ListedWasThere(states: seq<State>, labels: seq<Label>, i: nat, k: Key, uid: string)
    requires IsRun(Merge, states, labels) && Init(states[0]) && i <= |labels| && Alive(states[i].c, k, uid)
    ensures AllThere(states, i, k, states[i].c.experiments[k].status.runnerJobs)
  {
    hide StepBy, ClusterOk, PassOk, WasThere, Allowed;
    if i > 0 {
      InitOk(states[0]);
      RunKeepsInv(Merge, states, labels, i - 1);
      var s, s' := states[i - 1], states[i];
      if uid in s.c.registry {
        StepStatus(s, labels[i - 1], s', k, uid);
        ListedWasThere(states, labels, i - 1, k, uid);
        StepListed(states, labels, i - 1, k, uid);
      } else {
        NewbornIsEmpty(s, labels[i - 1], s', k, uid);
      }
    }
  }
}
