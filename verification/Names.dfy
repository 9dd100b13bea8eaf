/** Deterministic object names, over ASCII identifiers (one byte per character). */
module Names {
  import opened Types

  function Min(a: nat, b: nat): nat {
    if a <= b then a else b
  }

  function Prefix(id: string): string {
    id[..Min(8, |id|)]
  }

  function JobName(id: string, node: string): string {
    var room := 63 - 13 - 1 - |Prefix(id)|;
    "chaos-runner-" + Prefix(id) + "-" + node[..Min(room, |node|)]
  }

  function JobNames(id: string, nodes: seq<string>): (names: seq<string>)
    ensures |names| == |nodes|
    ensures forall i :: 0 <= i < |nodes| ==> names[i] == JobName(id, nodes[i])
  {
    if nodes == [] then [] else [JobName(id, nodes[0])] + JobNames(id, nodes[1..])
  }

  lemma JobNamesAppend(id: string, nodes: seq<string>, node: string)
    ensures JobNames(id, nodes + [node]) == JobNames(id, nodes) + [JobName(id, node)]
  {
  }

  function VirtualServiceName(id: string): string {
    "chaos-edge-" + Prefix(id)
  }

  /** What every job name made for `id` starts with. */
  function JobPrefix(id: string): string {
    "chaos-runner-" + Prefix(id) + "-"
  }

  lemma JobNameShape(id: string, node: string)
    requires |id| >= 8
    ensures JobPrefix(id) <= JobName(id, node)
    ensures |JobName(id, node)| <= 63
  {
  }

  lemma JobPrefixInjective(a: string, b: string, name: string)
    requires |a| >= 8 && |b| >= 8
    requires JobPrefix(a) <= name && JobPrefix(b) <= name
    ensures Prefix(a) == Prefix(b)
  {
    assert Prefix(a) == name[13..21] == Prefix(b);
  }

  /** Two job names are equal exactly when the first 8 characters of the ids and the first 41 of the nodes are. */
  lemma JobNamesAgree(a: string, m: string, b: string, n: string)
    requires |a| >= 8 && |b| >= 8
    ensures JobName(a, m) == JobName(b, n) <==> a[..8] == b[..8] && m[..Min(41, |m|)] == n[..Min(41, |n|)]
  {
    if JobName(a, m) == JobName(b, n) {
      assert JobName(a, m)[13..21] == a[..8] && JobName(b, n)[13..21] == b[..8];
      assert JobName(a, m)[22..] == m[..Min(41, |m|)] && JobName(b, n)[22..] == n[..Min(41, |n|)];
    }
  }

  /** Some nodes give the two ids the same job name. */
  ghost predicate Collide(a: string, b: string) {
    exists m, n :: JobName(a, m) == JobName(b, n)
  }

  /** Ids of any length: job names can collide exactly when the prefixes agree, or one with its dash begins the other. */
  lemma CollideIff(a: string, b: string)
    ensures Collide(a, b) <==>
            Prefix(a) == Prefix(b) || Prefix(a) + "-" <= Prefix(b) || Prefix(b) + "-" <= Prefix(a)
  {
    if Collide(a, b) {
      var m, n :| JobName(a, m) == JobName(b, n);
      if |Prefix(a)| <= |Prefix(b)| { CollidingPrefixes(a, m, b, n); } else { CollidingPrefixes(b, n, a, m); }
    }
    if Prefix(a) == Prefix(b) { assert JobName(a, "") == JobName(b, ""); }
    if Prefix(a) + "-" <= Prefix(b) { CollidingNode(a, b); }
    if Prefix(b) + "-" <= Prefix(a) { CollidingNode(b, a); }
  }

  lemma CollidingPrefixes(a: string, m: string, b: string, n: string)
    requires JobName(a, m) == JobName(b, n) && |Prefix(a)| <= |Prefix(b)|
    ensures Prefix(a) == Prefix(b) || Prefix(a) + "-" <= Prefix(b)
  {
    hide JobName, Prefix;
    AfterHead(a, m);
    AfterHead(b, n);
    var rest := JobName(a, m)[13..];
    if |Prefix(a)| == |Prefix(b)| {
      assert Prefix(a) == rest[..|Prefix(a)|] == Prefix(b);
    } else {
      assert Prefix(a) + "-" == rest[..|Prefix(a)| + 1] == (Prefix(b) + "-")[..|Prefix(a)| + 1];
    }
  }

  lemma AfterHead(id: string, node: string)
    ensures |JobName(id, node)| >= 13 && Prefix(id) + "-" <= JobName(id, node)[13..]
  {
    var room := 63 - 13 - 1 - |Prefix(id)|;
    assert JobName(id, node)[13..] == Prefix(id) + "-" + node[..Min(room, |node|)];
  }

  lemma CollidingNode(a: string, b: string)
    requires Prefix(a) + "-" <= Prefix(b)
    ensures Collide(a, b) && Collide(b, a)
  {
    var node := Prefix(b)[|Prefix(a)| + 1..] + "-";
    assert Prefix(a) + "-" + node == Prefix(b) + "-";
    assert JobName(a, node) == JobName(b, "");
  }

  predicate Distinct(names: seq<string>) {
    forall i, j :: 0 <= i < j < |names| ==> names[i] != names[j]
  }

  /** One job per node exactly when the nodes already differ in their first 41 characters. */
  lemma RunnerJobsDistinct(id: string, nodes: seq<string>)
    requires |id| >= 8
    ensures Distinct(JobNames(id, nodes)) <==>
            forall i, j :: 0 <= i < j < |nodes| ==> nodes[i][..Min(41, |nodes[i]|)] != nodes[j][..Min(41, |nodes[j]|)]
  {
    forall i, j | 0 <= i < j < |nodes| {
      JobNamesAgree(id, nodes[i], id, nodes[j]);
    }
  }

  lemma ServiceNamesAgree(a: string, b: string)
    ensures VirtualServiceName(a) == VirtualServiceName(b) <==> Prefix(a) == Prefix(b)
  {
    assert VirtualServiceName(a)[11..] == Prefix(a);
    assert VirtualServiceName(b)[11..] == Prefix(b);
  }
}
