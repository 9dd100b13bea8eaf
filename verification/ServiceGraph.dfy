/** From metric rows to a service graph, to what is reachable from the target of the chaos. */
module ServiceGraph {
  import opened Types

  datatype ServiceKey = ServiceKey(workload: string, namespace: string)

  /** The labels of one metric row; absent labels read as empty. */
  datatype Row = Row(source: ServiceKey, destination: ServiceKey, service: string)

  datatype Graph = Graph(
    adjacency: map<ServiceKey, seq<ServiceKey>>, workloads: map<(string, string), ServiceKey>)

  predicate Usable(r: Row) {
    r.source.workload != "" && r.destination.workload != ""
  }

  // ── What the graph should be ──

  /** The destinations of the usable rows from `node`, in row order. */
  function Targets(rows: seq<Row>, node: ServiceKey): seq<ServiceKey> {
    if rows == [] then []
    else Targets(rows[..|rows| - 1], node) +
         var r := rows[|rows| - 1];
         if Usable(r) && r.source == node then [r.destination] else []
  }

  predicate Names(r: Row, name: (string, string)) {
    && r.source.workload != "" && r.destination.workload != ""
    && r.service != "" && (r.service, r.destination.namespace) == name
  }

  /** The workload of the last usable row that names the service. */
  function LastNamed(rows: seq<Row>, name: (string, string)): Option<ServiceKey> {
    if rows == [] then None
    else
      var r := rows[|rows| - 1];
      if Names(r, name) then Some(r.destination) else LastNamed(rows[..|rows| - 1], name)
  }

  ghost predicate Represents(g: Graph, rows: seq<Row>) {
    AdjacencyOf(g.adjacency, rows) && WorkloadsOf(g.workloads, rows)
  }

  ghost predicate AdjacencyOf(adjacency: map<ServiceKey, seq<ServiceKey>>, rows: seq<Row>) {
    && (forall n :: n in adjacency <==> Targets(rows, n) != [])
    && (forall n :: n in adjacency ==> adjacency[n] == Targets(rows, n))
  }

  ghost predicate WorkloadsOf(workloads: map<(string, string), ServiceKey>, rows: seq<Row>) {
    && (forall s :: s in workloads <==> LastNamed(rows, s).Some?)
    && (forall s :: s in workloads ==> LastNamed(rows, s) == Some(workloads[s]))
  }

  lemma NextRow(rows: seq<Row>, i: nat)
    requires i < |rows|
    ensures forall n :: Targets(rows[..i + 1], n)
                        == if Usable(rows[i]) && rows[i].source == n then Targets(rows[..i], n) + [rows[i].destination]
                           else Targets(rows[..i], n)
    ensures forall s :: LastNamed(rows[..i + 1], s)
                        == if Names(rows[i], s) then Some(rows[i].destination) else LastNamed(rows[..i], s)
  {
    assert rows[..i + 1][..i] == rows[..i];
  }

  lemma SkipsRow(g: Graph, rows: seq<Row>, i: nat)
    requires i < |rows| && Represents(g, rows[..i]) && !Usable(rows[i])
    ensures Represents(g, rows[..i + 1])
  {
    hide Targets, LastNamed;
    NextRow(rows, i);
  }

  lemma AddsEdge(adjacency: map<ServiceKey, seq<ServiceKey>>, rows: seq<Row>, i: nat)
    requires i < |rows| && AdjacencyOf(adjacency, rows[..i]) && Usable(rows[i])
    ensures var r := rows[i];
            AdjacencyOf(
              adjacency[r.source := (if r.source in adjacency then adjacency[r.source] else []) + [r.destination]],
              rows[..i + 1])
  {
    hide Targets, LastNamed;
    NextRow(rows, i);
  }

  lemma NextNamed(rows: seq<Row>, i: nat, s: (string, string))
    requires i < |rows|
    ensures LastNamed(rows[..i + 1], s) == if Names(rows[i], s) then Some(rows[i].destination) else LastNamed(rows[..i], s)
  {
    assert rows[..i + 1][..i] == rows[..i];
  }

  lemma NamesWorkload(workloads: map<(string, string), ServiceKey>, rows: seq<Row>, i: nat)
    requires i < |rows| && WorkloadsOf(workloads, rows[..i]) && Usable(rows[i])
    ensures var r := rows[i];
            WorkloadsOf(
              if r.service != "" then workloads[(r.service, r.destination.namespace) := r.destination] else workloads,
              rows[..i + 1])
  {
    hide LastNamed, Names, Usable;
    var r := rows[i];
    var name := (r.service, r.destination.namespace);
    var after := if r.service != "" then workloads[name := r.destination] else workloads;
    forall s
      ensures s in after <==> LastNamed(rows[..i + 1], s).Some?
      ensures s in after ==> LastNamed(rows[..i + 1], s) == Some(after[s])
    {
      NextNamed(rows, i, s);
      NamesOnly(r, s);
      assert s in workloads <==> LastNamed(rows[..i], s).Some?;
    }
  }

  lemma NamesOnly(r: Row, name: (string, string))
    requires Usable(r)
    ensures Names(r, name) <==> r.service != "" && name == (r.service, r.destination.namespace)
  {
  }

  method BuildServiceGraph(rows: seq<Row>) returns (g: Graph)
    ensures Represents(g, rows)
  {
    hide AdjacencyOf, WorkloadsOf;
    var adjacency: map<ServiceKey, seq<ServiceKey>> := map[];
    var workloads: map<(string, string), ServiceKey> := map[];
    NoRows();
    assert rows[..0] == [];
    for i := 0 to |rows|
      invariant Represents(Graph(adjacency, workloads), rows[..i])
    {
      var r := rows[i];
      if !Usable(r) {
        SkipsRow(Graph(adjacency, workloads), rows, i);
        continue;
      }
      AddsEdge(adjacency, rows, i);
      NamesWorkload(workloads, rows, i);
      adjacency := adjacency[r.source := (if r.source in adjacency then adjacency[r.source] else []) + [r.destination]];
      if r.service != "" { workloads := workloads[(r.service, r.destination.namespace) := r.destination]; }
    }
    assert rows[..|rows|] == rows;
    g := Graph(adjacency, workloads);
  }

  lemma NoRows()
    ensures Represents(Graph(map[], map[]), [])
  {
  }

  // ── Reachability ──

  predicate HasEdge(adjacency: map<ServiceKey, seq<ServiceKey>>, a: ServiceKey, b: ServiceKey) {
    a in adjacency && b in adjacency[a]
  }

  /** A walk along edges, from its first node to its last. */
  predicate Walk(adjacency: map<ServiceKey, seq<ServiceKey>>, path: seq<ServiceKey>) {
    path != [] && forall i :: 0 <= i < |path| - 1 ==> HasEdge(adjacency, path[i], path[i + 1])
  }

  /** The reflexive-transitive closure of the edges. */
  ghost predicate Reaches(adjacency: map<ServiceKey, seq<ServiceKey>>, a: ServiceKey, b: ServiceKey) {
    exists path :: Walk(adjacency, path) && path[0] == a && path[|path| - 1] == b
  }

  lemma ReachesSelf(adjacency: map<ServiceKey, seq<ServiceKey>>, a: ServiceKey)
    ensures Reaches(adjacency, a, a)
  {
    assert Walk(adjacency, [a]);
  }

  lemma ReachesNext(adjacency: map<ServiceKey, seq<ServiceKey>>, a: ServiceKey, b: ServiceKey, c: ServiceKey)
    requires Reaches(adjacency, a, b) && HasEdge(adjacency, b, c)
    ensures Reaches(adjacency, a, c)
  {
    var path :| Walk(adjacency, path) && path[0] == a && path[|path| - 1] == b;
    var longer := path + [c];
    assert Walk(adjacency, longer);
    assert longer[0] == a && longer[|longer| - 1] == c;
  }

  /** A set that contains the start and is closed under edges contains everything reachable. */
  lemma {:induction false} ClosedContains(
    adjacency: map<ServiceKey, seq<ServiceKey>>, closed: set<ServiceKey>, path: seq<ServiceKey>)
    requires Walk(adjacency, path) && path[0] in closed
    requires forall a, b :: a in closed && HasEdge(adjacency, a, b) ==> b in closed
    ensures path[|path| - 1] in closed
  {
    if |path| > 1 {
      assert HasEdge(adjacency, path[0], path[1]);
      var rest := path[1..];
      forall i | 0 <= i < |rest| - 1
        ensures HasEdge(adjacency, rest[i], rest[i + 1])
      {
        assert HasEdge(adjacency, path[i + 1], path[i + 1 + 1]);
      }
      ClosedContains(adjacency, closed, rest);
    }
  }

  /** Every node the search can ever see. */
  function Universe(adjacency: map<ServiceKey, seq<ServiceKey>>, start: ServiceKey): set<ServiceKey> {
    {start} + set k, n | k in adjacency && n in adjacency[k] :: n
  }

  predicate NoRepeats(s: seq<ServiceKey>) {
    forall i, j :: 0 <= i < j < |s| ==> s[i] != s[j]
  }

  /** The search has seen only reachable nodes, and each of them entered the queue exactly once. */
  ghost predicate Seen(adjacency: map<ServiceKey, seq<ServiceKey>>, start: ServiceKey,
                       visited: set<ServiceKey>, enqueued: seq<ServiceKey>) {
    && NoRepeats(enqueued) && (forall n :: n in enqueued <==> n in visited)
    && visited <= Universe(adjacency, start)
    && forall n :: n in visited ==> Reaches(adjacency, start, n)
  }

  lemma SeenGrows(adjacency: map<ServiceKey, seq<ServiceKey>>, start: ServiceKey, visited: set<ServiceKey>,
                  enqueued: seq<ServiceKey>, node: ServiceKey, neighbor: ServiceKey)
    requires Seen(adjacency, start, visited, enqueued) && node in visited && neighbor !in visited
    requires HasEdge(adjacency, node, neighbor)
    ensures Seen(adjacency, start, visited + {neighbor}, enqueued + [neighbor])
  {
    hide Reaches;
    ReachesNext(adjacency, start, node, neighbor);
    assert neighbor !in enqueued;
  }

  /** Breadth-first search; `enqueued` records everything that ever enters the queue, in order. */
  method ReachableFrom(adjacency: map<ServiceKey, seq<ServiceKey>>, start: ServiceKey)
    returns (visited: set<ServiceKey>, ghost enqueued: seq<ServiceKey>)
    ensures forall n :: n in visited <==> Reaches(adjacency, start, n)
    ensures NoRepeats(enqueued) && forall n :: n in enqueued <==> n in visited
  {
    hide Reaches;
    visited := {start};
    var queue := [start];
    enqueued := [start];
    ghost var popped := 0;
    ReachesSelf(adjacency, start);
    while queue != []
      invariant popped <= |enqueued| && queue == enqueued[popped..]
      invariant Seen(adjacency, start, visited, enqueued) && start in visited
      invariant forall i, b :: 0 <= i < popped && HasEdge(adjacency, enqueued[i], b) ==> b in visited
      decreases Universe(adjacency, start) - visited, |queue|
    {
      var node := queue[0];
      queue := queue[1..];
      assert node == enqueued[popped] && node in visited;
      popped := popped + 1;
      if node in adjacency {
        visited, queue, enqueued := Visit(adjacency, start, node, visited, queue, enqueued, popped);
      }
    }
    forall n | Reaches(adjacency, start, n)
      ensures n in visited
    {
      forall a, b | a in visited && HasEdge(adjacency, a, b)
        ensures b in visited
      {
        var i :| 0 <= i < |enqueued| && enqueued[i] == a;
      }
      ClosedContainsReachable(adjacency, visited, start, n);
    }
  }

  lemma ClosedContainsReachable(adjacency: map<ServiceKey, seq<ServiceKey>>, closed: set<ServiceKey>, a: ServiceKey, b: ServiceKey)
    requires Reaches(adjacency, a, b) && a in closed
    requires forall x, y :: x in closed && HasEdge(adjacency, x, y) ==> y in closed
    ensures b in closed
  {
    var path :| Walk(adjacency, path) && path[0] == a && path[|path| - 1] == b;
    ClosedContains(adjacency, closed, path);
  }

  /** The inner loop: mark and enqueue the neighbours of `node` not seen before. */
  method Visit(adjacency: map<ServiceKey, seq<ServiceKey>>, start: ServiceKey, node: ServiceKey, visited0: set<ServiceKey>,
               queue0: seq<ServiceKey>, ghost enqueued0: seq<ServiceKey>, ghost popped: nat)
    returns (visited: set<ServiceKey>, queue: seq<ServiceKey>, ghost enqueued: seq<ServiceKey>)
    requires node in adjacency && node in visited0 && Seen(adjacency, start, visited0, enqueued0)
    requires popped <= |enqueued0| && queue0 == enqueued0[popped..]
    ensures Seen(adjacency, start, visited, enqueued)
    ensures enqueued0 <= enqueued && queue == enqueued[popped..]
    ensures visited0 <= visited && forall b :: b in adjacency[node] ==> b in visited
    ensures visited == visited0 ==> queue == queue0
  {
    hide Seen;
    visited, queue, enqueued := visited0, queue0, enqueued0;
    var neighbors := adjacency[node];
    for i := 0 to |neighbors|
      invariant Seen(adjacency, start, visited, enqueued)
      invariant enqueued0 <= enqueued && queue == enqueued[popped..]
      invariant visited0 <= visited && forall j :: 0 <= j < i ==> neighbors[j] in visited
      invariant visited == visited0 ==> queue == queue0
    {
      var neighbor := neighbors[i];
      if neighbor !in visited {
        SeenGrows(adjacency, start, visited, enqueued, node, neighbor);
        visited := visited + {neighbor};
        queue := queue + [neighbor];
        enqueued := enqueued + [neighbor];
      }
    }
  }

  // ── Rows and chains ──

  /** Some row leads from `a` to `b`, both with a workload; whether it names a service does not matter. */
  predicate Linked(rows: seq<Row>, a: ServiceKey, b: ServiceKey) {
    && a.workload != "" && b.workload != ""
    && exists i :: 0 <= i < |rows| && rows[i].source == a && rows[i].destination == b
  }

  /** A chain of usable rows. */
  predicate Chain(rows: seq<Row>, path: seq<ServiceKey>) {
    path != [] && forall i :: 0 <= i < |path| - 1 ==> Linked(rows, path[i], path[i + 1])
  }

  ghost predicate Leads(rows: seq<Row>, a: ServiceKey, b: ServiceKey) {
    exists path :: Chain(rows, path) && path[0] == a && path[|path| - 1] == b
  }

  lemma {:induction false} TargetsAreLinked(rows: seq<Row>, a: ServiceKey, b: ServiceKey)
    ensures b in Targets(rows, a) <==> Linked(rows, a, b)
  {
    if rows != [] {
      var n := |rows| - 1;
      var front := rows[..n];
      TargetsAreLinked(front, a, b);
      if Linked(front, a, b) {
        var i :| 0 <= i < |front| && front[i].source == a && front[i].destination == b;
        assert rows[i] == front[i];
      }
      if Linked(rows, a, b) && !(rows[n].source == a && rows[n].destination == b) {
        var i :| 0 <= i < |rows| && rows[i].source == a && rows[i].destination == b;
        assert front[i] == rows[i];
      }
    }
  }

  /** In the graph built from the rows, being reachable is being led to by a chain of rows. */
  lemma ReachesIffLeads(g: Graph, rows: seq<Row>, a: ServiceKey, b: ServiceKey)
    requires Represents(g, rows)
    ensures Reaches(g.adjacency, a, b) <==> Leads(rows, a, b)
  {
    forall x, y
      ensures HasEdge(g.adjacency, x, y) <==> Linked(rows, x, y)
    {
      TargetsAreLinked(rows, x, y);
    }
    forall path
      ensures Walk(g.adjacency, path) <==> Chain(rows, path)
    {
    }
  }

  /** More rows lead to more; so order and repetition of rows do not matter. */
  lemma LeadsMonotone(few: seq<Row>, many: seq<Row>, a: ServiceKey, b: ServiceKey)
    requires forall r :: r in few ==> r in many
    requires Leads(few, a, b)
    ensures Leads(many, a, b)
  {
    var path :| Chain(few, path) && path[0] == a && path[|path| - 1] == b;
    forall i | 0 <= i < |path| - 1
      ensures Linked(many, path[i], path[i + 1])
    {
      assert Linked(few, path[i], path[i + 1]);
      var j :| 0 <= j < |few| && few[j].source == path[i] && few[j].destination == path[i + 1];
      assert few[j] in many;
      var m :| 0 <= m < |many| && many[m] == few[j];
    }
    assert Chain(many, path);
  }

  lemma LeadsByRowSet(rows: seq<Row>, rows': seq<Row>, a: ServiceKey, b: ServiceKey)
    requires forall r :: r in rows <==> r in rows'
    ensures Leads(rows, a, b) <==> Leads(rows', a, b)
  {
    if Leads(rows, a, b) { LeadsMonotone(rows, rows', a, b); }
    if Leads(rows', a, b) { LeadsMonotone(rows', rows, a, b); }
  }

  // ── The target ──

  /** The workload behind a service name, or the name itself when no row mentions it. */
  function ResolveWorkload(g: Graph, service: string, namespace: string): ServiceKey {
    if (service, namespace) in g.workloads then g.workloads[(service, namespace)] else ServiceKey(service, namespace)
  }

  function TargetOf(rows: seq<Row>, service: string, namespace: string): ServiceKey {
    LastNamed(rows, (service, namespace)).GetOr(ServiceKey(service, namespace))
  }

  /** The rows that name the service all agree on its workload. */
  predicate Agree(rows: seq<Row>, name: (string, string)) {
    forall i, j :: 0 <= i < |rows| && 0 <= j < |rows| && Names(rows[i], name) && Names(rows[j], name) ==>
      rows[i].destination == rows[j].destination
  }

  lemma {:induction false} LastNamedIsNamed(rows: seq<Row>, name: (string, string))
    ensures LastNamed(rows, name).Some? <==> exists i :: 0 <= i < |rows| && Names(rows[i], name)
    ensures LastNamed(rows, name).Some? ==>
              exists i :: 0 <= i < |rows| && Names(rows[i], name) && rows[i].destination == LastNamed(rows, name).value
  {
    hide Names;
    if rows != [] {
      var n := |rows| - 1;
      var front := rows[..n];
      if Names(rows[n], name) {
        assert Names(rows[n], name) && rows[n].destination == LastNamed(rows, name).value;
      } else {
        LastNamedIsNamed(front, name);
        if i :| 0 <= i < |rows| && Names(rows[i], name) { assert front[i] == rows[i]; }
        if LastNamed(front, name).Some? {
          var i :| 0 <= i < |front| && Names(front[i], name) && front[i].destination == LastNamed(front, name).value;
          assert rows[i] == front[i];
        }
      }
    }
  }

  /** It is the last such row that counts. */
  lemma {:induction false} LastNamedIsLast(rows: seq<Row>, name: (string, string), i: nat)
    requires i < |rows| && Names(rows[i], name) && forall j :: i < j < |rows| ==> !Names(rows[j], name)
    ensures LastNamed(rows, name) == Some(rows[i].destination)
  {
    hide Names;
    if i < |rows| - 1 {
      var front := rows[..|rows| - 1];
      assert front[i] == rows[i] && forall j :: i < j < |front| ==> front[j] == rows[j];
      LastNamedIsLast(front, name, i);
    }
  }

  /** `rows'` are the same rows in some order. */
  predicate Reordered(rows: seq<Row>, rows': seq<Row>) {
    multiset(rows) == multiset(rows')
  }

  lemma ReorderedMembers(rows: seq<Row>, rows': seq<Row>, r: Row)
    requires Reordered(rows, rows')
    ensures r in rows <==> r in rows'
  {
    assert r in rows <==> r in multiset(rows);
    assert r in rows' <==> r in multiset(rows');
  }

  /** The resolved workload is independent of row order exactly when the rows naming the service agree on it. */
  lemma TargetStableIffAgree(rows: seq<Row>, name: (string, string))
    ensures Agree(rows, name) <==> forall rows' :: Reordered(rows, rows') ==> LastNamed(rows', name) == LastNamed(rows, name)
  {
    hide Names;
    LastNamedIsNamed(rows, name);
    if Agree(rows, name) {
      forall rows' | Reordered(rows, rows')
        ensures LastNamed(rows', name) == LastNamed(rows, name)
      {
        LastNamedIsNamed(rows', name);
        forall r { ReorderedMembers(rows, rows', r); }
        AgreeingSame(rows, rows', name);
      }
    } else {
      var i, j :| 0 <= i < |rows| && 0 <= j < |rows| && Names(rows[i], name) && Names(rows[j], name)
                  && rows[i].destination != rows[j].destination;
      var k := if LastNamed(rows, name).value == rows[i].destination then j else i;
      var moved := MovedLast(rows, k);
      assert Reordered(rows, moved) && LastNamed(moved, name) != LastNamed(rows, name);
    }
  }

  function MovedLast(rows: seq<Row>, k: nat): (moved: seq<Row>)
    requires k < |rows|
    ensures Reordered(rows, moved) && moved[|rows| - 1] == rows[k]
  {
    assert rows == rows[..k] + [rows[k]] + rows[k + 1..];
    rows[..k] + rows[k + 1..] + [rows[k]]
  }

  lemma AgreeingSame(rows: seq<Row>, rows': seq<Row>, name: (string, string))
    requires Agree(rows, name) && forall r :: r in rows <==> r in rows'
    ensures LastNamed(rows', name) == LastNamed(rows, name)
  {
    LastNamedIsNamed(rows, name);
    LastNamedIsNamed(rows', name);
    if LastNamed(rows', name).Some? {
      var j :| 0 <= j < |rows'| && Names(rows'[j], name) && rows'[j].destination == LastNamed(rows', name).value;
      assert rows'[j] in rows;
      var i :| 0 <= i < |rows| && rows[i] == rows'[j];
      assert LastNamed(rows, name).Some?;
    }
    if LastNamed(rows, name).Some? {
      var i :| 0 <= i < |rows| && Names(rows[i], name) && rows[i].destination == LastNamed(rows, name).value;
      assert rows[i] in rows';
      var j :| 0 <= j < |rows'| && rows'[j] == rows[i];
      assert LastNamed(rows', name).Some?;
    }
  }
}
