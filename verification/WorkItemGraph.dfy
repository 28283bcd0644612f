/** The work-item checks of a packet: distinct identities, known dependencies, and a dependency
    graph without cycles, found by depth-first search. */
module WorkItemGraph {
  import opened Wrappers

  datatype WorkItem = WorkItem(id: string, codename: string, canonicalSlug: string, dependencies: seq<string>)

  datatype Error =
    | DuplicateWorkItem(id: string)
    | DuplicateCampaign
    | UnknownDependency(dependency: string)
    | DependencyCycle

  // ---- Graphs ----

  type Graph = map<string, seq<string>>

  /** Every dependency is itself a node. */
  ghost predicate Closed(g: Graph) {
    forall v, k | v in g && 0 <= k < |g[v]| :: g[v][k] in g
  }

  /** A step of a path: a node of the graph, reached from its predecessor. */
  predicate StepOf(g: Graph, p: seq<string>, k: nat)
    requires k < |p|
  {
    p[k] in g && (k > 0 ==> p[k - 1] in g && p[k] in g[p[k - 1]])
  }

  ghost predicate Path(g: Graph, p: seq<string>) {
    forall k: nat | k < |p| :: StepOf(g, p, k)
  }

  ghost predicate Cycle(g: Graph, p: seq<string>) {
    Path(g, p) && |p| >= 2 && p[0] == p[|p| - 1]
  }

  ghost predicate HasCycle(g: Graph) {
    exists p: seq<string> :: Cycle(g, p)
  }

  /** A node of the graph all of whose dependencies come before it. */
  ghost predicate Placed(g: Graph, order: seq<string>, i: nat)
    requires i < |order|
  {
    order[i] in g && forall d | d in g[order[i]] :: d in order[..i]
  }

  /** A topological order: every dependency of a node comes before it. */
  ghost predicate Topological(g: Graph, order: seq<string>) {
    && (forall i: nat | i < |order| :: Placed(g, order, i))
    && (forall i, j | 0 <= i < j < |order| :: order[i] != order[j])
  }

  /** Along a path, the place in a topological order goes down. */
  lemma {:induction false} PathDescends(g: Graph, order: seq<string>, p: seq<string>, i: nat) returns (j: nat)
    requires Topological(g, order) && Path(g, p) && p != [] && i < |order| && order[i] == p[0]
    ensures j < |order| && order[j] == p[|p| - 1] && j <= i && (|p| > 1 ==> j < i)
    decreases |p|
  {
    if |p| == 1 {
      j := i;
    } else {
      assert StepOf(g, p, 1) && Placed(g, order, i);
      var m :| 0 <= m < i && order[..i][m] == p[1];
      TailIsPath(g, p);
      j := PathDescends(g, order, p[1..], m);
    }
  }

  lemma TailIsPath(g: Graph, p: seq<string>)
    requires Path(g, p) && p != []
    ensures Path(g, p[1..])
  {
    forall k: nat | k < |p| - 1
      ensures StepOf(g, p[1..], k)
    {
      assert StepOf(g, p, k + 1);
    }
  }

  lemma ExtendsPath(g: Graph, p: seq<string>, v: string)
    requires Path(g, p) && v in g && (p != [] ==> p[|p| - 1] in g && v in g[p[|p| - 1]])
    ensures Path(g, p + [v])
  {
    forall k: nat | k < |p| + 1
      ensures StepOf(g, p + [v], k)
    {
      assert k < |p| ==> StepOf(g, p, k);
      assert k > 0 ==> StepOf(g, p, k - 1);
    }
  }

  lemma {:induction false} DropsPath(g: Graph, p: seq<string>, j: nat)
    requires Path(g, p) && j <= |p|
    ensures Path(g, p[j..])
  {
    if j > 0 {
      DropsPath(g, p, j - 1);
      TailIsPath(g, p[j - 1..]);
      assert p[j - 1..][1..] == p[j..];
    } else {
      assert p[j..] == p;
    }
  }

  /** A graph with a topological order of all its nodes has no cycle. */
  lemma TopologicalMeansAcyclic(g: Graph, order: seq<string>)
    requires Topological(g, order) && forall v | v in g :: v in order
    ensures !HasCycle(g)
  {
    if p: seq<string> :| Cycle(g, p) {
      assert StepOf(g, p, 0);
      assert p[0] in order;
      var i :| 0 <= i < |order| && order[i] == p[0];
      var j := PathDescends(g, order, p, i);
      assert false;
    }
  }

  // ---- The search ----

  class Search {
    const graph: Graph
    var visiting: set<string>
    var visited: set<string>
    ghost var finished: seq<string>

    /** The visited nodes in the order they were finished are a topological order. */
    ghost predicate Valid()
      reads this
    {
      && Closed(graph)
      && visiting !! visited && visiting <= graph.Keys
      && Topological(graph, finished)
      && (forall v :: v in visited <==> v in finished)
    }

    constructor (graph: Graph)
      requires Closed(graph)
      ensures Valid() && this.graph == graph && visiting == {} && finished == []
    {
      this.graph := graph;
      visiting, visited, finished := {}, {}, [];
    }

    /** The nodes being visited are the path that leads here. */
    ghost predicate On(path: seq<string>, next: string)
      reads this
    {
      && Path(graph, path)
      && (forall v :: v in visiting <==> v in path)
      && (path != [] ==> path[|path| - 1] in graph && next in graph[path[|path| - 1]])
    }

    /** `visit`: false is the cycle error. */
    method Visit(id: string, ghost path: seq<string>) returns (ok: bool)
      requires Valid() && id in graph && On(path, id)
      modifies this
      ensures ok ==> Valid() && visiting == old(visiting) && id in visited && old(finished) <= finished
      ensures !ok ==> HasCycle(graph)
      decreases |graph.Keys - visiting - visited|, 0
    {
      hide Topological, Path, HasCycle;
      if id in visited {
        return true;
      }
      if id in visiting {
        ClosesCycle(graph, path, id);
        return false;
      }
      Shrinks(graph.Keys, visiting, visited, id);
      ExtendsPath(graph, path, id);
      visiting := visiting + {id};
      ok := VisitDependencies(id, path);
      if !ok {
        return;
      }
      Finish(id);
    }

    method Finish(id: string)
      requires Valid() && id in visiting
      requires forall d | d in graph[id] :: d in finished
      modifies this
      ensures Valid() && visiting == old(visiting) - {id}
      ensures finished == old(finished) + [id] && id in visited
    {
      Finishes(graph, finished, id);
      visiting := visiting - {id};
      visited := visited + {id};
      finished := finished + [id];
    }

    /** The loop of `visit` over the dependencies of a node being visited. */
    method VisitDependencies(id: string, ghost path: seq<string>) returns (ok: bool)
      requires Valid() && id in visiting && Path(graph, path + [id])
      requires forall v :: v in visiting <==> v in path + [id]
      modifies this
      ensures ok ==> Valid() && visiting == old(visiting) && old(finished) <= finished
      ensures ok ==> forall d | d in graph[id] :: d in finished
      ensures !ok ==> HasCycle(graph)
      decreases |graph.Keys - visiting - visited|, 1
    {
      hide Topological, Path;
      var dependencies := graph[id];
      for k := 0 to |dependencies|
        invariant Valid() && visiting == old(visiting) && old(finished) <= finished
        invariant forall j | 0 <= j < k :: dependencies[j] in finished
      {
        FinishedGrows();
        Subset(graph.Keys - visiting - visited, graph.Keys - old(visiting) - old(visited));
        assert graph[id][k] in graph;
        ghost var before := finished;
        ok := Visit(dependencies[k], path + [id]);
        if !ok {
          return;
        }
        KeepsFinished(before, finished, dependencies[..k]);
      }
      return true;
    }

    /** Visited nodes are the finished ones, so they too only grow. */
    twostate lemma FinishedGrows()
      requires old(Valid()) && Valid() && old(finished) <= finished
      ensures old(visited) <= visited
    {
    }

    /** The loop over all nodes. */
    method VisitAll(order: seq<string>) returns (ok: bool)
      requires Valid() && visiting == {}
      requires forall v :: v in order <==> v in graph
      modifies this
      ensures ok <==> !HasCycle(graph)
      ensures ok ==> Topological(graph, finished) && forall v | v in graph :: v in finished
    {
      for k := 0 to |order|
        invariant Valid() && visiting == {}
        invariant forall j | 0 <= j < k :: order[j] in finished
      {
        assert order[k] in graph;
        ok := Visit(order[k], []);
        if !ok {
          return;
        }
      }
      TopologicalMeansAcyclic(graph, finished);
      return true;
    }
  }

  /** Reaching a node that is still being visited closes a cycle. */
  lemma ClosesCycle(g: Graph, path: seq<string>, id: string)
    requires Path(g, path) && id in path && id in g
    requires path[|path| - 1] in g && id in g[path[|path| - 1]]
    ensures HasCycle(g)
  {
    var j: nat :| j < |path| && path[j] == id;
    DropsPath(g, path, j);
    ExtendsPath(g, path[j..], id);
    assert Cycle(g, path[j..] + [id]);
  }

  lemma Finishes(g: Graph, order: seq<string>, id: string)
    requires Topological(g, order) && id in g && id !in order
    requires forall d | d in g[id] :: d in order
    ensures Topological(g, order + [id])
  {
    var next := order + [id];
    forall i: nat | i < |next|
      ensures Placed(g, next, i)
    {
      assert next[..i] == order[..i];
      if i == |order| {
        assert order[..i] == order;
      } else {
        assert Placed(g, order, i);
      }
    }
  }

  lemma KeepsFinished(before: seq<string>, after: seq<string>, some: seq<string>)
    requires before <= after && forall j | 0 <= j < |some| :: some[j] in before
    ensures forall j | 0 <= j < |some| :: some[j] in after
  {
  }

  /** Marking a node shrinks what is left to visit. */
  lemma Shrinks(all: set<string>, visiting: set<string>, visited: set<string>, id: string)
    requires id in all && id !in visiting && id !in visited
    ensures |all - (visiting + {id}) - visited| < |all - visiting - visited|
  {
    assert all - (visiting + {id}) - visited == (all - visiting - visited) - {id};
  }

  lemma {:induction false} Subset(a: set<string>, b: set<string>)
    requires a <= b
    ensures |a| <= |b|
    decreases |a|
  {
    if a != {} {
      var x :| x in a;
      Subset(a - {x}, b - {x});
    }
  }

  // ---- The checks before the search ----

  /** Whether an item repeats an identity of an earlier one. */
  function ItemFault(items: seq<WorkItem>, i: nat): Option<Error>
    requires i < |items|
  {
    if exists j :: 0 <= j < i && items[j].id == items[i].id then Some(DuplicateWorkItem(items[i].id))
    else if exists j :: 0 <= j < i && Campaign(items[j]) == Campaign(items[i]) then Some(DuplicateCampaign)
    else None
  }

  function Campaign(item: WorkItem): (string, string) { (item.codename, item.canonicalSlug) }

  function FirstItemFault(items: seq<WorkItem>, n: nat): Option<Error>
    requires n <= |items|
  {
    if n == 0 then None
    else
      var earlier := FirstItemFault(items, n - 1);
      if earlier.Some? then earlier else ItemFault(items, n - 1)
  }

  predicate Known(items: seq<WorkItem>, id: string) {
    exists j :: 0 <= j < |items| && items[j].id == id
  }

  /** The first dependency that names no item. */
  function FirstUnknown(items: seq<WorkItem>, dependencies: seq<string>): Option<Error> {
    if dependencies == [] then None
    else
      var init := dependencies[..|dependencies| - 1];
      var earlier := FirstUnknown(items, init);
      if earlier.Some? then earlier
      else if Known(items, dependencies[|init|]) then None
      else Some(UnknownDependency(dependencies[|init|]))
  }

  function AllDependencies(items: seq<WorkItem>): seq<string> {
    if items == [] then [] else AllDependencies(items[..|items| - 1]) + items[|items| - 1].dependencies
  }

  function GraphOf(items: seq<WorkItem>): Graph {
    if items == [] then map[] else GraphOf(items[..|items| - 1])[items[|items| - 1].id := items[|items| - 1].dependencies]
  }

  /** The error `_validate_nightshift_semantics` raises for the work items, if any. */
  ghost function Fault(items: seq<WorkItem>): Option<Error> {
    var item := FirstItemFault(items, |items|);
    if item.Some? then item
    else
      var unknown := FirstUnknown(items, AllDependencies(items));
      if unknown.Some? then unknown
      else if HasCycle(GraphOf(items)) then Some(DependencyCycle)
      else None
  }

  ghost predicate DistinctItems(items: seq<WorkItem>) {
    forall i, j | 0 <= i < j < |items| ::
      && items[i].id != items[j].id
      && (items[i].codename != items[j].codename || items[i].canonicalSlug != items[j].canonicalSlug)
  }

  lemma {:induction false} FaultlessItems(items: seq<WorkItem>, n: nat)
    requires n <= |items|
    ensures FirstItemFault(items, n).None? <==> DistinctItems(items[..n])
  {
    if n > 0 {
      FaultlessItems(items, n - 1);
      assert forall i | 0 <= i < n - 1 :: items[..n][i] == items[..n - 1][i];
      assert items[..n][n - 1] == items[n - 1];
      if DistinctItems(items[..n]) {
        assert forall j | 0 <= j < n - 1 :: items[..n][j].id != items[..n][n - 1].id;
      }
    }
  }

  lemma {:induction false} KnownDependencies(items: seq<WorkItem>, dependencies: seq<string>)
    ensures FirstUnknown(items, dependencies).None? <==> forall d | d in dependencies :: Known(items, d)
  {
    if dependencies != [] {
      var init := dependencies[..|dependencies| - 1];
      KnownDependencies(items, init);
      assert dependencies == init + [dependencies[|init|]];
    }
  }

  lemma {:induction false} GraphKeys(items: seq<WorkItem>)
    ensures forall id :: id in GraphOf(items) <==> Known(items, id)
    ensures forall id, d | id in GraphOf(items) && d in GraphOf(items)[id] :: d in AllDependencies(items)
  {
    if items != [] {
      var init, last := items[..|items| - 1], items[|items| - 1];
      GraphKeys(init);
      forall id
        ensures id in GraphOf(items) <==> Known(items, id)
      {
        assert Known(init, id) ==> Known(items, id) by {
          if Known(init, id) {
            var j :| 0 <= j < |init| && init[j].id == id;
            assert items[j].id == id;
          }
        }
        if Known(items, id) && id != last.id {
          var j :| 0 <= j < |items| && items[j].id == id;
          assert init[j].id == id;
        }
      }
    }
  }

  lemma {:induction false} GraphDependencies(items: seq<WorkItem>, i: nat)
    requires DistinctItems(items) && i < |items|
    ensures items[i].id in GraphOf(items) && GraphOf(items)[items[i].id] == items[i].dependencies
    ensures forall d | d in items[i].dependencies :: d in AllDependencies(items)
  {
    var init := items[..|items| - 1];
    if i < |init| {
      GraphDependencies(init, i);
      assert items[i].id != items[|init|].id;
    }
  }

  /** A packet's work items pass exactly when their identities are distinct, every dependency
      names an item, and no item depends on itself through any chain. */
  lemma FaultlessMeans(items: seq<WorkItem>)
    ensures Fault(items).None? <==>
      && DistinctItems(items)
      && (forall i, d | 0 <= i < |items| && d in items[i].dependencies :: Known(items, d))
      && !HasCycle(GraphOf(items))
  {
    FaultlessItems(items, |items|);
    assert items[..|items|] == items;
    KnownDependencies(items, AllDependencies(items));
    DependenciesCollected(items);
  }

  /** The item repeats an identity, or else a campaign, of an earlier one. */
  predicate RepeatsId(items: seq<WorkItem>, i: nat)
    requires i < |items|
  {
    exists j :: 0 <= j < i && items[j].id == items[i].id
  }

  predicate RepeatsCampaign(items: seq<WorkItem>, i: nat)
    requires i < |items|
  {
    exists j :: 0 <= j < i && items[j].codename == items[i].codename && items[j].canonicalSlug == items[i].canonicalSlug
  }

  /** Which error is raised: that of the first item that repeats an identity or a campaign, the former
      before the latter; then an unknown dependency; then the cycle. */
  lemma FaultExactly(items: seq<WorkItem>)
    ensures forall n: nat | n < |items| && DistinctItems(items[..n]) ::
      && (RepeatsId(items, n) ==> Fault(items) == Some(DuplicateWorkItem(items[n].id)))
      && (!RepeatsId(items, n) && RepeatsCampaign(items, n) ==> Fault(items) == Some(DuplicateCampaign))
    ensures DistinctItems(items) ==>
      && (Fault(items).Some? && Fault(items).value.UnknownDependency? <==>
            exists i, d :: 0 <= i < |items| && d in items[i].dependencies && !Known(items, d))
      && (Fault(items) == Some(DependencyCycle) <==>
            && (forall i, d | 0 <= i < |items| && d in items[i].dependencies :: Known(items, d))
            && HasCycle(GraphOf(items)))
  {
    hide HasCycle, GraphOf;
    forall n: nat | n < |items| && DistinctItems(items[..n])
      ensures RepeatsId(items, n) ==> Fault(items) == Some(DuplicateWorkItem(items[n].id))
      ensures !RepeatsId(items, n) && RepeatsCampaign(items, n) ==> Fault(items) == Some(DuplicateCampaign)
    {
      FaultlessItems(items, n);
      if FirstItemFault(items, n + 1).Some? {
        FaultStays(items, n + 1);
      }
    }
    FaultlessItems(items, |items|);
    assert items[..|items|] == items;
    KnownDependencies(items, AllDependencies(items));
    DependenciesCollected(items);
    UnknownIsNamed(items, AllDependencies(items));
  }

  lemma {:induction false} UnknownIsNamed(items: seq<WorkItem>, dependencies: seq<string>)
    ensures var unknown := FirstUnknown(items, dependencies);
      unknown.Some? ==>
        unknown.value.UnknownDependency? && unknown.value.dependency in dependencies && !Known(items, unknown.value.dependency)
  {
    if dependencies != [] {
      UnknownIsNamed(items, dependencies[..|dependencies| - 1]);
    }
  }

  lemma {:induction false} DependenciesCollected(items: seq<WorkItem>)
    ensures forall d :: d in AllDependencies(items) <==> exists i :: 0 <= i < |items| && d in items[i].dependencies
  {
    if items != [] {
      var init, last := items[..|items| - 1], items[|items| - 1];
      DependenciesCollected(init);
      forall d
        ensures d in AllDependencies(items) <==> exists i :: 0 <= i < |items| && d in items[i].dependencies
      {
        if d in AllDependencies(init) {
          var i :| 0 <= i < |init| && d in init[i].dependencies;
          assert d in items[i].dependencies;
        }
        if i :| 0 <= i < |items| && d in items[i].dependencies {
          assert i < |init| ==> d in init[i].dependencies;
        }
      }
    }
  }

  /** The first loop: identities, and the graph they index. */
  method CollectItems(items: seq<WorkItem>) returns (r: Result<Graph, Error>)
    ensures match FirstItemFault(items, |items|)
      case Some(why) => r == Err(why)
      case None => r == Ok(GraphOf(items))
  {
    var itemIds: set<string>, campaignIds: set<(string, string)>, graph: Graph := {}, {}, map[];
    for i := 0 to |items|
      invariant FirstItemFault(items, i).None?
      invariant graph == GraphOf(items[..i])
      invariant forall id :: id in itemIds <==> exists j :: 0 <= j < i && items[j].id == id
      invariant forall c :: c in campaignIds <==> exists j :: 0 <= j < i && Campaign(items[j]) == c
    {
      var item := items[i];
      assert items[..i + 1][..i] == items[..i];
      if item.id in itemIds {
        FaultStays(items, i + 1);
        return Err(DuplicateWorkItem(item.id));
      }
      if Campaign(item) in campaignIds {
        FaultStays(items, i + 1);
        return Err(DuplicateCampaign);
      }
      itemIds := itemIds + {item.id};
      campaignIds := campaignIds + {Campaign(item)};
      graph := graph[item.id := item.dependencies];
    }
    assert items[..|items|] == items;
    return Ok(graph);
  }

  lemma {:induction false} FaultStays(items: seq<WorkItem>, n: nat)
    requires n <= |items| && FirstItemFault(items, n).Some?
    ensures FirstItemFault(items, |items|) == FirstItemFault(items, n)
    decreases |items| - n
  {
    if n < |items| {
      FaultStays(items, n + 1);
    }
  }

  lemma {:induction false} UnknownStays(items: seq<WorkItem>, a: seq<string>, b: seq<string>)
    requires FirstUnknown(items, a).Some?
    ensures FirstUnknown(items, a + b) == FirstUnknown(items, a)
  {
    if b == [] {
      assert a + b == a;
    } else {
      UnknownStays(items, a, b[..|b| - 1]);
      assert (a + b)[..|a + b| - 1] == a + b[..|b| - 1];
    }
  }

  lemma {:induction false} DependenciesFrom(items: seq<WorkItem>, i: nat) returns (rest: seq<string>)
    requires i < |items|
    ensures AllDependencies(items) == AllDependencies(items[..i]) + items[i].dependencies + rest
  {
    var init := items[..|items| - 1];
    if i == |init| {
      rest := [];
    } else {
      var before := DependenciesFrom(init, i);
      rest := before + items[|init|].dependencies;
      assert init[..i] == items[..i];
    }
  }

  /** The inner loop: the dependencies of one item, after the ones already checked. */
  method CheckDependencies(
    ghost items: seq<WorkItem>, graph: Graph, dependencies: seq<string>, ghost before: seq<string>)
    returns (r: Option<Error>)
    requires forall id :: id in graph <==> Known(items, id)
    requires FirstUnknown(items, before).None?
    ensures r == FirstUnknown(items, before + dependencies)
  {
    assert before + dependencies[..0] == before;
    for k := 0 to |dependencies|
      invariant FirstUnknown(items, before + dependencies[..k]).None?
    {
      var d := dependencies[k];
      ghost var next := before + dependencies[..k + 1];
      assert next[..|next| - 1] == before + dependencies[..k];
      if d !in graph {
        UnknownStays(items, next, dependencies[k + 1..]);
        assert before + dependencies == next + dependencies[k + 1..];
        return Some(UnknownDependency(d));
      }
    }
    assert dependencies[..|dependencies|] == dependencies;
    return None;
  }

  /** The second loop, over the dependencies in packet order. */
  method CheckKnown(items: seq<WorkItem>, graph: Graph) returns (r: Option<Error>)
    requires forall id :: id in graph <==> Known(items, id)
    ensures r == FirstUnknown(items, AllDependencies(items))
  {
    for i := 0 to |items|
      invariant FirstUnknown(items, AllDependencies(items[..i])).None?
    {
      assert items[..i + 1][..i] == items[..i];
      r := CheckDependencies(items, graph, items[i].dependencies, AllDependencies(items[..i]));
      if r.Some? {
        ghost var rest := DependenciesFrom(items, i);
        UnknownStays(items, AllDependencies(items[..i]) + items[i].dependencies, rest);
        return;
      }
    }
    assert items[..|items|] == items;
    return None;
  }

  lemma {:induction false} KeysAreIds(items: seq<WorkItem>)
    ensures forall v :: v in Ids(items) <==> v in GraphOf(items)
  {
    if items != [] {
      KeysAreIds(items[..|items| - 1]);
    }
  }

  /** The keys of the graph in insertion order. */
  function Ids(items: seq<WorkItem>): seq<string> {
    if items == [] then [] else Ids(items[..|items| - 1]) + [items[|items| - 1].id]
  }

  /** The work-item part of `_validate_nightshift_semantics`: it raises exactly the first fault,
      and the cycle error exactly when the dependency graph has a cycle. */
  method ValidateWorkItems(items: seq<WorkItem>) returns (r: Result<(), Error>)
    ensures r == match Fault(items) case Some(why) => Err(why) case None => Ok(())
  {
    FaultlessMeans(items);
    var collected := CollectItems(items);
    if collected.Err? {
      return Err(collected.error);
    }
    var graph := collected.value;
    GraphKeys(items);
    var unknown := CheckKnown(items, graph);
    if unknown.Some? {
      return Err(unknown.value);
    }
    KnownDependencies(items, AllDependencies(items));
    KeysAreIds(items);
    var search := new Search(graph);
    var ok := search.VisitAll(Ids(items));
    return if ok then Ok(()) else Err(DependencyCycle);
  }
}
