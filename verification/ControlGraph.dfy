/**
 The graph algorithms of the control-graph analysis: Kahn's sort.
 */
module ControlGraph {
  import opened Ids
  import opened Graphs

  // ---------------------------------------------------------------- Kahn's sort

  // The edges into n that are not yet crossed off.
  ghost function Open(g: Graph, crossed: set<int>, n: Id): set<int> {
    set i | 0 <= i < |g.edges| && i !in crossed && g.edges[i].target == n
  }

  // The edges that leave a node of out, or leave id and are among the first k of the document.
  ghost function Crossed(g: Graph, out: seq<Id>, id: Id, k: int): set<int> {
    set i | 0 <= i < |g.edges| && (g.edges[i].source in out || (g.edges[i].source == id && i < k))
  }

  ghost predicate Counts(g: Graph, indegree: map<Id, int>, crossed: set<int>) {
    indegree.Keys == g.nodes && forall n :: n in g.nodes ==> indegree[n] == |Open(g, crossed, n)|
  }

  // queue is the sorted list of the nodes that are free but not yet listed; listed nodes are free.
  ghost predicate Frontier(g: Graph, indegree: map<Id, int>, result: seq<Id>, queue: seq<Id>) {
    && indegree.Keys == g.nodes
    && Ascending(queue)
    && (forall n :: n in result ==> n in g.nodes && indegree[n] == 0)
    && forall n :: n in queue <==> n in g.nodes && n !in result && indegree[n] == 0
  }

  // Every listed node comes after all its predecessors.
  ghost predicate PredecessorsFirst(g: Graph, result: seq<Id>) {
    forall k, i :: 0 <= k < |result| && 0 <= i < |g.edges| && g.edges[i].target == result[k] ==>
      g.edges[i].source in result[..k]
  }

  // n could be listed after prefix: it is new and all its predecessors are in it.
  ghost predicate FreeAfter(g: Graph, prefix: seq<Id>, n: Id) {
    && n in g.nodes && n !in prefix
    && forall i :: 0 <= i < |g.edges| && g.edges[i].target == n ==> g.edges[i].source in prefix
  }

  // Each listed node is the smallest one that could come next.
  ghost predicate SmallestFirst(g: Graph, result: seq<Id>) {
    forall k, n :: 0 <= k < |result| && FreeAfter(g, result[..k], n) ==> Le(result[k], n)
  }

  ghost predicate CountsUpto(g: Graph, indegree: map<Id, int>, k: nat) {
    indegree.Keys == g.nodes && forall n :: n in g.nodes ==> indegree[n] == |Upto(g, n, k)|
  }

  // The length of each node's incoming list.
  method InDegrees(g: Graph) returns (indegree: map<Id, int>)
    requires Closed(g)
    ensures Counts(g, indegree, {})
  {
    indegree := map n | n in g.nodes :: 0;
    forall n | n in g.nodes ensures Upto(g, n, 0) == {} {}
    for i := 0 to |g.edges|
      invariant CountsUpto(g, indegree, i)
    {
      CountsOneMore(g, indegree, i);
      indegree := indegree[g.edges[i].target := indegree[g.edges[i].target] + 1];
    }
    forall n | n in g.nodes ensures Upto(g, n, |g.edges|) == Open(g, {}, n) {}
  }

  lemma CountsOneMore(g: Graph, indegree: map<Id, int>, i: nat)
    requires Closed(g) && i < |g.edges| && CountsUpto(g, indegree, i)
    ensures CountsUpto(g, indegree[g.edges[i].target := indegree[g.edges[i].target] + 1], i + 1)
  {
    forall n | n in g.nodes
      ensures |Upto(g, n, i + 1)| == |Upto(g, n, i)| + if n == g.edges[i].target then 1 else 0
    {
      UptoStep(g, n, i);
    }
  }

  ghost function Upto(g: Graph, n: Id, k: int): set<int> {
    set i | 0 <= i < |g.edges| && i < k && g.edges[i].target == n
  }

  lemma UptoStep(g: Graph, n: Id, i: nat)
    requires i < |g.edges|
    ensures |Upto(g, n, i + 1)| == |Upto(g, n, i)| + if n == g.edges[i].target then 1 else 0
  {
    if n == g.edges[i].target {
      assert Upto(g, n, i + 1) == Upto(g, n, i) + {i};
    } else {
      assert Upto(g, n, i + 1) == Upto(g, n, i);
    }
  }

  lemma CrossedSkips(g: Graph, before: seq<Id>, id: Id, i: nat)
    requires i < |g.edges| && g.edges[i].source != id
    ensures Crossed(g, before, id, i + 1) == Crossed(g, before, id, i)
  {
  }

  lemma FrontierGrows(g: Graph, indegree: map<Id, int>, result: seq<Id>, queue: seq<Id>, t: Id)
    requires Frontier(g, indegree, result, queue) && t in g.nodes && indegree[t] > 0
    ensures Frontier(g, indegree[t := indegree[t] - 1], result, if indegree[t] == 1 then Insert(queue, t) else queue)
  {
    InsertKeeps(queue, t);
    InsertAscending(queue, t);
    assert forall n :: n in Insert(queue, t) <==> n in Elements(Insert(queue, t));
  }

  // Crosses off the outgoing edges of a node just listed; targets left without open edges join the queue.
  method Release(g: Graph, ghost before: seq<Id>, id: Id, indegree: map<Id, int>, queue: seq<Id>)
    returns (degrees: map<Id, int>, frontier: seq<Id>)
    requires Closed(g) && id !in before
    requires Counts(g, indegree, Crossed(g, before, id, 0))
    requires Frontier(g, indegree, before + [id], queue)
    ensures Counts(g, degrees, Crossed(g, before, id, |g.edges|))
    ensures Frontier(g, degrees, before + [id], frontier)
  {
    degrees, frontier := indegree, queue;
    for i := 0 to |g.edges|
      invariant Counts(g, degrees, Crossed(g, before, id, i))
      invariant Frontier(g, degrees, before + [id], frontier)
    {
      if g.edges[i].source == id {
        var t := g.edges[i].target;
        CrossOff(g, degrees, before, id, i);
        FrontierGrows(g, degrees, before + [id], frontier, t);
        degrees := degrees[t := degrees[t] - 1];
        if degrees[t] == 0 {
          frontier := Insert(frontier, t);
        }
      } else {
        CrossedSkips(g, before, id, i);
      }
    }
  }

  method TopologicalOrder(g: Graph) returns (result: seq<Id>)
    requires Closed(g)
    ensures NoDuplicates(result) && Elements(result) <= g.nodes
    ensures SmallestFirst(g, result)
    ensures |result| == |g.nodes| <==> Acyclic(g)
    ensures |result| == |g.nodes| ==> IsTopological(g, result)
  {
    var indegree := InDegrees(g);
    var queue := SortIds(set n | n in g.nodes && indegree[n] == 0);
    assert forall n :: n in queue <==> n in Elements(queue);
    result := [];
    assert Crossed(g, result, g.start, 0) == {};
    while queue != []
      invariant NoDuplicates(result) && Elements(result) <= g.nodes
      invariant Counts(g, indegree, Crossed(g, result, g.start, 0))
      invariant Frontier(g, indegree, result, queue)
      invariant PredecessorsFirst(g, result) && SmallestFirst(g, result)
      decreases |g.nodes| - |result|
    {
      var id := queue[0];
      ListNext(g, indegree, result, queue);
      queue := queue[1..];
      ghost var before := result;
      result := result + [id];
      Pigeonhole(result, g.nodes);
      assert Crossed(g, before, g.start, 0) == Crossed(g, before, id, 0);
      indegree, queue := Release(g, before, id, indegree, queue);
      assert Crossed(g, before, id, |g.edges|) == Crossed(g, result, g.start, 0);
    }
    Verdict(g, indegree, result);
  }

  // Crossing off edge i lowers the count of its target, which was not free before.
  lemma CrossOff(g: Graph, indegree: map<Id, int>, before: seq<Id>, id: Id, i: nat)
    requires Closed(g) && i < |g.edges| && g.edges[i].source == id && id !in before
    requires Counts(g, indegree, Crossed(g, before, id, i))
    ensures indegree[g.edges[i].target] > 0
    ensures Counts(g, indegree[g.edges[i].target := indegree[g.edges[i].target] - 1], Crossed(g, before, id, i + 1))
  {
    hide Open, Crossed;
    var t := g.edges[i].target;
    var before_, after := Crossed(g, before, id, i), Crossed(g, before, id, i + 1);
    OpenBefore(g, before, id, i);
    forall n | n in g.nodes ensures |Open(g, after, n)| == |Open(g, before_, n)| - if n == t then 1 else 0 {
      OpenStep(g, before, id, i, n);
    }
  }

  lemma OpenBefore(g: Graph, before: seq<Id>, id: Id, i: nat)
    requires i < |g.edges| && g.edges[i].source == id && id !in before
    ensures |Open(g, Crossed(g, before, id, i), g.edges[i].target)| > 0
  {
    assert i in Open(g, Crossed(g, before, id, i), g.edges[i].target);
  }

  lemma OpenStep(g: Graph, before: seq<Id>, id: Id, i: nat, n: Id)
    requires i < |g.edges| && g.edges[i].source == id && id !in before
    ensures |Open(g, Crossed(g, before, id, i + 1), n)|
            == |Open(g, Crossed(g, before, id, i), n)| - if n == g.edges[i].target then 1 else 0
  {
    var before_, after := Crossed(g, before, id, i), Crossed(g, before, id, i + 1);
    assert after == before_ + {i} && i !in before_;
    if n == g.edges[i].target {
      assert Open(g, after, n) == Open(g, before_, n) - {i};
    } else {
      assert Open(g, after, n) == Open(g, before_, n);
    }
  }

  // Listing the head of the frontier keeps the order topological and greedy.
  lemma ListNext(g: Graph, indegree: map<Id, int>, result: seq<Id>, queue: seq<Id>)
    requires Closed(g) && queue != []
    requires NoDuplicates(result) && Elements(result) <= g.nodes
    requires Counts(g, indegree, Crossed(g, result, g.start, 0))
    requires Frontier(g, indegree, result, queue)
    requires PredecessorsFirst(g, result) && SmallestFirst(g, result)
    ensures var longer := result + [queue[0]];
            && NoDuplicates(longer) && Elements(longer) <= g.nodes
            && PredecessorsFirst(g, longer) && SmallestFirst(g, longer)
            && Frontier(g, indegree, longer, queue[1..])
  {
    var id := queue[0];
    assert id in queue;
    var longer := result + [id];
    assert forall k :: 0 <= k <= |result| ==> longer[..k] == result[..k];
    assert result[..|result|] == result;
    forall n | n in g.nodes && indegree[n] == 0 ensures forall i :: 0 <= i < |g.edges| && g.edges[i].target == n ==> g.edges[i].source in result {
      assert Open(g, Crossed(g, result, g.start, 0), n) == {};
      forall i | 0 <= i < |g.edges| && g.edges[i].target == n ensures g.edges[i].source in result {
        assert i !in Open(g, Crossed(g, result, g.start, 0), n);
      }
    }
    forall n | FreeAfter(g, result, n) ensures Le(id, n) {
      assert Open(g, Crossed(g, result, g.start, 0), n) == {};
      assert n in queue;
      LeTotal(id, id);
    }
  }

  // With an empty frontier, the listing is complete exactly when there is no cycle.
  lemma Verdict(g: Graph, indegree: map<Id, int>, result: seq<Id>)
    requires Closed(g) && NoDuplicates(result) && Elements(result) <= g.nodes
    requires Counts(g, indegree, Crossed(g, result, g.start, 0))
    requires Frontier(g, indegree, result, [])
    requires PredecessorsFirst(g, result)
    ensures |result| == |g.nodes| <==> Acyclic(g)
    ensures |result| == |g.nodes| ==> IsTopological(g, result)
  {
    assert forall i :: 0 <= i < |result| ==> result[i] in Elements(result);
    Pigeonhole(result, g.nodes);
    if |result| == |g.nodes| {
      assert Elements(result) == g.nodes;
      AllForward(g, result);
      TopologicalIsAcyclic(g, result);
    } else {
      LeftoverHasCycle(g, indegree, result);
    }
  }

  lemma AllForward(g: Graph, result: seq<Id>)
    requires PredecessorsFirst(g, result) && NoDuplicates(result) && Elements(result) == g.nodes
    ensures IsTopological(g, result)
  {
    forall i, j, k |
      0 <= i < |g.edges| && 0 <= j < |result| && 0 <= k < |result|
      && result[j] == g.edges[i].source && result[k] == g.edges[i].target
      ensures j < k
    {
      assert g.edges[i].source in result[..k];
    }
  }

  // Every listing that puts predecessors first extends to one of the whole graph, unless there is a cycle.
  lemma {:induction false} OrderExtends(g: Graph, done: seq<Id>) returns (order: seq<Id>)
    requires Closed(g) && Acyclic(g) && NoDuplicates(done) && Elements(done) <= g.nodes && PredecessorsFirst(g, done)
    ensures IsTopological(g, order)
    decreases g.nodes - Elements(done)
  {
    hide Acyclic, IsTopological;
    var rest := g.nodes - Elements(done);
    if rest == {} {
      AllForward(g, done);
      order := done;
    } else {
      var n := FreeNode(g, rest);
      FreeNodeNext(g, done, n);
      assert Elements(done + [n]) == Elements(done) + {n};
      order := OrderExtends(g, done + [n]);
    }
  }

  lemma FreeNode(g: Graph, rest: set<Id>) returns (n: Id)
    requires Acyclic(g) && rest != {} && rest <= g.nodes
    ensures n in rest && !HasPredecessorIn(g, rest, n)
  {
    hide Acyclic;
    if Rooted(g, rest) { RootedHasCycle(g, rest); }
    n :| n in rest && !HasPredecessorIn(g, rest, n);
  }

  lemma FreeNodeNext(g: Graph, done: seq<Id>, n: Id)
    requires Closed(g) && NoDuplicates(done) && PredecessorsFirst(g, done) && n in g.nodes - Elements(done)
    requires !HasPredecessorIn(g, g.nodes - Elements(done), n)
    ensures NoDuplicates(done + [n]) && PredecessorsFirst(g, done + [n])
  {
    forall i, k | 0 <= i < |g.edges| && 0 <= k < |done| + 1 && g.edges[i].target == (done + [n])[k]
      ensures g.edges[i].source in (done + [n])[..k]
    {
      assert (done + [n])[..k] == done[..k];
      if k == |done| {
        assert HasEdge(g, g.edges[i].source, n);
        assert done[..k] == done;
      }
    }
  }

  lemma LeftoverHasCycle(g: Graph, indegree: map<Id, int>, result: seq<Id>)
    requires Closed(g) && NoDuplicates(result) && Elements(result) <= g.nodes && |result| != |g.nodes|
    requires Counts(g, indegree, Crossed(g, result, g.start, 0))
    requires Frontier(g, indegree, result, [])
    ensures !Acyclic(g)
  {
    var rest := g.nodes - Elements(result);
    assert rest != {} by {
      ElementsCount(result);
      assert rest == {} ==> Elements(result) == g.nodes;
    }
    assert Rooted(g, rest) by {
      forall n | n in rest ensures HasPredecessorIn(g, rest, n) {
        OpenEdgeInside(g, indegree, result, n);
      }
    }
    RootedHasCycle(g, rest);
  }

  lemma OpenEdgeInside(g: Graph, indegree: map<Id, int>, result: seq<Id>, n: Id)
    requires Closed(g) && n in g.nodes && n !in result
    requires Counts(g, indegree, Crossed(g, result, g.start, 0))
    requires Frontier(g, indegree, result, [])
    ensures HasPredecessorIn(g, g.nodes - Elements(result), n)
  {
    var crossed := Crossed(g, result, g.start, 0);
    assert Open(g, crossed, n) != {};
    var i :| i in Open(g, crossed, n);
    assert HasEdge(g, g.edges[i].source, n);
  }

  lemma {:induction false} ElementsCount(s: seq<Id>)
    requires NoDuplicates(s)
    ensures |Elements(s)| == |s|
  {
    if s != [] {
      var init, last := s[..|s| - 1], s[|s| - 1];
      ElementsCount(init);
      assert Elements(s) == Elements(init) + {last};
    }
  }
}
