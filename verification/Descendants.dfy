/**
 The descendants bitset of the control-graph analysis: one row of 64-bit words per node.
 */
module Descendants {
  import opened Ids
  import opened Graphs

  // ---------------------------------------------------------------- sets of ordinals as words

  type Words = seq<bv64>

  function Mask(bit: nat): bv64
    requires bit < 64
  {
    1 << bit
  }

  predicate HasBit(words: Words, ordinal: nat) {
    |words| > ordinal / 64 && words[ordinal / 64] & Mask(ordinal % 64) != 0
  }

  // The ordinals that the words hold.
  ghost function Bits(words: Words): set<nat> {
    set o: nat | o < 64 * |words| && HasBit(words, o)
  }

  lemma MasksDisjoint(i: nat, j: nat)
    requires i < 64 && j < 64
    ensures Mask(i) & Mask(j) != 0 <==> i == j
  {
  }

  lemma OrMask(a: bv64, b: bv64, m: bv64)
    ensures (a | b) & m != 0 <==> a & m != 0 || b & m != 0
  {
    assert (a | b) & m == (a & m) | (b & m);
  }

  lemma OrBit(w: bv64, i: nat, j: nat)
    requires i < 64 && j < 64
    ensures (w | Mask(i)) & Mask(j) != 0 <==> i == j || w & Mask(j) != 0
  {
    OrMask(w, Mask(i), Mask(j));
    MasksDisjoint(i, j);
  }

  lemma SetBitAt(words: Words, ordinal: nat, other: nat)
    requires ordinal / 64 < |words|
    ensures HasBit(words[ordinal / 64 := words[ordinal / 64] | Mask(ordinal % 64)], other)
            <==> other == ordinal || HasBit(words, other)
  {
    if other / 64 == ordinal / 64 {
      OrBit(words[ordinal / 64], ordinal % 64, other % 64);
    }
  }

  lemma SetBit(words: Words, ordinal: nat)
    requires ordinal / 64 < |words|
    ensures Bits(words[ordinal / 64 := words[ordinal / 64] | Mask(ordinal % 64)]) == Bits(words) + {ordinal}
  {
    forall other: nat
      ensures HasBit(words[ordinal / 64 := words[ordinal / 64] | Mask(ordinal % 64)], other)
              <==> other == ordinal || HasBit(words, other)
    {
      SetBitAt(words, ordinal, other);
    }
  }

  // The words of one row after or-ing in another row.
  method OrWords(bits: Words, more: Words) returns (r: Words)
    requires |bits| == |more|
    ensures |r| == |bits| && Bits(r) == Bits(bits) + Bits(more)
  {
    r := bits;
    for word := 0 to |more|
      invariant |r| == |bits|
      invariant forall w :: 0 <= w < word ==> r[w] == bits[w] | more[w]
      invariant forall w :: word <= w < |bits| ==> r[w] == bits[w]
    {
      r := r[word := r[word] | more[word]];
    }
    UnionOfBits(bits, more, r);
  }

  lemma UnionOfBits(bits: Words, more: Words, r: Words)
    requires |bits| == |more| == |r| && forall w :: 0 <= w < |r| ==> r[w] == bits[w] | more[w]
    ensures Bits(r) == Bits(bits) + Bits(more)
  {
    forall o: nat | o < 64 * |r| ensures HasBit(r, o) <==> HasBit(bits, o) || HasBit(more, o) {
      OrMask(bits[o / 64], more[o / 64], Mask(o % 64));
    }
  }

  lemma BlankHasNoBits(words: Words)
    requires forall w :: 0 <= w < |words| ==> words[w] == 0
    ensures Bits(words) == {}
  {
    forall o: nat | o < 64 * |words| ensures !HasBit(words, o) {
      NoBitInZero(Mask(o % 64));
    }
  }

  lemma NoBitInZero(m: bv64)
    ensures 0 & m == 0
  {
  }

  // ---------------------------------------------------------------- rows

  // The ordinals of the nodes that id reaches.
  ghost function Below(g: Graph, order: seq<Id>, id: Id): set<nat> {
    set o: nat | o < |order| && Reaches(g, id, order[o])
  }

  // The ordinals of the nodes that id reaches through the first k edges of the document.
  ghost function BelowVia(g: Graph, order: seq<Id>, id: Id, k: int): set<nat> {
    set o: nat | o < |order| && ReachedBy(g, id, k, order[o])
  }

  ghost predicate ReachedBy(g: Graph, id: Id, k: int, n: Id) {
    exists i :: 0 <= i < |g.edges| && i < k && g.edges[i].source == id && AtOrBelow(g, g.edges[i].target, n)
  }

  ghost predicate AtOrBelow(g: Graph, a: Id, n: Id) {
    a == n || Reaches(g, a, n)
  }

  ghost predicate Row(g: Graph, order: seq<Id>, id: Id, words: Words) {
    |words| == (|order| + 63) / 64 && Bits(words) == Below(g, order, id)
  }

  ghost predicate PartialRow(g: Graph, order: seq<Id>, id: Id, k: int, words: Words) {
    |words| == (|order| + 63) / 64 && Bits(words) == BelowVia(g, order, id, k)
  }

  lemma ReachedByAll(g: Graph, id: Id, n: Id)
    ensures ReachedBy(g, id, |g.edges|, n) <==> Reaches(g, id, n)
  {
    ReachesSplit(g, id, n);
    if ReachedBy(g, id, |g.edges|, n) {
      var i :| 0 <= i < |g.edges| && g.edges[i].source == id && AtOrBelow(g, g.edges[i].target, n);
      assert HasEdge(g, id, g.edges[i].target);
    }
    if Reaches(g, id, n) && !HasEdge(g, id, n) {
      var b :| HasEdge(g, id, b) && Reaches(g, b, n);
      var i :| 0 <= i < |g.edges| && g.edges[i].source == id && g.edges[i].target == b;
      assert AtOrBelow(g, g.edges[i].target, n);
    } else if HasEdge(g, id, n) {
      var i :| 0 <= i < |g.edges| && g.edges[i].source == id && g.edges[i].target == n;
      assert AtOrBelow(g, g.edges[i].target, n);
    }
  }

  lemma ViaAll(g: Graph, order: seq<Id>, id: Id)
    ensures BelowVia(g, order, id, |g.edges|) == Below(g, order, id)
  {
    forall o: nat | o < |order| ensures ReachedBy(g, id, |g.edges|, order[o]) <==> Reaches(g, id, order[o]) {
      ReachedByAll(g, id, order[o]);
    }
  }

  lemma ViaSkips(g: Graph, order: seq<Id>, id: Id, k: nat)
    requires k < |g.edges| && g.edges[k].source != id
    ensures BelowVia(g, order, id, k + 1) == BelowVia(g, order, id, k)
  {
    forall o: nat | o < |order| ensures ReachedBy(g, id, k + 1, order[o]) <==> ReachedBy(g, id, k, order[o]) {
    }
  }

  lemma ViaGrows(g: Graph, order: seq<Id>, id: Id, k: nat, at: nat)
    requires k < |g.edges| && g.edges[k].source == id
    requires NoDuplicates(order) && at < |order| && order[at] == g.edges[k].target
    ensures BelowVia(g, order, id, k + 1) == BelowVia(g, order, id, k) + {at} + Below(g, order, order[at])
  {
    forall o: nat | o < |order|
      ensures ReachedBy(g, id, k + 1, order[o])
              <==> ReachedBy(g, id, k, order[o]) || o == at || Reaches(g, order[at], order[o])
    {
      ReachedByNext(g, id, k, order[o]);
    }
  }

  lemma ReachedByNext(g: Graph, id: Id, k: nat, n: Id)
    requires k < |g.edges| && g.edges[k].source == id
    ensures ReachedBy(g, id, k + 1, n) <==> ReachedBy(g, id, k, n) || AtOrBelow(g, g.edges[k].target, n)
  {
  }

  // The analysis after buildDescendants: topological positions and one row of words per node.
  datatype Ancestry = Ancestry(ordinal: map<Id, nat>, descendants: map<Id, Words>)

  ghost predicate Ordinals(order: seq<Id>, ordinal: map<Id, nat>) {
    forall k :: 0 <= k < |order| ==> order[k] in ordinal && ordinal[order[k]] == k
  }

  ghost predicate IsAncestry(g: Graph, order: seq<Id>, a: Ancestry) {
    && a.ordinal.Keys == g.nodes && Ordinals(order, a.ordinal)
    && a.descendants.Keys == g.nodes
    && (forall n :: n in g.nodes ==> Row(g, order, n, a.descendants[n]))
  }

  // The rows from index on are finished, those before it still blank.
  ghost predicate RowsFrom(g: Graph, order: seq<Id>, index: int, descendants: map<Id, Words>) {
    && (forall k :: 0 <= k < |order| ==> order[k] in descendants)
    && (forall k :: 0 <= index <= k < |order| ==> Row(g, order, order[k], descendants[order[k]]))
    && (forall k :: 0 <= k < index && k < |order| ==> PartialRow(g, order, order[k], 0, descendants[order[k]]))
  }

  method BuildDescendants(g: Graph, order: seq<Id>) returns (a: Ancestry)
    requires Closed(g) && IsTopological(g, order)
    ensures IsAncestry(g, order, a)
  {
    var ordinal, descendants := BlankRows(g, order);
    var index := |order|;
    while index > 0
      invariant 0 <= index <= |order|
      invariant descendants.Keys == g.nodes
      invariant RowsFrom(g, order, index, descendants)
    {
      index := index - 1;
      assert order[index] in Elements(order);
      var bits := DescendantsOf(g, order, index, ordinal, descendants);
      RowFinished(g, order, index, descendants, bits);
      descendants := descendants[order[index] := bits];
    }
    a := Ancestry(ordinal, descendants);
    RowsCover(g, order, descendants);
  }

  // Topological positions, and a blank row of words for every node.
  method BlankRows(ghost g: Graph, order: seq<Id>) returns (ordinal: map<Id, nat>, descendants: map<Id, Words>)
    requires NoDuplicates(order)
    ensures ordinal.Keys == Elements(order) == descendants.Keys
    ensures Ordinals(order, ordinal) && RowsFrom(g, order, |order|, descendants)
  {
    var words := (|order| + 63) / 64;
    ordinal := map[];
    descendants := map[];
    for index := 0 to |order|
      invariant ordinal.Keys == Elements(order[..index]) == descendants.Keys
      invariant forall k :: 0 <= k < index ==> order[k] in ordinal && ordinal[order[k]] == k
      invariant forall n :: n in descendants ==> PartialRow(g, order, n, 0, descendants[n])
    {
      assert order[..index + 1] == order[..index] + [order[index]];
      var blank: Words := seq(words, i => 0);
      BlankHasNoBits(blank);
      ordinal := ordinal[order[index] := index];
      descendants := descendants[order[index] := blank];
    }
    assert order[..|order|] == order;
  }

  // One row of the analysis, from the finished rows of the nodes after it.
  method DescendantsOf(g: Graph, order: seq<Id>, index: nat, ordinal: map<Id, nat>, descendants: map<Id, Words>)
    returns (bits: Words)
    requires Closed(g) && IsTopological(g, order) && index < |order|
    requires Ordinals(order, ordinal)
    requires descendants.Keys == g.nodes && RowsFrom(g, order, index + 1, descendants)
    ensures Row(g, order, order[index], bits)
  {
    var id := order[index];
    bits := descendants[id];
    for i := 0 to |g.edges|
      invariant PartialRow(g, order, id, i, bits)
    {
      if g.edges[i].source == id {
        TargetIsLater(g, order, index, i, ordinal);
        ViaGrows(g, order, id, i, ordinal[g.edges[i].target]);
        var targetOrdinal := ordinal[g.edges[i].target];
        SetBit(bits, targetOrdinal);
        bits := bits[targetOrdinal / 64 := bits[targetOrdinal / 64] | Mask(targetOrdinal % 64)];
        bits := OrWords(bits, descendants[g.edges[i].target]);
      } else {
        ViaSkips(g, order, id, i);
      }
    }
    ViaAll(g, order, id);
  }

  lemma TargetIsLater(g: Graph, order: seq<Id>, index: nat, i: nat, ordinal: map<Id, nat>)
    requires Closed(g) && IsTopological(g, order) && index < |order| && Ordinals(order, ordinal)
    requires i < |g.edges| && g.edges[i].source == order[index]
    ensures g.edges[i].target in ordinal && index < ordinal[g.edges[i].target] < |order|
    ensures order[ordinal[g.edges[i].target]] == g.edges[i].target
  {
    EdgePointsForward(g, order, i);
  }

  lemma RowFinished(g: Graph, order: seq<Id>, index: nat, descendants: map<Id, Words>, bits: Words)
    requires index < |order| && NoDuplicates(order)
    requires RowsFrom(g, order, index + 1, descendants) && Row(g, order, order[index], bits)
    ensures RowsFrom(g, order, index, descendants[order[index] := bits])
  {
    forall k | 0 <= k < |order| && k != index ensures order[k] != order[index] {
    }
  }

  lemma RowsCover(g: Graph, order: seq<Id>, descendants: map<Id, Words>)
    requires Elements(order) == g.nodes && RowsFrom(g, order, 0, descendants)
    ensures forall n :: n in g.nodes ==> n in descendants && Row(g, order, n, descendants[n])
  {
    forall n | n in g.nodes ensures n in descendants && Row(g, order, n, descendants[n]) {
      assert n in Elements(order);
      var k :| 0 <= k < |order| && order[k] == n;
    }
  }

  // Reads the verdict off the words, with the bounds checks of the original.
  predicate IsControlUpstream(a: Ancestry, source: Id, target: Id) {
    target in a.ordinal && source in a.descendants && HasBit(a.descendants[source], a.ordinal[target])
  }

  // On an acyclic graph the words say exactly which nodes lie on a path below another.
  lemma UpstreamMeansPath(g: Graph, order: seq<Id>, a: Ancestry, source: Id, target: Id)
    requires Closed(g) && IsTopological(g, order) && IsAncestry(g, order, a)
    ensures IsControlUpstream(a, source, target) <==> source in g.nodes && target in g.nodes && Reaches(g, source, target)
  {
    if target in g.nodes && source in g.nodes {
      assert target in Elements(order);
      var k :| 0 <= k < |order| && order[k] == target;
      assert Row(g, order, source, a.descendants[source]);
      assert k in Below(g, order, source) <==> Reaches(g, source, target);
      assert k in Bits(a.descendants[source]) <==> HasBit(a.descendants[source], k);
    }
  }
}
