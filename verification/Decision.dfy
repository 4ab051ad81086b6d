/**
 The hash-consed, memoised, ordered multi-valued decision diagrams of the activation analysis.

 A diagram node tests one branch variable and has one child per declared route of that
 branch.  Identifiers 0 and 1 are the constants; every other identifier indexes the manager's
 node table, whose rows are never changed once appended.
 */
module Decision {
  import opened Ids

  const MAX_NODES := 250_000
  const FALSE: nat := 0
  const TRUE: nat := 1

  datatype Node = Node(variable: int, children: seq<nat>)
  datatype Op = And | Or
  datatype Outcome = Made(id: nat) | TooManyNodes

  // ---------------------------------------------------------------- meaning

  // A choice of one route (by position in the domain) for every branch variable.
  ghost predicate IsAssignment(domains: seq<seq<string>>, choice: seq<nat>) {
    |choice| == |domains| && forall v :: 0 <= v < |domains| ==> choice[v] < |domains[v]|
  }

  ghost predicate NonEmptyDomains(domains: seq<seq<string>>) {
    forall v :: 0 <= v < |domains| ==> |domains[v]| > 0
  }

  function VariableOf(domains: seq<seq<string>>, nodes: seq<Node>, id: nat): int
    requires id < |nodes|
  {
    if id <= TRUE then |domains| + 1 else nodes[id].variable
  }

  ghost predicate AllSame(s: seq<nat>) {
    forall i, j :: 0 <= i < |s| && 0 <= j < |s| ==> s[i] == s[j]
  }

  // Row i is ordered (children test later variables), reduced (children are not all the same)
  // and complete (one child for each route).
  ghost predicate GoodRow(domains: seq<seq<string>>, nodes: seq<Node>, i: nat)
    requires 2 <= i < |nodes|
  {
    var n := nodes[i];
    && 0 <= n.variable < |domains|
    && |n.children| == |domains[n.variable]|
    && !AllSame(n.children)
    && forall c :: 0 <= c < |n.children| ==>
         n.children[c] < i && VariableOf(domains, nodes, n.children[c]) > n.variable
  }

  ghost predicate WellFormed(domains: seq<seq<string>>, nodes: seq<Node>) {
    && NonEmptyDomains(domains)
    && |nodes| >= 2
    && (forall i :: 2 <= i < |nodes| ==> GoodRow(domains, nodes, i))
  }

  // No two rows are equal: what hash-consing buys.
  ghost predicate Shared(nodes: seq<Node>) {
    forall i, j :: 2 <= i < |nodes| && 2 <= j < |nodes| && nodes[i] == nodes[j] ==> i == j
  }

  // The truth value of diagram id under a choice of routes.
  ghost predicate Eval(domains: seq<seq<string>>, nodes: seq<Node>, id: nat, choice: seq<nat>)
    requires WellFormed(domains, nodes) && id < |nodes| && IsAssignment(domains, choice)
    decreases id
  {
    if id == FALSE then false
    else if id == TRUE then true
    else
      assert GoodRow(domains, nodes, id);
      Eval(domains, nodes, nodes[id].children[choice[nodes[id].variable]], choice)
  }

  predicate Combine(op: Op, l: bool, r: bool) {
    match op case And => l && r case Or => l || r
  }

  // ---------------------------------------------------------------- canonicity

  // A diagram does not look at variables before its own.
  lemma {:induction false} EvalIgnoresEarlier(domains: seq<seq<string>>, nodes: seq<Node>, id: nat,
                                              choice: seq<nat>, v: nat, x: nat)
    requires WellFormed(domains, nodes) && id < |nodes| && IsAssignment(domains, choice)
    requires v < |domains| && x < |domains[v]| && v < VariableOf(domains, nodes, id)
    ensures IsAssignment(domains, choice[v := x])
    ensures Eval(domains, nodes, id, choice[v := x]) == Eval(domains, nodes, id, choice)
    decreases id
  {
    if id > TRUE {
      assert GoodRow(domains, nodes, id);
      EvalIgnoresEarlier(domains, nodes, nodes[id].children[choice[nodes[id].variable]], choice, v, x);
    }
  }

  // Under choice[v := c] a diagram that tests v first behaves like its child c.
  lemma EvalChild(domains: seq<seq<string>>, nodes: seq<Node>, id: nat, choice: seq<nat>, c: nat)
    requires WellFormed(domains, nodes) && TRUE < id < |nodes| && IsAssignment(domains, choice)
    requires GoodRow(domains, nodes, id) && c < |nodes[id].children|
    ensures var v := nodes[id].variable;
            IsAssignment(domains, choice[v := c]) &&
            Eval(domains, nodes, id, choice[v := c]) == Eval(domains, nodes, nodes[id].children[c], choice)
  {
    EvalIgnoresEarlier(domains, nodes, nodes[id].children[c], choice, nodes[id].variable, c);
  }

  // Different identifiers are told apart by some choice of routes.
  lemma {:induction false} Distinguish(domains: seq<seq<string>>, nodes: seq<Node>, a: nat, b: nat)
    returns (choice: seq<nat>)
    requires WellFormed(domains, nodes) && Shared(nodes)
    requires a < |nodes| && b < |nodes| && a != b
    ensures IsAssignment(domains, choice)
    ensures Eval(domains, nodes, a, choice) != Eval(domains, nodes, b, choice)
    decreases if a > b then a else b
  {
    var va, vb := VariableOf(domains, nodes, a), VariableOf(domains, nodes, b);
    assert a > TRUE ==> GoodRow(domains, nodes, a);
    assert b > TRUE ==> GoodRow(domains, nodes, b);
    if a <= TRUE && b <= TRUE {
      choice := seq(|domains|, i => 0);
    } else if va < vb {
      choice := DistinguishFromLater(domains, nodes, a, b);
    } else if vb < va {
      choice := DistinguishFromLater(domains, nodes, b, a);
    } else {
      assert nodes[a].children != nodes[b].children;
      var c :| 0 <= c < |nodes[a].children| && nodes[a].children[c] != nodes[b].children[c];
      var below := Distinguish(domains, nodes, nodes[a].children[c], nodes[b].children[c]);
      EvalChild(domains, nodes, a, below, c);
      EvalChild(domains, nodes, b, below, c);
      choice := below[va := c];
    }
  }

  // The case of Distinguish where a tests a variable that b does not reach.
  lemma {:induction false} DistinguishFromLater(domains: seq<seq<string>>, nodes: seq<Node>, a: nat, b: nat)
    returns (choice: seq<nat>)
    requires WellFormed(domains, nodes) && Shared(nodes)
    requires TRUE < a < |nodes| && b < |nodes|
    requires VariableOf(domains, nodes, a) < VariableOf(domains, nodes, b)
    ensures IsAssignment(domains, choice)
    ensures Eval(domains, nodes, a, choice) != Eval(domains, nodes, b, choice)
    decreases a, 0
  {
    assert GoodRow(domains, nodes, a);
    var v := nodes[a].variable;
    var i, j :| 0 <= i < |nodes[a].children| && 0 <= j < |nodes[a].children| &&
                nodes[a].children[i] != nodes[a].children[j];
    var below := Distinguish(domains, nodes, nodes[a].children[i], nodes[a].children[j]);
    EvalChild(domains, nodes, a, below, i);
    EvalChild(domains, nodes, a, below, j);
    EvalIgnoresEarlier(domains, nodes, b, below, v, i);
    EvalIgnoresEarlier(domains, nodes, b, below, v, j);
    choice := if Eval(domains, nodes, a, below[v := i]) != Eval(domains, nodes, b, below[v := i])
              then below[v := i] else below[v := j];
  }

  // Two identifiers are equal exactly when they denote the same function of the routes.
  lemma Canonical(domains: seq<seq<string>>, nodes: seq<Node>, a: nat, b: nat)
    requires WellFormed(domains, nodes) && Shared(nodes) && a < |nodes| && b < |nodes|
    ensures a == b <==> forall choice :: IsAssignment(domains, choice) ==>
              Eval(domains, nodes, a, choice) == Eval(domains, nodes, b, choice)
  {
    if a != b {
      var choice := Distinguish(domains, nodes, a, b);
    }
  }

  // ---------------------------------------------------------------- growth of the table

  // ---------------------------------------------------------------- how large a table can grow

  ghost function Exp2(n: nat): nat {
    if n == 0 then 1 else 2 * Exp2(n - 1)
  }

  // The number of assignments.
  ghost function Assignments(domains: seq<seq<string>>): nat {
    if domains == [] then 1 else |domains[|domains| - 1]| * Assignments(domains[..|domains| - 1])
  }

  // Assignments are numbered like digits, the last variable counting fastest.
  ghost function Rank(domains: seq<seq<string>>, choice: seq<nat>): nat
    requires IsAssignment(domains, choice)
  {
    if domains == [] then 0
    else
      var n := |domains| - 1;
      Rank(domains[..n], choice[..n]) * |domains[n]| + choice[n]
  }

  ghost function Nth(domains: seq<seq<string>>, k: nat): (choice: seq<nat>)
    requires NonEmptyDomains(domains)
    ensures IsAssignment(domains, choice)
  {
    if domains == [] then []
    else
      var n := |domains| - 1;
      Nth(domains[..n], k / |domains[n]|) + [k % |domains[n]|]
  }

  lemma {:induction false} NthOfRank(domains: seq<seq<string>>, choice: seq<nat>)
    requires NonEmptyDomains(domains) && IsAssignment(domains, choice)
    ensures Nth(domains, Rank(domains, choice)) == choice && Rank(domains, choice) < Assignments(domains)
  {
    if domains != [] {
      var n := |domains| - 1;
      NthOfRank(domains[..n], choice[..n]);
      Digits(Rank(domains[..n], choice[..n]), |domains[n]|, choice[n], Assignments(domains[..n]));
      assert choice == choice[..n] + [choice[n]];
    }
  }

  lemma Digits(a: nat, b: nat, c: nat, m: nat)
    requires c < b && a < m
    ensures (a * b + c) / b == a && (a * b + c) % b == c && a * b + c < b * m
  {
    var x := a * b + c;
    var q := x / b;
    assert x == q * b + x % b;
    if q < a { AtMostTimes(q + 1, a, b); }
    if a < q { AtMostTimes(a + 1, q, b); }
    AtMostTimes(a + 1, m, b);
  }

  lemma AtMostTimes(a: nat, m: nat, b: nat)
    requires a <= m
    ensures a * b <= m * b && m * b == b * m
  {
    assert (m - a) * b >= 0;
  }

  // The truth table of a diagram, read as a number.
  ghost function Code(domains: seq<seq<string>>, nodes: seq<Node>, id: nat, k: nat): nat
    requires WellFormed(domains, nodes) && id < |nodes|
  {
    if k == 0 then 0 else 2 * Code(domains, nodes, id, k - 1) + if Eval(domains, nodes, id, Nth(domains, k - 1)) then 1 else 0
  }

  lemma {:induction false} CodeBounded(domains: seq<seq<string>>, nodes: seq<Node>, id: nat, k: nat)
    requires WellFormed(domains, nodes) && id < |nodes|
    ensures Code(domains, nodes, id, k) < Exp2(k)
  {
    if k > 0 { CodeBounded(domains, nodes, id, k - 1); }
  }

  lemma {:induction false} CodeTells(domains: seq<seq<string>>, nodes: seq<Node>, a: nat, b: nat, k: nat, j: nat)
    requires WellFormed(domains, nodes) && a < |nodes| && b < |nodes| && j < k && Code(domains, nodes, a, k) == Code(domains, nodes, b, k)
    ensures Eval(domains, nodes, a, Nth(domains, j)) == Eval(domains, nodes, b, Nth(domains, j))
  {
    hide Eval, Nth;
    if j < k - 1 { CodeTells(domains, nodes, a, b, k - 1, j); }
  }

  // Different diagrams have different truth tables, so there are no more of them than truth tables.
  lemma TableAtMost(domains: seq<seq<string>>, nodes: seq<Node>)
    requires WellFormed(domains, nodes) && Shared(nodes)
    ensures |nodes| <= Exp2(Assignments(domains))
  {
    hide Eval, Code, Nth, Assignments, Exp2, WellFormed, Shared;
    var n := Assignments(domains);
    var codes := seq(|nodes|, i requires 0 <= i < |nodes| => Code(domains, nodes, i, n));
    var pool := Below(Exp2(n));
    BelowIs(Exp2(n));
    forall i | 0 <= i < |codes| ensures codes[i] in pool { CodeBounded(domains, nodes, i, n); }
    forall i, j | 0 <= i < j < |codes| ensures codes[i] != codes[j] { CodesDiffer(domains, nodes, i, j); }
    Pigeonhole(codes, pool);
  }

  lemma CodesDiffer(domains: seq<seq<string>>, nodes: seq<Node>, a: nat, b: nat)
    requires WellFormed(domains, nodes) && Shared(nodes) && a < |nodes| && b < |nodes| && a != b
    ensures Code(domains, nodes, a, Assignments(domains)) != Code(domains, nodes, b, Assignments(domains))
  {
    hide Eval, Code, Nth, Assignments, Rank;
    if Code(domains, nodes, a, Assignments(domains)) == Code(domains, nodes, b, Assignments(domains)) {
      forall choice | IsAssignment(domains, choice) ensures Eval(domains, nodes, a, choice) == Eval(domains, nodes, b, choice) {
        NthOfRank(domains, choice);
        CodeTells(domains, nodes, a, b, Assignments(domains), Rank(domains, choice));
      }
      Canonical(domains, nodes, a, b);
    }
  }

  ghost function Below(n: nat): set<nat> {
    if n == 0 then {} else Below(n - 1) + {n - 1}
  }

  lemma {:induction false} BelowIs(n: nat)
    ensures |Below(n)| == n && forall c: nat :: c in Below(n) <==> c < n
  {
    if n > 0 { BelowIs(n - 1); }
  }

  // ---------------------------------------------------------------- growing

  // Appending rows changes the meaning of no existing identifier.
  lemma {:induction false} EvalStable(domains: seq<seq<string>>, nodes: seq<Node>, more: seq<Node>,
                                      id: nat, choice: seq<nat>)
    requires WellFormed(domains, nodes) && WellFormed(domains, more) && nodes <= more
    requires id < |nodes| && IsAssignment(domains, choice)
    ensures Eval(domains, nodes, id, choice) == Eval(domains, more, id, choice)
    decreases id
  {
    if id > TRUE {
      assert GoodRow(domains, nodes, id) && GoodRow(domains, more, id);
      EvalStable(domains, nodes, more, nodes[id].children[choice[nodes[id].variable]], choice);
    }
  }

  // x stands for the combination of l and r, and tests no variable before both of theirs.
  ghost predicate Joins(domains: seq<seq<string>>, nodes: seq<Node>, op: Op, l: nat, r: nat, x: nat)
    requires WellFormed(domains, nodes)
  {
    && l < |nodes| && r < |nodes| && x < |nodes|
    && (VariableOf(domains, nodes, x) >= VariableOf(domains, nodes, l)
        || VariableOf(domains, nodes, x) >= VariableOf(domains, nodes, r))
    && forall choice :: IsAssignment(domains, choice) ==>
         Eval(domains, nodes, x, choice)
         == Combine(op, Eval(domains, nodes, l, choice), Eval(domains, nodes, r, choice))
  }

  // x stands for the complement of a, and tests no variable before it.
  ghost predicate Complements(domains: seq<seq<string>>, nodes: seq<Node>, a: nat, x: nat)
    requires WellFormed(domains, nodes)
  {
    && a < |nodes| && x < |nodes|
    && VariableOf(domains, nodes, x) >= VariableOf(domains, nodes, a)
    && forall choice :: IsAssignment(domains, choice) ==>
         Eval(domains, nodes, x, choice) == !Eval(domains, nodes, a, choice)
  }

  lemma JoinsStable(domains: seq<seq<string>>, nodes: seq<Node>, more: seq<Node>, op: Op, l: nat, r: nat, x: nat)
    requires WellFormed(domains, nodes) && WellFormed(domains, more) && nodes <= more
    requires Joins(domains, nodes, op, l, r, x)
    ensures Joins(domains, more, op, l, r, x)
  {
    forall choice | IsAssignment(domains, choice)
      ensures Eval(domains, more, x, choice)
              == Combine(op, Eval(domains, more, l, choice), Eval(domains, more, r, choice))
    {
      EvalStable(domains, nodes, more, x, choice);
      EvalStable(domains, nodes, more, l, choice);
      EvalStable(domains, nodes, more, r, choice);
    }
  }

  lemma ComplementsStable(domains: seq<seq<string>>, nodes: seq<Node>, more: seq<Node>, a: nat, x: nat)
    requires WellFormed(domains, nodes) && WellFormed(domains, more) && nodes <= more
    requires Complements(domains, nodes, a, x)
    ensures Complements(domains, more, a, x)
  {
    forall choice | IsAssignment(domains, choice)
      ensures Eval(domains, more, x, choice) == !Eval(domains, more, a, choice)
    {
      EvalStable(domains, nodes, more, x, choice);
      EvalStable(domains, nodes, more, a, choice);
    }
  }

  lemma AppendRow(domains: seq<seq<string>>, nodes: seq<Node>, row: Node)
    requires WellFormed(domains, nodes)
    requires 0 <= row.variable < |domains| && |row.children| == |domains[row.variable]|
    requires !AllSame(row.children)
    requires forall c :: 0 <= c < |row.children| ==>
               row.children[c] < |nodes| && VariableOf(domains, nodes, row.children[c]) > row.variable
    ensures WellFormed(domains, nodes + [row])
  {
    var more := nodes + [row];
    forall i | 2 <= i < |more| ensures GoodRow(domains, more, i) {
      if i < |nodes| {
        assert GoodRow(domains, nodes, i);
        assert more[i] == nodes[i];
      }
    }
  }

  // ---------------------------------------------------------------- the manager

  // The two caches, which only remember what was once computed.
  type Joined = map<(Op, nat, nat), nat>
  type Negated = map<nat, nat>

  ghost predicate GoodCaches(domains: seq<seq<string>>, nodes: seq<Node>, joined: Joined, negated: Negated)
    requires WellFormed(domains, nodes)
  {
    && (forall k :: k in joined ==> Joins(domains, nodes, k.0, k.1, k.2, joined[k]))
    && (forall k :: k in negated ==> Complements(domains, nodes, k, negated[k]))
  }

  lemma CachesStable(domains: seq<seq<string>>, nodes: seq<Node>, more: seq<Node>, joined: Joined, negated: Negated)
    requires WellFormed(domains, nodes) && WellFormed(domains, more) && nodes <= more
    requires GoodCaches(domains, nodes, joined, negated)
    ensures GoodCaches(domains, more, joined, negated)
  {
    forall k | k in joined ensures Joins(domains, more, k.0, k.1, k.2, joined[k]) {
      JoinsStable(domains, nodes, more, k.0, k.1, k.2, joined[k]);
    }
    forall k | k in negated ensures Complements(domains, more, k, negated[k]) {
      ComplementsStable(domains, nodes, more, k, negated[k]);
    }
  }

  class Manager {
    const domains: seq<seq<string>>
    var nodes: seq<Node>
    // The key "variable:child:child:..." is kept as the row it spells out.
    var unique: map<Node, nat>
    var joined: Joined
    var negated: Negated

    ghost predicate Valid()
      reads this
    {
      && WellFormed(domains, nodes)
      && (forall row :: row in unique ==> 2 <= unique[row] < |nodes| && nodes[unique[row]] == row)
      && (forall i :: 2 <= i < |nodes| ==> nodes[i] in unique && unique[nodes[i]] == i)
      && GoodCaches(domains, nodes, joined, negated)
    }

    // What diagram id says of a choice of routes.
    ghost predicate Holds(id: nat, choice: seq<nat>)
      requires Valid() && id < |nodes| && IsAssignment(domains, choice)
      reads this
    {
      Eval(domains, nodes, id, choice)
    }

    constructor (domains: seq<seq<string>>)
      requires NonEmptyDomains(domains)
      ensures Valid() && this.domains == domains && |nodes| == 2
    {
      this.domains := domains;
      nodes := [Node(-1, []), Node(-1, [])];
      unique := map[];
      joined := map[];
      negated := map[];
    }

    lemma ValidIsShared()
      requires Valid()
      ensures Shared(nodes)
    {
    }

    // Equality of identifiers decides equality of formulas in every state of the manager.
    lemma IdsAreCanonical(a: nat, b: nat)
      requires Valid() && a < |nodes| && b < |nodes|
      ensures a == b <==> forall choice :: IsAssignment(domains, choice) ==> Holds(a, choice) == Holds(b, choice)
    {
      Canonical(domains, nodes, a, b);
    }

    method Uniform(children: seq<nat>) returns (allSame: bool)
      requires |children| > 0
      ensures allSame <==> AllSame(children)
    {
      allSame := true;
      var c := 1;
      while c < |children| && allSame
        invariant 1 <= c <= |children|
        invariant allSame ==> forall i :: 0 <= i < c ==> children[i] == children[0]
        invariant !allSame ==> exists i :: 0 <= i < |children| && children[i] != children[0]
        decreases |children| - c, allSame
      {
        if children[c] != children[0] {
          allSame := false;
        } else {
          c := c + 1;
        }
      }
    }

    method MakeNode(variable: nat, children: seq<nat>) returns (r: Outcome)
      requires Valid() && variable < |domains| && |children| == |domains[variable]|
      requires forall c :: 0 <= c < |children| ==>
                 children[c] < |nodes| && VariableOf(domains, nodes, children[c]) > variable
      modifies this
      ensures Valid() && old(nodes) <= nodes && joined == old(joined) && negated == old(negated)
      ensures r.TooManyNodes? ==> nodes == old(nodes) && |nodes| >= MAX_NODES
      ensures r.Made? ==> r.id < |nodes| && VariableOf(domains, nodes, r.id) >= variable
      ensures r.Made? ==> forall choice :: IsAssignment(domains, choice) ==>
                Holds(r.id, choice) == Holds(children[choice[variable]], choice)
    {
      hide Joins, Complements, GoodCaches;
      var allSame := Uniform(children);
      if allSame {
        return Made(children[0]);
      }
      var row := Node(variable, children);
      if row in unique {
        return Made(unique[row]);
      }
      if |nodes| >= MAX_NODES {
        return TooManyNodes;
      }
      var id := |nodes|;
      AppendRow(domains, nodes, row);
      CachesStable(domains, nodes, nodes + [row], joined, negated);
      ghost var before := nodes;
      nodes := nodes + [row];
      unique := unique[row := id];
      assert forall i :: 0 <= i < |before| ==> nodes[i] == before[i];
      forall choice | IsAssignment(domains, choice)
        ensures Holds(id, choice) == Holds(children[choice[variable]], choice)
      {
        assert GoodRow(domains, nodes, id);
      }
      r := Made(id);
    }

    // The test "branch variable took this route".
    method Equal(variable: nat, route: string) returns (r: Outcome)
      requires Valid() && variable < |domains|
      modifies this
      ensures Valid() && old(nodes) <= nodes
      ensures r.Made? ==> r.id < |nodes| && forall choice :: IsAssignment(domains, choice) ==>
                Holds(r.id, choice) == (domains[variable][choice[variable]] == route)
      ensures r.TooManyNodes? ==> |nodes| >= MAX_NODES
    {
      var children: seq<nat> := [];
      for index := 0 to |domains[variable]|
        invariant |children| == index
        invariant forall i :: 0 <= i < index ==>
                    children[i] == if domains[variable][i] == route then TRUE else FALSE
      {
        children := children + [if domains[variable][index] == route then TRUE else FALSE];
      }
      r := MakeNode(variable, children);
    }

    method ApplyBinary(op: Op, left: nat, right: nat) returns (r: Outcome)
      requires Valid() && left < |nodes| && right < |nodes|
      modifies this
      ensures Valid() && old(nodes) <= nodes
      ensures r.Made? ==> Joins(domains, nodes, op, left, right, r.id)
      ensures r.TooManyNodes? ==> |nodes| >= MAX_NODES
      decreases
        |domains| + 1 - (if VariableOf(domains, nodes, left) < VariableOf(domains, nodes, right)
                         then VariableOf(domains, nodes, left) else VariableOf(domains, nodes, right))
    {
      var l, h := left, right;
      if l > h {
        l, h := h, l;
      }
      if op == And {
        if l == FALSE || h == FALSE { return Made(FALSE); }
        if l == TRUE { return Made(h); }
      } else {
        if h == TRUE || l == TRUE { return Made(TRUE); }
        if l == FALSE { return Made(h); }
      }
      if l == h { return Made(l); }
      if (op, l, h) in joined {
        assert Joins(domains, nodes, op, l, h, joined[(op, l, h)]);
        return Made(joined[(op, l, h)]);
      }
      r := ApplyInner(op, l, h);
      if r.Made? {
        joined := joined[(op, l, h) := r.id];
      }
    }

    // The part of applyBinary that descends into both diagrams.
    method ApplyInner(op: Op, l: nat, h: nat) returns (r: Outcome)
      requires Valid() && TRUE < l < |nodes| && TRUE < h < |nodes|
      modifies this
      ensures Valid() && old(nodes) <= nodes
      ensures r.Made? ==> Joins(domains, nodes, op, l, h, r.id)
      ensures r.TooManyNodes? ==> |nodes| >= MAX_NODES
      decreases
        |domains| + 1 - (if VariableOf(domains, nodes, l) < VariableOf(domains, nodes, h)
                         then VariableOf(domains, nodes, l) else VariableOf(domains, nodes, h)), 0
    {
      hide Complements, GoodCaches;
      assert GoodRow(domains, nodes, l) && GoodRow(domains, nodes, h);
      var variable: nat := if nodes[h].variable < nodes[l].variable then nodes[h].variable else nodes[l].variable;
      var children: seq<nat> := [];
      ghost var start := nodes;
      for choice := 0 to |domains[variable]|
        invariant Valid() && start <= nodes && |children| == choice
        invariant GoodRow(domains, nodes, l) && GoodRow(domains, nodes, h)
        invariant JoinedSoFar(domains, nodes, op, l, h, variable, children)
      {
        var leftChild := ChildOf(nodes, l, variable, choice);
        var rightChild := ChildOf(nodes, h, variable, choice);
        ghost var before := nodes;
        var value := ApplyBinary(op, leftChild, rightChild);
        if value.TooManyNodes? { return TooManyNodes; }
        JoinedMore(domains, before, nodes, op, l, h, variable, children, value.id);
        children := children + [value.id];
      }
      ghost var before := nodes;
      r := MakeNode(variable, children);
      if r.Made? {
        JoinFromChildren(domains, before, nodes, op, l, h, variable, children, r.id);
      }
    }

    method Not(value: nat) returns (r: Outcome)
      requires Valid() && value < |nodes|
      modifies this
      ensures Valid() && old(nodes) <= nodes
      ensures r.Made? ==> Complements(domains, nodes, value, r.id)
      ensures r.TooManyNodes? ==> |nodes| >= MAX_NODES
      decreases value
    {
      hide Joins;
      if value == FALSE { return Made(TRUE); }
      if value == TRUE { return Made(FALSE); }
      if value in negated {
        return Made(negated[value]);
      }
      var node := nodes[value];
      assert GoodRow(domains, nodes, value);
      var children: seq<nat> := [];
      ghost var start := nodes;
      for index := 0 to |node.children|
        invariant Valid() && start <= nodes
        invariant |children| == index && GoodRow(domains, nodes, value)
        invariant ComplementedSoFar(domains, nodes, value, children)
      {
        ghost var before := nodes;
        var result := Not(node.children[index]);
        if result.TooManyNodes? { return TooManyNodes; }
        ComplementedMore(domains, before, nodes, value, children, result.id);
        children := children + [result.id];
      }
      ghost var before := nodes;
      r := MakeNode(node.variable, children);
      if r.Made? {
        ComplementFromChildren(domains, before, nodes, value, children, r.id);
        negated := negated[value := r.id];
      }
    }
  }

  function ChildOf(nodes: seq<Node>, id: nat, variable: int, choice: nat): nat
    requires id < |nodes|
    requires id > TRUE && nodes[id].variable == variable ==> choice < |nodes[id].children|
  {
    if id <= TRUE || nodes[id].variable != variable then id else nodes[id].children[choice]
  }

  // The first |children| children of l and h have been joined, choice by choice.
  ghost predicate JoinedSoFar(domains: seq<seq<string>>, nodes: seq<Node>, op: Op, l: nat, h: nat,
                              variable: nat, children: seq<nat>)
    requires WellFormed(domains, nodes)
    requires TRUE < l < |nodes| && TRUE < h < |nodes| && variable < |domains|
    requires GoodRow(domains, nodes, l) && GoodRow(domains, nodes, h)
    requires |children| <= |domains[variable]|
  {
    forall i :: 0 <= i < |children| ==>
      && ChildOf(nodes, l, variable, i) < |nodes| && ChildOf(nodes, h, variable, i) < |nodes|
      && children[i] < |nodes|
      && Joins(domains, nodes, op, ChildOf(nodes, l, variable, i), ChildOf(nodes, h, variable, i), children[i])
  }

  lemma JoinedMore(domains: seq<seq<string>>, nodes: seq<Node>, more: seq<Node>, op: Op, l: nat, h: nat,
                   variable: nat, children: seq<nat>, value: nat)
    requires WellFormed(domains, nodes) && WellFormed(domains, more) && nodes <= more
    requires TRUE < l < |nodes| && TRUE < h < |nodes| && variable < |domains|
    requires GoodRow(domains, nodes, l) && GoodRow(domains, nodes, h)
    requires |children| < |domains[variable]|
    requires JoinedSoFar(domains, nodes, op, l, h, variable, children)
    requires Joins(domains, more, op, ChildOf(nodes, l, variable, |children|),
                   ChildOf(nodes, h, variable, |children|), value)
    ensures GoodRow(domains, more, l) && GoodRow(domains, more, h)
    ensures JoinedSoFar(domains, more, op, l, h, variable, children + [value])
  {
    assert more[l] == nodes[l] && more[h] == nodes[h];
    forall i | 0 <= i < |children|
      ensures Joins(domains, more, op, ChildOf(more, l, variable, i), ChildOf(more, h, variable, i), children[i])
    {
      JoinsStable(domains, nodes, more, op, ChildOf(nodes, l, variable, i), ChildOf(nodes, h, variable, i), children[i]);
    }
  }

  lemma EvalChildOf(domains: seq<seq<string>>, nodes: seq<Node>, id: nat, variable: nat, choice: seq<nat>)
    requires WellFormed(domains, nodes) && TRUE < id < |nodes| && IsAssignment(domains, choice)
    requires GoodRow(domains, nodes, id) && variable < |domains|
    ensures ChildOf(nodes, id, variable, choice[variable]) < |nodes|
    ensures Eval(domains, nodes, id, choice)
            == Eval(domains, nodes, ChildOf(nodes, id, variable, choice[variable]), choice)
  {
  }

  // A row over the joined children of l and h is the join of l and h.
  lemma JoinFromChildren(domains: seq<seq<string>>, nodes: seq<Node>, more: seq<Node>, op: Op, l: nat, h: nat,
                         variable: nat, children: seq<nat>, id: nat)
    requires WellFormed(domains, nodes) && WellFormed(domains, more) && nodes <= more
    requires TRUE < l < |nodes| && TRUE < h < |nodes| && id < |more| && variable < |domains|
    requires GoodRow(domains, nodes, l) && GoodRow(domains, nodes, h)
    requires nodes[l].variable == variable || nodes[h].variable == variable
    requires |children| == |domains[variable]| && VariableOf(domains, more, id) >= variable
    requires JoinedSoFar(domains, nodes, op, l, h, variable, children)
    requires forall choice :: IsAssignment(domains, choice) ==>
               Eval(domains, more, id, choice) == Eval(domains, more, children[choice[variable]], choice)
    ensures Joins(domains, more, op, l, h, id)
  {
    forall choice | IsAssignment(domains, choice)
      ensures Eval(domains, more, id, choice)
              == Combine(op, Eval(domains, more, l, choice), Eval(domains, more, h, choice))
    {
      var i := choice[variable];
      EvalChildOf(domains, nodes, l, variable, choice);
      EvalChildOf(domains, nodes, h, variable, choice);
      EvalStable(domains, nodes, more, children[i], choice);
      EvalStable(domains, nodes, more, l, choice);
      EvalStable(domains, nodes, more, h, choice);
    }
  }

  // The first |children| children of value have been negated, choice by choice.
  ghost predicate ComplementedSoFar(domains: seq<seq<string>>, nodes: seq<Node>, value: nat, children: seq<nat>)
    requires WellFormed(domains, nodes) && TRUE < value < |nodes| && GoodRow(domains, nodes, value)
    requires |children| <= |nodes[value].children|
  {
    forall i :: 0 <= i < |children| ==>
      children[i] < |nodes| && Complements(domains, nodes, nodes[value].children[i], children[i])
  }

  lemma ComplementedMore(domains: seq<seq<string>>, nodes: seq<Node>, more: seq<Node>, value: nat, children: seq<nat>, id: nat)
    requires WellFormed(domains, nodes) && WellFormed(domains, more) && nodes <= more
    requires TRUE < value < |nodes| && GoodRow(domains, nodes, value) && |children| < |nodes[value].children|
    requires ComplementedSoFar(domains, nodes, value, children)
    requires Complements(domains, more, nodes[value].children[|children|], id)
    ensures GoodRow(domains, more, value) && ComplementedSoFar(domains, more, value, children + [id])
  {
    assert more[value] == nodes[value];
    forall i | 0 <= i < |children| ensures Complements(domains, more, nodes[value].children[i], children[i]) {
      ComplementsStable(domains, nodes, more, nodes[value].children[i], children[i]);
    }
  }

  lemma ComplementFromChildren(domains: seq<seq<string>>, nodes: seq<Node>, more: seq<Node>, value: nat,
                               children: seq<nat>, id: nat)
    requires WellFormed(domains, nodes) && WellFormed(domains, more) && nodes <= more
    requires TRUE < value < |nodes| && id < |more| && GoodRow(domains, nodes, value)
    requires |children| == |nodes[value].children| && VariableOf(domains, more, id) >= nodes[value].variable
    requires ComplementedSoFar(domains, nodes, value, children)
    requires forall choice :: IsAssignment(domains, choice) ==>
               Eval(domains, more, id, choice) == Eval(domains, more, children[choice[nodes[value].variable]], choice)
    ensures Complements(domains, more, value, id)
  {
    forall choice | IsAssignment(domains, choice)
      ensures Eval(domains, more, id, choice) == !Eval(domains, more, value, choice)
    {
      var i := choice[nodes[value].variable];
      assert Complements(domains, nodes, nodes[value].children[i], children[i]);
      EvalStable(domains, nodes, more, children[i], choice);
      EvalStable(domains, nodes, more, value, choice);
    }
  }
}
