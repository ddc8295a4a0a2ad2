/** Directed graphs given as a sequence of stated edges, possibly with repetitions. */
module Graph {
  import opened Sequences

  /** A node, by identity. */
  type Node = nat
  type Edge = (Node, Node)

  ghost predicate IsWalk(E: seq<Edge>, w: seq<Node>) {
    forall i | 0 <= i < |w| - 1 :: (w[i], w[i + 1]) in E
  }

  ghost predicate IsCycle(E: seq<Edge>, w: seq<Node>) {
    |w| >= 2 && w[0] == w[|w| - 1] && IsWalk(E, w)
  }

  ghost predicate Acyclic(E: seq<Edge>) {
    !exists w: seq<Node> :: IsCycle(E, w)
  }

  /** `u` stands before `v` in the order `o`. */
  ghost predicate Before(o: seq<Node>, u: Node, v: Node) {
    exists i, j :: 0 <= i < j < |o| && o[i] == u && o[j] == v
  }

  function InDegree(E: seq<Edge>, v: Node): nat {
    if E == [] then 0 else InDegree(E[..|E| - 1], v) + if E[|E| - 1].1 == v then 1 else 0
  }

  function Preds(E: seq<Edge>, v: Node): set<Node> {
    set e | e in E && e.1 == v :: e.0
  }

  /** No edge into `v` is stated twice. */
  ghost predicate NoRepeatInto(E: seq<Edge>, v: Node) {
    forall i, j :: 0 <= i < j < |E| && E[i] == E[j] ==> E[i].1 != v
  }

  lemma PredsGrow(E: seq<Edge>, e: Edge, v: Node)
    ensures Preds(E + [e], v) == Preds(E, v) + if e.1 == v then {e.0} else {}
  {
    assert forall f :: f in E + [e] <==> f in E || f == e;
  }

  lemma NoRepeatGrows(E: seq<Edge>, e: Edge, v: Node)
    ensures NoRepeatInto(E + [e], v) <==> NoRepeatInto(E, v) && (e.1 == v ==> e !in E)
  {
    var E' := E + [e];
    assert forall i | 0 <= i < |E| :: E'[i] == E[i];
    assert E'[|E|] == e;
  }

  /** The stated in-degree exceeds the number of predecessors exactly when some edge is repeated. */
  lemma {:induction false} InDegreeCountsPreds(E: seq<Edge>, v: Node)
    ensures |Preds(E, v)| <= InDegree(E, v)
    ensures |Preds(E, v)| == InDegree(E, v) <==> NoRepeatInto(E, v)
  {
    if E == [] {
      assert Preds(E, v) == {};
    } else {
      var E', e := E[..|E| - 1], E[|E| - 1];
      assert E == E' + [e];
      InDegreeCountsPreds(E', v);
      PredsGrow(E', e, v);
      NoRepeatGrows(E', e, v);
      if e.1 == v {
        assert e.0 in Preds(E', v) <==> e in E';
      }
    }
  }

  /** Along a walk the position in a topological order strictly increases. */
  lemma {:induction false} WalkClimbs(E: seq<Edge>, o: seq<Node>, w: seq<Node>, k: nat)
    requires Distinct(o) && forall e | e in E :: Before(o, e.0, e.1)
    requires IsWalk(E, w) && 0 < k < |w|
    ensures Before(o, w[0], w[k])
  {
    assert (w[k - 1], w[k]) in E;
    if k > 1 {
      WalkClimbs(E, o, w, k - 1);
      assert Before(o, w[k - 1], w[k]);
    }
  }

  lemma OrderedIsAcyclic(E: seq<Edge>, o: seq<Node>)
    requires Distinct(o) && forall e | e in E :: Before(o, e.0, e.1)
    ensures Acyclic(E)
  {
    forall w: seq<Node> | IsCycle(E, w)
      ensures false
    {
      WalkClimbs(E, o, w, |w| - 1);
    }
  }

  /** `v` has a predecessor in `L`. */
  ghost predicate WaitsIn(E: seq<Edge>, L: set<Node>, v: Node) {
    exists u :: u in L && (u, v) in E
  }

  /** A walk of any length inside `L`, extended backwards along predecessors. */
  lemma {:induction false} BackwardWalk(E: seq<Edge>, L: set<Node>, n: nat) returns (w: seq<Node>)
    requires L != {} && forall v | v in L :: WaitsIn(E, L, v)
    ensures |w| == n + 1 && IsWalk(E, w) && forall x | x in w :: x in L
  {
    if n == 0 {
      var v :| v in L;
      w := [v];
    } else {
      var w' := BackwardWalk(E, L, n - 1);
      assert WaitsIn(E, L, w'[0]);
      var u :| u in L && (u, w'[0]) in E;
      w := [u] + w';
      forall i | 0 <= i < |w| - 1
        ensures (w[i], w[i + 1]) in E
      {
        if i > 0 { assert (w'[i - 1], w'[i]) in E; }
      }
    }
  }

  /** If everything left over waits for something left over, there is a cycle. */
  lemma StuckHasCycle(E: seq<Edge>, L: set<Node>)
    requires L != {} && forall v | v in L :: WaitsIn(E, L, v)
    ensures !Acyclic(E)
  {
    var w := BackwardWalk(E, L, |L|);
    DistinctCardinality(w);
    assert SetOf(w) <= L;
    SubsetSize(SetOf(w), L);
    var i, j :| 0 <= i < j < |w| && w[i] == w[j];
    var c := w[i..j + 1];
    assert IsCycle(E, c) by {
      forall k | 0 <= k < |c| - 1
        ensures (c[k], c[k + 1]) in E
      {
        assert (w[i + k], w[i + k + 1]) in E;
      }
    }
  }

  lemma {:induction false} SubsetSize(a: set<Node>, b: set<Node>)
    requires a <= b
    ensures |a| <= |b|
    ensures |a| == |b| ==> a == b
  {
    if a != {} {
      var x :| x in a;
      SubsetSize(a - {x}, b - {x});
    }
  }

  lemma MeetGrows(a: set<Node>, b: set<Node>, c: Node)
    requires c !in b
    ensures |a * (b + {c})| == |a * b| + if c in a then 1 else 0
  {
    if c in a {
      assert a * (b + {c}) == a * b + {c};
    } else {
      assert a * (b + {c}) == a * b;
    }
  }
}
