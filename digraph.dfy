/**
 * Directed graphs given as a list of (source, target) entries in insertion order, with
 * repeated entries allowed: the facts both topological sorts of the model rest on.
 */
module Digraphs {

  /** No element occurs twice. */
  ghost predicate Distinct<T>(s: seq<T>)
  {
    forall i, j :: 0 <= i < j < |s| ==> s[i] != s[j]
  }

  /** A walk along entries of `E`. */
  ghost predicate IsPath<T>(E: seq<(T, T)>, p: seq<T>)
  {
    |p| >= 1 && forall i :: 0 <= i < |p| - 1 ==> (p[i], p[i + 1]) in E
  }

  /** A walk of at least one step that comes back to where it started. */
  ghost predicate IsCycle<T>(E: seq<(T, T)>, p: seq<T>)
  {
    IsPath(E, p) && |p| >= 2 && p[0] == p[|p| - 1]
  }

  /** The graph has a cycle (for node types without references, where this can be a predicate). */
  ghost predicate HasCycle<T(!new)>(E: seq<(T, T)>)
  {
    exists p :: IsCycle(E, p)
  }

  /** Every entry of `E` leads from an earlier position of `order` to a later one. */
  ghost predicate RespectsEdges<T>(order: seq<T>, E: seq<(T, T)>)
  {
    forall i, j :: 0 <= i < |order| && 0 <= j < |order| && (order[i], order[j]) in E ==> i < j
  }

  /** Both ends of every entry are among `nodes`. */
  ghost predicate EdgesWithin<T>(E: seq<(T, T)>, nodes: set<T>)
  {
    forall e :: e in E ==> e.0 in nodes && e.1 in nodes
  }

  /** `order` lists each of `nodes` exactly once, every entry of `E` pointing forward. */
  ghost predicate IsTopologicalOrder<T>(order: seq<T>, nodes: set<T>, E: seq<(T, T)>)
  {
    && Distinct(order)
    && (forall x :: x in order ==> x in nodes)
    && (forall x :: x in nodes ==> x in order)
    && RespectsEdges(order, E)
  }

  // ------------------------------------------------------------------
  // Counting
  // ------------------------------------------------------------------

  /** Appending an element not yet present keeps the elements distinct. */
  lemma DistinctSnoc<T>(s: seq<T>, x: T)
    requires Distinct(s) && x !in s
    ensures Distinct(s + [x])
  {
    forall i, j | 0 <= i < j < |s + [x]|
      ensures (s + [x])[i] != (s + [x])[j]
    {
      assert (s + [x])[i] == s[i];
      if j < |s| {
        assert (s + [x])[j] == s[j];
      }
    }
  }

  lemma {:induction false} DistinctCard<T>(s: seq<T>)
    requires Distinct(s)
    ensures |set x | x in s| == |s|
  {
    if s != [] {
      DistinctCard(s[1..]);
      assert (set x | x in s) == {s[0]} + (set x | x in s[1..]);
      assert s[0] !in (set x | x in s[1..]);
    }
  }

  lemma {:induction false} SubsetCard<T>(a: set<T>, b: set<T>)
    requires a <= b
    ensures |a| <= |b|
    ensures |a| == |b| ==> a == b
    decreases |b|
  {
    if b != {} {
      var x :| x in b;
      SubsetCard(a - {x}, b - {x});
      if x in a {
        assert a == (a - {x}) + {x};
      } else {
        assert a - {x} == a;
      }
    } else {
      assert a == {};
    }
  }

  /** A sequence longer than the set its elements come from repeats an element. */
  lemma Pigeonhole<T>(p: seq<T>, R: set<T>)
    requires forall i :: 0 <= i < |p| ==> p[i] in R
    requires |p| > |R|
    ensures exists i, j :: 0 <= i < j < |p| && p[i] == p[j]
  {
    if Distinct(p) {
      DistinctCard(p);
      SubsetCard((set x | x in p), R);
      assert false;
    }
  }

  /** A distinct list drawn from `nodes` that is as long as `nodes` lists all of them. */
  lemma DistinctCovers<T>(order: seq<T>, nodes: set<T>)
    requires Distinct(order)
    requires forall x :: x in order ==> x in nodes
    ensures |order| <= |nodes|
    ensures |order| == |nodes| ==> forall x :: x in nodes ==> x in order
  {
    DistinctCard(order);
    SubsetCard((set x | x in order), nodes);
  }

  // ------------------------------------------------------------------
  // Topological orders exclude cycles; a stuck set contains one
  // ------------------------------------------------------------------

  function IndexOf<T(==)>(s: seq<T>, x: T): (i: nat)
    requires x in s
    ensures i < |s| && s[i] == x
  {
    if s[0] == x then 0 else 1 + IndexOf(s[1..], x)
  }

  lemma {:induction false} PathMovesForward<T>(order: seq<T>, E: seq<(T, T)>, p: seq<T>, k: nat)
    requires Distinct(order) && RespectsEdges(order, E)
    requires IsPath(E, p) && 1 <= k < |p|
    requires forall i :: 0 <= i < |p| ==> p[i] in order
    ensures IndexOf(order, p[0]) < IndexOf(order, p[k])
  {
    var a, b := IndexOf(order, p[k - 1]), IndexOf(order, p[k]);
    assert (order[a], order[b]) in E;
    if k > 1 {
      PathMovesForward(order, E, p, k - 1);
    }
  }

  /** A graph whose nodes admit a topological order has no cycle. */
  lemma TopologicalOrderAcyclic<T>(order: seq<T>, nodes: set<T>, E: seq<(T, T)>)
    requires IsTopologicalOrder(order, nodes, E)
    requires EdgesWithin(E, nodes)
    ensures forall p :: !IsCycle(E, p)
  {
    forall p | IsCycle(E, p)
      ensures false
    {
      forall i | 0 <= i < |p|
        ensures p[i] in order
      {
        if i < |p| - 1 {
          assert (p[i], p[i + 1]) in E;
        } else {
          assert (p[i - 1], p[i]) in E;
        }
      }
      PathMovesForward(order, E, p, |p| - 1);
    }
  }

  /** An edge into the first node of a path extends the path backwards. */
  lemma PathPrepend<T>(E: seq<(T, T)>, u: T, p: seq<T>)
    requires IsPath(E, p) && (u, p[0]) in E
    ensures IsPath(E, [u] + p)
  {
    var q := [u] + p;
    forall i | 0 <= i < |q| - 1
      ensures (q[i], q[i + 1]) in E
    {
      if i > 0 {
        assert q[i] == p[i - 1] && q[i + 1] == p[i];
      }
    }
  }

  lemma SubPath<T>(E: seq<(T, T)>, p: seq<T>, i: nat, j: nat)
    requires IsPath(E, p) && i <= j < |p|
    ensures IsPath(E, p[i..j + 1])
  {
    var q := p[i..j + 1];
    forall k | 0 <= k < |q| - 1
      ensures (q[k], q[k + 1]) in E
    {
      assert q[k] == p[i + k] && q[k + 1] == p[i + k + 1];
    }
  }

  /** Some member of `R` has an entry into `v`. */
  ghost predicate HasPredIn<T>(E: seq<(T, T)>, R: set<T>, v: T)
  {
    exists u :: u in R && (u, v) in E
  }

  /**
   * If every member of a non-empty set has a predecessor inside the set, walking backwards
   * from any member must revisit a node: the graph has a cycle.
   */
  lemma StuckSetHasCycle<T>(E: seq<(T, T)>, R: set<T>)
    requires R != {}
    requires forall v {:trigger HasPredIn(E, R, v)} :: v in R ==> HasPredIn(E, R, v)
    ensures exists p :: IsCycle(E, p)
  {
    var v0 :| v0 in R;
    var p := [v0];
    while |p| <= |R|
      invariant IsPath(E, p)
      invariant forall i :: 0 <= i < |p| ==> p[i] in R
      decreases |R| + 1 - |p|
    {
      assert p[0] in R && HasPredIn(E, R, p[0]);
      var u :| u in R && (u, p[0]) in E;
      PathPrepend(E, u, p);
      p := [u] + p;
    }
    Pigeonhole(p, R);
    var i, j :| 0 <= i < j < |p| && p[i] == p[j];
    SubPath(E, p, i, j);
    assert IsCycle(E, p[i..j + 1]);
  }

  // ------------------------------------------------------------------
  // Entries per node, for in-degree bookkeeping
  // ------------------------------------------------------------------

  /** The targets of the entries leaving `u`, in insertion order. */
  function Targets<T(==)>(E: seq<(T, T)>, u: T): seq<T>
  {
    if E == [] then []
    else Targets(E[..|E| - 1], u) + (if E[|E| - 1].0 == u then [E[|E| - 1].1] else [])
  }

  /** The sources of the entries entering `v`, in insertion order. */
  function Sources<T(==)>(E: seq<(T, T)>, v: T): seq<T>
  {
    if E == [] then []
    else Sources(E[..|E| - 1], v) + (if E[|E| - 1].1 == v then [E[|E| - 1].0] else [])
  }

  lemma TargetsAppend<T>(E: seq<(T, T)>, e: (T, T), u: T)
    ensures Targets(E + [e], u) == Targets(E, u) + (if e.0 == u then [e.1] else [])
    ensures Sources(E + [e], u) == Sources(E, u) + (if e.1 == u then [e.0] else [])
  {
    assert (E + [e])[..|E|] == E;
  }

  lemma {:induction false} TargetsMembers<T>(E: seq<(T, T)>, u: T, v: T)
    ensures v in Targets(E, u) <==> (u, v) in E
  {
    if E != [] {
      TargetsMembers(E[..|E| - 1], u, v);
      assert E == E[..|E| - 1] + [E[|E| - 1]];
    }
  }

  /** How often `x` occurs in `s`. */
  function Occ<T(==)>(s: seq<T>, x: T): nat
  {
    if s == [] then 0 else Occ(s[..|s| - 1], x) + (if s[|s| - 1] == x then 1 else 0)
  }

  lemma {:induction false} OccAppend<T>(a: seq<T>, b: seq<T>, x: T)
    ensures Occ(a + b, x) == Occ(a, x) + Occ(b, x)
    decreases |b|
  {
    if b == [] {
      assert a + b == a;
    } else {
      assert (a + b)[..|a + b| - 1] == a + b[..|b| - 1];
      OccAppend(a, b[..|b| - 1], x);
    }
  }

  /** Taking one more element of `s` adds that element's occurrence. */
  lemma OccTake<T>(s: seq<T>, j: nat, x: T)
    requires j < |s|
    ensures Occ(s[..j + 1], x) == Occ(s[..j], x) + (if s[j] == x then 1 else 0)
  {
    assert s[..j + 1][..j] == s[..j];
  }

  lemma {:induction false} OccPositive<T>(s: seq<T>, i: nat)
    requires i < |s|
    ensures Occ(s[..i], s[i]) < Occ(s, s[i])
  {
    OccAppend(s[..i], s[i..], s[i]);
    assert s == s[..i] + s[i..];
    assert s[i..] == [s[i]] + s[i + 1..];
    OccAppend([s[i]], s[i + 1..], s[i]);
    assert [s[i]][..0] == [];
  }

  /** The entries entering `v` whose source is not in `P`. */
  function CountFrom<T(==)>(E: seq<(T, T)>, v: T, P: set<T>): nat
  {
    if E == [] then 0
    else CountFrom(E[..|E| - 1], v, P) + (if E[|E| - 1].1 == v && E[|E| - 1].0 !in P then 1 else 0)
  }

  lemma {:induction false} CountFromNone<T>(E: seq<(T, T)>, v: T)
    ensures CountFrom(E, v, {}) == |Sources(E, v)|
  {
    if E != [] {
      CountFromNone(E[..|E| - 1], v);
    }
  }

  /** Marking `c` as done removes exactly its entries into `v` from the count. */
  lemma {:induction false} CountFromStep<T>(E: seq<(T, T)>, v: T, P: set<T>, c: T)
    requires c !in P
    ensures CountFrom(E, v, P + {c}) + Occ(Targets(E, c), v) == CountFrom(E, v, P)
  {
    if E != [] {
      var E' := E[..|E| - 1];
      CountFromStep(E', v, P, c);
      var t := if E[|E| - 1].0 == c then [E[|E| - 1].1] else [];
      OccAppend(Targets(E', c), t, v);
    }
  }

  lemma {:induction false} CountFromZero<T>(E: seq<(T, T)>, v: T, P: set<T>)
    ensures CountFrom(E, v, P) == 0 <==> forall u :: (u, v) in E ==> u in P
  {
    if E != [] {
      var E' := E[..|E| - 1];
      CountFromZero(E', v, P);
      assert E == E' + [E[|E| - 1]];
      forall u | (u, v) in E
        ensures (u, v) in E' || (u, v) == E[|E| - 1]
      {
      }
    }
  }

  lemma CountFromShrinks<T>(E: seq<(T, T)>, v: T, P: set<T>, Q: set<T>)
    requires P <= Q
    requires CountFrom(E, v, P) == 0
    ensures CountFrom(E, v, Q) == 0
  {
    CountFromZero(E, v, P);
    CountFromZero(E, v, Q);
  }
}
