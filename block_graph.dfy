/**
 * The graph of paraconsistent blocks (`mrn/core/graph.py`): blocks, the connections that
 * feed a destination attribute from a function of several source ports, the topological
 * order of the blocks, and one run of the whole graph.
 */
module BlockGraphs {
  import opened Wrappers
  import opened Digraphs
  import Block
  import opened RealMath

  type Blk = Block.ParaconsistentBlock

  /** One origin of a connection: a block, one of its ports, and the reader of a field of it. */
  datatype Source = Source(block: Blk, port: string, reader: Block.Field)

  /** What evaluating a connection's function can raise. */
  datatype EvalError =
    | ZeroDivision  // a division by 0.0
    | MissingInput  // a leaf asked for an input the list does not have

  /** The function of a connection: from the values read at its sources to a number. */
  type Func = seq<Block.PortValue> -> Result<real, EvalError>

  datatype Connection = Connection(sources: seq<Source>, func: Func, dest: Blk, destAttr: string)

  datatype GraphError =
    | SelfLoop                          // a source block is the destination block
    | CycleDetected                     // `_topo_blocks` could not order every block
    | KeyError                          // a destination outside the graph's blocks
    | BlockFailure(error: Block.BlockError)
    | EvalFailure(cause: EvalError)

  // ------------------------------------------------------------------
  // Dependencies
  // ------------------------------------------------------------------

  /** One entry (source block, destination block) per source of the connection. */
  function SourceEdges(ss: seq<Source>, dest: Blk): (r: seq<(Blk, Blk)>)
    ensures |r| == |ss|
    ensures forall j :: 0 <= j < |ss| ==> r[j] == (ss[j].block, dest)
  {
    seq(|ss|, j requires 0 <= j < |ss| => (ss[j].block, dest))
  }

  /** Every dependency the connections create, connection by connection, in order. */
  function DepEdges(cs: seq<Connection>): seq<(Blk, Blk)>
  {
    if cs == [] then [] else DepEdges(cs[..|cs| - 1]) + SourceEdges(cs[|cs| - 1].sources, cs[|cs| - 1].dest)
  }

  lemma {:induction false} DepEdgesMembers(cs: seq<Connection>, u: Blk, v: Blk)
    ensures (u, v) in DepEdges(cs) <==>
      exists i, j :: 0 <= i < |cs| && 0 <= j < |cs[i].sources| && cs[i].sources[j].block == u && cs[i].dest == v
  {
    if cs != [] {
      var n := |cs| - 1;
      DepEdgesMembers(cs[..n], u, v);
      var tail := SourceEdges(cs[n].sources, cs[n].dest);
      if (u, v) in tail {
        var j :| 0 <= j < |tail| && tail[j] == (u, v);
        assert cs[n].sources[j].block == u && cs[n].dest == v;
      }
      if exists i, j :: 0 <= i < |cs| && 0 <= j < |cs[i].sources| && cs[i].sources[j].block == u && cs[i].dest == v {
        var i, j :| 0 <= i < |cs| && 0 <= j < |cs[i].sources| && cs[i].sources[j].block == u && cs[i].dest == v;
        if i == n {
          assert tail[j] == (u, v);
        } else {
          assert cs[..n][i] == cs[i];
        }
      }
    }
  }

  /** The blocks of a list, as a set. */
  function Members(blocks: seq<Blk>): set<Blk>
  {
    set b | b in blocks
  }

  /** The blocks `v` depends on. */
  function Preds(E: seq<(Blk, Blk)>, v: Blk): set<Blk>
  {
    set e | e in E && e.1 == v :: e.0
  }

  lemma PredsAppend(A: seq<(Blk, Blk)>, B: seq<(Blk, Blk)>, v: Blk)
    ensures Preds(A + B, v) == Preds(A, v) + Preds(B, v)
  {
  }

  lemma PredsMembers(E: seq<(Blk, Blk)>, u: Blk, v: Blk)
    ensures u in Preds(E, v) <==> (u, v) in E
  {
    if u in Preds(E, v) {
      var e :| e in E && e.1 == v && e.0 == u;
      assert e == (u, v);
    }
  }

  /** Some connection with at least one source points at a block outside `blocks`. */
  ghost predicate DanglingDest(blocks: seq<Blk>, cs: seq<Connection>)
  {
    exists i :: 0 <= i < |cs| && cs[i].sources != [] && cs[i].dest !in blocks
  }

  /** Each block's set holds exactly the blocks the edges say it depends on. */
  ghost predicate DepsOf(deps: map<Blk, set<Blk>>, E: seq<(Blk, Blk)>)
  {
    forall v :: v in deps ==> deps[v] == Preds(E, v)
  }

  /** Adding one source to its destination's set follows one more edge. */
  lemma AddSource(deps: map<Blk, set<Blk>>, E: seq<(Blk, Blk)>, ss: seq<Source>, j: int, dest: Blk)
    requires 0 <= j < |ss| && dest in deps
    requires DepsOf(deps, E + SourceEdges(ss[..j], dest))
    ensures deps[dest := deps[dest] + {ss[j].block}].Keys == deps.Keys
    ensures DepsOf(deps[dest := deps[dest] + {ss[j].block}], E + SourceEdges(ss[..j + 1], dest))
  {
    var before := E + SourceEdges(ss[..j], dest);
    var after := E + SourceEdges(ss[..j + 1], dest);
    assert SourceEdges(ss[..j + 1], dest) == SourceEdges(ss[..j], dest) + [(ss[j].block, dest)];
    assert after == before + [(ss[j].block, dest)];
    forall v | v in deps
      ensures Preds(after, v) == Preds(before, v) + (if v == dest then {ss[j].block} else {})
    {
      PredsAppend(before, [(ss[j].block, dest)], v);
    }
  }

  lemma NoDeps(blocks: seq<Blk>, deps: map<Blk, set<Blk>>)
    requires deps == map b | b in blocks :: {}
    ensures deps.Keys == Members(blocks)
    ensures DepsOf(deps, DepEdges([]))
  {
  }

  /**
   * The first loop of `_topo_blocks`: a set of dependencies per block, each source of each
   * connection added to its destination's set; a destination that is not one of the blocks is
   * a KeyError as soon as it has a source.
   */
  method CollectDeps(blocks: seq<Blk>, cs: seq<Connection>) returns (res: Result<map<Blk, set<Blk>>, GraphError>)
    ensures res.Err? <==> DanglingDest(blocks, cs)
    ensures res.Err? ==> res.error == KeyError
    ensures res.Ok? ==> res.value.Keys == Members(blocks)
    ensures res.Ok? ==> forall v :: v in res.value ==> res.value[v] == Preds(DepEdges(cs), v)
    ensures res.Ok? ==> forall e :: e in DepEdges(cs) ==> e.1 in blocks
  {
    var deps: map<Blk, set<Blk>> := map b | b in blocks :: {};
    NoDeps(blocks, deps);
    var i := 0;
    assert cs[..0] == [];
    while i < |cs|
      invariant 0 <= i <= |cs|
      invariant deps.Keys == Members(blocks)
      invariant DepsOf(deps, DepEdges(cs[..i]))
      invariant !DanglingDest(blocks, cs[..i])
    {
      var c := cs[i];
      assert cs[..i + 1][..i] == cs[..i];
      var j := 0;
      assert DepEdges(cs[..i]) + SourceEdges(c.sources[..0], c.dest) == DepEdges(cs[..i]);
      while j < |c.sources|
        invariant 0 <= j <= |c.sources|
        invariant deps.Keys == Members(blocks)
        invariant j > 0 ==> c.dest in blocks
        invariant DepsOf(deps, DepEdges(cs[..i]) + SourceEdges(c.sources[..j], c.dest))
      {
        if c.dest !in deps {
          assert cs[i].sources != [] && cs[i].dest !in blocks;
          return Err(KeyError);
        }
        AddSource(deps, DepEdges(cs[..i]), c.sources, j, c.dest);
        deps := deps[c.dest := deps[c.dest] + {c.sources[j].block}];
        j := j + 1;
      }
      assert c.sources[..j] == c.sources;
      assert DepEdges(cs[..i + 1]) == DepEdges(cs[..i]) + SourceEdges(c.sources, c.dest);
      i := i + 1;
    }
    assert cs[..i] == cs;
    forall e | e in DepEdges(cs)
      ensures e.1 in blocks
    {
      DepEdgesMembers(cs, e.0, e.1);
    }
    res := Ok(deps);
  }

  // ------------------------------------------------------------------
  // Kahn's algorithm over the dependency sets
  // ------------------------------------------------------------------

  /** The blocks whose in-degree is still positive. */
  function Pending(indeg: map<Blk, int>): set<Blk>
  {
    set v | v in indeg && indeg[v] > 0
  }

  /** Each ordered block comes after all its dependencies. */
  ghost predicate DepsFirst(order: seq<Blk>, deps: map<Blk, set<Blk>>)
  {
    forall k :: 0 <= k < |order| ==> order[k] in deps && deps[order[k]] <= Members(order[..k])
  }

  /**
   * The invariant of `_topo_blocks`'s main loop for a list of distinct blocks: each in-degree
   * counts the dependencies not yet ordered; `order` and `q` hold distinct blocks, exactly
   * those whose count reached 0; each ordered block comes after all its dependencies.
   */
  ghost predicate KahnState(B: set<Blk>, deps: map<Blk, set<Blk>>, indeg: map<Blk, int>,
                            order: seq<Blk>, q: seq<Blk>, done: set<Blk>)
  {
    && deps.Keys == B && indeg.Keys == B
    && (forall v :: v in B ==> indeg[v] == |deps[v] - done|)
    && done == Members(order)
    && Distinct(order + q)
    && (forall x :: x in order + q ==> x in B)
    && (forall v :: v in B ==> ((v in order || v in q) <==> indeg[v] == 0))
    && DepsFirst(order, deps)
  }

  lemma KahnStart(blocks: seq<Blk>, deps: map<Blk, set<Blk>>, indeg: map<Blk, int>, q: seq<Blk>)
    requires Distinct(blocks)
    requires deps.Keys == Members(blocks)
    requires indeg.Keys == Members(blocks) && forall v :: v in indeg ==> indeg[v] == |deps[v]|
    requires forall x :: x in q <==> x in blocks && indeg[x] == 0
    requires forall i, j :: 0 <= i < j < |q| ==> q[i] != q[j]
    ensures KahnState(Members(blocks), deps, indeg, [], q, {})
  {
    NothingOrdered(deps);
    StartQueue(blocks, indeg, q);
    StartCounts(deps, indeg);
  }

  lemma NothingOrdered(deps: map<Blk, set<Blk>>)
    ensures {} == Members([]) && DepsFirst([], deps)
  {
  }

  lemma StartCounts(deps: map<Blk, set<Blk>>, indeg: map<Blk, int>)
    requires forall v :: v in indeg ==> v in deps && indeg[v] == |deps[v]|
    ensures forall v :: v in indeg ==> indeg[v] == |deps[v] - {}|
  {
    forall v | v in indeg
      ensures indeg[v] == |deps[v] - {}|
    {
      assert deps[v] - {} == deps[v];
    }
  }

  lemma StartQueue(blocks: seq<Blk>, indeg: map<Blk, int>, q: seq<Blk>)
    requires forall b :: b in blocks ==> b in indeg
    requires forall x :: x in q <==> x in blocks && indeg[x] == 0
    requires forall i, j :: 0 <= i < j < |q| ==> q[i] != q[j]
    ensures Distinct([] + q) && (forall x :: x in [] + q ==> x in Members(blocks))
    ensures forall v :: v in Members(blocks) ==> ((v in [] || v in q) <==> indeg[v] == 0)
  {
    assert [] + q == q;
  }

  /** A set whose count of members outside `done` is 0 lies within `done`. */
  lemma NoneLeft(S: set<Blk>, done: set<Blk>)
    requires |S - done| == 0
    ensures S <= done
  {
    assert S - done == {};
    forall u | u in S
      ensures u in done
    {
      assert u !in S - done;
    }
  }

  /** Moving the head of the queue to the order: what the inner loop starts from. */
  lemma KahnTake(B: set<Blk>, deps: map<Blk, set<Blk>>, indeg: map<Blk, int>,
                 order: seq<Blk>, q: seq<Blk>, done: set<Blk>)
    requires KahnState(B, deps, indeg, order, q, done) && q != []
    ensures q[0] in B && q[0] !in done
    ensures Queued(B, order + [q[0]], q[1..], indeg)
    ensures deps[q[0]] <= done
  {
    assert order + q == (order + [q[0]]) + q[1..];
    assert (order + q)[|order|] == q[0];
    forall i | 0 <= i < |order|
      ensures order[i] != q[0]
    {
      assert (order + q)[i] == order[i];
    }
    assert q[0] in B && indeg[q[0]] == 0;
    NoneLeft(deps[q[0]], done);
    forall v | v in B
      ensures (v in order + [q[0]] || v in q[1..]) <==> (v in order || v in q)
    {
      assert v in q <==> v == q[0] || v in q[1..];
    }
  }

  /** Ordering `u` removes it from the count of exactly the blocks that depend on it. */
  lemma CountAfterTake(S: set<Blk>, done: set<Blk>, u: Blk)
    requires u !in done
    ensures u in S ==> |S - (done + {u})| == |S - done| - 1
    ensures u !in S ==> S - (done + {u}) == S - done
  {
    if u in S {
      assert S - done == (S - (done + {u})) + {u};
    }
  }

  /** Blocks before position `j` are counted against `done + {u}`, the others against `done`. */
  ghost predicate CountsAt(blocks: seq<Blk>, deps: map<Blk, set<Blk>>, done: set<Blk>, u: Blk,
                           j: int, indeg: map<Blk, int>)
    requires 0 <= j <= |blocks|
  {
    && deps.Keys == Members(blocks) && indeg.Keys == Members(blocks)
    && (forall k :: 0 <= k < j ==> indeg[blocks[k]] == |deps[blocks[k]] - (done + {u})|)
    && (forall k :: j <= k < |blocks| ==> indeg[blocks[k]] == |deps[blocks[k]] - done|)
  }

  /** `order'` and the queue hold distinct blocks of `B`, exactly those whose count is 0. */
  ghost predicate Queued(B: set<Blk>, order': seq<Blk>, q: seq<Blk>, indeg: map<Blk, int>)
  {
    && indeg.Keys == B
    && Distinct(order' + q)
    && (forall x :: x in order' + q ==> x in B)
    && (forall v :: v in B ==> ((v in order' || v in q) <==> indeg[v] == 0))
  }

  lemma ReleaseStart(blocks: seq<Blk>, deps: map<Blk, set<Blk>>, done: set<Blk>, u: Blk, indeg: map<Blk, int>)
    requires deps.Keys == Members(blocks) && indeg.Keys == Members(blocks)
    requires forall v :: v in Members(blocks) ==> indeg[v] == |deps[v] - done|
    ensures CountsAt(blocks, deps, done, u, 0, indeg)
  {
    forall k | 0 <= k < |blocks|
      ensures indeg[blocks[k]] == |deps[blocks[k]] - done|
    {
      assert blocks[k] in Members(blocks);
    }
  }

  lemma UpdateKeys(m: map<Blk, int>, v: Blk, x: int)
    requires v in m
    ensures m[v := x].Keys == m.Keys
  {
  }

  /** One pass of the inner loop, as far as the counts go, on a list of distinct blocks. */
  lemma CountsStep(blocks: seq<Blk>, deps: map<Blk, set<Blk>>, done: set<Blk>, u: Blk,
                   j: int, indeg: map<Blk, int>)
    requires Distinct(blocks) && 0 <= j < |blocks| && u !in done
    requires CountsAt(blocks, deps, done, u, j, indeg)
    ensures u in deps[blocks[j]] ==> indeg[blocks[j]] >= 1
    ensures u in deps[blocks[j]] ==> CountsAt(blocks, deps, done, u, j + 1, indeg[blocks[j] := indeg[blocks[j]] - 1])
    ensures u !in deps[blocks[j]] ==> CountsAt(blocks, deps, done, u, j + 1, indeg)
  {
    var v := blocks[j];
    CountAfterTake(deps[v], done, u);
    if u in deps[v] {
      var indeg' := indeg[v := indeg[v] - 1];
      UpdateKeys(indeg, v, indeg[v] - 1);
      forall k | 0 <= k < |blocks| && k != j
        ensures indeg'[blocks[k]] == indeg[blocks[k]]
      {
      }
    }
  }

  /** A decrement that leaves the count above 0 keeps the queue as it is. */
  lemma QueuedDecrement(B: set<Blk>, order': seq<Blk>, q: seq<Blk>, indeg: map<Blk, int>, v: Blk)
    requires Queued(B, order', q, indeg) && v in B && indeg[v] > 1
    ensures Queued(B, order', q, indeg[v := indeg[v] - 1])
  {
    UpdateKeys(indeg, v, indeg[v] - 1);
  }

  /** A decrement that brings the count to 0 queues the block. */
  lemma QueuedRelease(B: set<Blk>, order': seq<Blk>, q: seq<Blk>, indeg: map<Blk, int>, v: Blk)
    requires Queued(B, order', q, indeg) && v in B && indeg[v] == 1
    ensures Queued(B, order', q + [v], indeg[v := 0])
  {
    UpdateKeys(indeg, v, 0);
    assert v !in order' + q;
    DistinctSnoc(order' + q, v);
    assert (order' + q) + [v] == order' + (q + [v]);
  }

  /** The count of pending blocks and queued blocks together never grows in the inner loop. */
  lemma PendingStep(indeg: map<Blk, int>, v: Blk)
    requires v in indeg
    ensures indeg[v] == 1 ==> |Pending(indeg[v := indeg[v] - 1])| + 1 == |Pending(indeg)|
    ensures indeg[v] != 1 ==> |Pending(indeg[v := indeg[v] - 1])| <= |Pending(indeg)|
  {
    var m := indeg[v := indeg[v] - 1];
    if indeg[v] == 1 {
      assert Pending(indeg) == Pending(m) + {v};
    } else {
      assert Pending(m) == Pending(indeg);
    }
  }

  /**
   * The inner loop of `_topo_blocks`, once `u` is ordered: every block of the list that depends
   * on `u` is decremented, and joins the queue when it reaches 0.
   */
  method ReleaseDeps(blocks: seq<Blk>, deps: map<Blk, set<Blk>>, u: Blk, indeg: map<Blk, int>,
                     q: seq<Blk>, ghost order': seq<Blk>, ghost done: set<Blk>)
    returns (indeg': map<Blk, int>, q': seq<Blk>)
    requires deps.Keys == Members(blocks) && indeg.Keys == Members(blocks)
    requires Distinct(blocks) ==>
      u !in done && CountsAt(blocks, deps, done, u, 0, indeg) && Queued(Members(blocks), order', q, indeg)
    ensures indeg'.Keys == Members(blocks)
    ensures |q'| + |Pending(indeg')| <= |q| + |Pending(indeg)|
    ensures forall x :: x in q' ==> x in q || x in blocks
    ensures Distinct(blocks) ==>
      CountsAt(blocks, deps, done, u, |blocks|, indeg') && Queued(Members(blocks), order', q', indeg')
  {
    indeg', q' := indeg, q;
    var j := 0;
    while j < |blocks|
      invariant 0 <= j <= |blocks|
      invariant indeg'.Keys == Members(blocks)
      invariant |q'| + |Pending(indeg')| <= |q| + |Pending(indeg)|
      invariant forall x :: x in q' ==> x in q || x in blocks
      invariant Distinct(blocks) ==>
        CountsAt(blocks, deps, done, u, j, indeg') && Queued(Members(blocks), order', q', indeg')
    {
      var v := blocks[j];
      if Distinct(blocks) {
        CountsStep(blocks, deps, done, u, j, indeg');
      }
      if u in deps[v] {
        PendingStep(indeg', v);
        UpdateKeys(indeg', v, indeg'[v] - 1);
        if indeg'[v] == 1 {
          if Distinct(blocks) {
            QueuedRelease(Members(blocks), order', q', indeg', v);
          }
          indeg' := indeg'[v := 0];
          q' := q' + [v];
        } else {
          if Distinct(blocks) {
            QueuedDecrement(Members(blocks), order', q', indeg', v);
          }
          indeg' := indeg'[v := indeg'[v] - 1];
        }
      }
      j := j + 1;
    }
  }

  /** Appending a block whose dependencies are all ordered keeps dependencies first. */
  lemma DepsFirstSnoc(order: seq<Blk>, deps: map<Blk, set<Blk>>, u: Blk)
    requires DepsFirst(order, deps) && u in deps && deps[u] <= Members(order)
    ensures DepsFirst(order + [u], deps)
  {
    var order' := order + [u];
    forall k | 0 <= k < |order'|
      ensures order'[k] in deps && deps[order'[k]] <= Members(order'[..k])
    {
      if k < |order| {
        assert order'[..k] == order[..k];
      } else {
        assert order'[..k] == order;
      }
    }
  }

  /** After the inner loop: the state of the main loop, one block further. */
  lemma KahnStep(blocks: seq<Blk>, deps: map<Blk, set<Blk>>, order: seq<Blk>, u: Blk, done: set<Blk>,
                 indeg: map<Blk, int>, q: seq<Blk>)
    requires CountsAt(blocks, deps, done, u, |blocks|, indeg) && Queued(Members(blocks), order + [u], q, indeg)
    requires done == Members(order) && DepsFirst(order, deps)
    requires u in deps && deps[u] <= done
    ensures KahnState(Members(blocks), deps, indeg, order + [u], q, done + {u})
  {
    DepsFirstSnoc(order, deps, u);
    forall v | v in Members(blocks)
      ensures indeg[v] == |deps[v] - (done + {u})|
    {
      var k := IndexOf(blocks, v);
    }
    assert done + {u} == Members(order + [u]);
  }

  /**
   * What Kahn's loop knows when it stops: the dependency sets are those of `E`, each count is
   * the number of unordered dependencies, and the blocks not ordered have a count other than 0.
   */
  ghost predicate Counted(blocks: seq<Blk>, deps: map<Blk, set<Blk>>, E: seq<(Blk, Blk)>,
                          indeg: map<Blk, int>, order: seq<Blk>, done: set<Blk>)
  {
    && deps.Keys == Members(blocks) && indeg.Keys == Members(blocks) && done == Members(order)
    && (forall v :: v in deps ==> deps[v] == Preds(E, v) && indeg[v] == |deps[v] - done|)
    && (forall v :: v in blocks && v !in order ==> indeg[v] != 0)
  }

  /** A block whose count of unordered dependencies is not 0 has such a dependency. */
  lemma UnorderedDep(S: set<Blk>, done: set<Blk>, n: int) returns (w: Blk)
    requires n == |S - done| && n != 0
    ensures w in S && w !in done
  {
    w :| w in S - done;
  }

  /** Each block left over depends on another block left over. */
  lemma StuckPreds(blocks: seq<Blk>, deps: map<Blk, set<Blk>>, E: seq<(Blk, Blk)>, indeg: map<Blk, int>,
                   order: seq<Blk>, done: set<Blk>, stuck: set<Blk>)
    requires Counted(blocks, deps, E, indeg, order, done)
    requires EdgesWithin(E, Members(blocks))
    requires stuck == set v | v in Members(blocks) && v !in order
    ensures forall v {:trigger HasPredIn(E, stuck, v)} :: v in stuck ==> HasPredIn(E, stuck, v)
  {
    forall v | v in stuck
      ensures HasPredIn(E, stuck, v)
    {
      var w := UnorderedDep(deps[v], done, indeg[v]);
      PredsMembers(E, w, v);
    }
  }

  /** The blocks left over, when there are some, lie on a cycle. */
  lemma StuckCycle(blocks: seq<Blk>, deps: map<Blk, set<Blk>>, E: seq<(Blk, Blk)>, indeg: map<Blk, int>,
                   order: seq<Blk>, done: set<Blk>)
    requires Counted(blocks, deps, E, indeg, order, done)
    requires EdgesWithin(E, Members(blocks))
    requires exists x :: x in Members(blocks) && x !in order
    ensures exists p :: IsCycle(E, p)
  {
    var stuck := set v | v in Members(blocks) && v !in order;
    var x :| x in Members(blocks) && x !in order;
    assert x in stuck;
    StuckPreds(blocks, deps, E, indeg, order, done, stuck);
    StuckSetHasCycle(E, stuck);
  }

  lemma NotAllOrdered(order: seq<Blk>, B: set<Blk>, n: nat)
    requires Distinct(order) && forall x :: x in order ==> x in B
    requires |B| == n && |order| != n
    ensures exists x :: x in B && x !in order
  {
    DistinctCovers(order, B);
    var taken := set x | x in order;
    DistinctCard(order);
    assert taken <= B && taken != B;
  }

  /**
   * When the queue runs dry before every block is ordered, the blocks left over each have an
   * unordered dependency; if all dependencies are blocks of the graph they form a cycle.
   */
  lemma KahnStuck(blocks: seq<Blk>, deps: map<Blk, set<Blk>>, E: seq<(Blk, Blk)>, indeg: map<Blk, int>,
                  order: seq<Blk>, done: set<Blk>)
    requires Distinct(blocks) && Distinct(order) && forall x :: x in order ==> x in blocks
    requires Counted(blocks, deps, E, indeg, order, done)
    requires |order| != |blocks|
    ensures (exists p :: IsCycle(E, p)) || !EdgesWithin(E, Members(blocks))
  {
    var B := Members(blocks);
    DistinctCard(blocks);
    NotAllOrdered(order, B, |blocks|);
    if EdgesWithin(E, B) {
      StuckCycle(blocks, deps, E, indeg, order, done);
    }
  }

  /** An entry into an ordered block comes from a block ordered before it. */
  lemma DepBefore(order: seq<Blk>, deps: map<Blk, set<Blk>>, E: seq<(Blk, Blk)>, j: nat, u: Blk)
    requires DepsFirst(order, deps) && j < |order|
    requires forall v :: v in deps ==> deps[v] == Preds(E, v)
    requires (u, order[j]) in E
    ensures u in order[..j]
  {
    PredsMembers(E, u, order[j]);
  }

  /** When every block is ordered, the order is topological and the graph has no cycle. */
  lemma KahnComplete(blocks: seq<Blk>, deps: map<Blk, set<Blk>>, E: seq<(Blk, Blk)>, order: seq<Blk>)
    requires Distinct(blocks) && Distinct(order) && forall x :: x in order ==> x in blocks
    requires DepsFirst(order, deps)
    requires forall v :: v in deps ==> deps[v] == Preds(E, v)
    requires forall e :: e in E ==> e.1 in blocks
    requires |order| == |blocks|
    ensures IsTopologicalOrder(order, Members(blocks), E)
    ensures EdgesWithin(E, Members(blocks))
    ensures forall p :: !IsCycle(E, p)
  {
    var B := Members(blocks);
    DistinctCard(blocks);
    DistinctCovers(order, B);
    forall e | e in E
      ensures e.0 in B && e.1 in B
    {
      DepBefore(order, deps, E, IndexOf(order, e.1), e.0);
    }
    forall i, j | 0 <= i < |order| && 0 <= j < |order| && (order[i], order[j]) in E
      ensures i < j
    {
      DepBefore(order, deps, E, j, order[i]);
      var k := IndexOf(order[..j], order[i]);
      assert order[k] == order[i];
    }
    TopologicalOrderAcyclic(order, B, E);
  }

  lemma InDegreeKeys(blocks: seq<Blk>, deps: map<Blk, set<Blk>>)
    requires deps.Keys == Members(blocks)
    ensures (map b | b in blocks :: |deps[b]|).Keys == Members(blocks)
  {
  }

  /** Where Kahn's loop stops, on a list of distinct blocks. */
  lemma KahnEnd(blocks: seq<Blk>, deps: map<Blk, set<Blk>>, E: seq<(Blk, Blk)>, indeg: map<Blk, int>,
                order: seq<Blk>, done: set<Blk>)
    requires Distinct(blocks)
    requires KahnState(Members(blocks), deps, indeg, order, [], done)
    requires forall v :: v in deps ==> deps[v] == Preds(E, v)
    requires forall e :: e in E ==> e.1 in blocks
    ensures |order| == |blocks| ==>
      IsTopologicalOrder(order, Members(blocks), E) && EdgesWithin(E, Members(blocks)) && forall p :: !IsCycle(E, p)
    ensures |order| != |blocks| ==> (exists p :: IsCycle(E, p)) || !EdgesWithin(E, Members(blocks))
  {
    assert order + [] == order;
    if |order| == |blocks| {
      KahnComplete(blocks, deps, E, order);
    } else {
      KahnStuck(blocks, deps, E, indeg, order, done);
    }
  }

  /**
   * The rest of `_topo_blocks`: in-degrees are the sizes of the dependency sets, the queue
   * starts with the blocks of in-degree 0 in list order, and ordering a block decrements every
   * block (in list order) that depends on it, queueing those that reach 0. Fewer ordered
   * blocks than listed is a ValueError. For a list without repeats the result is a
   * topological order; the failure means a cycle, or a dependency on a block not in the list.
   */
  method Kahn(blocks: seq<Blk>, deps: map<Blk, set<Blk>>, ghost E: seq<(Blk, Blk)>)
    returns (res: Result<seq<Blk>, GraphError>)
    requires deps.Keys == Members(blocks)
    requires forall v :: v in deps ==> deps[v] == Preds(E, v)
    requires forall e :: e in E ==> e.1 in blocks
    ensures res.Err? ==> res.error == CycleDetected
    ensures res.Ok? ==> forall x :: x in res.value ==> x in blocks
    ensures Distinct(blocks) && res.Ok? ==>
      IsTopologicalOrder(res.value, Members(blocks), E) && EdgesWithin(E, Members(blocks))
      && forall p :: !IsCycle(E, p)
    ensures Distinct(blocks) && res.Err? ==> (exists p :: IsCycle(E, p)) || !EdgesWithin(E, Members(blocks))
  {
    var indeg: map<Blk, int> := map b | b in blocks :: |deps[b]|;
    InDegreeKeys(blocks, deps);
    var q := FilterZero(blocks, indeg);
    var order: seq<Blk> := [];
    ghost var done: set<Blk> := {};
    if Distinct(blocks) {
      KahnStart(blocks, deps, indeg, q);
    }
    while q != []
      invariant indeg.Keys == Members(blocks)
      invariant forall x :: x in order + q ==> x in blocks
      invariant Distinct(blocks) ==> KahnState(Members(blocks), deps, indeg, order, q, done)
      decreases |q| + |Pending(indeg)|
    {
      var u := q[0];
      if Distinct(blocks) {
        KahnTake(Members(blocks), deps, indeg, order, q, done);
        ReleaseStart(blocks, deps, done, u, indeg);
      }
      var indeg', q' := ReleaseDeps(blocks, deps, u, indeg, q[1..], order + [u], done);
      if Distinct(blocks) {
        KahnStep(blocks, deps, order, u, done, indeg', q');
      }
      indeg, q := indeg', q';
      order := order + [u];
      done := done + {u};
    }
    if Distinct(blocks) {
      KahnEnd(blocks, deps, E, indeg, order, done);
    }
    if |order| != |blocks| {
      return Err(CycleDetected);
    }
    res := Ok(order);
  }

  /** `[b for b in blocks if indeg[b] == 0]`. */
  method FilterZero(blocks: seq<Blk>, indeg: map<Blk, int>) returns (q: seq<Blk>)
    requires forall b :: b in blocks ==> b in indeg
    ensures forall x :: x in q <==> x in blocks && indeg[x] == 0
    ensures Distinct(blocks) ==> forall i, j :: 0 <= i < j < |q| ==> q[i] != q[j]
  {
    q := [];
    var i := 0;
    while i < |blocks|
      invariant 0 <= i <= |blocks|
      invariant forall x :: x in q <==> x in blocks[..i] && indeg[x] == 0
      invariant Distinct(blocks) ==> forall a, b :: 0 <= a < b < |q| ==> q[a] != q[b]
    {
      assert blocks[..i + 1] == blocks[..i] + [blocks[i]];
      if indeg[blocks[i]] == 0 {
        if Distinct(blocks) {
          assert blocks[i] !in blocks[..i];
        }
        q := q + [blocks[i]];
      }
      i := i + 1;
    }
    assert blocks[..i] == blocks;
  }

  // ------------------------------------------------------------------
  // One run of the graph, over the states of the blocks it touches
  // ------------------------------------------------------------------

  /** The state of every block a run may read or write. */
  type World = map<Blk, Block.BlockState>

  ghost predicate WorldValid(W: World)
  {
    forall b :: b in W ==> Block.Coherent(b.hypot, W[b])
  }

  /** The names `read_port` answers. */
  predicate IsPort(name: string)
  {
    name == "in" || name == "input" || name == "complete" || name == "classified" || name == "class"
  }

  predicate SourcesIn(W: World, ss: seq<Source>)
  {
    forall j :: 0 <= j < |ss| ==> ss[j].block in W
  }

  /** Every block the connections read or write has a state in the world. */
  predicate Closed(W: World, cs: seq<Connection>)
  {
    forall i :: 0 <= i < |cs| ==> cs[i].dest in W && SourcesIn(W, cs[i].sources)
  }

  predicate NotDest(cs: seq<Connection>, x: Blk)
  {
    forall i :: 0 <= i < |cs| ==> cs[i].dest != x
  }

  /**
   * `x` kept its inputs and parameters from `W` to `W'`, and a computed record it had in `W`
   * is still there in `W'`.
   */
  predicate Settled(W: World, W': World, x: Blk)
    requires x in W
  {
    && x in W'
    && W'[x].muIn == W[x].muIn && W'[x].lamIn == W[x].lamIn && W'[x].params == W[x].params
    && (W[x].complete.Some? ==> W'[x].complete.Some?)
  }

  /** What one read hands back: for "in" the inputs, for "complete" the record of the inputs. */
  ghost predicate ReadsCurrent(W: World, s: Source, v: Block.PortValue)
    requires s.block in W
  {
    var st := W[s.block];
    && (s.port == "in" || s.port == "input" ==> v == Block.InSig(st.muIn, st.lamIn))
    && (s.port == "complete" ==>
          v == Block.CompleteSig(Block.ComputeBlock(s.block.hypot, st.muIn, st.lamIn, st.params).0))
  }

  function Prefixed(vs: seq<Block.PortValue>, r: (World, Result<seq<Block.PortValue>, Block.BlockError>))
    : (World, Result<seq<Block.PortValue>, Block.BlockError>)
  {
    (r.0, if r.1.Ok? then Ok(vs + r.1.value) else r.1)
  }

  /**
   * `[src.read_port(port) for (src, port, _r) in c.sources]`: the ports are read in list order,
   * each read seeing what the earlier ones did; the first unknown port stops the list.
   */
  function ReadAll(W: World, ss: seq<Source>): (r: (World, Result<seq<Block.PortValue>, Block.BlockError>))
    requires SourcesIn(W, ss)
    ensures r.0.Keys == W.Keys
    ensures r.1.Err? <==> exists j :: 0 <= j < |ss| && !IsPort(ss[j].port)
    ensures r.1.Ok? ==> |r.1.value| == |ss|
    decreases |ss|
  {
    if ss == [] then (W, Ok([]))
    else
      var s := ss[0];
      var st := W[s.block];
      match Block.ReadStep(s.block.hypot, st, s.port)
      case Err(e) => (W, Err(e))
      case Ok((v, st')) =>
        assert SourcesIn(W[s.block := st'], ss[1..]) by {
          forall j | 0 <= j < |ss[1..]| ensures ss[1..][j].block in W { assert ss[1..][j] == ss[j + 1]; }
        }
        var rest := ReadAll(W[s.block := st'], ss[1..]);
        assert forall j :: 1 <= j < |ss| ==> ss[j] == ss[1..][j - 1];
        Prefixed([v], rest)
  }

  /** Reading never changes inputs or parameters, never drops a computed record, keeps caches coherent. */
  lemma {:induction false} ReadAllSettles(W: World, ss: seq<Source>)
    requires SourcesIn(W, ss)
    ensures forall x :: x in W ==> Settled(W, ReadAll(W, ss).0, x)
    ensures WorldValid(W) ==> WorldValid(ReadAll(W, ss).0)
  {
    if ss != [] {
      ReadAllUnfold(W, ss);
      var s := ss[0];
      var step := Block.ReadStep(s.block.hypot, W[s.block], s.port);
      if step.Ok? {
        var W1 := W[s.block := step.value.1];
        ReadAllSettles(W1, ss[1..]);
        assert forall x :: x in W ==> Settled(W, W1, x);
      }
    }
  }

  /**
   * On coherent states every value read from an input port is the source's inputs and every
   * value read from "complete" is the record of its inputs, whether cached or computed by an
   * earlier read in the same list.
   */
  lemma {:induction false} ReadAllCurrent(W: World, ss: seq<Source>)
    requires SourcesIn(W, ss) && WorldValid(W)
    ensures ReadAll(W, ss).1.Ok? ==>
      forall j :: 0 <= j < |ss| ==> ReadsCurrent(W, ss[j], ReadAll(W, ss).1.value[j])
  {
    if ss != [] && ReadAll(W, ss).1.Ok? {
      var s := ss[0];
      Block.ReadStepSpec(s.block.hypot, W[s.block], s.port);
      var (v, st') := Block.ReadStep(s.block.hypot, W[s.block], s.port).value;
      var W1 := W[s.block := st'];
      assert SourcesIn(W1, ss[1..]) by {
        forall j | 0 <= j < |ss[1..]| ensures ss[1..][j].block in W { assert ss[1..][j] == ss[j + 1]; }
      }
      ReadAllCurrent(W1, ss[1..]);
      var vs := ReadAll(W, ss).1.value;
      assert vs == [v] + ReadAll(W1, ss[1..]).1.value;
      forall j | 0 <= j < |ss|
        ensures ReadsCurrent(W, ss[j], vs[j])
      {
        if j > 0 {
          assert ss[j] == ss[1..][j - 1];
          assert Settled(W, W1, ss[j].block);
        }
      }
    }
  }

  /**
   * One connection of `run`'s inner loop: read its sources, evaluate its function, and merge
   * the value into the destination attribute; the first failure stops it.
   */
  function ApplyConnection(W: World, c: Connection): (r: (World, Option<GraphError>))
    requires c.dest in W && SourcesIn(W, c.sources)
    ensures r.0.Keys == W.Keys
    ensures r.1.None? || r.1.value.BlockFailure? || r.1.value.EvalFailure?
  {
    var (W1, ins) := ReadAll(W, c.sources);
    if ins.Err? then (W1, Some(BlockFailure(ins.error)))
    else
      match c.func(ins.value)
      case Err(e) => (W1, Some(EvalFailure(e)))
      case Ok(val) =>
        match Block.MergeStep(W1[c.dest], c.destAttr, val)
        case Err(e) => (W1, Some(BlockFailure(e)))
        case Ok(st) => (W1[c.dest := st], None)
  }

  /**
   * A connection succeeds exactly when its ports are known, its function yields a number and
   * its attribute is "mu", "lam" or "lambda"; the attribute then holds that number clamped
   * into [0,1], the other input keeps its value, and the caches of the destination are empty.
   */
  lemma ApplyConnectionSpec(W: World, c: Connection)
    requires c.dest in W && SourcesIn(W, c.sources)
    ensures var ins := ReadAll(W, c.sources).1;
      var (W', e) := ApplyConnection(W, c);
      && (e.None? <==> ins.Ok? && c.func(ins.value).Ok? && c.destAttr in {"mu", "lam", "lambda"})
      && (ins.Err? ==> e == Some(BlockFailure(ins.error)))
      && (ins.Ok? && c.func(ins.value).Err? ==> e == Some(EvalFailure(c.func(ins.value).error)))
      && (e.None? && c.destAttr == "mu" ==>
            W'[c.dest].muIn == Clamp01(c.func(ins.value).value) && W'[c.dest].lamIn == W[c.dest].lamIn)
      && (e.None? && c.destAttr != "mu" ==>
            W'[c.dest].lamIn == Clamp01(c.func(ins.value).value) && W'[c.dest].muIn == W[c.dest].muIn)
      && (e.None? ==> W'[c.dest].params == W[c.dest].params && W'[c.dest].complete.None?)
  {
    ReadAllSettles(W, c.sources);
  }

  /** A connection leaves every block but its destination settled, and keeps caches coherent. */
  lemma ApplyConnectionSettles(W: World, c: Connection)
    requires c.dest in W && SourcesIn(W, c.sources)
    ensures forall x :: x in W && x != c.dest ==> Settled(W, ApplyConnection(W, c).0, x)
    ensures WorldValid(W) ==> WorldValid(ApplyConnection(W, c).0)
  {
    ReadAllSettles(W, c.sources);
  }

  /** `for c in by_dest[b]`: the connections in list order, up to the first failure. */
  function ApplyAll(W: World, cs: seq<Connection>): (r: (World, Option<GraphError>))
    requires Closed(W, cs)
    ensures r.0.Keys == W.Keys
    ensures r.1.None? || r.1.value.BlockFailure? || r.1.value.EvalFailure?
    decreases |cs|
  {
    if cs == [] then (W, None)
    else
      var (W1, e) := ApplyConnection(W, cs[0]);
      if e.Some? then (W1, e)
      else
        ClosedTail(W1, cs);
        ApplyAll(W1, cs[1..])
  }

  lemma ClosedTail(W: World, cs: seq<Connection>)
    requires cs != [] && Closed(W, cs)
    ensures Closed(W, cs[1..])
  {
    forall i | 0 <= i < |cs[1..]| ensures cs[1..][i].dest in W && SourcesIn(W, cs[1..][i].sources)
    {
      assert cs[1..][i] == cs[i + 1];
    }
  }

  /** Connections leave every block that none of them writes settled, and keep caches coherent. */
  lemma {:induction false} ApplyAllSettles(W: World, cs: seq<Connection>)
    requires Closed(W, cs)
    ensures forall x :: x in W && NotDest(cs, x) ==> Settled(W, ApplyAll(W, cs).0, x)
    ensures WorldValid(W) ==> WorldValid(ApplyAll(W, cs).0)
    decreases |cs|
  {
    if cs != [] {
      ApplyConnectionSettles(W, cs[0]);
      var (W1, e) := ApplyConnection(W, cs[0]);
      if e.None? {
        ClosedTail(W1, cs);
        ApplyAllSettles(W1, cs[1..]);
        forall x | x in W && NotDest(cs, x)
          ensures NotDest(cs[1..], x) && x != cs[0].dest
        {
          forall i | 0 <= i < |cs[1..]| ensures cs[1..][i].dest != x { assert cs[1..][i] == cs[i + 1]; }
        }
      }
    }
  }

  /** `[c for c in connections if c.dest is b]`, in insertion order. */
  function Incoming(cs: seq<Connection>, b: Blk): seq<Connection>
  {
    if cs == [] then []
    else Incoming(cs[..|cs| - 1], b) + (if cs[|cs| - 1].dest == b then [cs[|cs| - 1]] else [])
  }

  /** Exactly the connections into `b`, and no more of them than there are connections. */
  lemma {:induction false} IncomingSpec(cs: seq<Connection>, b: Blk)
    ensures |Incoming(cs, b)| <= |cs|
    ensures forall k :: 0 <= k < |Incoming(cs, b)| ==> Incoming(cs, b)[k] in cs && Incoming(cs, b)[k].dest == b
    ensures forall i :: 0 <= i < |cs| && cs[i].dest == b ==> cs[i] in Incoming(cs, b)
  {
    if cs != [] {
      var n := |cs| - 1;
      IncomingSpec(cs[..n], b);
      var r := Incoming(cs, b);
      var front := Incoming(cs[..n], b);
      forall k | 0 <= k < |r|
        ensures r[k] in cs && r[k].dest == b
      {
        if k < |front| {
          assert r[k] == front[k];
          assert front[k] in cs[..n];
        }
      }
      forall i | 0 <= i < |cs| && cs[i].dest == b
        ensures cs[i] in r
      {
        if i < n {
          assert cs[i] == cs[..n][i];
        } else {
          assert r[|r| - 1] == cs[i];
        }
      }
    }
  }

  lemma IncomingSnoc(cs: seq<Connection>, k: int, b: Blk)
    requires 0 <= k < |cs|
    ensures Incoming(cs[..k + 1], b) == Incoming(cs[..k], b) + (if cs[k].dest == b then [cs[k]] else [])
  {
    assert cs[..k + 1][..k] == cs[..k];
  }

  lemma IncomingClosed(W: World, cs: seq<Connection>, b: Blk)
    requires Closed(W, cs)
    ensures Closed(W, Incoming(cs, b))
    ensures forall x :: x != b ==> NotDest(Incoming(cs, b), x)
    ensures NotDest(cs, b) ==> Incoming(cs, b) == []
  {
    var r := Incoming(cs, b);
    IncomingSpec(cs, b);
    forall i | 0 <= i < |r|
      ensures r[i].dest == b && r[i].dest in W && SourcesIn(W, r[i].sources)
    {
      assert r[i] in cs;
      var k :| 0 <= k < |cs| && cs[k] == r[i];
    }
  }

  /** The body of `run`'s main loop for one block: its incoming connections, then `compute`. */
  function RunBlock(W: World, b: Blk, cs: seq<Connection>): (r: (World, Option<GraphError>))
    requires Closed(W, cs) && b in W
    ensures r.0.Keys == W.Keys
    ensures r.1.None? || r.1.value.BlockFailure? || r.1.value.EvalFailure?
  {
    IncomingClosed(W, cs, b);
    var (W1, e) := ApplyAll(W, Incoming(cs, b));
    if e.Some? then (W1, e) else (W1[b := Block.ComputeStep(b.hypot, W1[b])], None)
  }

  /**
   * One block's turn leaves every other block settled, and the block itself too when no
   * connection writes it; without failure the block ends with a computed record.
   */
  lemma RunBlockSettles(W: World, b: Blk, cs: seq<Connection>)
    requires Closed(W, cs) && b in W
    ensures forall x :: x in W && (x != b || NotDest(cs, x)) ==> Settled(W, RunBlock(W, b, cs).0, x)
    ensures RunBlock(W, b, cs).1.None? ==> RunBlock(W, b, cs).0[b].complete.Some?
    ensures WorldValid(W) ==> WorldValid(RunBlock(W, b, cs).0)
  {
    IncomingClosed(W, cs, b);
    ApplyAllSettles(W, Incoming(cs, b));
  }

  /** The main loop of `run` from some block of the order on; the first failure stops it. */
  function RunBlocks(W: World, order: seq<Blk>, cs: seq<Connection>): (r: (World, Option<GraphError>))
    requires Closed(W, cs) && forall b :: b in order ==> b in W
    ensures r.0.Keys == W.Keys
    ensures r.1.None? || r.1.value.BlockFailure? || r.1.value.EvalFailure?
    decreases |order|
  {
    if order == [] then (W, None)
    else
      var (W1, e) := RunBlock(W, order[0], cs);
      if e.Some? then (W1, e) else RunBlocks(W1, order[1..], cs)
  }

  /**
   * A run leaves settled every block outside the order and every block no connection writes,
   * and keeps every cache coherent.
   */
  lemma {:induction false} RunBlocksSettles(W: World, order: seq<Blk>, cs: seq<Connection>)
    requires Closed(W, cs) && forall b :: b in order ==> b in W
    ensures forall x :: x in W && (x !in order || NotDest(cs, x)) ==> Settled(W, RunBlocks(W, order, cs).0, x)
    ensures WorldValid(W) ==> WorldValid(RunBlocks(W, order, cs).0)
    decreases |order|
  {
    if order != [] {
      RunBlockSettles(W, order[0], cs);
      var (W1, e) := RunBlock(W, order[0], cs);
      if e.None? {
        RunBlocksSettles(W1, order[1..], cs);
        assert forall x :: x in W && x !in order ==> x !in order[1..];
      }
    }
  }

  /** After a run without failure, every block of the order holds a computed record. */
  lemma {:induction false} RunFillsCaches(W: World, order: seq<Blk>, cs: seq<Connection>)
    requires Closed(W, cs) && forall b :: b in order ==> b in W
    requires RunBlocks(W, order, cs).1.None?
    ensures forall b :: b in order ==> RunBlocks(W, order, cs).0[b].complete.Some?
  {
    if order != [] {
      var W1 := RunBlock(W, order[0], cs).0;
      RunBlockSettles(W, order[0], cs);
      RunBlocksSettles(W1, order[1..], cs);
      RunFillsCaches(W1, order[1..], cs);
      forall x | x in order
        ensures RunBlocks(W, order, cs).0[x].complete.Some?
      {
        if x !in order[1..] {
          assert Settled(W1, RunBlocks(W1, order[1..], cs).0, x);
        }
      }
    }
  }

  // ------------------------------------------------------------------
  // The blocks themselves, driven as `run` drives them
  // ------------------------------------------------------------------

  /** The blocks of `W` hold exactly the states `W` gives them. */
  ghost predicate WorldIs(W: World)
    reads W.Keys
  {
    forall b :: b in W ==> b.State() == W[b]
  }

  lemma ReadAllUnfold(W: World, ss: seq<Source>)
    requires ss != [] && SourcesIn(W, ss)
    ensures var s := ss[0];
      var step := Block.ReadStep(s.block.hypot, W[s.block], s.port);
      && (step.Err? ==> ReadAll(W, ss) == (W, Err(step.error)))
      && (step.Ok? ==>
            && SourcesIn(W[s.block := step.value.1], ss[1..])
            && ReadAll(W, ss) == Prefixed([step.value.0], ReadAll(W[s.block := step.value.1], ss[1..])))
  {
    forall j | 0 <= j < |ss[1..]| ensures ss[1..][j].block in W { assert ss[1..][j] == ss[j + 1]; }
  }

  lemma PrefixedSnoc(vs: seq<Block.PortValue>, v: Block.PortValue, r: (World, Result<seq<Block.PortValue>, Block.BlockError>))
    ensures Prefixed(vs, Prefixed([v], r)) == Prefixed(vs + [v], r)
  {
    if r.1.Ok? {
      assert vs + ([v] + r.1.value) == (vs + [v]) + r.1.value;
    }
  }

  /** One `read_port` call, as the first step of reading a list of sources. */
  method ReadOne(ss: seq<Source>, ghost W: World) returns (r: Result<Block.PortValue, Block.BlockError>, ghost W': World)
    requires ss != [] && SourcesIn(W, ss) && WorldIs(W)
    modifies ss[0].block
    ensures W'.Keys == W.Keys && WorldIs(W')
    ensures r.Err? ==> W' == W && ReadAll(W, ss) == (W, Err(r.error))
    ensures r.Ok? ==> SourcesIn(W', ss[1..]) && ReadAll(W, ss) == Prefixed([r.value], ReadAll(W', ss[1..]))
  {
    ReadAllUnfold(W, ss);
    r := ss[0].block.ReadPort(ss[0].port);
    W' := if r.Ok? then W[ss[0].block := ss[0].block.State()] else W;
  }

  /** The reads of one connection's sources, in list order. */
  method ReadSources(ss: seq<Source>, ghost W: World) returns (res: Result<seq<Block.PortValue>, Block.BlockError>, ghost W': World)
    requires SourcesIn(W, ss) && WorldIs(W)
    modifies W.Keys
    ensures (W', res) == ReadAll(W, ss) && WorldIs(W')
  {
    var vals: seq<Block.PortValue> := [];
    W' := W;
    var j := 0;
    assert ss[0..] == ss;
    assert ReadAll(W, ss).1.Ok? ==> [] + ReadAll(W, ss).1.value == ReadAll(W, ss).1.value;
    while j < |ss|
      invariant 0 <= j <= |ss|
      invariant W'.Keys == W.Keys && WorldIs(W')
      invariant SourcesIn(W', ss[j..])
      invariant ReadAll(W, ss) == Prefixed(vals, ReadAll(W', ss[j..]))
    {
      assert ss[j..][1..] == ss[j + 1..];
      var r;
      r, W' := ReadOne(ss[j..], W');
      if r.Err? {
        return Err(r.error), W';
      }
      PrefixedSnoc(vals, r.value, ReadAll(W', ss[j + 1..]));
      vals := vals + [r.value];
      j := j + 1;
    }
    assert vals + [] == vals;
    res := Ok(vals);
  }

  /** One connection: read, evaluate, merge into the destination. */
  method Deliver(c: Connection, ghost W: World) returns (err: Option<GraphError>, ghost W': World)
    requires c.dest in W && SourcesIn(W, c.sources) && WorldIs(W)
    modifies W.Keys
    ensures (W', err) == ApplyConnection(W, c) && WorldIs(W')
  {
    var ins;
    ins, W' := ReadSources(c.sources, W);
    if ins.Err? {
      return Some(BlockFailure(ins.error)), W';
    }
    var val := c.func(ins.value);
    if val.Err? {
      return Some(EvalFailure(val.error)), W';
    }
    var m := c.dest.MergePartial(c.destAttr, val.value);
    if m.Err? {
      return Some(BlockFailure(m.error)), W';
    }
    W' := W'[c.dest := c.dest.State()];
    err := None;
  }

  /** The connections into one block, in list order, up to the first failure. */
  method DeliverAll(cs: seq<Connection>, ghost W: World) returns (err: Option<GraphError>, ghost W': World)
    requires Closed(W, cs) && WorldIs(W)
    modifies W.Keys
    ensures (W', err) == ApplyAll(W, cs) && WorldIs(W')
  {
    W' := W;
    var k := 0;
    assert cs[0..] == cs;
    while k < |cs|
      invariant 0 <= k <= |cs|
      invariant W'.Keys == W.Keys && WorldIs(W')
      invariant Closed(W', cs[k..])
      invariant ApplyAll(W, cs) == ApplyAll(W', cs[k..])
    {
      assert cs[k..][0] == cs[k] && cs[k..][1..] == cs[k + 1..];
      err, W' := Deliver(cs[k], W');
      if err.Some? {
        return;
      }
      k := k + 1;
    }
    err := None;
  }

  /** The state of each of the blocks `F`. */
  ghost function Snapshot(F: set<Blk>): (W: World)
    reads F
    ensures W.Keys == F && WorldIs(W)
  {
    map b | b in F :: b.State()
  }

  /** Every block the graph's blocks and connections name. */
  ghost function Touched(blocks: seq<Blk>, cs: seq<Connection>): set<Blk>
  {
    Members(blocks)
      + (set i, j | 0 <= i < |cs| && 0 <= j < |cs[i].sources| :: cs[i].sources[j].block)
      + (set i | 0 <= i < |cs| :: cs[i].dest)
  }

  lemma TouchedClosed(W: World, blocks: seq<Blk>, cs: seq<Connection>)
    requires W.Keys == Touched(blocks, cs)
    ensures Closed(W, cs) && forall b :: b in blocks ==> b in W
  {
    forall i | 0 <= i < |cs|
      ensures cs[i].dest in W && SourcesIn(W, cs[i].sources)
    {
      forall j | 0 <= j < |cs[i].sources|
        ensures cs[i].sources[j].block in W
      {
      }
    }
  }

  /** No connection reads the block it writes. */
  ghost predicate NoSelfLoops(cs: seq<Connection>)
  {
    forall i, j :: 0 <= i < |cs| && 0 <= j < |cs[i].sources| ==> cs[i].sources[j].block != cs[i].dest
  }

  /** Without self-loops no dependency points from a block to itself. */
  lemma NoSelfLoopEdges(cs: seq<Connection>, b: Blk)
    requires NoSelfLoops(cs)
    ensures (b, b) !in DepEdges(cs)
  {
    DepEdgesMembers(cs, b, b);
  }

  lemma StrayDest(blocks: seq<Blk>, cs: seq<Connection>, order: seq<Blk>)
    requires IsTopologicalOrder(order, Members(blocks), DepEdges(cs))
    requires exists i :: 0 <= i < |cs| && cs[i].dest !in order
    ensures exists i :: 0 <= i < |cs| && cs[i].dest !in blocks
  {
    var i :| 0 <= i < |cs| && cs[i].dest !in order;
    assert cs[i].dest !in Members(blocks);
  }

  /**
   * What `run` goes on with: an order of blocks of the graph holding every destination,
   * topological with every dependency inside the graph when the blocks are distinct.
   */
  ghost predicate Planned(blocks: seq<Blk>, cs: seq<Connection>, order: seq<Blk>)
  {
    && (forall x :: x in order ==> x in blocks)
    && (forall i :: 0 <= i < |cs| ==> cs[i].dest in order)
    && (Distinct(blocks) ==>
          IsTopologicalOrder(order, Members(blocks), DepEdges(cs)) && EdgesWithin(DepEdges(cs), Members(blocks)))
  }

  /** A planned run had nothing that could stop it before touching the blocks. */
  lemma PlannedOrderable(blocks: seq<Blk>, cs: seq<Connection>, order: seq<Blk>)
    requires Distinct(blocks) && Planned(blocks, cs, order)
    ensures forall i :: 0 <= i < |cs| ==> cs[i].dest in blocks
    ensures forall p :: !IsCycle(DepEdges(cs), p)
  {
    TopologicalOrderAcyclic(order, Members(blocks), DepEdges(cs));
  }

  /** What a run that got past ordering and grouping yields: the run specification's error. */
  ghost predicate RunSpecHolds(W: World, order: seq<Blk>, cs: seq<Connection>, err: Option<GraphError>)
  {
    Closed(W, cs) && (forall b :: b in order ==> b in W) && err == RunBlocks(W, order, cs).1
  }

  /**
   * `by_dest`: the connections grouped by destination block, in insertion order; a
   * destination outside the order is a KeyError (here `None`).
   */
  method GroupByDest(order: seq<Blk>, cs: seq<Connection>) returns (res: Option<map<Blk, seq<Connection>>>)
    ensures res.None? <==> exists i :: 0 <= i < |cs| && cs[i].dest !in order
    ensures res.Some? ==> forall b :: b in res.value <==> b in order
    ensures res.Some? ==> forall b :: b in res.value ==> res.value[b] == Incoming(cs, b)
  {
    var byDest: map<Blk, seq<Connection>> := map b | b in order :: [];
    var k := 0;
    while k < |cs|
      invariant 0 <= k <= |cs|
      invariant forall i :: 0 <= i < k ==> cs[i].dest in order
      invariant forall b :: b in byDest <==> b in order
      invariant forall b :: b in byDest ==> byDest[b] == Incoming(cs[..k], b)
    {
      var c := cs[k];
      if c.dest !in byDest {
        return None;
      }
      assert c.dest in order;
      forall b | b in byDest
        ensures Incoming(cs[..k + 1], b) == Incoming(cs[..k], b) + (if c.dest == b then [c] else [])
      {
        IncomingSnoc(cs, k, b);
      }
      byDest := byDest[c.dest := byDest[c.dest] + [c]];
      k := k + 1;
    }
    assert cs[..k] == cs;
    res := Some(byDest);
  }

  /** One block's turn in `run`: its incoming connections, then `compute`. */
  method RunOne(b: Blk, incoming: seq<Connection>, cs: seq<Connection>, ghost W: World)
    returns (err: Option<GraphError>, ghost W': World)
    requires incoming == Incoming(cs, b) && b in W
    requires Closed(W, cs) && WorldIs(W)
    modifies W.Keys
    ensures (W', err) == RunBlock(W, b, cs) && WorldIs(W')
  {
    IncomingClosed(W, cs, b);
    err, W' := DeliverAll(incoming, W);
    if err.Some? {
      return;
    }
    b.Compute();
    W' := W'[b := b.State()];
  }

  /** The main loop of `run`: each block of the order takes its connections, then `compute`. */
  method RunOrder(order: seq<Blk>, byDest: map<Blk, seq<Connection>>, cs: seq<Connection>, ghost W: World)
    returns (err: Option<GraphError>, ghost W': World)
    requires forall b :: b in order ==> b in byDest && byDest[b] == Incoming(cs, b) && b in W
    requires Closed(W, cs) && WorldIs(W)
    modifies W.Keys
    ensures (W', err) == RunBlocks(W, order, cs) && WorldIs(W')
  {
    W' := W;
    var i := 0;
    assert order[0..] == order;
    while i < |order|
      invariant 0 <= i <= |order|
      invariant W'.Keys == W.Keys && WorldIs(W') && Closed(W', cs)
      invariant RunBlocks(W, order, cs) == RunBlocks(W', order[i..], cs)
    {
      var b := order[i];
      assert order[i..][0] == b && order[i..][1..] == order[i + 1..];
      err, W' := RunOne(b, byDest[b], cs, W');
      if err.Some? {
        return;
      }
      i := i + 1;
    }
    err := None;
  }

  class BlockGraph {
    var blocks: seq<Blk>
    var connections: seq<Connection>

    /** `add_connection` is the only way in, so no connection reads the block it writes. */
    ghost predicate Valid()
      reads this
    {
      NoSelfLoops(connections)
    }

    constructor()
      ensures blocks == [] && connections == [] && Valid()
    {
      blocks := [];
      connections := [];
    }

    /** Every block a run may read or write. */
    ghost function Footprint(): set<Blk>
      reads this
    {
      Touched(blocks, connections)
    }

    /** `add_block`: each block now points back at this graph and is appended, in order. */
    method AddBlock(bs: seq<Blk>)
      modifies this, Members(bs)
      ensures blocks == old(blocks) + bs && connections == old(connections)
      ensures forall k :: 0 <= k < |bs| ==> bs[k].graph == this
      ensures forall k :: 0 <= k < |bs| ==> bs[k].State() == old(bs[k].State())
    {
      var i := 0;
      while i < |bs|
        invariant 0 <= i <= |bs|
        invariant blocks == old(blocks) + bs[..i] && connections == old(connections)
        invariant forall k :: 0 <= k < i ==> bs[k].graph == this
        invariant forall k :: 0 <= k < |bs| ==> bs[k].State() == old(bs[k].State())
      {
        bs[i].graph := this;
        blocks := blocks + [bs[i]];
        assert bs[..i + 1] == bs[..i] + [bs[i]];
        i := i + 1;
      }
      assert bs[..i] == bs;
    }

    /** `add_connection`: a source block that is the destination is refused, anything else appended. */
    method AddConnection(c: Connection) returns (res: Result<(), GraphError>)
      modifies this
      ensures res.Err? <==> exists j :: 0 <= j < |c.sources| && c.sources[j].block == c.dest
      ensures res.Err? ==> res.error == SelfLoop && connections == old(connections)
      ensures res.Ok? ==> connections == old(connections) + [c]
      ensures blocks == old(blocks)
      ensures old(Valid()) ==> Valid()
    {
      var j := 0;
      while j < |c.sources|
        invariant 0 <= j <= |c.sources|
        invariant forall k :: 0 <= k < j ==> c.sources[k].block != c.dest
      {
        if c.sources[j].block == c.dest {
          return Err(SelfLoop);
        }
        j := j + 1;
      }
      connections := connections + [c];
      res := Ok(());
    }

    /**
     * `_topo_blocks`: a KeyError for a destination outside the blocks; otherwise, for distinct
     * blocks, an order exactly when the dependencies have no cycle and name only blocks of the
     * graph, and that order is topological.
     */
    method TopoBlocks() returns (res: Result<seq<Blk>, GraphError>)
      ensures res.Err? ==> res.error == KeyError || res.error == CycleDetected
      ensures res.Err? && res.error == KeyError <==> DanglingDest(blocks, connections)
      ensures res.Ok? ==> forall x :: x in res.value ==> x in blocks
      ensures Distinct(blocks) && res.Ok? ==>
        IsTopologicalOrder(res.value, Members(blocks), DepEdges(connections))
        && EdgesWithin(DepEdges(connections), Members(blocks))
        && forall p :: !IsCycle(DepEdges(connections), p)
      ensures Distinct(blocks) && res.Err? && res.error == CycleDetected ==>
        (exists p :: IsCycle(DepEdges(connections), p)) || !EdgesWithin(DepEdges(connections), Members(blocks))
    {
      var deps := CollectDeps(blocks, connections);
      if deps.Err? {
        return Err(deps.error);
      }
      res := Kahn(blocks, deps.value, DepEdges(connections));
    }

    /**
     * The part of `run` before any block is touched: `_topo_blocks`, then `by_dest`. For
     * distinct blocks it fails exactly when some connection writes a block outside the graph,
     * the dependencies have a cycle, or a dependency is on a block outside the graph.
     */
    method Schedule() returns (res: Result<(seq<Blk>, map<Blk, seq<Connection>>), GraphError>)
      ensures res.Err? ==> res.error == KeyError || res.error == CycleDetected
      ensures Distinct(blocks) ==>
        (res.Err? <==>
          (exists i :: 0 <= i < |connections| && connections[i].dest !in blocks)
          || (exists p :: IsCycle(DepEdges(connections), p))
          || !EdgesWithin(DepEdges(connections), Members(blocks)))
      ensures res.Ok? ==> Planned(blocks, connections, res.value.0)
      ensures res.Ok? ==> forall b :: b in res.value.0 ==>
        b in res.value.1 && res.value.1[b] == Incoming(connections, b)
    {
      var topo := TopoBlocks();
      if topo.Err? {
        return Err(topo.error);
      }
      var byDest := GroupByDest(topo.value, connections);
      if byDest.None? {
        if Distinct(blocks) {
          StrayDest(blocks, connections, topo.value);
        }
        return Err(KeyError);
      }
      res := Ok((topo.value, byDest.value));
      if Distinct(blocks) {
        PlannedOrderable(blocks, connections, topo.value);
      }
    }

    /**
     * `run`: the schedule first, so a failure there touches no block; then, block by block in
     * that order, the incoming connections and `compute`. The blocks end in the states the run
     * specification gives.
     */
    method Run() returns (err: Option<GraphError>, ghost order: seq<Blk>)
      modifies Footprint()
      ensures blocks == old(blocks) && connections == old(connections)
      ensures err.Some? && (err.value == KeyError || err.value == CycleDetected) ==>
        && unchanged(Footprint())
        && (Distinct(blocks) ==>
              (exists i :: 0 <= i < |connections| && connections[i].dest !in blocks)
              || (exists p :: IsCycle(DepEdges(connections), p))
              || !EdgesWithin(DepEdges(connections), Members(blocks)))
      ensures err.None? || err.value.BlockFailure? || err.value.EvalFailure? ==>
        && Planned(blocks, connections, order)
        && RunSpecHolds(old(Snapshot(Footprint())), order, connections, err)
        && WorldIs(RunBlocks(old(Snapshot(Footprint())), order, connections).0)
    {
      ghost var W0 := Snapshot(Footprint());
      var plan := Schedule();
      if plan.Err? {
        return Some(plan.error), [];
      }
      order := plan.value.0;
      TouchedClosed(W0, blocks, connections);
      ghost var W;
      err, W := RunOrder(plan.value.0, plan.value.1, connections, W0);
    }

    /** `incoming_of`: the connections into `b`, in insertion order. */
    function IncomingOf(b: Blk): (r: seq<Connection>)
      reads this
      ensures forall k :: 0 <= k < |r| ==> r[k] in connections && r[k].dest == b
      ensures forall i :: 0 <= i < |connections| && connections[i].dest == b ==> connections[i] in r
    {
      IncomingSpec(connections, b);
      Incoming(connections, b)
    }
  }
}
