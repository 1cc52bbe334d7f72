/**
 * `Network_Manager` (src/mrn/core/network_manager.py): the node registry, its forward and
 * reverse adjacency lists, Kahn's topological order and the propagation pass. The registry
 * holds each registered node's state (its id and buffers) under the node's id.
 */
module Network {
  import opened Wrappers
  import opened Signals
  import opened NodeStates
  import opened Digraphs

  datatype NetError =
    | DuplicateId(id: string)          // ValueError from `add_node`
    | MissingSetId(className: string)  // AttributeError: the node class has no `set_id`
    | UnknownEndpoint                  // ValueError from `connect`
    | CycleDetected                    // ValueError from `_topological_order`
    | NodeFault(fault: Fault)          // an error raised inside a node's `propagate`

  // ------------------------------------------------------------------
  // Identifiers
  // ------------------------------------------------------------------

  /** `str.isspace` for one character: the characters `str.strip()` removes. */
  predicate IsSpace(c: char)
  {
    c == ' ' || ('\U{0009}' <= c <= '\U{000D}') || ('\U{001C}' <= c <= '\U{001F}')
    || c == '\U{0085}' || c == '\U{00A0}' || c == '\U{1680}' || ('\U{2000}' <= c <= '\U{200A}')
    || c == '\U{2028}' || c == '\U{2029}' || c == '\U{202F}' || c == '\U{205F}' || c == '\U{3000}'
  }

  /** `not node_id or node_id.strip() == ""`. */
  predicate IsBlank(id: string)
  {
    forall i :: 0 <= i < |id| ==> IsSpace(id[i])
  }

  function DigitChar(d: nat): (c: char)
    requires d < 10
    ensures '0' <= c <= '9'
  {
    ('0' as int + d) as char
  }

  /** The decimal digits of `n`, as `str(n)` writes them. */
  function NatToString(n: nat): (s: string)
    ensures |s| >= 1 && forall i :: 0 <= i < |s| ==> '0' <= s[i] <= '9'
  {
    if n < 10 then [DigitChar(n)] else NatToString(n / 10) + [DigitChar(n % 10)]
  }

  /** Reads a run of decimal digits back; the inverse of `NatToString`. */
  function ParseNat(s: string): nat
    requires |s| >= 1 && forall i :: 0 <= i < |s| ==> '0' <= s[i] <= '9'
  {
    var d := (s[|s| - 1] as int - '0' as int) as nat;
    if |s| == 1 then d else ParseNat(s[..|s| - 1]) * 10 + d
  }

  lemma {:induction false} NatStringRoundTrip(n: nat)
    ensures ParseNat(NatToString(n)) == n
  {
    if n >= 10 {
      var a := NatToString(n / 10);
      NatStringRoundTrip(n / 10);
      assert (a + [DigitChar(n % 10)])[..|a|] == a;
    }
  }

  /** `_generate_id`'s result: the class name, an underscore and the class's new count. */
  function GeneratedId(className: string, count: nat): string
  {
    className + "_" + NatToString(count)
  }

  /** One class never gets the same generated id twice: distinct counts give distinct ids. */
  lemma GeneratedIdInjective(className: string, a: nat, b: nat)
    requires GeneratedId(className, a) == GeneratedId(className, b)
    ensures a == b
  {
    var k := |className| + 1;
    assert NatToString(a) == GeneratedId(className, a)[k..];
    assert NatToString(b) == GeneratedId(className, b)[k..];
    NatStringRoundTrip(a);
    NatStringRoundTrip(b);
  }

  function Count(counter: map<string, nat>, className: string): nat
  {
    if className in counter then counter[className] else 0
  }

  /** `node.__class__.__name__` of the node a state belongs to. */
  function ClassName(st: NodeState): string
  {
    match st
    case InputState(_, _) => "InputNode"
    case OutputState(_, _, _, _, _) => "OutputNode"
    case WiringState(_, _, _, _) => "WiringNode"
  }

  /** Of the three node classes only `WiringNode` defines `set_id`. */
  predicate HasSetId(st: NodeState)
  {
    st.WiringState?
  }

  /** The decision `add_node` takes, and the id counters afterwards. */
  datatype AddStep = AddStep(outcome: Result<string, NetError>, counter: map<string, nat>)

  /**
   * `add_node` for a node of class `className` whose id is `id`, against the registered
   * `keys`. A given id is taken as it is, and only if no node has it; a blank id is never
   * checked against the registry but replaced by `<ClassName>_<n>`, n one more than the
   * class's previous count, and that class's counter alone moves on. `canSetId` says whether
   * the node's class defines `set_id`: without it a blank id fails after the counter has moved.
   */
  function AddNodeStep(keys: set<string>, counter: map<string, nat>, className: string, id: string,
                       canSetId: bool): (r: AddStep)
    ensures !IsBlank(id) ==> r.counter == counter
    ensures !IsBlank(id) ==> (r.outcome.Ok? <==> id !in keys)
    ensures !IsBlank(id) && r.outcome.Ok? ==> r.outcome.value == id
    ensures !IsBlank(id) && r.outcome.Err? ==> r.outcome.error == DuplicateId(id)
    ensures IsBlank(id) ==> (r.outcome.Ok? <==> canSetId)
    ensures IsBlank(id) && r.outcome.Ok? ==> r.outcome.value == GeneratedId(className, Count(counter, className) + 1)
    ensures IsBlank(id) ==> Count(r.counter, className) == Count(counter, className) + 1
    ensures forall c :: c != className ==> Count(r.counter, c) == Count(counter, c)
  {
    if IsBlank(id) then
      var n := Count(counter, className) + 1;
      if canSetId then AddStep(Ok(GeneratedId(className, n)), counter[className := n])
      else AddStep(Err(MissingSetId(className)), counter[className := n])
    else if id in keys then AddStep(Err(DuplicateId(id)), counter)
    else AddStep(Ok(id), counter)
  }

  /**
   * Two blank-id registrations of the same class never produce the same id: the second one
   * sees the counter the first one left.
   */
  lemma GeneratedIdsFresh(keys: set<string>, keys': set<string>, counter: map<string, nat>,
                          className: string, id1: string, id2: string)
    requires IsBlank(id1) && IsBlank(id2)
    ensures var r1 := AddNodeStep(keys, counter, className, id1, true);
      var r2 := AddNodeStep(keys', r1.counter, className, id2, true);
      r1.outcome.value != r2.outcome.value
  {
    var n := Count(counter, className) + 1;
    var r1 := AddNodeStep(keys, counter, className, id1, true);
    assert Count(r1.counter, className) == n;
    if GeneratedId(className, n) == GeneratedId(className, n + 1) {
      GeneratedIdInjective(className, n, n + 1);
    }
  }

  /**
   * Registering an `InputNode` or an `OutputNode` with a blank id raises AttributeError,
   * because only `WiringNode` defines `set_id`; the counter has already moved.
   */
  lemma BlankIdNeedsSetId(st: NodeState, keys: set<string>, counter: map<string, nat>)
    requires IsBlank(st.id) && !st.WiringState?
    ensures AddNodeStep(keys, counter, ClassName(st), st.id, HasSetId(st))
      == AddStep(Err(MissingSetId(ClassName(st))), counter[ClassName(st) := Count(counter, ClassName(st)) + 1])
  {
  }

  // ------------------------------------------------------------------
  // The propagation pass, on node states
  // ------------------------------------------------------------------

  /** Hands `out` to each target in turn: `for target in targets: for s in out: receive(clone)`. */
  function Deliver(m: map<string, NodeState>, targets: seq<string>, out: seq<Signal>): (r: map<string, NodeState>)
    requires forall t :: t in targets ==> t in m
    ensures r.Keys == m.Keys
  {
    if targets == [] then m
    else
      var m' := Deliver(m, targets[..|targets| - 1], out);
      var t := targets[|targets| - 1];
      m'[t := ReceiveAll(m'[t], out)]
  }

  /** `out` repeated `k` times. */
  function Repeat(out: seq<Signal>, k: nat): seq<Signal>
  {
    if k == 0 then [] else Repeat(out, k - 1) + out
  }

  /**
   * Every target receives the batch once per entry naming it in the edge list, appended to
   * what it held.
   */
  lemma {:induction false} DeliverSpec(m: map<string, NodeState>, targets: seq<string>, out: seq<Signal>, t: string)
    requires forall x :: x in targets ==> x in m
    requires t in m
    ensures Incoming(Deliver(m, targets, out)[t]) == Incoming(m[t]) + Repeat(out, Occ(targets, t))
  {
    if targets == [] {
      assert Incoming(m[t]) + [] == Incoming(m[t]);
    } else {
      var init := targets[..|targets| - 1];
      var last := targets[|targets| - 1];
      DeliverSpec(m, init, out, t);
      var m' := Deliver(m, init, out);
      var k := Occ(init, t);
      assert Occ(targets, t) == k + (if last == t then 1 else 0);
      if last == t {
        ReceiveAllAppends(m'[t], out);
        calc {
          Incoming(Deliver(m, targets, out)[t]);
          Incoming(m'[t]) + out;
          (Incoming(m[t]) + Repeat(out, k)) + out;
          Incoming(m[t]) + Repeat(out, k + 1);
        }
      } else {
        assert Deliver(m, targets, out)[t] == m'[t];
      }
    }
  }

  /** Delivery keeps every node's id, and a node the edge list does not name is untouched. */
  lemma {:induction false} DeliverElsewhere(m: map<string, NodeState>, targets: seq<string>, out: seq<Signal>,
                                            t: string)
    requires forall x :: x in targets ==> x in m
    requires t in m
    ensures Deliver(m, targets, out)[t].id == m[t].id
    ensures t !in targets ==> Deliver(m, targets, out)[t] == m[t]
  {
    if targets != [] {
      var init := targets[..|targets| - 1];
      DeliverElsewhere(m, init, out, t);
      assert t in targets ==> t in init || t == targets[|targets| - 1] by {
        if t in targets {
          var i :| 0 <= i < |targets| && targets[i] == t;
          if i < |init| {
            assert init[i] == t;
          }
        }
      }
    }
  }

  /**
   * The pass over `order`: each node propagates once, then its result goes to its targets.
   * A fault stops the pass; the faulting node keeps the state its `propagate` left.
   */
  function Pass(m: map<string, NodeState>, order: seq<string>, edges: map<string, seq<string>>)
    : (r: (map<string, NodeState>, Option<Fault>))
    requires forall id :: id in order ==> id in m && id in edges
    requires forall u, t :: u in edges && t in edges[u] ==> t in m
    ensures r.0.Keys == m.Keys
    decreases |order|
  {
    if order == [] then (m, None)
    else
      var id := order[0];
      var (st, out) := Propagate(m[id]);
      var m1 := m[id := st];
      if out.Err? then (m1, Some(out.error))
      else Pass(Deliver(m1, edges[id], out.value), order[1..], edges)
  }

  /**
   * A node that no edge list names receives nothing during a pass: only its own `propagate`
   * changes it, and only if it is in the order.
   */
  lemma {:induction false} PassLeavesUntargeted(m: map<string, NodeState>, order: seq<string>,
                                                edges: map<string, seq<string>>, x: string)
    requires forall id :: id in order ==> id in m && id in edges
    requires forall u, t :: u in edges && t in edges[u] ==> t in m
    requires x in m && x !in order
    requires forall u :: u in edges ==> x !in edges[u]
    ensures Pass(m, order, edges).0[x] == m[x]
    decreases |order|
  {
    if order != [] {
      var id := order[0];
      var (st, out) := Propagate(m[id]);
      var m1 := m[id := st];
      if out.Ok? {
        DeliverElsewhere(m1, edges[id], out.value, x);
        PassLeavesUntargeted(Deliver(m1, edges[id], out.value), order[1..], edges, x);
      }
    }
  }

  /** Delivers a clone of each signal of `out` to `t`, in order. */
  method ReceiveBatch(m: map<string, NodeState>, t: string, out: seq<Signal>) returns (m': map<string, NodeState>)
    requires t in m
    ensures m' == m[t := ReceiveAll(m[t], out)]
  {
    m' := m;
    var k := 0;
    while k < |out|
      invariant 0 <= k <= |out|
      invariant m' == m[t := ReceiveAll(m[t], out[..k])]
    {
      assert out[..k + 1][..k] == out[..k];
      m' := m'[t := Receive(m'[t], Clone(out[k]))];
      k := k + 1;
    }
    assert out[..k] == out;
  }

  /** The delivery loop of `propagate_all` for one node: each target in turn gets the batch. */
  method DeliverAll(m: map<string, NodeState>, targets: seq<string>, out: seq<Signal>) returns (m': map<string, NodeState>)
    requires forall t :: t in targets ==> t in m
    ensures m' == Deliver(m, targets, out)
  {
    m' := m;
    var j := 0;
    while j < |targets|
      invariant 0 <= j <= |targets|
      invariant m' == Deliver(m, targets[..j], out)
    {
      assert targets[..j + 1][..j] == targets[..j];
      m' := ReceiveBatch(m', targets[j], out);
      j := j + 1;
    }
    assert targets[..j] == targets;
  }

  /**
   * The loop of `propagate_all` once the order is known: each node of `order` in turn
   * propagates and its batch is delivered along its forward entries; the first failure stops
   * the pass with the nodes as they are at that point.
   */
  method RunPass(m: map<string, NodeState>, order: seq<string>, edges: map<string, seq<string>>)
    returns (m': map<string, NodeState>, fault: Option<Fault>)
    requires forall id :: id in order ==> id in m && id in edges
    requires forall u, t :: u in edges && t in edges[u] ==> t in m
    ensures (m', fault) == Pass(m, order, edges)
  {
    m' := m;
    fault := None;
    var i := 0;
    while i < |order|
      invariant 0 <= i <= |order|
      invariant m'.Keys == m.Keys
      invariant Pass(m, order, edges) == Pass(m', order[i..], edges)
    {
      var id := order[i];
      assert order[i..][0] == id && order[i..][1..] == order[i + 1..];
      var (st, out) := Propagate(m'[id]);
      if out.Err? {
        m', fault := m'[id := st], Some(out.error);
        return;
      }
      m' := DeliverAll(m'[id := st], edges[id], out.value);
      i := i + 1;
    }
  }

  /** Delivery and the pass keep every node's id. */
  lemma {:induction false} PassKeepsIds(m: map<string, NodeState>, order: seq<string>, edges: map<string, seq<string>>)
    requires forall id :: id in order ==> id in m && id in edges
    requires forall u, t :: u in edges && t in edges[u] ==> t in m
    requires IdsMatch(m)
    ensures IdsMatch(Pass(m, order, edges).0)
    decreases |order|
  {
    if order != [] {
      var id := order[0];
      var (st, out) := Propagate(m[id]);
      var m1 := m[id := st];
      if out.Ok? {
        var m2 := Deliver(m1, edges[id], out.value);
        forall x | x in m2
          ensures m2[x].id == x
        {
          DeliverElsewhere(m1, edges[id], out.value, x);
        }
        PassKeepsIds(m2, order[1..], edges);
      }
    }
  }

  /** The `filter` that seeds Kahn's queue: the ids with in-degree 0, in registration order. */
  function ZeroDegree(ks: seq<string>, deg: map<string, int>): (r: seq<string>)
    requires forall k :: k in ks ==> k in deg
    ensures forall x :: x in r <==> x in ks && deg[x] == 0
    ensures Distinct(ks) ==> Distinct(r)
  {
    if ks == [] then []
    else
      var init := ks[..|ks| - 1];
      var last := ks[|ks| - 1];
      assert forall x :: x in init ==> x in ks;
      var r := ZeroDegree(init, deg);
      if deg[last] == 0 then
        assert Distinct(ks) ==> last !in init;
        r + [last]
      else r
  }

  // ------------------------------------------------------------------
  // The registry's adjacency lists and Kahn's algorithm over them
  // ------------------------------------------------------------------

  /**
   * The shape of the registry: `keyOrder` lists the registered ids once each, in
   * registration order; every id has a forward and a reverse list; and both lists are read
   * off `log`, every successful `connect` in order, whose ends are registered ids.
   */
  ghost predicate GraphOk(ids: set<string>, keyOrder: seq<string>, edges: map<string, seq<string>>,
                          reverseEdges: map<string, seq<string>>, log: seq<(string, string)>)
  {
    KeysListed(ids, keyOrder) && ListsFromLog(ids, edges, reverseEdges, log)
  }

  /** `keyOrder` lists the registered ids once each. */
  ghost predicate KeysListed(ids: set<string>, keyOrder: seq<string>)
  {
    && Distinct(keyOrder)
    && (forall id :: id in keyOrder ==> id in ids)
    && (forall id :: id in ids ==> id in keyOrder)
  }

  /** Both adjacency lists of every registered id are read off the log of connections. */
  ghost predicate ListsFromLog(ids: set<string>, edges: map<string, seq<string>>,
                               reverseEdges: map<string, seq<string>>, log: seq<(string, string)>)
  {
    && edges.Keys == ids
    && reverseEdges.Keys == ids
    && (forall u :: u in edges ==> edges[u] == Targets(log, u))
    && (forall v :: v in reverseEdges ==> reverseEdges[v] == Sources(log, v))
    && EdgesWithin(log, ids)
    && (forall u, t :: u in edges && t in edges[u] ==> t in ids)
  }

  /** An id that no entry of the log names has empty forward and reverse lists. */
  lemma {:induction false} UnregisteredHasNoEntries(log: seq<(string, string)>, ids: set<string>, id: string)
    requires EdgesWithin(log, ids) && id !in ids
    ensures Targets(log, id) == [] && Sources(log, id) == []
  {
    if log != [] {
      assert log[|log| - 1] in log;
      assert forall e :: e in log[..|log| - 1] ==> e in log;
      UnregisteredHasNoEntries(log[..|log| - 1], ids, id);
    }
  }

  /** Registering `id` keeps the shape: the lists it gets are empty, as no entry names it. */
  lemma GraphOkAdd(ids: set<string>, keyOrder: seq<string>, edges: map<string, seq<string>>,
                   reverseEdges: map<string, seq<string>>, log: seq<(string, string)>, id: string)
    requires GraphOk(ids, keyOrder, edges, reverseEdges, log)
    requires id !in ids
    ensures GraphOk(ids + {id}, keyOrder + [id], edges[id := []], reverseEdges[id := []], log)
  {
    var ids', keyOrder', edges', reverseEdges' := ids + {id}, keyOrder + [id], edges[id := []], reverseEdges[id := []];
    UnregisteredHasNoEntries(log, ids, id);
    DistinctSnoc(keyOrder, id);
    assert forall x :: x in keyOrder' ==> x in ids';
    assert forall x :: x in ids' ==> x in keyOrder';
    assert edges'.Keys == ids' && reverseEdges'.Keys == ids';
    assert forall u :: u in edges' ==> edges'[u] == Targets(log, u);
    assert forall v :: v in reverseEdges' ==> reverseEdges'[v] == Sources(log, v);
    assert EdgesWithin(log, ids');
    assert forall u, t :: u in edges' && t in edges'[u] ==> t in ids';
  }

  /** One `connect` keeps the shape: each list grows by the one entry the log gains. */
  lemma GraphOkConnect(ids: set<string>, keyOrder: seq<string>, edges: map<string, seq<string>>,
                       reverseEdges: map<string, seq<string>>, log: seq<(string, string)>,
                       u: string, v: string)
    requires GraphOk(ids, keyOrder, edges, reverseEdges, log)
    requires u in ids && v in ids
    ensures GraphOk(ids, keyOrder, edges[u := edges[u] + [v]], reverseEdges[v := reverseEdges[v] + [u]],
                    log + [(u, v)])
  {
    var edges', reverseEdges', log' := edges[u := edges[u] + [v]], reverseEdges[v := reverseEdges[v] + [u]], log + [(u, v)];
    forall x | x in edges'
      ensures edges'[x] == Targets(log', x)
    {
      TargetsAppend(log, (u, v), x);
    }
    forall x | x in reverseEdges'
      ensures reverseEdges'[x] == Sources(log', x)
    {
      TargetsAppend(log, (u, v), x);
    }
    forall x, t | x in edges' && t in edges'[x]
      ensures t in ids
    {
      if t != v {
        assert t in edges[x];
      }
    }
    assert EdgesWithin(log', ids);
    assert ListsFromLog(ids, edges', reverseEdges', log');
  }

  /**
   * The state of the inner loop of `_topological_order` after `j` forward entries of the
   * current id: each count is down by the entries seen so far, and the queue has grown by
   * exactly the ids whose count reached 0.
   */
  ghost predicate Released(ids: set<string>, targets: seq<string>, log: seq<(string, string)>,
                           done: set<string>, order: seq<string>, queue: seq<string>, j: int,
                           inDegree: map<string, int>, queue': seq<string>)
  {
    && 0 <= j <= |targets|
    && inDegree.Keys == ids
    && (forall v :: v in ids ==> inDegree[v] == CountFrom(log, v, done) - Occ(targets[..j], v))
    && queue <= queue'
    && Distinct(order + queue')
    && (forall x :: x in order + queue' ==> x in ids)
    && (forall v :: v in ids ==> ((v in order || v in queue') <==> inDegree[v] == 0))
  }

  /**
   * One step of the inner loop: the `j`-th forward entry's target loses one from its count and
   * joins the queue if the count reaches 0; `Released` moves on by one entry.
   */
  method ReleaseOne(ids: set<string>, targets: seq<string>, ghost log: seq<(string, string)>,
                    ghost current: string, ghost done: set<string>, ghost order: seq<string>,
                    ghost queue: seq<string>, j: int, inDegree: map<string, int>, queue': seq<string>)
    returns (d: map<string, int>, q: seq<string>)
    requires targets == Targets(log, current)
    requires forall v :: v in ids ==> CountFrom(log, v, done + {current}) + Occ(targets, v) == CountFrom(log, v, done)
    requires Released(ids, targets, log, done, order, queue, j, inDegree, queue') && j < |targets|
    requires targets[j] in ids
    ensures d == inDegree[targets[j] := inDegree[targets[j]] - 1]
    ensures q == if d[targets[j]] == 0 then queue' + [targets[j]] else queue'
    ensures Released(ids, targets, log, done, order, queue, j + 1, d, q)
  {
    var n := targets[j];
    d := inDegree[n := inDegree[n] - 1];
    q := if d[n] == 0 then queue' + [n] else queue';
    OccPositive(targets, j);
    assert inDegree[n] > 0;
    forall v | v in ids
      ensures d[v] == CountFrom(log, v, done) - Occ(targets[..j + 1], v)
    {
      OccTake(targets, j, v);
    }
    if d[n] == 0 {
      assert n !in order + queue';
      DistinctSnoc(order + queue', n);
      assert order + q == (order + queue') + [n];
    }
    forall v | v in ids
      ensures (v in order || v in q) <==> d[v] == 0
    {
      if v != n {
        assert v in q <==> v in queue';
      }
    }
  }

  /** What taking `current` does to the counts, and where its forward entries lead. */
  lemma ReleaseSetup(ids: set<string>, targets: seq<string>, log: seq<(string, string)>,
                     current: string, done: set<string>)
    requires targets == Targets(log, current) && EdgesWithin(log, ids)
    requires current !in done
    ensures forall v :: v in ids ==> CountFrom(log, v, done + {current}) + Occ(targets, v) == CountFrom(log, v, done)
    ensures forall k :: 0 <= k < |targets| ==> targets[k] in ids
  {
    forall v | v in ids
      ensures CountFrom(log, v, done + {current}) + Occ(targets, v) == CountFrom(log, v, done)
    {
      CountFromStep(log, v, done, current);
    }
    forall k | 0 <= k < |targets|
      ensures targets[k] in ids
    {
      TargetsMembers(log, current, targets[k]);
    }
  }

  /** Before the first entry, `Released` is the state the inner loop starts from. */
  lemma ReleaseStart(ids: set<string>, targets: seq<string>, log: seq<(string, string)>,
                     done: set<string>, order: seq<string>, queue: seq<string>, inDegree: map<string, int>)
    requires inDegree.Keys == ids
    requires forall v :: v in ids ==> inDegree[v] == CountFrom(log, v, done)
    requires Distinct(order + queue) && forall x :: x in order + queue ==> x in ids
    requires forall v :: v in ids ==> ((v in order || v in queue) <==> inDegree[v] == 0)
    ensures Released(ids, targets, log, done, order, queue, 0, inDegree, queue)
  {
    assert targets[..0] == [];
  }

  /** After the last entry, the counts are those without `current`. */
  lemma ReleaseEnd(ids: set<string>, targets: seq<string>, log: seq<(string, string)>, current: string,
                   done: set<string>, order: seq<string>, queue: seq<string>, inDegree: map<string, int>,
                   queue': seq<string>)
    requires forall v :: v in ids ==> CountFrom(log, v, done + {current}) + Occ(targets, v) == CountFrom(log, v, done)
    requires Released(ids, targets, log, done, order, queue, |targets|, inDegree, queue')
    ensures forall v :: v in ids ==> inDegree[v] == CountFrom(log, v, done + {current})
  {
    assert targets[..|targets|] == targets;
  }

  /**
   * The inner loop of `_topological_order`: one decrement per forward entry of `current`,
   * and each target whose in-degree reaches 0 joins the end of the queue.
   */
  method ReleaseTargets(ids: set<string>, targets: seq<string>, ghost log: seq<(string, string)>,
                        current: string, inDegree: map<string, int>, queue: seq<string>,
                        ghost order: seq<string>, ghost done: set<string>)
    returns (inDegree': map<string, int>, queue': seq<string>)
    requires targets == Targets(log, current) && EdgesWithin(log, ids)
    requires current !in done && current in order
    requires inDegree.Keys == ids
    requires forall v :: v in ids ==> inDegree[v] == CountFrom(log, v, done)
    requires Distinct(order + queue) && forall x :: x in order + queue ==> x in ids
    requires forall v :: v in ids ==> ((v in order || v in queue) <==> inDegree[v] == 0)
    ensures inDegree'.Keys == ids
    ensures forall v :: v in ids ==> inDegree'[v] == CountFrom(log, v, done + {current})
    ensures queue <= queue'
    ensures Distinct(order + queue') && forall x :: x in order + queue' ==> x in ids
    ensures forall v :: v in ids ==> ((v in order || v in queue') <==> inDegree'[v] == 0)
  {
    ReleaseSetup(ids, targets, log, current, done);
    ReleaseStart(ids, targets, log, done, order, queue, inDegree);
    inDegree' := inDegree;
    queue' := queue;
    var j := 0;
    while j < |targets|
      invariant Released(ids, targets, log, done, order, queue, j, inDegree', queue')
    {
      inDegree', queue' := ReleaseOne(ids, targets, log, current, done, order, queue, j, inDegree', queue');
      j := j + 1;
    }
    ReleaseEnd(ids, targets, log, current, done, order, queue, inDegree', queue');
  }

  /** Every id of `order` comes after all the sources of the entries entering it. */
  ghost predicate PredecessorsFirst(order: seq<string>, log: seq<(string, string)>)
  {
    forall k :: 0 <= k < |order| ==> forall u :: (u, order[k]) in log ==> u in order[..k]
  }

  /**
   * The invariant of Kahn's loop: `inDegree` counts, for each id, the entries from ids not
   * yet taken (`done`, the ids of `order`); `order` and `queue` hold distinct registered ids,
   * exactly those whose count is 0; every id in `order` follows its predecessors.
   */
  ghost predicate KahnState(ids: set<string>, log: seq<(string, string)>, inDegree: map<string, int>,
                            order: seq<string>, queue: seq<string>, done: set<string>)
  {
    && inDegree.Keys == ids
    && (forall v :: v in ids ==> inDegree[v] == CountFrom(log, v, done))
    && (forall x :: x in done <==> x in order)
    && Distinct(order + queue)
    && (forall x :: x in order + queue ==> x in ids)
    && (forall v :: v in ids ==> ((v in order || v in queue) <==> inDegree[v] == 0))
    && PredecessorsFirst(order, log)
  }

  lemma KahnStart(ids: set<string>, keyOrder: seq<string>, reverseEdges: map<string, seq<string>>,
                  log: seq<(string, string)>, inDegree: map<string, int>)
    requires Distinct(keyOrder) && (forall id :: id in keyOrder ==> id in ids)
    requires forall id :: id in ids ==> id in keyOrder
    requires reverseEdges.Keys == ids
    requires forall v :: v in reverseEdges ==> reverseEdges[v] == Sources(log, v)
    requires inDegree == map id | id in ids :: |reverseEdges[id]|
    ensures KahnState(ids, log, inDegree, [], ZeroDegree(keyOrder, inDegree), {})
  {
    forall v | v in ids
      ensures inDegree[v] == CountFrom(log, v, {})
    {
      CountFromNone(log, v);
    }
    assert [] + ZeroDegree(keyOrder, inDegree) == ZeroDegree(keyOrder, inDegree);
  }

  /** Taking the head of the queue: what `ReleaseTargets` needs. */
  lemma KahnTake(ids: set<string>, log: seq<(string, string)>, inDegree: map<string, int>,
                 order: seq<string>, queue: seq<string>, done: set<string>)
    requires KahnState(ids, log, inDegree, order, queue, done) && queue != []
    ensures queue[0] in ids && queue[0] !in done
    ensures Distinct((order + [queue[0]]) + queue[1..])
    ensures forall x :: x in (order + [queue[0]]) + queue[1..] ==> x in ids
    ensures forall v :: v in ids ==> ((v in order + [queue[0]] || v in queue[1..]) <==> inDegree[v] == 0)
    ensures forall u :: (u, queue[0]) in log ==> u in order
  {
    assert order + queue == (order + [queue[0]]) + queue[1..];
    assert (order + queue)[|order|] == queue[0];
    forall i | 0 <= i < |order|
      ensures order[i] != queue[0]
    {
      assert (order + queue)[i] == order[i];
    }
    assert queue[0] in ids && inDegree[queue[0]] == 0;
    CountFromZero(log, queue[0], done);
    forall v | v in ids
      ensures (v in order + [queue[0]] || v in queue[1..]) <==> (v in order || v in queue)
    {
      assert v in queue <==> v == queue[0] || v in queue[1..];
    }
  }

  /** After `ReleaseTargets` the loop's invariant holds again, with one more id taken. */
  lemma KahnStep(ids: set<string>, log: seq<(string, string)>, order: seq<string>, current: string,
                 done: set<string>, inDegree': map<string, int>, queue': seq<string>)
    requires PredecessorsFirst(order, log)
    requires forall x :: x in done <==> x in order
    requires forall u :: (u, current) in log ==> u in order
    requires inDegree'.Keys == ids
    requires forall v :: v in ids ==> inDegree'[v] == CountFrom(log, v, done + {current})
    requires Distinct((order + [current]) + queue') && forall x :: x in (order + [current]) + queue' ==> x in ids
    requires forall v :: v in ids ==> ((v in order + [current] || v in queue') <==> inDegree'[v] == 0)
    ensures KahnState(ids, log, inDegree', order + [current], queue', done + {current})
  {
    var order' := order + [current];
    assert order'[..|order|] == order;
    forall k | 0 <= k < |order'|
      ensures forall u :: (u, order'[k]) in log ==> u in order'[..k]
    {
      if k < |order| {
        assert order'[..k] == order[..k];
      }
    }
  }

  /** A list of distinct registered ids shorter than the registry misses one of them. */
  lemma NotAllTaken(order: seq<string>, ids: set<string>)
    requires Distinct(order) && forall x :: x in order ==> x in ids
    requires |order| != |ids|
    ensures exists v :: v in ids && v !in order
  {
    var taken := set x | x in order;
    DistinctCard(order);
    DistinctCovers(order, ids);
    assert taken <= ids;
    assert taken != ids;
  }

  /**
   * When the queue runs dry with fewer ids taken than registered: the ids left over each have
   * a predecessor among themselves, so the graph has a cycle.
   */
  lemma KahnStuck(ids: set<string>, log: seq<(string, string)>, inDegree: map<string, int>,
                  order: seq<string>, done: set<string>)
    requires KahnState(ids, log, inDegree, order, [], done)
    requires EdgesWithin(log, ids)
    requires |order| != |ids|
    ensures HasCycle(log)
  {
    assert order + [] == order;
    NotAllTaken(order, ids);
    var stuck := set v | v in ids && v !in order;
    var w :| w in ids && w !in order;
    assert w in stuck;
    forall v | v in stuck
      ensures HasPredIn(log, stuck, v)
    {
      CountFromZero(log, v, done);
      var u :| (u, v) in log && u !in done;
    }
    StuckSetHasCycle(log, stuck);
  }

  /** When the queue runs dry with every id taken: the order is topological, so no cycle. */
  lemma KahnComplete(ids: set<string>, log: seq<(string, string)>, inDegree: map<string, int>,
                     order: seq<string>, done: set<string>)
    requires KahnState(ids, log, inDegree, order, [], done)
    requires EdgesWithin(log, ids)
    requires |order| == |ids|
    ensures IsTopologicalOrder(order, ids, log) && !HasCycle(log)
  {
    assert order + [] == order;
    DistinctCovers(order, ids);
    forall i, j | 0 <= i < |order| && 0 <= j < |order| && (order[i], order[j]) in log
      ensures i < j
    {
      var k :| 0 <= k < j && order[k] == order[i];
    }
    TopologicalOrderAcyclic(order, ids, log);
  }

  /**
   * `_topological_order`: the in-degrees are the lengths of the reverse lists, the queue
   * starts with the ids of in-degree 0 in registration order, and each id taken from the
   * queue releases its forward entries. The result lists every registered id exactly once,
   * the source of every connection before its target; it fails exactly when there is a cycle.
   */
  method TopologicalOrder(ids: set<string>, keyOrder: seq<string>, edges: map<string, seq<string>>,
                          reverseEdges: map<string, seq<string>>, ghost log: seq<(string, string)>)
    returns (res: Result<seq<string>, NetError>)
    requires GraphOk(ids, keyOrder, edges, reverseEdges, log)
    ensures res.Ok? <==> !HasCycle(log)
    ensures res.Ok? ==> IsTopologicalOrder(res.value, ids, log)
    ensures res.Err? ==> res.error == CycleDetected
  {
    var inDegree: map<string, int> := map id | id in ids :: |reverseEdges[id]|;
    var queue := ZeroDegree(keyOrder, inDegree);
    var order: seq<string> := [];
    ghost var done: set<string> := {};
    KahnStart(ids, keyOrder, reverseEdges, log, inDegree);
    while queue != []
      invariant KahnState(ids, log, inDegree, order, queue, done)
      decreases |ids| - |order|
    {
      DistinctCovers(order + queue, ids);
      var current := queue[0];
      KahnTake(ids, log, inDegree, order, queue, done);
      inDegree, queue := ReleaseTargets(ids, edges[current], log, current, inDegree, queue[1..],
                                        order + [current], done);
      KahnStep(ids, log, order, current, done, inDegree, queue);
      order := order + [current];
      done := done + {current};
    }
    if |order| != |ids| {
      KahnStuck(ids, log, inDegree, order, done);
      return Err(CycleDetected);
    }
    KahnComplete(ids, log, inDegree, order, done);
    res := Ok(order);
  }

  // ------------------------------------------------------------------
  // The manager
  // ------------------------------------------------------------------

  /** Every registered node carries the id it is registered under. */
  ghost predicate IdsMatch(nodes: map<string, NodeState>)
  {
    forall id :: id in nodes ==> nodes[id].id == id
  }

  /** Resets every node of `m`, one id at a time in the order `order` lists them. */
  method ResetEach(m: map<string, NodeState>, order: seq<string>) returns (r: map<string, NodeState>)
    requires KeysListed(m.Keys, order)
    ensures r.Keys == m.Keys
    ensures forall id :: id in r ==> r[id] == Reset(m[id])
  {
    r := m;
    var i := 0;
    while i < |order|
      invariant 0 <= i <= |order|
      invariant r.Keys == m.Keys
      invariant forall id :: id in r ==> r[id] == (if id in order[..i] then Reset(m[id]) else m[id])
    {
      var id := order[i];
      assert order[..i + 1] == order[..i] + [id];
      assert id !in order[..i];
      r := r[id := Reset(r[id])];
      i := i + 1;
    }
    assert order[..i] == order;
  }

  /**
   * The registry update of a successful `add_node`: the node is stored under `id`, and `id`
   * gets empty adjacency lists and a place at the end of the insertion order only if it is new.
   */
  method Register(nodes: map<string, NodeState>, keyOrder: seq<string>, edges: map<string, seq<string>>,
                  reverseEdges: map<string, seq<string>>, ghost log: seq<(string, string)>,
                  id: string, node: NodeState)
    returns (nodes': map<string, NodeState>, keyOrder': seq<string>, edges': map<string, seq<string>>,
             reverseEdges': map<string, seq<string>>)
    requires GraphOk(nodes.Keys, keyOrder, edges, reverseEdges, log) && IdsMatch(nodes)
    ensures GraphOk(nodes'.Keys, keyOrder', edges', reverseEdges', log) && IdsMatch(nodes')
    ensures nodes' == nodes[id := WithId(node, id)]
    ensures keyOrder' == if id in nodes then keyOrder else keyOrder + [id]
    ensures edges' == if id in edges then edges else edges[id := []]
    ensures reverseEdges' == if id in reverseEdges then reverseEdges else reverseEdges[id := []]
  {
    nodes' := nodes[id := WithId(node, id)];
    if id in nodes {
      assert nodes'.Keys == nodes.Keys;
      keyOrder', edges', reverseEdges' := keyOrder, edges, reverseEdges;
    } else {
      GraphOkAdd(nodes.Keys, keyOrder, edges, reverseEdges, log, id);
      assert nodes'.Keys == nodes.Keys + {id};
      keyOrder', edges', reverseEdges' := keyOrder + [id], edges[id := []], reverseEdges[id := []];
    }
  }

  class NetworkManager {
    /** `_nodes`: each registered node's state, by id. */
    var nodes: map<string, NodeState>
    /** The insertion order of `_nodes`, which Python dictionaries keep. */
    var keyOrder: seq<string>
    var edges: map<string, seq<string>>
    var reverseEdges: map<string, seq<string>>
    var idCounter: map<string, nat>
    /** Every `connect` that succeeded, in order. */
    ghost var edgeLog: seq<(string, string)>

    ghost predicate Valid()
      reads this
    {
      GraphOk(nodes.Keys, keyOrder, edges, reverseEdges, edgeLog) && IdsMatch(nodes)
    }

    constructor()
      ensures Valid()
      ensures nodes == map[] && keyOrder == [] && edges == map[] && reverseEdges == map[]
      ensures idCounter == map[] && edgeLog == []
    {
      nodes := map[];
      keyOrder := [];
      edges := map[];
      reverseEdges := map[];
      idCounter := map[];
      edgeLog := [];
    }

    // ---- registration

    /**
     * `add_node(node)`: the decision is `AddNodeStep`'s. On success the node is stored
     * under its (possibly generated) id, and its adjacency lists are created only if absent;
     * on failure nodes and edges are as they were.
     */
    method AddNode(node: NodeState) returns (res: Result<string, NetError>)
      requires Valid()
      modifies this
      ensures Valid()
      ensures var step := AddNodeStep(old(nodes).Keys, old(idCounter), ClassName(node), node.id, HasSetId(node));
        res == step.outcome && idCounter == step.counter
      ensures res.Err? ==> nodes == old(nodes) && keyOrder == old(keyOrder)
      ensures res.Ok? ==> nodes == old(nodes)[res.value := WithId(node, res.value)]
      ensures res.Ok? ==> keyOrder == (if res.value in old(nodes) then old(keyOrder) else old(keyOrder) + [res.value])
      ensures res.Ok? ==> edges == (if res.value in old(edges) then old(edges) else old(edges)[res.value := []])
      ensures res.Ok? ==>
        reverseEdges == (if res.value in old(reverseEdges) then old(reverseEdges) else old(reverseEdges)[res.value := []])
      ensures res.Err? ==> edges == old(edges) && reverseEdges == old(reverseEdges)
      ensures edgeLog == old(edgeLog)
    {
      var step := AddNodeStep(nodes.Keys, idCounter, ClassName(node), node.id, HasSetId(node));
      var nodes', keyOrder', edges', reverseEdges' := nodes, keyOrder, edges, reverseEdges;
      if step.outcome.Ok? {
        nodes', keyOrder', edges', reverseEdges' :=
          Register(nodes, keyOrder, edges, reverseEdges, edgeLog, step.outcome.value, node);
      }
      nodes, keyOrder, edges, reverseEdges, idCounter := nodes', keyOrder', edges', reverseEdges', step.counter;
      res := step.outcome;
    }

    /**
     * `connect(from, to)` with the two nodes' ids: ValueError unless both are registered;
     * otherwise exactly one more forward entry and one more reverse entry, duplicates kept,
     * and nothing else changes.
     */
    method Connect(fromId: string, toId: string) returns (res: Result<(), NetError>)
      requires Valid()
      modifies this
      ensures Valid()
      ensures nodes == old(nodes) && keyOrder == old(keyOrder) && idCounter == old(idCounter)
      ensures res.Err? <==> fromId !in nodes || toId !in nodes
      ensures res.Err? ==>
        res.error == UnknownEndpoint && edges == old(edges) && reverseEdges == old(reverseEdges) && edgeLog == old(edgeLog)
      ensures res.Ok? ==>
        && edges == old(edges)[fromId := old(edges)[fromId] + [toId]]
        && reverseEdges == old(reverseEdges)[toId := old(reverseEdges)[toId] + [fromId]]
        && edgeLog == old(edgeLog) + [(fromId, toId)]
    {
      if fromId !in nodes || toId !in nodes {
        return Err(UnknownEndpoint);
      }
      GraphOkConnect(nodes.Keys, keyOrder, edges, reverseEdges, edgeLog, fromId, toId);
      edges, reverseEdges, edgeLog :=
        edges[fromId := edges[fromId] + [toId]], reverseEdges[toId := reverseEdges[toId] + [fromId]],
        edgeLog + [(fromId, toId)];
      res := Ok(());
    }

    /** A caller's `node.receive(signal)` on a registered node. */
    method ReceiveAt(id: string, s: Signal)
      requires Valid() && id in nodes
      modifies this
      ensures Valid()
      ensures nodes == old(nodes)[id := Receive(old(nodes)[id], s)]
      ensures keyOrder == old(keyOrder) && edges == old(edges) && reverseEdges == old(reverseEdges)
      ensures idCounter == old(idCounter) && edgeLog == old(edgeLog)
    {
      var nodes' := nodes[id := Receive(nodes[id], s)];
      assert nodes'.Keys == nodes.Keys;
      nodes := nodes';
    }

    /** `reset_all`: every registered node is reset, in registration order. */
    method ResetAll()
      requires Valid()
      modifies this
      ensures Valid()
      ensures nodes.Keys == old(nodes).Keys
      ensures forall id :: id in nodes ==> nodes[id] == Reset(old(nodes)[id])
      ensures keyOrder == old(keyOrder) && edges == old(edges) && reverseEdges == old(reverseEdges)
      ensures idCounter == old(idCounter) && edgeLog == old(edgeLog)
    {
      nodes := ResetEach(nodes, keyOrder);
    }

    /** `get_outputs(node)` for the node's id: its outputs, or [] for an unregistered id. */
    method GetOutputs(id: string) returns (out: seq<Signal>)
      ensures id in nodes ==> out == Outputs(nodes[id])
      ensures id !in nodes ==> out == []
    {
      if id in nodes {
        out := Outputs(nodes[id]);
      } else {
        out := [];
      }
    }

    /** `get_all_outputs`: one entry per registered id, each that node's outputs. */
    method GetAllOutputs() returns (all: map<string, seq<Signal>>)
      ensures all.Keys == nodes.Keys
      ensures forall id :: id in all ==> all[id] == Outputs(nodes[id])
    {
      all := map id | id in nodes :: Outputs(nodes[id]);
    }

    /**
     * `propagate_all`: the order is computed before any node is touched, so a cyclic network
     * raises with every node as it was. Otherwise each node of a topological order propagates
     * once, in order, and a clone of each of its outputs goes to each target once per forward
     * entry: the nodes end up as `Pass` describes.
     */
    method PropagateAll() returns (res: Result<(), NetError>, ghost order: seq<string>)
      requires Valid()
      modifies this
      ensures Valid()
      ensures nodes.Keys == old(nodes).Keys
      ensures keyOrder == old(keyOrder) && edges == old(edges) && reverseEdges == old(reverseEdges)
      ensures idCounter == old(idCounter) && edgeLog == old(edgeLog)
      ensures HasCycle(edgeLog) ==> res == Err(CycleDetected) && nodes == old(nodes)
      ensures !HasCycle(edgeLog) ==> IsTopologicalOrder(order, nodes.Keys, edgeLog)
      ensures !HasCycle(edgeLog) ==>
        nodes == Pass(old(nodes), order, edges).0
        && res == (match Pass(old(nodes), order, edges).1
                   case None => Ok(())
                   case Some(f) => Err(NodeFault(f)))
    {
      var sorted := TopologicalOrder(nodes.Keys, keyOrder, edges, reverseEdges, edgeLog);
      if sorted.Err? {
        return Err(CycleDetected), [];
      }
      var ids := sorted.value;
      order := ids;
      PassKeepsIds(nodes, ids, edges);
      var m, fault := RunPass(nodes, ids, edges);
      nodes := m;
      res := if fault.Some? then Err(NodeFault(fault.value)) else Ok(());
    }
  }
}
