/**
 * The network-backed `ParaconsistentBlock` of src/mrn/blocks/paraconsistent_block.py and the
 * base class it extends (src/mrn/wiring/block_with_schema.py): a block that owns four nodes of
 * a `Network_Manager` (input, last-signal, parser, classifier), maps DSL port names to them,
 * builds the bridge operation that turns an expression's value into an input signal, and
 * feeds its input node.
 *
 * The last-signal, parser and classifier nodes come from preset factories whose node class is
 * not part of this model, so their states are given to the construction.
 */
module NetBlock {
  import opened Wrappers
  import opened Signals
  import opened NodeStates
  import opened Network
  import opened Digraphs
  import opened Operations

  // ------------------------------------------------------------------
  // Port names
  // ------------------------------------------------------------------

  /** `str.lower` on one character, for the ASCII letters. */
  function LowerChar(c: char): char
  {
    if 'A' <= c <= 'Z' then (c as int - 'A' as int + 'a' as int) as char else c
  }

  /** `str.lower` on ASCII text. */
  function Lower(s: string): (r: string)
    ensures |r| == |s|
    ensures forall i :: 0 <= i < |s| ==> r[i] == LowerChar(s[i])
  {
    seq(|s|, i requires 0 <= i < |s| => LowerChar(s[i]))
  }

  /** Lower-casing twice is lower-casing once. */
  lemma LowerIdempotent(s: string)
    ensures Lower(Lower(s)) == Lower(s)
  {
    assert forall i :: 0 <= i < |s| ==> LowerChar(LowerChar(s[i])) == LowerChar(s[i]);
  }

  /** The node a DSL port name stands for. */
  datatype PortNode = InputPort | ParserPort | ClassifierPort

  /** The ValueError `port` raises for an unknown name (the name as lower-cased). */
  datatype PortError = UnknownPort(name: string)

  /**
   * `port(name)`: after lower-casing, "in"/"input" is the input node, "complete" the parser
   * node, "classified"/"class" the classifier node, and anything else a ValueError.
   */
  function Port(name: string): (r: Result<PortNode, PortError>)
    ensures r.Err? <==> Lower(name) !in {"in", "input", "complete", "classified", "class"}
    ensures r.Err? ==> r.error == UnknownPort(Lower(name))
    ensures r == Ok(InputPort) <==> Lower(name) in {"in", "input"}
    ensures r == Ok(ClassifierPort) <==> Lower(name) in {"classified", "class"}
  {
    var n := Lower(name);
    if n == "in" || n == "input" then Ok(InputPort)
    else if n == "complete" then Ok(ParserPort)
    else if n == "classified" || n == "class" then Ok(ClassifierPort)
    else Err(UnknownPort(n))
  }

  /** Port names are case-insensitive: a name and its lower-cased form denote the same node. */
  lemma PortIgnoresCase(name: string)
    ensures Port(Lower(name)) == Port(name)
  {
    LowerIdempotent(name);
  }

  // ------------------------------------------------------------------
  // The bridge operation
  // ------------------------------------------------------------------

  /**
   * The function a bridge applies. The source tries the function on the whole list first and
   * falls back to one call per signal when that raises TypeError; here the two kinds are
   * told apart by their tag.
   */
  datatype BridgeFunc = Multi(f: seq<Signal> -> real) | Single(g: Signal -> real)

  /** The multi-input path: one simple signal carrying the value in `toAttr` ("mu", else lam). */
  function MultiOut(toAttr: string, v: real, src: string): Signal
  {
    if toAttr == "mu" then Simple(v, 0.0, src) else Simple(0.0, v, src)
  }

  /** One step of the single-input path: the value overwrites `toAttr`, the rest is kept. */
  function Rewrite(toAttr: string, g: Signal -> real, s: Signal): Signal
  {
    var val := g(s);
    if toAttr == "mu" then Simple(val, LamOrZero(s), s.sourceId)
    else Simple(MuOrZero(s), val, s.sourceId)
  }

  /** What the bridge operation returns for a list of signals. */
  function BridgeSpec(toAttr: string, func: BridgeFunc, signals: seq<Signal>): seq<Signal>
  {
    if signals == [] then []
    else match func
      case Multi(f) => [MultiOut(toAttr, f(signals), signals[0].sourceId)]
      case Single(g) => seq(|signals|, i requires 0 <= i < |signals| => Rewrite(toAttr, g, signals[i]))
  }

  /**
   * The operation `build_bridge_operation` returns, applied to `signals`. Nothing in, nothing
   * out. A multi-input function yields exactly one simple signal, with the value in mu (for
   * "mu") or lam (otherwise), 0.0 in the other field, and the first input's source. A
   * single-input function yields one simple signal per input, in order, each with the value
   * in the targeted field and the input's other field and source.
   */
  method Bridge(toAttr: string, func: BridgeFunc, signals: seq<Signal>) returns (out: seq<Signal>)
    ensures out == BridgeSpec(toAttr, func, signals)
    ensures signals == [] ==> out == []
    ensures signals != [] && func.Multi? ==>
      && |out| == 1 && out[0].Simple? && out[0].sourceId == signals[0].sourceId
      && (toAttr == "mu" ==> out[0].mu == func.f(signals) && out[0].lam == 0.0)
      && (toAttr != "mu" ==> out[0].lam == func.f(signals) && out[0].mu == 0.0)
    ensures func.Single? ==> |out| == |signals|
    ensures func.Single? ==> forall i :: 0 <= i < |signals| ==>
      && out[i].Simple? && out[i].sourceId == signals[i].sourceId
      && (toAttr == "mu" ==> out[i].mu == func.g(signals[i]) && out[i].lam == LamOrZero(signals[i]))
      && (toAttr != "mu" ==> out[i].lam == func.g(signals[i]) && out[i].mu == MuOrZero(signals[i]))
  {
    if signals == [] {
      return [];
    }
    match func
    case Multi(f) =>
      out := [MultiOut(toAttr, f(signals), signals[0].sourceId)];
    case Single(g) =>
      out := [];
      var k := 0;
      while k < |signals|
        invariant 0 <= k <= |signals| && |out| == k
        invariant forall i :: 0 <= i < k ==> out[i] == Rewrite(toAttr, g, signals[i])
      {
        out := out + [Rewrite(toAttr, g, signals[k])];
        k := k + 1;
      }
  }

  // ------------------------------------------------------------------
  // The block
  // ------------------------------------------------------------------

  /** `_register_nodes` as written hands all its nodes to the one-parameter `add_node`. */
  datatype BuildError = TooManyArguments(given: nat) | NetFailure(error: NetError)

  /**
   * `self.net.add_node(*nodes)` as written: Python's call fails with TypeError unless exactly
   * one node is passed.
   */
  function AddNodeCallAsWritten(nodes: seq<NodeState>): (r: Option<BuildError>)
    ensures r.None? <==> |nodes| == 1
  {
    if |nodes| == 1 then None else Some(TooManyArguments(|nodes|))
  }

  /** The constructor registers its four nodes in one call, which therefore always raises. */
  lemma ConstructorAsWrittenRaises(a: NodeState, b: NodeState, c: NodeState, d: NodeState)
    ensures AddNodeCallAsWritten([a, b, c, d]) == Some(TooManyArguments(4))
  {
  }

  /** The node `InputNodeBuilder().build()` returns: an empty input node with id "default". */
  function DefaultInputNode(): (r: NodeState)
    ensures r.InputState? && r.signals == [] && r.id == "default" && !IsBlank(r.id)
  {
    var r := InputState("default", []);
    assert r.id[0] == 'd' && !IsSpace(r.id[0]);
    r
  }

  /** Distinct, non-blank ids none of which is registered yet. */
  predicate FreshIds(keys: set<string>, nodes: seq<NodeState>)
  {
    && (forall i :: 0 <= i < |nodes| ==> !IsBlank(nodes[i].id) && nodes[i].id !in keys)
    && (forall i, j :: 0 <= i < j < |nodes| ==> nodes[i].id != nodes[j].id)
  }

  lemma AppendThree<T>(xs: seq<T>, a: T, b: T, c: T)
    ensures xs + [a] + [b] + [c] == xs + [a, b, c]
  {
  }

  /** A registration under `got` kept the node's own id, if it had one. */
  predicate KeepsId(got: string, node: NodeState)
  {
    !IsBlank(node.id) ==> got == node.id
  }

  /** The ids of a list of nodes. */
  function IdsOf(nodes: seq<NodeState>): set<string>
  {
    set i | 0 <= i < |nodes| :: nodes[i].id
  }

  /**
   * When the first `i + 1` nodes have fresh ids, so do the first `i`, and the next node's id
   * is new and registering it adds exactly that id.
   */
  lemma FreshNext(keys: set<string>, nodes: seq<NodeState>, i: nat)
    requires i < |nodes| && FreshIds(keys, nodes[..i + 1])
    ensures FreshIds(keys, nodes[..i])
    ensures !IsBlank(nodes[i].id) && nodes[i].id !in keys + IdsOf(nodes[..i])
    ensures keys + IdsOf(nodes[..i]) + {nodes[i].id} == keys + IdsOf(nodes[..i + 1])
  {
    assert nodes[..i + 1] == nodes[..i] + [nodes[i]];
    assert IdsOf(nodes[..i + 1]) == IdsOf(nodes[..i]) + {nodes[i].id};
  }

  /** Every prefix of a list of nodes with fresh ids has fresh ids. */
  lemma FreshPrefixes(keys: set<string>, nodes: seq<NodeState>, m: nat)
    requires m <= |nodes|
    ensures forall j :: m <= j <= |nodes| && FreshIds(keys, nodes[..j]) ==> FreshIds(keys, nodes[..m])
  {
    forall j | m <= j <= |nodes| && FreshIds(keys, nodes[..j])
      ensures FreshIds(keys, nodes[..m])
    {
      assert nodes[..j][..m] == nodes[..m];
    }
  }

  /** Each of the first `|got|` nodes was registered as `got` says, so its class could take it. */
  predicate RegisteredAs(got: seq<string>, nodes: seq<NodeState>)
  {
    |got| <= |nodes| && forall k :: 0 <= k < |got| ==> KeepsId(got[k], nodes[k]) && Registrable(nodes[k])
  }

  lemma RegisteredAsGrow(got: seq<string>, nodes: seq<NodeState>, id: string)
    requires RegisteredAs(got, nodes) && |got| < |nodes|
    requires KeepsId(id, nodes[|got|]) && Registrable(nodes[|got|])
    ensures RegisteredAs(got + [id], nodes)
  {
    forall k | 0 <= k < |got| + 1
      ensures KeepsId((got + [id])[k], nodes[k]) && Registrable(nodes[k])
    {
      if k < |got| {
        assert KeepsId(got[k], nodes[k]) && Registrable(nodes[k]);
      }
    }
  }

  /**
   * When every node was registered, each is registrable, each registered id is a key of the
   * new map, and each node that had an id was registered under it.
   */
  lemma RegisteredAll(base: map<string, NodeState>, nodes: seq<NodeState>, got: seq<string>)
    requires RegisteredAs(got, nodes) && |got| == |nodes|
    ensures forall k :: 0 <= k < |nodes| ==> got[k] in Stored(base, nodes, got) && Registrable(nodes[k])
    ensures forall k :: 0 <= k < |nodes| && !IsBlank(nodes[k].id) ==> got[k] == nodes[k].id
  {
    StoredKeys(base, nodes, got);
    forall k | 0 <= k < |nodes| && !IsBlank(nodes[k].id)
      ensures got[k] == nodes[k].id
    {
      assert KeepsId(got[k], nodes[k]);
    }
  }

  /**
   * Once the first `i` nodes were registered and the first `i + 1` do not have fresh ids, the
   * `i`-th is the only one that can be the first unregistrable node after fresh ones.
   */
  lemma OnlyAt(keys: set<string>, nodes: seq<NodeState>, got: seq<string>, i: nat)
    requires i == |got| < |nodes| && RegisteredAs(got, nodes) && !FreshIds(keys, nodes[..i + 1])
    ensures !FreshIds(keys, nodes)
    ensures forall j :: 0 <= j < |nodes| && FreshIds(keys, nodes[..j]) && !Registrable(nodes[j]) ==> j == i
  {
    FreshPrefixes(keys, nodes, i + 1);
    assert nodes[..|nodes|] == nodes;
  }

  /** A node `add_node` can register: it has an id, or its class can take a generated one. */
  predicate Registrable(node: NodeState)
  {
    !IsBlank(node.id) || HasSetId(node)
  }

  /**
   * The node map after `nodes` are registered one after the other under `ids`, starting from
   * `base`: each node is stored, carrying its id, under that id.
   */
  function Stored(base: map<string, NodeState>, nodes: seq<NodeState>, ids: seq<string>): map<string, NodeState>
    requires |ids| == |nodes|
  {
    if nodes == [] then base
    else Stored(base, nodes[..|nodes| - 1], ids[..|ids| - 1])[ids[|ids| - 1] := WithId(nodes[|nodes| - 1], ids[|ids| - 1])]
  }

  /** Registering one more node is one more map update. */
  lemma StoredStep(base: map<string, NodeState>, nodes: seq<NodeState>, ids: seq<string>, i: nat, id: string)
    requires |ids| == i < |nodes|
    ensures Stored(base, nodes[..i + 1], ids + [id]) == Stored(base, nodes[..i], ids)[id := WithId(nodes[i], id)]
  {
    assert nodes[..i + 1][..i] == nodes[..i];
    assert (ids + [id])[..i] == ids;
  }

  /** The registered keys are the old ones and the ids registered under. */
  lemma {:induction false} StoredKeys(base: map<string, NodeState>, nodes: seq<NodeState>, ids: seq<string>)
    requires |ids| == |nodes|
    ensures forall x :: x in Stored(base, nodes, ids) <==> x in base || x in ids
  {
    if nodes != [] {
      var n := |nodes| - 1;
      StoredKeys(base, nodes[..n], ids[..n]);
      assert ids == ids[..n] + [ids[n]];
    }
  }

  /** A node of `base` whose id is not registered again is left as it was. */
  lemma {:induction false} StoredElsewhere(base: map<string, NodeState>, nodes: seq<NodeState>, ids: seq<string>,
                                           x: string)
    requires |ids| == |nodes| && x in base && x !in ids
    ensures x in Stored(base, nodes, ids) && Stored(base, nodes, ids)[x] == base[x]
  {
    if nodes != [] {
      var n := |nodes| - 1;
      assert x != ids[n];
      assert x !in ids[..n];
      StoredElsewhere(base, nodes[..n], ids[..n], x);
    }
  }

  /** The last node registered is stored, carrying its id, under its id. */
  lemma StoredLast(base: map<string, NodeState>, nodes: seq<NodeState>, ids: seq<string>)
    requires |ids| == |nodes| > 0
    ensures ids[|ids| - 1] in Stored(base, nodes, ids)
    ensures Stored(base, nodes, ids)[ids[|ids| - 1]] == WithId(nodes[|nodes| - 1], ids[|ids| - 1])
  {
  }

  /** With distinct ids, each node is stored, carrying its id, under the id it was registered as. */
  lemma {:induction false} StoredAt(base: map<string, NodeState>, nodes: seq<NodeState>, ids: seq<string>, k: nat)
    requires |ids| == |nodes| && k < |nodes|
    requires forall a, b :: 0 <= a < b < |ids| ==> ids[a] != ids[b]
    ensures ids[k] in Stored(base, nodes, ids) && Stored(base, nodes, ids)[ids[k]] == WithId(nodes[k], ids[k])
  {
    var n := |nodes| - 1;
    if k < n {
      assert ids[k] != ids[n];
      StoredAt(base, nodes[..n], ids[..n], k);
    }
  }

  class NetBlock {
    const blockId: string
    /** `self.net`. */
    const net: NetworkManager
    /** `_all_nodes`: every node handed to `_register_nodes`, in order. */
    var allNodes: seq<NodeState>
    /** The ids of the input, last-signal, parser and classifier nodes, once registered. */
    var ids: seq<string>

    /** The four nodes are registered in a consistent network. */
    ghost predicate Valid()
      reads this, net
    {
      && net.Valid()
      && |ids| == 4
      && (forall i :: 0 <= i < 4 ==> ids[i] in net.nodes)
    }

    /** `BlockWithSchema.__init__`: the given network, or a fresh one; no nodes yet. */
    constructor(blockId: string, network: NetworkManager?)
      requires network != null ==> network.Valid()
      ensures this.blockId == blockId && allNodes == [] && ids == []
      ensures network != null ==> net == network
      ensures network == null ==> fresh(net) && net.nodes == map[] && net.edgeLog == []
      ensures net.Valid()
    {
      this.blockId := blockId;
      if network == null {
        net := new NetworkManager();
      } else {
        net := network;
      }
      allNodes := [];
      ids := [];
    }

    /**
     * `_register_nodes` with each node passed to `add_node` on its own, in order: the nodes
     * are remembered, and the first failing registration stops the rest. The nodes registered
     * (`done`) are stored, carrying their ids, under the ids they were registered as, and
     * nothing else changes. Nodes with distinct non-blank ids that are not yet registered all
     * succeed under their own ids; the first blank-id node whose class has no `set_id`, after
     * such nodes, fails with that AttributeError.
     */
    method RegisterNodes(nodes: seq<NodeState>) returns (res: Result<seq<string>, NetError>, ghost done: seq<string>)
      requires net.Valid()
      modifies this, net
      ensures net.Valid() && net.edgeLog == old(net.edgeLog)
      ensures allNodes == old(allNodes) + nodes && ids == old(ids)
      ensures |done| <= |nodes| && net.nodes == Stored(old(net.nodes), nodes[..|done|], done)
      ensures res.Ok? ==> res.value == done && |done| == |nodes|
      ensures res.Err? ==> |done| < |nodes|
      ensures res.Ok? ==> forall k :: 0 <= k < |nodes| ==> res.value[k] in net.nodes && Registrable(nodes[k])
      ensures res.Ok? ==> forall k :: 0 <= k < |nodes| && !IsBlank(nodes[k].id) ==> res.value[k] == nodes[k].id
      ensures FreshIds(old(net.nodes).Keys, nodes) ==>
        res.Ok? && net.nodes.Keys == old(net.nodes).Keys + IdsOf(nodes)
      ensures forall k :: 0 <= k < |done| && !IsBlank(nodes[k].id) ==> done[k] == nodes[k].id
      ensures forall j :: 0 <= j < |nodes| && FreshIds(old(net.nodes).Keys, nodes[..j]) && !Registrable(nodes[j]) ==>
        res == Err(MissingSetId(ClassName(nodes[j]))) && |done| == j
      ensures res.Err? ==> res.error.DuplicateId? || res.error.MissingSetId?
    {
      allNodes := allNodes + nodes;
      res, done := AddAll(nodes);
    }

    /** The registrations of `_register_nodes`, one `add_node` per node, stopping at the first failure. */
    method AddAll(nodes: seq<NodeState>) returns (res: Result<seq<string>, NetError>, ghost done: seq<string>)
      requires net.Valid()
      modifies net
      ensures net.Valid() && net.edgeLog == old(net.edgeLog)
      ensures |done| <= |nodes| && net.nodes == Stored(old(net.nodes), nodes[..|done|], done)
      ensures res.Ok? ==> res.value == done && |done| == |nodes|
      ensures res.Err? ==> |done| < |nodes|
      ensures res.Ok? ==> forall k :: 0 <= k < |nodes| ==> res.value[k] in net.nodes && Registrable(nodes[k])
      ensures res.Ok? ==> forall k :: 0 <= k < |nodes| && !IsBlank(nodes[k].id) ==> res.value[k] == nodes[k].id
      ensures FreshIds(old(net.nodes).Keys, nodes) ==>
        res.Ok? && net.nodes.Keys == old(net.nodes).Keys + IdsOf(nodes)
      ensures forall k :: 0 <= k < |done| && !IsBlank(nodes[k].id) ==> done[k] == nodes[k].id
      ensures forall j :: 0 <= j < |nodes| && FreshIds(old(net.nodes).Keys, nodes[..j]) && !Registrable(nodes[j]) ==>
        res == Err(MissingSetId(ClassName(nodes[j]))) && |done| == j
      ensures res.Err? ==> res.error.DuplicateId? || res.error.MissingSetId?
    {
      ghost var nodes0 := net.nodes;
      ghost var keys0 := net.nodes.Keys;
      var got: seq<string> := [];
      var i := 0;
      while i < |nodes|
        invariant 0 <= i <= |nodes| && |got| == i
        invariant net.Valid() && net.edgeLog == old(net.edgeLog)
        invariant net.nodes == Stored(nodes0, nodes[..i], got)
        invariant RegisteredAs(got, nodes)
        invariant FreshIds(keys0, nodes[..i]) ==> net.nodes.Keys == keys0 + IdsOf(nodes[..i])
      {
        var r := RegisterNext(nodes, nodes0, keys0, got);
        if r.Err? {
          return Err(r.error), got;
        }
        got := got + [r.value];
        i := i + 1;
      }
      assert nodes[..i] == nodes;
      assert net.nodes == Stored(nodes0, nodes, got);
      RegisteredAll(nodes0, nodes, got);
      res, done := Ok(got), got;
    }

    /**
     * One iteration of `AddAll`: `add_node` on the node after the `|got|` registered ones,
     * and what that iteration keeps of the loop's invariant.
     */
    method RegisterNext(nodes: seq<NodeState>, ghost nodes0: map<string, NodeState>, ghost keys0: set<string>,
                        got: seq<string>) returns (r: Result<string, NetError>)
      requires net.Valid() && |got| < |nodes|
      requires net.nodes == Stored(nodes0, nodes[..|got|], got) && RegisteredAs(got, nodes)
      requires FreshIds(keys0, nodes[..|got|]) ==> net.nodes.Keys == keys0 + IdsOf(nodes[..|got|])
      modifies net
      ensures net.Valid() && net.edgeLog == old(net.edgeLog)
      ensures r.Ok? ==>
        && net.nodes == Stored(nodes0, nodes[..|got| + 1], got + [r.value])
        && RegisteredAs(got + [r.value], nodes)
        && (FreshIds(keys0, nodes[..|got| + 1]) ==> net.nodes.Keys == keys0 + IdsOf(nodes[..|got| + 1]))
      ensures r.Err? ==> net.nodes == old(net.nodes) && !FreshIds(keys0, nodes)
      ensures r.Err? ==> r.error.DuplicateId? || r.error.MissingSetId?
      ensures r.Err? ==> forall j :: 0 <= j < |nodes| && FreshIds(keys0, nodes[..j]) && !Registrable(nodes[j]) ==>
        r == Err(MissingSetId(ClassName(nodes[j]))) && j == |got|
    {
      var i := |got|;
      ghost var nextFresh := FreshIds(keys0, nodes[..i + 1]);
      if nextFresh {
        FreshNext(keys0, nodes, i);
      }
      r := AddOne(nodes[i]);
      if r.Err? {
        OnlyAt(keys0, nodes, got, i);
      } else {
        RegisteredAsGrow(got, nodes, r.value);
        StoredStep(nodes0, nodes, got, i, r.value);
      }
    }

    /**
     * `add_node` for one node, as `RegisterNodes` needs it: on success the node is stored,
     * carrying its id, under that id, and on failure nothing changes.
     */
    method AddOne(node: NodeState) returns (r: Result<string, NetError>)
      requires net.Valid()
      modifies net
      ensures net.Valid() && net.edgeLog == old(net.edgeLog)
      ensures r.Ok? ==> net.nodes == old(net.nodes)[r.value := WithId(node, r.value)] && KeepsId(r.value, node)
      ensures r.Err? ==> net.nodes == old(net.nodes)
      ensures !IsBlank(node.id) && node.id !in old(net.nodes) ==> r == Ok(node.id)
      ensures !Registrable(node) ==> r == Err(MissingSetId(ClassName(node)))
      ensures r.Err? ==> r.error.DuplicateId? || r.error.MissingSetId?
    {
      r := net.AddNode(node);
    }

    /**
     * The wiring of the constructor: input → last-signal → parser → classifier, three edges
     * appended in that order, nothing else changed.
     */
    method ConnectChain(chain: seq<string>) returns (res: Result<(), NetError>)
      requires net.Valid() && |chain| == 4 && forall k :: 0 <= k < 4 ==> chain[k] in net.nodes
      modifies net
      ensures net.Valid() && res.Ok?
      ensures net.nodes == old(net.nodes)
      ensures net.edgeLog == old(net.edgeLog) + [(chain[0], chain[1]), (chain[1], chain[2]), (chain[2], chain[3])]
    {
      var a, b, c, d := chain[0], chain[1], chain[2], chain[3];
      ghost var log := net.edgeLog;
      var r1 := net.Connect(a, b);
      var r2 := net.Connect(b, c);
      var r3 := net.Connect(c, d);
      assert net.edgeLog == log + [(a, b)] + [(b, c)] + [(c, d)];
      AppendThree(log, (a, b), (b, c), (c, d));
      res := Ok(());
    }

    /** The four registered ids are remembered and chained; the registered nodes stay as they are. */
    method Chain(chain: seq<string>)
      requires net.Valid() && |chain| == 4 && forall k :: 0 <= k < 4 ==> chain[k] in net.nodes
      modifies this, net
      ensures Valid() && ids == chain && allNodes == old(allNodes) && net.nodes == old(net.nodes)
      ensures net.edgeLog == old(net.edgeLog) + [(chain[0], chain[1]), (chain[1], chain[2]), (chain[2], chain[3])]
    {
      SetIds(chain);
      var c := ConnectChain(chain);
    }

    /** The four registered ids are remembered as the block's nodes. */
    method SetIds(chain: seq<string>)
      requires net.Valid() && |chain| == 4 && forall k :: 0 <= k < 4 ==> chain[k] in net.nodes
      modifies this
      ensures Valid() && ids == chain && allNodes == old(allNodes)
    {
      ids := chain;
    }

    /** The constructor's work after `BlockWithSchema.__init__`; `Build` states what it does. */
    method Wire(nodes: seq<NodeState>) returns (res: Result<(), NetError>, ghost done: seq<string>)
      requires net.Valid() && |nodes| == 4 && allNodes == [] && ids == []
      modifies this, net
      ensures res.Err? ==> net.Valid() && net.edgeLog == old(net.edgeLog)
      ensures res.Err? ==> |done| < 4 && net.nodes == Stored(old(net.nodes), nodes[..|done|], done)
      ensures |done| <= 4 && forall k :: 0 <= k < |done| && !IsBlank(nodes[k].id) ==> done[k] == nodes[k].id
      ensures res.Ok? ==> Valid() && allNodes == nodes
      ensures res.Ok? ==>
        && (forall k :: 0 <= k < 4 && !IsBlank(nodes[k].id) ==> ids[k] == nodes[k].id)
        && net.edgeLog == old(net.edgeLog) + [(ids[0], ids[1]), (ids[1], ids[2]), (ids[2], ids[3])]
      ensures res.Ok? ==> net.nodes == Stored(old(net.nodes), nodes, ids)
      ensures res.Ok? ==> forall k :: 0 <= k < 4 ==> Registrable(nodes[k])
      ensures FreshIds(old(net.nodes).Keys, nodes) ==> res.Ok?
      ensures forall j :: 0 <= j < 4 && FreshIds(old(net.nodes).Keys, nodes[..j]) && !Registrable(nodes[j]) ==>
        res == Err(MissingSetId(ClassName(nodes[j]))) && |done| == j
    {
      var r;
      r, done := RegisterNodes(nodes);
      if r.Err? {
        return Err(r.error), done;
      }
      var chain := r.value;
      assert nodes[..4] == nodes;
      Chain(chain);
      res := Ok(());
    }

    /** `port(name)`: the id of the node the name stands for, or ValueError. */
    function PortId(name: string): (r: Result<string, PortError>)
      reads this
      requires |ids| == 4
      ensures r.Err? <==> Port(name).Err?
      ensures Port(name) == Ok(InputPort) ==> r == Ok(ids[0])
      ensures Port(name) == Ok(ParserPort) ==> r == Ok(ids[2])
      ensures Port(name) == Ok(ClassifierPort) ==> r == Ok(ids[3])
    {
      match Port(name)
      case Err(e) => Err(e)
      case Ok(InputPort) => Ok(ids[0])
      case Ok(ParserPort) => Ok(ids[2])
      case Ok(ClassifierPort) => Ok(ids[3])
    }

    /** `set_input`: one simple signal (not clamped) appended to the input node's buffer. */
    method SetInput(mu: real, lam: real, sourceId: string)
      requires Valid()
      modifies net
      ensures Valid()
      ensures net.nodes == old(net.nodes)[ids[0] := Receive(old(net.nodes)[ids[0]], Simple(mu, lam, sourceId))]
      ensures net.edgeLog == old(net.edgeLog)
    {
      net.ReceiveAt(ids[0], Simple(mu, lam, sourceId));
    }

    /** The constructor's last step: the input node receives the initial signal when both values are given. */
    method Start(initialMu: Option<real>, initialLam: Option<real>, sourceId: string)
      requires Valid()
      modifies net
      ensures Valid() && net.edgeLog == old(net.edgeLog)
      ensures (initialMu.None? || initialLam.None?) ==> net.nodes == old(net.nodes)
      ensures initialMu.Some? && initialLam.Some? ==>
        net.nodes == old(net.nodes)[ids[0] := Receive(old(net.nodes)[ids[0]], Simple(initialMu.value, initialLam.value, sourceId))]
    {
      if initialMu.Some? && initialLam.Some? {
        SetInput(initialMu.value, initialLam.value, sourceId);
      }
    }

    /**
     * `run`: one propagation pass over the whole network. A cyclic network raises with every
     * node as it was; otherwise the nodes propagate once each along a topological order, and
     * end up as `Pass` describes.
     */
    method Run() returns (res: Result<(), NetError>, ghost order: seq<string>)
      requires Valid()
      modifies net
      ensures Valid()
      ensures net.nodes.Keys == old(net.nodes).Keys && net.edgeLog == old(net.edgeLog)
      ensures net.edges == old(net.edges)
      ensures HasCycle(net.edgeLog) ==> res == Err(CycleDetected) && net.nodes == old(net.nodes)
      ensures !HasCycle(net.edgeLog) ==> IsTopologicalOrder(order, net.nodes.Keys, net.edgeLog)
      ensures !HasCycle(net.edgeLog) ==>
        net.nodes == Pass(old(net.nodes), order, net.edges).0
        && res == (match Pass(old(net.nodes), order, net.edges).1
                   case None => Ok(())
                   case Some(f) => Err(NodeFault(f)))
    {
      res, order := net.PropagateAll();
    }

    /** `get_complete`: the parser node's outputs, each as its dictionary. */
    method GetComplete() returns (out: seq<Record>)
      requires Valid()
      ensures |out| == |Outputs(net.nodes[ids[2]])|
      ensures forall k :: 0 <= k < |out| ==> out[k] == ToDict(Outputs(net.nodes[ids[2]])[k])
    {
      var sigs := net.GetOutputs(ids[2]);
      out := seq(|sigs|, k requires 0 <= k < |sigs| => ToDict(sigs[k]));
    }

    /** `get_classified`: the classifier node's outputs, each as its dictionary. */
    method GetClassified() returns (out: seq<Record>)
      requires Valid()
      ensures |out| == |Outputs(net.nodes[ids[3]])|
      ensures forall k :: 0 <= k < |out| ==> out[k] == ToDict(Outputs(net.nodes[ids[3]])[k])
    {
      var sigs := net.GetOutputs(ids[3]);
      out := seq(|sigs|, k requires 0 <= k < |sigs| => ToDict(sigs[k]));
    }
  }

  /**
   * The constructor as written: the four nodes are remembered, and the single `add_node`
   * call that receives all of them raises TypeError before any node is registered.
   */
  method BuildAsWritten(blockId: string, network: NetworkManager?, getLast: NodeState,
                        parser: NodeState, classifier: NodeState)
    returns (res: Result<NetBlock, BuildError>)
    requires network != null ==> network.Valid()
    ensures res == Err(TooManyArguments(4))
    ensures network != null ==> network.nodes == old(network.nodes) && network.edgeLog == old(network.edgeLog)
  {
    var b := new NetBlock(blockId, network);
    var nodes := [DefaultInputNode(), getLast, parser, classifier];
    b.allNodes := b.allNodes + nodes;
    var failed := AddNodeCallAsWritten(nodes);
    ConstructorAsWrittenRaises(nodes[0], getLast, parser, classifier);
    return Err(failed.value);
  }

  /**
   * The constructor with each node registered on its own: the four nodes are registered,
   * chained input → last-signal → parser → classifier, and the input node receives the
   * initial signal when both initial values are given. A registration that fails (a
   * duplicate id, or a blank id on a node class without `set_id`) is the constructor's error;
   * a given network then keeps the nodes registered before it, and no edge is added.
   */
  method Build(blockId: string, network: NetworkManager?, getLast: NodeState, parser: NodeState,
               classifier: NodeState, initialMu: Option<real>, initialLam: Option<real>, sourceId: string)
    returns (res: Result<NetBlock, BuildError>, ghost wired: map<string, NodeState>, ghost done: seq<string>)
    requires network != null ==> network.Valid()
    modifies network
    ensures res.Err? && network != null ==> network.Valid() && network.edgeLog == old(network.edgeLog)
    ensures res.Err? && network != null ==>
      var nodes := [DefaultInputNode(), getLast, parser, classifier];
      |done| < 4 && network.nodes == Stored(old(network.nodes), nodes[..|done|], done)
    ensures |done| <= 4
    ensures var nodes := [DefaultInputNode(), getLast, parser, classifier];
      forall k :: 0 <= k < |done| && !IsBlank(nodes[k].id) ==> done[k] == nodes[k].id
    ensures res.Ok? ==> fresh(res.value) && res.value.Valid() && res.value.blockId == blockId
    ensures res.Ok? && network != null ==> res.value.net == network
    ensures res.Ok? ==> res.value.allNodes == [DefaultInputNode(), getLast, parser, classifier]
    ensures res.Ok? ==> var ids := res.value.ids;
      && (forall k :: 0 <= k < 4 && !IsBlank(res.value.allNodes[k].id) ==> ids[k] == res.value.allNodes[k].id)
      && res.value.net.edgeLog ==
           (if network == null then [] else old(network.edgeLog))
           + [(ids[0], ids[1]), (ids[1], ids[2]), (ids[2], ids[3])]
    ensures res.Ok? ==> forall k :: 0 <= k < 4 ==> res.value.ids[k] in wired
    ensures res.Ok? ==>
      wired == Stored(if network == null then map[] else old(network.nodes), res.value.allNodes, res.value.ids)
    ensures res.Ok? ==> Registrable(getLast) && Registrable(parser) && Registrable(classifier)
    ensures res.Ok? && (initialMu.None? || initialLam.None?) ==> res.value.net.nodes == wired
    ensures res.Ok? && initialMu.Some? && initialLam.Some? ==>
      var i0 := res.value.ids[0];
      res.value.net.nodes == wired[i0 := Receive(wired[i0], Simple(initialMu.value, initialLam.value, sourceId))]
    ensures res.Err? ==> res.error.NetFailure?
    ensures
      var keys := if network == null then {} else old(network.nodes).Keys;
      FreshIds(keys, [DefaultInputNode(), getLast, parser, classifier]) ==> res.Ok?
    ensures
      var keys := if network == null then {} else old(network.nodes).Keys;
      FreshIds(keys, [DefaultInputNode(), getLast, parser]) && !Registrable(classifier) ==>
        res == Err(NetFailure(MissingSetId(ClassName(classifier)))) && |done| == 3
  {
    var nodes := [DefaultInputNode(), getLast, parser, classifier];
    var c;
    c, done := Construct(blockId, network, nodes);
    assert nodes[..3] == [DefaultInputNode(), getLast, parser];
    if c.Err? {
      return Err(NetFailure(c.error)), map[], done;
    }
    var b := c.value;
    wired := b.net.nodes;
    b.Start(initialMu, initialLam, sourceId);
    res := Ok(b);
  }

  /** `BlockWithSchema.__init__` followed by the registration and chaining of the four nodes. */
  method Construct(blockId: string, network: NetworkManager?, nodes: seq<NodeState>)
    returns (res: Result<NetBlock, NetError>, ghost done: seq<string>)
    requires network != null ==> network.Valid()
    requires |nodes| == 4
    modifies network
    ensures res.Err? && network != null ==> network.Valid() && network.edgeLog == old(network.edgeLog)
    ensures res.Err? && network != null ==>
      |done| < 4 && network.nodes == Stored(old(network.nodes), nodes[..|done|], done)
    ensures |done| <= 4 && forall k :: 0 <= k < |done| && !IsBlank(nodes[k].id) ==> done[k] == nodes[k].id
    ensures res.Ok? ==> fresh(res.value) && res.value.Valid() && res.value.blockId == blockId
    ensures res.Ok? ==> res.value.allNodes == nodes
    ensures res.Ok? && network != null ==> res.value.net == network
    ensures res.Ok? && network == null ==> fresh(res.value.net)
    ensures res.Ok? ==> var ids := res.value.ids;
      && (forall k :: 0 <= k < 4 && !IsBlank(nodes[k].id) ==> ids[k] == nodes[k].id)
      && res.value.net.edgeLog ==
           (if network == null then [] else old(network.edgeLog))
           + [(ids[0], ids[1]), (ids[1], ids[2]), (ids[2], ids[3])]
    ensures res.Ok? ==>
      res.value.net.nodes == Stored(if network == null then map[] else old(network.nodes), nodes, res.value.ids)
    ensures res.Ok? ==> forall k :: 0 <= k < 4 ==> Registrable(nodes[k])
    ensures
      var keys := if network == null then {} else old(network.nodes).Keys;
      FreshIds(keys, nodes) ==> res.Ok?
    ensures
      var keys := if network == null then {} else old(network.nodes).Keys;
      forall j :: 0 <= j < 4 && FreshIds(keys, nodes[..j]) && !Registrable(nodes[j]) ==>
        res == Err(MissingSetId(ClassName(nodes[j]))) && |done| == j
  {
    var b := new NetBlock(blockId, network);
    var r;
    r, done := b.Wire(nodes);
    if r.Err? {
      return Err(r.error), done;
    }
    res := Ok(b);
  }

  /**
   * The classifier preset of src/mrn/presets/paraconsistent_classifier_output_node.py: an
   * output node with empty buffers. `operation` stands for the preset's
   * `ResultEachSignalOperation` over a `ParaconsistentClassifierCalculation` (by default
   * tC = 0.30, tCT = 0.30, tD = 0.20, L = 0.05, nd = 6), and `id` for `node_id`, with "" for
   * None.
   */
  function ClassifierPreset(operation: Operation, id: string): (r: NodeState)
    ensures r.OutputState? && r.id == id && r.operation == operation
    ensures r.inputs == [] && r.outputs == [] && ValidState(r)
  {
    OutputState(id, operation, [], [], false)
  }

  /**
   * The constructor with each node registered on its own and the classifier preset as
   * written: its output node has no id (`node_id=None`) and `OutputNode` has no `set_id`, so
   * the construction always fails; when the first three nodes register, it fails on the
   * classifier with AttributeError.
   */
  method BuildWithPresetAsWritten(blockId: string, network: NetworkManager?, getLast: NodeState,
                                  parser: NodeState, classifierOp: Operation, initialMu: Option<real>,
                                  initialLam: Option<real>, sourceId: string)
    returns (res: Result<NetBlock, BuildError>)
    requires network != null ==> network.Valid()
    modifies network
    ensures res.Err?
    ensures
      var keys := if network == null then {} else old(network.nodes).Keys;
      FreshIds(keys, [DefaultInputNode(), getLast, parser]) ==> res == Err(NetFailure(MissingSetId("OutputNode")))
    ensures network != null ==> network.Valid() && network.edgeLog == old(network.edgeLog)
    ensures network != null && FreshIds(old(network.nodes).Keys, [DefaultInputNode(), getLast, parser]) ==>
      network.nodes == Stored(old(network.nodes), [DefaultInputNode(), getLast, parser], ["default", getLast.id, parser.id])
  {
    var classifier := ClassifierPreset(classifierOp, "");
    assert !Registrable(classifier);
    ghost var wired, done;
    res, wired, done := Build(blockId, network, getLast, parser, classifier, initialMu, initialLam, sourceId);
    if network != null && FreshIds(old(network.nodes).Keys, [DefaultInputNode(), getLast, parser]) {
      PrefixOfFour(old(network.nodes).Keys, getLast, parser, classifier, done);
    }
  }

  /** Three nodes with fresh ids, registered before a failing fourth, are registered under their own ids. */
  lemma PrefixOfFour(keys: set<string>, getLast: NodeState, parser: NodeState, classifier: NodeState,
                     done: seq<string>)
    requires FreshIds(keys, [DefaultInputNode(), getLast, parser]) && |done| == 3
    requires var nodes := [DefaultInputNode(), getLast, parser, classifier];
      forall k :: 0 <= k < |done| && !IsBlank(nodes[k].id) ==> done[k] == nodes[k].id
    ensures [DefaultInputNode(), getLast, parser, classifier][..|done|] == [DefaultInputNode(), getLast, parser]
    ensures done == ["default", getLast.id, parser.id]
  {
    var nodes := [DefaultInputNode(), getLast, parser, classifier];
    assert nodes[..3] == [DefaultInputNode(), getLast, parser];
    assert !IsBlank(nodes[1].id) && !IsBlank(nodes[2].id);
  }

  /**
   * The constructor with the classifier preset given an id of its own, as the parser preset
   * has: with fresh distinct ids the construction succeeds and the classifier is registered,
   * unchanged, under that id.
   */
  method BuildWithPreset(blockId: string, network: NetworkManager?, getLast: NodeState, parser: NodeState,
                         classifierOp: Operation, initialMu: Option<real>, initialLam: Option<real>,
                         sourceId: string)
    returns (res: Result<NetBlock, BuildError>, ghost wired: map<string, NodeState>)
    requires network != null ==> network.Valid()
    modifies network
    ensures res.Ok? ==> res.value.Valid() && res.value.ids[3] == "classifier"
    ensures res.Ok? ==> "classifier" in wired && wired["classifier"] == ClassifierPreset(classifierOp, "classifier")
    ensures
      var keys := if network == null then {} else old(network.nodes).Keys;
      FreshIds(keys, [DefaultInputNode(), getLast, parser, ClassifierPreset(classifierOp, "classifier")]) ==> res.Ok?
  {
    var classifier := ClassifierPreset(classifierOp, "classifier");
    assert "classifier"[0] == 'c' && !IsSpace("classifier"[0]);
    ghost var done;
    res, wired, done := Build(blockId, network, getLast, parser, classifier, initialMu, initialLam, sourceId);
    if res.Ok? {
      var b := res.value;
      assert b.allNodes[3] == classifier;
      StoredLast(if network == null then map[] else old(network.nodes), b.allNodes, b.ids);
    }
  }
}
