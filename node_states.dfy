/**
 * The buffers of the three node kinds of src/mrn/nodes/ as values, and the transitions
 * `receive`, `propagate`, `get_outputs` and `reset` make on them.
 */
module NodeStates {
  import opened Wrappers
  import opened Signals
  import opened Operations

  /** The callable a wiring node may carry: a list of signals in, a list out. */
  type WireOp = seq<Signal> -> seq<Signal>

  datatype NodeState =
    | InputState(id: string, signals: seq<Signal>)
      /**
       * `aliased` records that the outputs list is the inputs list itself, which is what
       * storing the result of `NoneOperation.execute` (its own argument) produces.
       */
    | OutputState(id: string, operation: Operation, inputs: seq<Signal>, outputs: seq<Signal>,
                  aliased: bool)
    | WiringState(id: string, op: Option<WireOp>, inbox: seq<Signal>, outbox: seq<Signal>)

  /** The aliasing of an output node's lists is only ever created by the pass-through operation. */
  ghost predicate ValidState(st: NodeState)
  {
    st.OutputState? && st.aliased ==> st.operation.NoneOp? && st.outputs == st.inputs
  }

  /** `receive(signal)`: appends to the node's incoming buffer. */
  function Receive(st: NodeState, s: Signal): (r: NodeState)
    ensures r.id == st.id
    ensures ValidState(st) ==> ValidState(r)
  {
    match st
    case InputState(id, signals) => InputState(id, signals + [s])
    case OutputState(id, op, inputs, outputs, aliased) =>
      OutputState(id, op, inputs + [s], if aliased then inputs + [s] else outputs, aliased)
    case WiringState(id, op, inbox, outbox) => WiringState(id, op, inbox + [s], outbox)
  }

  /** `receive` for each signal of a batch, in order. */
  function ReceiveAll(st: NodeState, ss: seq<Signal>): (r: NodeState)
    ensures r.id == st.id
    ensures ValidState(st) ==> ValidState(r)
    decreases |ss|
  {
    if ss == [] then st else Receive(ReceiveAll(st, ss[..|ss| - 1]), ss[|ss| - 1])
  }

  /** The incoming buffer: the signals `receive` has appended since the last clearing. */
  function Incoming(st: NodeState): seq<Signal>
  {
    match st
    case InputState(_, signals) => signals
    case OutputState(_, _, inputs, _, _) => inputs
    case WiringState(_, _, inbox, _) => inbox
  }

  /** Receiving a batch appends exactly that batch to the incoming buffer and leaves the rest. */
  lemma {:induction false} ReceiveAllAppends(st: NodeState, ss: seq<Signal>)
    ensures Incoming(ReceiveAll(st, ss)) == Incoming(st) + ss
    ensures st.OutputState? ==>
      && ReceiveAll(st, ss).OutputState?
      && ReceiveAll(st, ss).operation == st.operation
      && ReceiveAll(st, ss).aliased == st.aliased
    ensures st.OutputState? && !st.aliased ==> ReceiveAll(st, ss).outputs == st.outputs
    ensures st.OutputState? && st.aliased && ValidState(st) ==> ReceiveAll(st, ss).outputs == st.outputs + ss
    ensures st.WiringState? ==> ReceiveAll(st, ss).WiringState? && ReceiveAll(st, ss).outbox == st.outbox
    decreases |ss|
  {
    if ss != [] {
      var init := ss[..|ss| - 1];
      ReceiveAllAppends(st, init);
      assert ss == init + [ss[|ss| - 1]];
    }
  }

  /**
   * `propagate()`: the node's new state and what it hands on. An input node hands on a copy
   * of its buffer; an output node stores its operation's result (a fault leaves the outputs
   * as they were); a wiring node fills its outbox and clears its inbox.
   */
  function Propagate(st: NodeState): (r: (NodeState, Result<seq<Signal>, Fault>))
    ensures r.0.id == st.id
    ensures ValidState(st) ==> ValidState(r.0)
    ensures st.InputState? ==> r == (st, Ok(st.signals))
    ensures st.OutputState? ==> r.0.OutputState? && r.0.inputs == st.inputs
    ensures st.OutputState? && r.1.Ok? ==> r.0.outputs == r.1.value
    ensures st.OutputState? && r.1.Err? ==> r.0.outputs == st.outputs
    ensures st.WiringState? ==> r.1.Ok? && r.0.WiringState? && r.0.inbox == [] && r.0.outbox == r.1.value
    ensures st.WiringState? && st.op.None? ==> r.1.value == st.inbox
  {
    match st
    case InputState(_, signals) => (st, Ok(signals))
    case OutputState(id, op, inputs, outputs, aliased) =>
      var e := Execute(op, inputs);
      if e.out.Ok? then (OutputState(id, e.op, inputs, e.out.value, op.NoneOp?), e.out)
      else (OutputState(id, e.op, inputs, outputs, aliased), e.out)
    case WiringState(id, op, inbox, _) =>
      var out := if op.None? then inbox else op.value(inbox);
      (WiringState(id, op, [], out), Ok(out))
  }

  /** The node after `set_id(id)`: only the id changes. */
  function WithId(st: NodeState, id: string): (r: NodeState)
    ensures r.id == id
  {
    match st
    case InputState(_, signals) => InputState(id, signals)
    case OutputState(_, op, inputs, outputs, aliased) => OutputState(id, op, inputs, outputs, aliased)
    case WiringState(_, op, inbox, outbox) => WiringState(id, op, inbox, outbox)
  }

  /** `get_outputs()`. */
  function Outputs(st: NodeState): seq<Signal>
  {
    match st
    case InputState(_, signals) => signals
    case OutputState(_, _, _, outputs, _) => outputs
    case WiringState(_, _, _, outbox) => outbox
  }

  /** `reset()`: every buffer the node holds becomes empty. */
  function Reset(st: NodeState): (r: NodeState)
    ensures r.id == st.id && Incoming(r) == [] && Outputs(r) == []
    ensures ValidState(st) ==> ValidState(r)
  {
    match st
    case InputState(id, _) => InputState(id, [])
    case OutputState(id, op, _, _, aliased) => OutputState(id, op, [], [], aliased)
    case WiringState(id, op, _, _) => WiringState(id, op, [], [])
  }

  /** What a successful `propagate` hands on is afterwards what `get_outputs` returns. */
  lemma PropagateThenOutputs(st: NodeState)
    requires Propagate(st).1.Ok?
    ensures Outputs(Propagate(st).0) == Propagate(st).1.value
  {
  }

  /** An input node does not clear its buffer: propagating twice hands on the same list. */
  lemma InputPropagateTwice(st: NodeState)
    requires st.InputState?
    ensures Propagate(Propagate(st).0).1 == Propagate(st).1
  {
  }

  /**
   * An output node keeps its inputs across passes: after a propagate, further signals are
   * appended to everything received before, until `reset`.
   */
  lemma OutputInputsAccumulate(st: NodeState, later: seq<Signal>)
    requires st.OutputState?
    ensures Incoming(ReceiveAll(Propagate(st).0, later)) == st.inputs + later
  {
    ReceiveAllAppends(Propagate(st).0, later);
  }

  /** A wiring node's second propagate without new signals runs on an empty inbox. */
  lemma WiringPropagateDrains(st: NodeState)
    requires st.WiringState?
    ensures Incoming(Propagate(st).0) == []
    ensures st.op.None? ==> Propagate(Propagate(st).0).1 == Ok([])
  {
  }
}
