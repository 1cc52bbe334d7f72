/**
 * The three node classes of src/mrn/nodes/. Each keeps the buffers the source mutates;
 * `State()` reads a node as a `NodeState`, and every method is specified by the transition
 * of the same name in `NodeStates`.
 */
module Nodes {
  import opened Wrappers
  import opened Signals
  import opened Operations
  import opened NodeStates

  // ------------------------------------------------------------------
  // The node classes
  // ------------------------------------------------------------------

  /** `InputNode`: a buffer of the signals fed into the network. */
  class InputNode {
    var nodeId: string
    var signals: seq<Signal>

    function State(): NodeState
      reads this
    {
      InputState(nodeId, signals)
    }

    constructor(nodeId: string)
      ensures State() == InputState(nodeId, [])
    {
      this.nodeId := nodeId;
      signals := [];
    }

    method Receive(s: Signal)
      modifies this
      ensures State() == NodeStates.Receive(old(State()), s)
    {
      signals := signals + [s];
    }

    method Propagate() returns (out: seq<Signal>)
      ensures (State(), Ok(out)) == NodeStates.Propagate(State())
    {
      out := signals;
    }

    method GetOutputs() returns (out: seq<Signal>)
      ensures out == Outputs(State())
    {
      out := signals;
    }

    method Reset()
      modifies this
      ensures State() == NodeStates.Reset(old(State()))
    {
      signals := [];
    }
  }

  /** `OutputNode`: runs its operation over everything received so far. */
  class OutputNode {
    var nodeId: string
    var operation: Operation
    var inputs: seq<Signal>
    var outputs: seq<Signal>
    var aliased: bool

    function State(): NodeState
      reads this
    {
      OutputState(nodeId, operation, inputs, outputs, aliased)
    }

    constructor(nodeId: string, operation: Operation)
      ensures State() == OutputState(nodeId, operation, [], [], false)
    {
      this.nodeId := nodeId;
      this.operation := operation;
      inputs := [];
      outputs := [];
      aliased := false;
    }

    method Receive(s: Signal)
      modifies this
      ensures State() == NodeStates.Receive(old(State()), s)
    {
      inputs := inputs + [s];
      if aliased {
        outputs := inputs;
      }
    }

    method Propagate() returns (out: Result<seq<Signal>, Fault>)
      modifies this
      ensures (State(), out) == NodeStates.Propagate(old(State()))
    {
      var e := Execute(operation, inputs);
      if e.out.Ok? {
        aliased := operation.NoneOp?;
        outputs := e.out.value;
      }
      operation := e.op;
      out := e.out;
    }

    method GetOutputs() returns (out: seq<Signal>)
      ensures out == Outputs(State())
    {
      out := outputs;
    }

    method Reset()
      modifies this
      ensures State() == NodeStates.Reset(old(State()))
    {
      inputs := [];
      outputs := [];
    }
  }

  /** `WiringNode`: an inbox, an outbox and an optional callable between them. */
  class WiringNode {
    var nodeId: string
    const op: Option<WireOp>
    var inbox: seq<Signal>
    var outbox: seq<Signal>

    function State(): NodeState
      reads this
    {
      WiringState(nodeId, op, inbox, outbox)
    }

    constructor(nodeId: string, op: Option<WireOp>)
      ensures State() == WiringState(nodeId, op, [], [])
    {
      this.nodeId := nodeId;
      this.op := op;
      inbox := [];
      outbox := [];
    }

    method SetId(id: string)
      modifies this
      ensures State() == WithId(old(State()), id)
    {
      nodeId := id;
    }

    method Receive(s: Signal)
      modifies this
      ensures State() == NodeStates.Receive(old(State()), s)
    {
      inbox := inbox + [s];
    }

    method Propagate() returns (out: seq<Signal>)
      modifies this
      ensures (State(), Ok(out)) == NodeStates.Propagate(old(State()))
    {
      if op.None? {
        outbox := inbox;
      } else {
        outbox := op.value(inbox);
      }
      inbox := [];
      out := outbox;
    }

    method Reset()
      modifies this
      ensures State() == NodeStates.Reset(old(State()))
    {
      inbox := [];
      outbox := [];
    }

    method GetOutputs() returns (out: seq<Signal>)
      ensures out == Outputs(State())
    {
      out := outbox;
    }
  }
}
