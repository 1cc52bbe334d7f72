/**
 * The operation strategies of src/mrn/operations/ that output nodes plug in. An operation
 * that drives a calculator carries the calculator's state, and `Execute` returns the
 * operation with that state advanced: the calculator is never reset between batches.
 */
module Operations {
  import opened Wrappers
  import opened RealMath
  import opened Signals
  import opened Calculations

  datatype Operation =
    | NoneOp
    | IdentityOp
    | GetLastOp
    | ResultEach(calculator: Calc)
    | ParserOp(dist: Distance)
    | UniqueResultAll(calculator: Calc)
    /** `classify` stands for the classifier calculation the operation is built with. */
    | ClassifierOp(classify: seq<Signal> -> string)
    | MultiInputFormula(func: seq<Signal> -> real, toAttr: string)

  /** `name()` of each operation. */
  function Name(op: Operation): string
  {
    match op
    case NoneOp => "NoneOperation"
    case IdentityOp => "Identity"
    case GetLastOp => "GetLast"
    case ResultEach(_) => "ResultEachSignalOperation"
    case ParserOp(_) => "ParaconsistentOperation"
    case UniqueResultAll(_) => "UniqueResultAllSignalOperation"
    case ClassifierOp(_) => "ParaconsistentClassifier"
    case MultiInputFormula(_, _) => "MultiInputFormulaOperation"
  }

  /** The same operation with possibly another calculator state. */
  ghost predicate SameOperation(a: Operation, b: Operation)
  {
    match a
    case ResultEach(_) => b.ResultEach?
    case UniqueResultAll(_) => b.UniqueResultAll?
    case _ => a == b
  }

  // ------------------------------------------------------------------
  // Feeding a calculator
  // ------------------------------------------------------------------

  /** `process` applied to each signal in order; the first fault stops the feeding. */
  function FeedAll(c: Calc, inputs: seq<Signal>): (r: (Calc, Option<Fault>))
    ensures r.1.None? <==> AllProcessed(c, inputs)
    decreases |inputs|
  {
    if inputs == [] then (c, None)
    else match Calculations.Process(c, inputs[0])
      case Err(f) => (c, Some(f))
      case Ok(c1) => FeedAll(c1, inputs[1..])
  }

  /** Every `process` call of the batch succeeds. */
  predicate AllProcessed(c: Calc, inputs: seq<Signal>)
    decreases |inputs|
  {
    inputs == [] || (Calculations.Process(c, inputs[0]).Ok?
                     && AllProcessed(Calculations.Process(c, inputs[0]).value, inputs[1..]))
  }

  /** After a successful `process` the calculator's `result()` is never None. */
  lemma ResultPresentAfterProcess(c: Calc, s: Signal)
    requires Calculations.Process(c, s).Ok?
    requires CalcResult(Calculations.Process(c, s).value).Ok?
    ensures CalcResult(Calculations.Process(c, s).value).value.Some?
  {
  }

  /** `[calculator.process(s).result() for s in inputs]`, stopping at the first fault. */
  function EachResult(c: Calc, inputs: seq<Signal>): (r: (Calc, Result<seq<Signal>, Fault>))
    ensures r.1.Ok? ==> |r.1.value| == |inputs|
    decreases |inputs|
  {
    if inputs == [] then (c, Ok([]))
    else match Calculations.Process(c, inputs[0])
      case Err(f) => (c, Err(f))
      case Ok(c1) =>
        match CalcResult(c1)
        case Err(f) => (c1, Err(f))
        case Ok(o) =>
          ResultPresentAfterProcess(c, inputs[0]);
          var rest := EachResult(c1, inputs[1..]);
          (rest.0, if rest.1.Ok? then Ok([o.value] + rest.1.value) else rest.1)
  }

  /**
   * Output i of the result-each operation is the calculator's result right after processing
   * input i, with inputs 0..i processed in order before it.
   */
  lemma {:induction false} EachResultSpec(c: Calc, inputs: seq<Signal>, i: nat)
    requires EachResult(c, inputs).1.Ok?
    requires i < |inputs|
    ensures AllProcessed(c, inputs[..i + 1])
    ensures CalcResult(FeedAll(c, inputs[..i + 1]).0) == Ok(Some(EachResult(c, inputs).1.value[i]))
    decreases |inputs|
  {
    var c1 := Calculations.Process(c, inputs[0]).value;
    assert inputs[..i + 1][1..] == inputs[1..][..i];
    if i > 0 {
      EachResultSpec(c1, inputs[1..], i - 1);
    }
  }

  /** The result-each operation leaves the calculator exactly where feeding the batch would. */
  lemma {:induction false} EachResultFeeds(c: Calc, inputs: seq<Signal>)
    ensures EachResult(c, inputs).1.Ok? ==> EachResult(c, inputs).0 == FeedAll(c, inputs).0
    decreases |inputs|
  {
    if inputs != [] && Calculations.Process(c, inputs[0]).Ok? {
      EachResultFeeds(Calculations.Process(c, inputs[0]).value, inputs[1..]);
    }
  }

  /** `UniqueResultAllSignalOperation.execute`: feed everything, then one result if there is one. */
  function UniqueAll(c: Calc, inputs: seq<Signal>): (r: (Calc, Result<seq<Signal>, Fault>))
    ensures r.0 == FeedAll(c, inputs).0
    ensures r.1.Ok? ==> |r.1.value| <= 1
    ensures r.1.Ok? <==> AllProcessed(c, inputs) && CalcResult(r.0).Ok?
    ensures r.1.Ok? ==> (r.1.value == [] <==> CalcResult(r.0).value.None?)
    ensures r.1.Ok? && r.1.value != [] ==> r.1.value == [CalcResult(r.0).value.value]
  {
    var (c1, fault) := FeedAll(c, inputs);
    if fault.Some? then (c1, Err(fault.value))
    else match CalcResult(c1)
      case Err(f) => (c1, Err(f))
      case Ok(None) => (c1, Ok([]))
      case Ok(Some(x)) => (c1, Ok([x]))
  }

  /**
   * The imperative form of `UniqueResultAllSignalOperation.execute`: a loop that feeds the
   * calculator one signal at a time.
   */
  method UniqueResultAllExecute(c: Calc, inputs: seq<Signal>) returns (c': Calc, out: Result<seq<Signal>, Fault>)
    ensures (c', out) == UniqueAll(c, inputs)
  {
    var cur := c;
    var i := 0;
    while i < |inputs|
      invariant 0 <= i <= |inputs|
      invariant FeedAll(cur, inputs[i..]) == FeedAll(c, inputs)
    {
      assert inputs[i..][1..] == inputs[i + 1..];
      match Calculations.Process(cur, inputs[i])
      case Err(f) =>
        return cur, Err(f);
      case Ok(next) =>
        cur := next;
      i := i + 1;
    }
    match CalcResult(cur)
    case Err(f) =>
      c', out := cur, Err(f);
    case Ok(None) =>
      c', out := cur, Ok([]);
    case Ok(Some(x)) =>
      c', out := cur, Ok([x]);
  }

  /** State from earlier batches carries over: two batches feed like their concatenation. */
  lemma {:induction false} FeedAllConcat(c: Calc, a: seq<Signal>, b: seq<Signal>)
    requires AllProcessed(c, a)
    ensures FeedAll(c, a + b) == FeedAll(FeedAll(c, a).0, b)
    decreases |a|
  {
    if a != [] {
      assert (a + b)[1..] == a[1..] + b;
      FeedAllConcat(Calculations.Process(c, a[0]).value, a[1..], b);
    } else {
      assert a + b == b;
    }
  }

  /** Feeding an aggregation appends the whole batch to what it already held. */
  lemma {:induction false} FeedAggregation(prior: seq<Signal>, inputs: seq<Signal>)
    ensures FeedAll(Aggregation(prior), inputs) == (Aggregation(prior + inputs), None)
    decreases |inputs|
  {
    if inputs != [] {
      assert prior + inputs == (prior + [inputs[0]]) + inputs[1..];
      FeedAggregation(prior + [inputs[0]], inputs[1..]);
    } else {
      assert prior + inputs == prior;
    }
  }

  // ------------------------------------------------------------------
  // The stateless operations
  // ------------------------------------------------------------------

  /** `[parser.process(s) for s in inputs]`. */
  function ParseAll(dist: Distance, inputs: seq<Signal>): (r: Result<seq<Signal>, Fault>)
    ensures r.Ok? <==> forall i :: 0 <= i < |inputs| ==> !inputs[i].Classified?
    ensures r.Ok? ==> |r.value| == |inputs|
    ensures r.Ok? ==> forall i :: 0 <= i < |inputs| ==> r.value[i] == ParseSignal(dist, inputs[i]).value
  {
    if inputs == [] then Ok([])
    else match (ParseSignal(dist, inputs[0]), ParseAll(dist, inputs[1..]))
      case (Ok(x), Ok(xs)) => Ok([x] + xs)
      case (Err(f), _) => Err(f)
      case (_, Err(f)) => Err(f)
  }

  /** The complete signals of a batch, in order. */
  function Completes(inputs: seq<Signal>): (r: seq<Signal>)
    ensures forall i :: 0 <= i < |r| ==> r[i].Complete?
    ensures forall s :: s in r <==> s in inputs && s.Complete?
    ensures |r| <= |inputs|
  {
    if inputs == [] then []
    else (if inputs[0].Complete? then [inputs[0]] else []) + Completes(inputs[1..])
  }

  /** The gc of each signal of a batch of complete signals. */
  function Gcs(pcs: seq<Signal>): (r: seq<real>)
    requires forall i :: 0 <= i < |pcs| ==> pcs[i].Complete?
    ensures |r| == |pcs| && forall i :: 0 <= i < |pcs| ==> r[i] == pcs[i].gc
  {
    if pcs == [] then [] else Gcs(pcs[..|pcs| - 1]) + [pcs[|pcs| - 1].gc]
  }

  /** The confidence of the classifier operation: the mean gc, or 0.0 with no complete signal. */
  function MeanGc(inputs: seq<Signal>): real
  {
    var pcs := Completes(inputs);
    if pcs == [] then 0.0 else Mean(Gcs(pcs))
  }

  /** The one signal `MultiInputFormulaOperation` emits for a value. */
  function FormulaSignal(val: real, toAttr: string): (r: Signal)
    ensures r.Simple? && r.sourceId == ""
    ensures toAttr == "mu" ==> r.mu == val && r.lam == 0.0
    ensures toAttr != "mu" ==> r.mu == 0.0 && r.lam == val
  {
    if toAttr == "mu" then Simple(val, 0.0, "") else Simple(0.0, val, "")
  }

  datatype Execution = Execution(op: Operation, out: Result<seq<Signal>, Fault>)

  /** `operation.execute(inputs)`. */
  function Execute(op: Operation, inputs: seq<Signal>): (e: Execution)
    ensures SameOperation(op, e.op)
    ensures !(op.ResultEach? || op.UniqueResultAll? || op.ParserOp?) ==> e.out.Ok?
    ensures op.NoneOp? ==> e.out.value == inputs
    ensures op.IdentityOp? ==> |e.out.value| == (if inputs == [] then 0 else 1) && e.out.value <= inputs
    ensures op.GetLastOp? ==> |e.out.value| == (if inputs == [] then 0 else 1)
    ensures op.GetLastOp? && inputs != [] ==> e.out.value[0] == inputs[|inputs| - 1]
    ensures op.ResultEach? && e.out.Ok? ==> |e.out.value| == |inputs|
    ensures op.UniqueResultAll? && e.out.Ok? ==> |e.out.value| <= 1
    ensures op.ParserOp? ==> e.out == ParseAll(op.dist, inputs)
    ensures op.ClassifierOp? ==>
      e.out.value == [Classified(op.classify(Completes(inputs)), MeanGc(inputs), "")]
    ensures op.MultiInputFormula? ==> e.out.value == [FormulaSignal(op.func(inputs), op.toAttr)]
  {
    match op
    case NoneOp => Execution(op, Ok(inputs))
    case IdentityOp => Execution(op, Ok(if inputs == [] then [] else inputs[..1]))
    case GetLastOp =>
      Execution(op, Ok(if inputs == [] then [] else [Clone(inputs[|inputs| - 1])]))
    case ResultEach(c) =>
      var (c', out) := EachResult(c, inputs);
      Execution(ResultEach(c'), out)
    case ParserOp(dist) => Execution(op, ParseAll(dist, inputs))
    case UniqueResultAll(c) =>
      var (c', out) := UniqueAll(c, inputs);
      Execution(UniqueResultAll(c'), out)
    case ClassifierOp(classify) =>
      Execution(op, Ok([Classified(classify(Completes(inputs)), MeanGc(inputs), "")]))
    case MultiInputFormula(func, toAttr) =>
      Execution(op, Ok([FormulaSignal(func(inputs), toAttr)]))
  }

  /** The pass-through, identity and get-last operations are idempotent. */
  lemma StatelessIdempotent(op: Operation, inputs: seq<Signal>)
    requires op.NoneOp? || op.IdentityOp? || op.GetLastOp?
    ensures Execute(op, Execute(op, inputs).out.value).out == Execute(op, inputs).out
  {
    var once := Execute(op, inputs).out.value;
    if op.IdentityOp? && inputs != [] {
      assert once[..1] == once;
    }
  }

  /** An empty batch gives an empty output and leaves a result-each calculator untouched. */
  lemma EmptyBatch(op: Operation)
    requires !op.ClassifierOp? && !op.MultiInputFormula? && !op.UniqueResultAll?
    ensures Execute(op, []) == Execution(op, Ok([]))
  {
  }

  /** The classifier operation's confidence lies in [-1,1] when every complete signal's gc does. */
  lemma MeanGcBounds(inputs: seq<Signal>)
    requires forall i :: 0 <= i < |inputs| && inputs[i].Complete? ==> -1.0 <= inputs[i].gc <= 1.0
    ensures -1.0 <= MeanGc(inputs) <= 1.0
  {
    var pcs := Completes(inputs);
    if pcs != [] {
      var gcs := Gcs(pcs);
      forall i | 0 <= i < |gcs|
        ensures -1.0 <= gcs[i] <= 1.0
      {
        assert pcs[i] in inputs;
      }
      MeanBounds(gcs, -1.0, 1.0);
    }
  }
}
