/**
 * The wiring language of src/mrn/wiring/dsl_refs.py: arithmetic expressions over block fields
 * (`Expr`, `FieldRef`), the `>>` operator that registers a connection in a block graph, and
 * the attribute-style views of a block's ports (`PortRef`) and parameters (`ConfigRef`).
 *
 * An expression is its list of origins together with the function that turns the values read
 * from those origins, in order, into a number. Python's exceptions are the `WiringError`
 * outcomes of building an expression or connecting it, and the `EvalError` outcomes of
 * evaluating one.
 */
module Wiring {
  import opened Wrappers
  import opened RealMath
  import Block
  import opened BlockGraphs

  /** Why a `>>` had nothing to connect (both are RuntimeError in the source). */
  datatype Unwired = NoSources | NoGraph

  /** The exceptions raised while building or connecting an expression. */
  datatype WiringError =
    | TypeError
    | ZeroDivisionError
    | RuntimeError(cause: Unwired)
    | ValueError
    | Raised(error: Block.BlockError)

  // ------------------------------------------------------------------
  // Expressions
  // ------------------------------------------------------------------

  /** `Expr`: the origins read, in order, and `f_multi` over the values read from them. */
  datatype Expr = Expr(sources: seq<Source>, eval: Func)

  /** The binary operators of the language (`**` is not modelled). */
  datatype BinOp = Add | Sub | Mul | Div

  /** Python's `s[lo:hi]` for non-negative bounds: both ends clipped to the length. */
  function Slice<T>(s: seq<T>, lo: nat, hi: nat): (r: seq<T>)
    ensures lo <= hi <= |s| ==> r == s[lo..hi]
    ensures |r| <= |s|
  {
    var h := if hi <= |s| then hi else |s|;
    var l := if lo <= h then lo else h;
    s[l..h]
  }

  /** One operator on two floats; a division by zero raises ZeroDivisionError. */
  function Apply(op: BinOp, x: real, y: real): (r: Result<real, EvalError>)
    ensures r.Err? <==> op == Div && y == 0.0
    ensures r.Err? ==> r.error == ZeroDivision
    ensures op == Div && y != 0.0 ==> r.value * y == x
  {
    match op
    case Add => Ok(x + y)
    case Sub => Ok(x - y)
    case Mul => Ok(x * y)
    case Div => if y == 0.0 then Err(ZeroDivision) else Ok(x / y)
  }

  /**
   * The operator applied to two evaluations, the left one first: an exception of the left
   * operand wins over one of the right operand, and both win over the operator's own.
   */
  function Lift(op: BinOp, ra: Result<real, EvalError>, rb: Result<real, EvalError>): Result<real, EvalError>
  {
    if ra.Err? then Err(ra.error)
    else if rb.Err? then Err(rb.error)
    else Apply(op, ra.value, rb.value)
  }

  /** The `f_multi` of `_combine`: `a` reads the first `len(a)` inputs, `b` the next `len(b)`. */
  function CombineEval(a: Expr, b: Expr, op: BinOp, inputs: seq<Block.PortValue>): Result<real, EvalError>
  {
    var la := |a.sources|;
    var lb := |b.sources|;
    Lift(op, a.eval(Slice(inputs, 0, la)), b.eval(Slice(inputs, la, la + lb)))
  }

  /** `_combine`: the origins of `a` followed by those of `b`. */
  function Combine(a: Expr, b: Expr, op: BinOp): (r: Expr)
    ensures r.sources == a.sources + b.sources
  {
    Expr(a.sources + b.sources, (inputs: seq<Block.PortValue>) => CombineEval(a, b, op, inputs))
  }

  /**
   * Given one value per origin, a combined expression evaluates `a` on exactly the values of
   * `a`'s origins and `b` on exactly those of `b`'s, and applies the operator, `a` on the left.
   */
  lemma CombineSplits(a: Expr, b: Expr, op: BinOp, xs: seq<Block.PortValue>, ys: seq<Block.PortValue>)
    requires |xs| == |a.sources| && |ys| == |b.sources|
    ensures |Combine(a, b, op).sources| == |xs + ys|
    ensures Combine(a, b, op).eval(xs + ys) == Lift(op, a.eval(xs), b.eval(ys))
  {
    var zs := xs + ys;
    assert Slice(zs, 0, |xs|) == xs by {
      assert zs[0..|xs|] == xs;
    }
    assert Slice(zs, |xs|, |xs| + |ys|) == ys by {
      assert zs[|xs|..|xs| + |ys|] == ys;
    }
  }

  /** `Expr([], lambda _: float(c))`: reads nothing and always yields `c`. */
  function Const(c: real): (r: Expr)
    ensures r.sources == []
    ensures forall inputs :: r.eval(inputs) == Ok(c)
  {
    Expr([], (inputs: seq<Block.PortValue>) => Ok(c))
  }

  /** `_combine_const`: the constant goes on the left when `swap`, on the right otherwise. */
  function CombineConst(e: Expr, c: real, op: BinOp, swap: bool): (r: Expr)
    ensures r.sources == e.sources
  {
    if swap then Combine(Const(c), e, op) else Combine(e, Const(c), op)
  }

  /** A constant operand keeps its side: `c - e` subtracts `e` from `c`, `e - c` the reverse. */
  lemma CombineConstSides(e: Expr, c: real, op: BinOp, swap: bool, xs: seq<Block.PortValue>)
    requires |xs| == |e.sources|
    ensures CombineConst(e, c, op, swap).eval(xs) ==
      if swap then Lift(op, Ok(c), e.eval(xs)) else Lift(op, e.eval(xs), Ok(c))
  {
    if swap {
      CombineSplits(Const(c), e, op, [], xs);
      assert [] + xs == xs;
    } else {
      CombineSplits(e, Const(c), op, xs, []);
      assert xs + [] == xs;
    }
  }

  /** `__neg__`: the same origins, the value negated. */
  function Negate(e: Expr): (r: Expr)
    ensures r.sources == e.sources
  {
    Expr(e.sources, (inputs: seq<Block.PortValue>) =>
      match e.eval(inputs)
      case Ok(v) => Ok(-v)
      case Err(err) => Err(err))
  }

  /** `__abs__`: the same origins, the absolute value. */
  function Absolute(e: Expr): (r: Expr)
    ensures r.sources == e.sources
  {
    Expr(e.sources, (inputs: seq<Block.PortValue>) =>
      match e.eval(inputs)
      case Ok(v) => Ok(Abs(v))
      case Err(err) => Err(err))
  }

  // ------------------------------------------------------------------
  // Field references
  // ------------------------------------------------------------------

  /** `FieldRef`: one attribute of one port of one block. */
  datatype FieldRef = FieldRef(owner: Blk, port: string, attr: string)

  /** The leaf `lambda inputs: float(reader(inputs[0]))`; an empty list raises IndexError. */
  function LeafEval(f: Block.Field, inputs: seq<Block.PortValue>): Result<real, EvalError>
  {
    if |inputs| == 0 then Err(MissingInput) else Ok(Block.ReadField(f, inputs[0]))
  }

  /**
   * `_as_expr`: AttributeError exactly when the port has no such attribute; otherwise an
   * expression with the field as its only origin that reads the first value handed to it.
   */
  function AsExpr(f: FieldRef): (r: Result<Expr, WiringError>)
    ensures r.Ok? <==> Block.HasAttr(f.port, f.attr)
    ensures r.Err? ==> r.error == Raised(Block.AttributeError(f.attr))
    ensures r.Ok? ==> r.value.sources == [Source(f.owner, f.port, Block.Schema(f.port, f.attr).value)]
    ensures r.Ok? ==> forall v: Block.PortValue ::
      r.value.eval([v]) == Ok(Block.ReadField(Block.Schema(f.port, f.attr).value, v))
    ensures r.Ok? ==> r.value.eval([]) == Err(MissingInput)
  {
    match Block.Reader(f.port, f.attr)
    case Err(e) => Err(Raised(e))
    case Ok(field) =>
      Ok(Expr([Source(f.owner, f.port, field)], (inputs: seq<Block.PortValue>) => LeafEval(field, inputs)))
  }

  // ------------------------------------------------------------------
  // Operator dispatch
  // ------------------------------------------------------------------

  /** What may stand on either side of an operator: an expression, a field or a number. */
  datatype Operand = OfExpr(e: Expr) | OfField(f: FieldRef) | OfNumber(x: real)

  /** `_ensure_expr`: a field becomes its expression (which may raise); a number is None. */
  function EnsureExpr(y: Operand): (r: Result<Option<Expr>, WiringError>)
    ensures r.Ok? && r.value.None? <==> y.OfNumber?
    ensures r.Err? <==> y.OfField? && !Block.HasAttr(y.f.port, y.f.attr)
  {
    match y
    case OfExpr(e) => Ok(Some(e))
    case OfField(f) => (match AsExpr(f) case Ok(e) => Ok(Some(e)) case Err(err) => Err(err))
    case OfNumber(_) => Ok(None)
  }

  /** `Expr.__add__` and its siblings: the right operand joins as an expression or a constant. */
  function ExprOp(e: Expr, op: BinOp, y: Operand): Result<Operand, WiringError>
  {
    match EnsureExpr(y)
    case Err(err) => Err(err)
    case Ok(None) => Ok(OfExpr(CombineConst(e, y.x, op, false)))
    case Ok(Some(o)) => Ok(OfExpr(Combine(e, o, op)))
  }

  /**
   * `x op y` as Python dispatches it. An expression or a field on the left handles any right
   * operand (a field first turning into its expression). A number on the left defers to the
   * right operand's reflected method: `Expr` has all four, `FieldRef` only `__radd__` and
   * `__rsub__`, so a number times or divided by a field raises TypeError. Two numbers are
   * plain float arithmetic.
   */
  function Binary(op: BinOp, x: Operand, y: Operand): (r: Result<Operand, WiringError>)
  {
    match x
    case OfExpr(e) => ExprOp(e, op, y)
    case OfField(f) =>
      (match AsExpr(f) case Err(err) => Err(err) case Ok(e) => ExprOp(e, op, y))
    case OfNumber(c) =>
      (match y
      case OfExpr(e) => Ok(OfExpr(CombineConst(e, c, op, true)))
      case OfField(f) =>
        if op == Mul || op == Div then Err(TypeError)
        else (match AsExpr(f) case Err(err) => Err(err) case Ok(e) => Ok(OfExpr(CombineConst(e, c, op, true))))
      case OfNumber(d) =>
        (match Apply(op, c, d) case Err(_) => Err(ZeroDivisionError) case Ok(v) => Ok(OfNumber(v))))
  }

  /** `__neg__` and `__abs__` of an operand (for a field, of its expression). */
  function Unary(negate: bool, x: Operand): (r: Result<Operand, WiringError>)
  {
    match x
    case OfExpr(e) => Ok(OfExpr(if negate then Negate(e) else Absolute(e)))
    case OfField(f) =>
      (match AsExpr(f)
      case Err(err) => Err(err)
      case Ok(e) => Ok(OfExpr(if negate then Negate(e) else Absolute(e))))
    case OfNumber(c) => Ok(OfNumber(if negate then -c else Abs(c)))
  }

  /** A field whose port has the attribute. */
  predicate Readable(x: Operand)
  {
    x.OfField? ==> Block.HasAttr(x.f.port, x.f.attr)
  }

  /** How many values an operand reads. */
  function Width(x: Operand): nat
  {
    match x
    case OfExpr(e) => |e.sources|
    case OfField(_) => 1
    case OfNumber(_) => 0
  }

  /** The origins an operand reads, in order. */
  function Origins(x: Operand): (r: seq<Source>)
    requires Readable(x)
    ensures |r| == Width(x)
  {
    match x
    case OfExpr(e) => e.sources
    case OfField(f) => [Source(f.owner, f.port, Block.Schema(f.port, f.attr).value)]
    case OfNumber(_) => []
  }

  /** What an operand stands for, given one value per origin: the reference semantics. */
  function Meaning(x: Operand, xs: seq<Block.PortValue>): Result<real, EvalError>
    requires Readable(x) && |xs| == Width(x)
  {
    match x
    case OfExpr(e) => e.eval(xs)
    case OfField(f) => Ok(Block.ReadField(Block.Schema(f.port, f.attr).value, xs[0]))
    case OfNumber(c) => Ok(c)
  }

  /**
   * `x op y` raises exactly when: a field operand lacks its attribute (the left one first),
   * unless a number times or divided by a field raises TypeError before the field is looked
   * at; or two numbers are divided by zero.
   */
  lemma BinaryErrors(op: BinOp, x: Operand, y: Operand)
    ensures var r := Binary(op, x, y);
      && (r.Err? <==>
            || !Readable(x)
            || (!Readable(y) && !(x.OfNumber? && (op == Mul || op == Div)))
            || (x.OfNumber? && y.OfField? && (op == Mul || op == Div))
            || (x.OfNumber? && y.OfNumber? && op == Div && y.x == 0.0))
      && (r.Err? && r.error == TypeError <==> x.OfNumber? && y.OfField? && (op == Mul || op == Div))
      && (r.Err? && r.error == ZeroDivisionError <==> x.OfNumber? && y.OfNumber? && op == Div && y.x == 0.0)
      && (r.Ok? ==> (r.value.OfNumber? <==> x.OfNumber? && y.OfNumber?) && !r.value.OfField?)
  {
  }

  /**
   * Whatever the dispatch path, the result reads the left operand's origins and then the
   * right one's, and, given one value per origin, it means the operator applied to what the
   * left operand means and what the right one means, in that order.
   */
  lemma {:induction false} BinaryMeaning(op: BinOp, x: Operand, y: Operand, xs: seq<Block.PortValue>, ys: seq<Block.PortValue>)
    requires Binary(op, x, y).Ok?
    requires |xs| == Width(x) && |ys| == Width(y)
    ensures Readable(x) && Readable(y) && Readable(Binary(op, x, y).value)
    ensures Origins(Binary(op, x, y).value) == Origins(x) + Origins(y)
    ensures Meaning(Binary(op, x, y).value, xs + ys) == Lift(op, Meaning(x, xs), Meaning(y, ys))
  {
    BinaryErrors(op, x, y);
    match x {
      case OfExpr(e) =>
        match y {
          case OfExpr(o) => CombineSplits(e, o, op, xs, ys);
          case OfField(f) => CombineSplits(e, AsExpr(f).value, op, xs, ys);
          case OfNumber(d) =>
            CombineConstSides(e, d, op, false, xs);
            assert xs + ys == xs;
        }
      case OfField(f) =>
        var e := AsExpr(f).value;
        assert [xs[0]] == xs;
        match y {
          case OfExpr(o) => CombineSplits(e, o, op, xs, ys);
          case OfField(g) => CombineSplits(e, AsExpr(g).value, op, xs, ys);
          case OfNumber(d) =>
            CombineConstSides(e, d, op, false, xs);
            assert xs + ys == xs;
        }
      case OfNumber(c) =>
        assert xs + ys == ys;
        match y {
          case OfExpr(o) => CombineConstSides(o, c, op, true, ys);
          case OfField(g) =>
            assert [ys[0]] == ys;
            CombineConstSides(AsExpr(g).value, c, op, true, ys);
          case OfNumber(d) =>
        }
    }
  }

  /** Negation and absolute value keep the origins and transform what the operand means. */
  lemma UnaryMeaning(negate: bool, x: Operand, xs: seq<Block.PortValue>)
    requires Unary(negate, x).Ok?
    requires |xs| == Width(x)
    ensures Readable(x) && Readable(Unary(negate, x).value)
    ensures Origins(Unary(negate, x).value) == Origins(x)
    ensures Meaning(x, xs).Err? ==> Meaning(Unary(negate, x).value, xs) == Meaning(x, xs)
    ensures Meaning(x, xs).Ok? ==>
      Meaning(Unary(negate, x).value, xs) ==
        Ok(if negate then -Meaning(x, xs).value else Abs(Meaning(x, xs).value))
  {
    if x.OfField? {
      assert [xs[0]] == xs;
    }
  }

  // ------------------------------------------------------------------
  // Connecting: `>>`
  // ------------------------------------------------------------------

  /**
   * `Expr.__rshift__`: RuntimeError without origins, RuntimeError when the first origin's
   * block is in no graph, ValueError when an origin's block is the destination block;
   * otherwise the graph of the first origin registers the connection and the destination
   * field is returned. `g` is that graph: the block's `_graph` field, which the block model
   * types as a plain object reference.
   */
  method Shift(e: Expr, dest: FieldRef, g: BlockGraph) returns (res: Result<FieldRef, WiringError>)
    requires e.sources != [] && e.sources[0].block.graph != null ==> e.sources[0].block.graph == g
    modifies g
    ensures e.sources == [] ==> res == Err(RuntimeError(NoSources))
    ensures e.sources != [] && e.sources[0].block.graph == null ==> res == Err(RuntimeError(NoGraph))
    ensures res.Err? <==>
      || e.sources == []
      || e.sources[0].block.graph == null
      || exists j :: 0 <= j < |e.sources| && e.sources[j].block == dest.owner
    ensures res.Err? && e.sources != [] && e.sources[0].block.graph != null ==> res.error == ValueError
    ensures res.Err? ==> g.connections == old(g.connections)
    ensures res.Ok? ==>
      && res.value == dest
      && g.connections == old(g.connections) + [Connection(e.sources, e.eval, dest.owner, dest.attr)]
    ensures g.blocks == old(g.blocks)
    ensures old(g.Valid()) ==> g.Valid()
  {
    if e.sources == [] {
      return Err(RuntimeError(NoSources));
    }
    if e.sources[0].block.graph == null {
      return Err(RuntimeError(NoGraph));
    }
    var j := 0;
    while j < |e.sources|
      invariant 0 <= j <= |e.sources|
      invariant forall k :: 0 <= k < j ==> e.sources[k].block != dest.owner
    {
      if e.sources[j].block == dest.owner {
        return Err(ValueError);
      }
      j := j + 1;
    }
    var added := g.AddConnection(Connection(e.sources, e.eval, dest.owner, dest.attr));
    res := Ok(dest);
  }

  /**
   * `FieldRef.__rshift__`: the field's reader first (AttributeError, nothing registered), then
   * `>>` of the one-origin expression; the registered function reads the field of the single
   * value handed to it.
   */
  method ShiftField(f: FieldRef, dest: FieldRef, g: BlockGraph) returns (res: Result<FieldRef, WiringError>)
    requires f.owner.graph != null ==> f.owner.graph == g
    modifies g
    ensures !Block.HasAttr(f.port, f.attr) ==>
      res == Err(Raised(Block.AttributeError(f.attr))) && g.connections == old(g.connections)
    ensures Block.HasAttr(f.port, f.attr) && f.owner.graph == null ==>
      res == Err(RuntimeError(NoGraph)) && g.connections == old(g.connections)
    ensures Block.HasAttr(f.port, f.attr) && f.owner.graph != null && f.owner == dest.owner ==>
      res == Err(ValueError) && g.connections == old(g.connections)
    ensures Block.HasAttr(f.port, f.attr) && f.owner.graph != null && f.owner != dest.owner ==>
      res == Ok(dest) && |g.connections| == |old(g.connections)| + 1 &&
      g.connections[..|old(g.connections)|] == old(g.connections) &&
      var c := g.connections[|old(g.connections)|];
      && c.sources == AsExpr(f).value.sources && c.dest == dest.owner && c.destAttr == dest.attr
      && c.func == AsExpr(f).value.eval
    ensures g.blocks == old(g.blocks)
    ensures old(g.Valid()) ==> g.Valid()
  {
    var e := AsExpr(f);
    if e.Err? {
      return Err(e.error);
    }
    res := Shift(e.value, dest, g);
  }

  // ------------------------------------------------------------------
  // Port and parameter views
  // ------------------------------------------------------------------

  /** `PortRef`: a block's port, seen through attribute access. */
  datatype PortRef = PortRef(owner: Blk, port: string)

  /** The `input`, `complete` and `classified` properties of the block. */
  function Ports(b: Blk): (r: (PortRef, PortRef, PortRef))
    ensures r.0.port == "in" && r.1.port == "complete" && r.2.port == "classified"
    ensures r.0.owner == b && r.1.owner == b && r.2.owner == b
  {
    (PortRef(b, "in"), PortRef(b, "complete"), PortRef(b, "classified"))
  }

  /** `PortRef.__getattr__`: the field, or AttributeError when the port has no such attribute. */
  function GetAttr(p: PortRef, attr: string): (r: Result<FieldRef, WiringError>)
    ensures r.Ok? <==> Block.HasAttr(p.port, attr)
    ensures r.Ok? ==> r.value == FieldRef(p.owner, p.port, attr) && AsExpr(r.value).Ok?
    ensures r.Err? ==> r.error == Raised(Block.AttributeError(attr))
  {
    if !Block.HasAttr(p.port, attr) then Err(Raised(Block.AttributeError(attr)))
    else Ok(FieldRef(p.owner, p.port, attr))
  }

  /** Whether a port name is the writable input port. */
  predicate IsInputPort(port: string)
  {
    port == "in" || port == "input"
  }

  /**
   * `PortRef.__setattr__` on the block's state: the reference's own two slots are set on the
   * reference; an attribute the port lacks, or any attribute of a port other than the input,
   * is an AttributeError; "mu" sets mu and "lam"/"lambda" set lam through `set_input`; any
   * other name reaches `set_input` as an unexpected keyword (TypeError).
   */
  function SetAttrStep(s: Block.BlockState, port: string, attr: string, v: real): Result<Block.BlockState, WiringError>
  {
    if attr == "_owner" || attr == "_port" then Ok(s)
    else if !Block.HasAttr(port, attr) then Err(Raised(Block.AttributeError(attr)))
    else if !IsInputPort(port) then Err(Raised(Block.AttributeError(attr)))
    else if attr == "mu" then Ok(Block.SetInputStep(s, Some(v), None))
    else if attr == "lam" || attr == "lambda" then Ok(Block.SetInputStep(s, None, Some(v)))
    else Err(TypeError)
  }

  /**
   * Writing an attribute of a port succeeds exactly for mu and lam of "in" (and for the
   * reference's own slots, which leave the block alone): the named input becomes the value
   * clamped into [0,1], the other input and the parameters are kept, and the caches are
   * cleared. Every other write is an AttributeError that changes nothing.
   */
  lemma SetAttrSpec(s: Block.BlockState, port: string, attr: string, v: real)
    ensures var r := SetAttrStep(s, port, attr, v);
      && (r.Ok? <==> attr in {"_owner", "_port"} || (port == "in" && attr in {"mu", "lam"}))
      && (r.Err? ==> r.error == Raised(Block.AttributeError(attr)))
      && (attr in {"_owner", "_port"} ==> r == Ok(s))
      && (r.Ok? && attr == "mu" ==>
            r.value == s.(muIn := Clamp01(v), complete := None, classified := None))
      && (r.Ok? && attr == "lam" ==>
            r.value == s.(lamIn := Clamp01(v), complete := None, classified := None))
  {
  }

  /** `PortRef.__setattr__` on the block itself. */
  method SetAttr(p: PortRef, attr: string, v: real) returns (res: Result<(), WiringError>)
    modifies p.owner
    ensures SetAttrStep(old(p.owner.State()), p.port, attr, v).Ok? ==>
      res == Ok(()) && p.owner.State() == SetAttrStep(old(p.owner.State()), p.port, attr, v).value
    ensures SetAttrStep(old(p.owner.State()), p.port, attr, v).Err? ==>
      res == Err(SetAttrStep(old(p.owner.State()), p.port, attr, v).error) &&
      p.owner.State() == old(p.owner.State())
    ensures p.owner.graph == old(p.owner.graph)
  {
    if attr == "_owner" || attr == "_port" {
      return Ok(());
    }
    if !Block.HasAttr(p.port, attr) || !IsInputPort(p.port) {
      return Err(Raised(Block.AttributeError(attr)));
    }
    if attr == "mu" {
      p.owner.SetInput(Some(v), None);
    } else if attr == "lam" || attr == "lambda" {
      p.owner.SetInput(None, Some(v));
    } else {
      return Err(TypeError);
    }
    res := Ok(());
  }

  /** The keyword value for `key`, else the one for `fallback`, else None (`dict.get`). */
  function Keyword(kwargs: map<string, real>, key: string, fallback: string): Option<real>
  {
    if key in kwargs then Some(kwargs[key])
    else if fallback in kwargs then Some(kwargs[fallback])
    else None
  }

  /**
   * `PortRef.__call__` on the block's state: only the input port accepts it; mu comes from
   * "mu" or else "MU", lam from "lam" or else "lambda", and `set_input` takes both.
   */
  function CallStep(s: Block.BlockState, port: string, kwargs: map<string, real>): (r: Result<Block.BlockState, WiringError>)
    ensures r.Err? <==> !IsInputPort(port)
    ensures r.Err? ==> r.error == Raised(Block.AttributeError(port))
  {
    if !IsInputPort(port) then Err(Raised(Block.AttributeError(port)))
    else Ok(Block.SetInputStep(s, Keyword(kwargs, "mu", "MU"), Keyword(kwargs, "lam", "lambda")))
  }

  /**
   * A call on the input port sets each input it is given a value for (the lower-case key
   * winning over its alternative), clamped into [0,1], keeps the others and the parameters,
   * and clears the caches; a call without either keyword only clears the caches.
   */
  lemma CallSpec(s: Block.BlockState, port: string, kwargs: map<string, real>)
    requires IsInputPort(port)
    ensures var r := CallStep(s, port, kwargs).value;
      && r.params == s.params && r.complete.None? && r.classified.None?
      && r.muIn == (if "mu" in kwargs then Clamp01(kwargs["mu"])
                    else if "MU" in kwargs then Clamp01(kwargs["MU"]) else s.muIn)
      && r.lamIn == (if "lam" in kwargs then Clamp01(kwargs["lam"])
                     else if "lambda" in kwargs then Clamp01(kwargs["lambda"]) else s.lamIn)
  {
  }

  /** `PortRef.__call__` on the block itself; it returns the reference. */
  method Call(p: PortRef, kwargs: map<string, real>) returns (res: Result<PortRef, WiringError>)
    modifies p.owner
    ensures CallStep(old(p.owner.State()), p.port, kwargs).Ok? ==>
      res == Ok(p) && p.owner.State() == CallStep(old(p.owner.State()), p.port, kwargs).value
    ensures CallStep(old(p.owner.State()), p.port, kwargs).Err? ==>
      res == Err(CallStep(old(p.owner.State()), p.port, kwargs).error) &&
      p.owner.State() == old(p.owner.State())
    ensures p.owner.graph == old(p.owner.graph)
  {
    if !IsInputPort(p.port) {
      return Err(Raised(Block.AttributeError(p.port)));
    }
    p.owner.SetInput(Keyword(kwargs, "mu", "MU"), Keyword(kwargs, "lam", "lambda"));
    res := Ok(p);
  }

  /** `ConfigRef.__getattr__` for a parameter name: the parameter's current value. */
  function ConfigGet(s: Block.BlockState, name: string): (r: Result<real, WiringError>)
    ensures r.Ok? <==> Block.ParamNamed(name).Some?
    ensures r.Err? ==> r.error == Raised(Block.AttributeError(name))
  {
    match Block.ParamNamed(name)
    case Some(n) => Ok(Block.Get(s.params, n))
    case None => Err(Raised(Block.AttributeError(name)))
  }

  /** `ConfigRef.__setattr__`: `set_params` with the one keyword. */
  method ConfigSet(b: Blk, name: string, v: real) returns (err: Option<Block.BlockError>)
    modifies b
    ensures (b.State(), err) == Block.SetParamsStep(old(b.State()), [(name, v)])
    ensures b.graph == old(b.graph)
  {
    err := b.SetParams([(name, v)]);
  }

  /**
   * Writing a parameter through the configuration view and reading it back yields the value
   * written, with every other parameter and both inputs kept; an unknown name is refused on
   * both sides with AttributeError.
   */
  lemma {:induction false} ConfigRoundTrip(s: Block.BlockState, name: string, v: real)
    ensures var (s', err) := Block.SetParamsStep(s, [(name, v)]);
      && (err.None? <==> Block.ParamNamed(name).Some?)
      && (err.None? ==> ConfigGet(s', name) == Ok(v))
      && (err.None? ==> forall m :: m != Block.ParamNamed(name).value ==>
            Block.Get(s'.params, m) == Block.Get(s.params, m))
      && s'.muIn == s.muIn && s'.lamIn == s.lamIn
      && (err.Some? ==> ConfigGet(s', name).Err?)
  {
    var kwargs := [(name, v)];
    var (s', err) := Block.SetParamsStep(s, kwargs);
    if err.None? {
      var n := Block.ParamNamed(name).value;
      assert kwargs[..0] == [];
      assert Block.LastValue(kwargs, n, Block.Get(s.params, n)) == v;
      forall m | m != n
        ensures Block.Get(s'.params, m) == Block.Get(s.params, m)
      {
        assert Block.LastValue(kwargs, m, Block.Get(s.params, m)) == Block.Get(s.params, m);
      }
    }
  }
}
