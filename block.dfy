/**
 * The paraconsistent block of src/mrn/paraconsistent/block.py: a pair of evidence inputs
 * (mu, lam), eleven tunable parameters and two caches (the complete record and the
 * classification) that every change of input or parameter clears.
 *
 * Each operation is first a function on a `BlockState` value; the class's methods change
 * the object's fields exactly as those functions say, and keep the caches coherent with
 * the inputs (`Valid`). `math.sqrt` of the distance D is the block's `hypot`, of which only
 * non-negativity is modelled.
 */
module Block {
  import opened Wrappers
  import opened RealMath
  import Calculations

  /** `sgn`: the sign of x as -1, 0 or 1. */
  function Sgn(x: real): (r: int)
    ensures r == 1 <==> x > 0.0
    ensures r == -1 <==> x < 0.0
    ensures r == 0 <==> x == 0.0
  {
    if x > 0.0 then 1 else if x < 0.0 then -1 else 0
  }

  // ------------------------------------------------------------------
  // Parameters, set by name
  // ------------------------------------------------------------------

  datatype Params = Params(fl: real, ftc: real, ftct: real, fd: real,
                           vssc: real, vicc: real, vssct: real, vicct: real,
                           vlv: real, vlf: real, l: real)

  /** The eleven parameter attributes `set_params` is meant to change. */
  datatype ParamName = FL | FtC | FtCT | FD | VSSC | VICC | VSSCT | VICCT | VlV | VlF | L

  datatype BlockError = AttributeError(name: string) | ValueError(name: string)

  function NameOf(n: ParamName): string
  {
    match n
    case FL => "FL" case FtC => "FtC" case FtCT => "FtCT" case FD => "FD"
    case VSSC => "VSSC" case VICC => "VICC" case VSSCT => "VSSCT" case VICCT => "VICCT"
    case VlV => "VlV" case VlF => "VlF" case L => "L"
  }

  /** The parameter an attribute name denotes, if any. */
  function ParamNamed(name: string): (r: Option<ParamName>)
    ensures r.Some? ==> NameOf(r.value) == name
    ensures forall n :: NameOf(n) == name ==> r == Some(n)
  {
    if name == "FL" then Some(FL) else if name == "FtC" then Some(FtC)
    else if name == "FtCT" then Some(FtCT) else if name == "FD" then Some(FD)
    else if name == "VSSC" then Some(VSSC) else if name == "VICC" then Some(VICC)
    else if name == "VSSCT" then Some(VSSCT) else if name == "VICCT" then Some(VICCT)
    else if name == "VlV" then Some(VlV) else if name == "VlF" then Some(VlF)
    else if name == "L" then Some(L) else None
  }

  function Get(p: Params, n: ParamName): real
  {
    match n
    case FL => p.fl case FtC => p.ftc case FtCT => p.ftct case FD => p.fd
    case VSSC => p.vssc case VICC => p.vicc case VSSCT => p.vssct case VICCT => p.vicct
    case VlV => p.vlv case VlF => p.vlf case L => p.l
  }

  /** `setattr` of one parameter: that parameter reads back the new value, no other changes. */
  function Set(p: Params, n: ParamName, v: real): (q: Params)
    ensures Get(q, n) == v
    ensures forall m :: m != n ==> Get(q, m) == Get(p, m)
  {
    match n
    case FL => p.(fl := v) case FtC => p.(ftc := v) case FtCT => p.(ftct := v)
    case FD => p.(fd := v) case VSSC => p.(vssc := v) case VICC => p.(vicc := v)
    case VSSCT => p.(vssct := v) case VICCT => p.(vicct := v) case VlV => p.(vlv := v)
    case VlF => p.(vlf := v) case L => p.(l := v)
  }

  /** The keyword arguments of the constructor; FtCT falls back to FtC when not given. */
  function Configure(fl: real, ftc: real, ftct: Option<real>, fd: real, vssc: real, vicc: real,
                     vssct: real, vicct: real, vlv: real, vlf: real, l: real): (p: Params)
    ensures p.ftct == (if ftct.Some? then ftct.value else ftc)
    ensures p.ftc == ftc && p.fl == fl && p.fd == fd && p.l == l
  {
    Params(fl, ftc, if ftct.Some? then ftct.value else ftc, fd, vssc, vicc, vssct, vicct, vlv, vlf, l)
  }

  /** The constructor's defaults. */
  function Defaults(): Params
  {
    Configure(1.0, 0.5, None, 0.0, 0.5, -0.5, 0.5, -0.5, 0.5, 0.5, 0.05)
  }

  /**
   * The keyword loop of `set_params`, left to right: each known name is assigned in turn;
   * the first unknown name stops the loop with AttributeError, the earlier assignments kept.
   */
  function AssignParams(p: Params, kwargs: seq<(string, real)>): (r: (Params, Option<BlockError>))
    decreases |kwargs|
  {
    if kwargs == [] then (p, None)
    else match ParamNamed(kwargs[0].0)
      case None => (p, Some(AttributeError(kwargs[0].0)))
      case Some(n) => AssignParams(Set(p, n, kwargs[0].1), kwargs[1..])
  }

  /** The value the last keyword naming `n` gives it, or `dflt` when none does. */
  function LastValue(kwargs: seq<(string, real)>, n: ParamName, dflt: real): real
  {
    if kwargs == [] then dflt
    else if kwargs[|kwargs| - 1].0 == NameOf(n) then kwargs[|kwargs| - 1].1
    else LastValue(kwargs[..|kwargs| - 1], n, dflt)
  }

  lemma {:induction false} LastValueCons(k: (string, real), rest: seq<(string, real)>, n: ParamName, dflt: real)
    ensures LastValue([k] + rest, n, dflt) == LastValue(rest, n, if k.0 == NameOf(n) then k.1 else dflt)
  {
    if rest != [] {
      assert ([k] + rest)[..|[k] + rest| - 1] == [k] + rest[..|rest| - 1];
      LastValueCons(k, rest[..|rest| - 1], n, dflt);
    }
  }

  /**
   * `set_params` fails exactly when some keyword names no parameter; when it succeeds,
   * every parameter holds the value its last keyword gave it, or its old value.
   */
  lemma {:induction false} AssignParamsSpec(p: Params, kwargs: seq<(string, real)>)
    decreases |kwargs|
    ensures AssignParams(p, kwargs).1.None? <==> forall i :: 0 <= i < |kwargs| ==> ParamNamed(kwargs[i].0).Some?
    ensures AssignParams(p, kwargs).1.Some? ==> AssignParams(p, kwargs).1.value.AttributeError?
    ensures AssignParams(p, kwargs).1.None? ==>
      forall n :: Get(AssignParams(p, kwargs).0, n) == LastValue(kwargs, n, Get(p, n))
  {
    if kwargs != [] {
      var k := kwargs[0];
      assert kwargs == [k] + kwargs[1..];
      match ParamNamed(k.0)
      case None =>
      case Some(m) =>
        AssignParamsSpec(Set(p, m, k.1), kwargs[1..]);
        if AssignParams(p, kwargs).1.None? {
          forall n
            ensures Get(AssignParams(p, kwargs).0, n) == LastValue(kwargs, n, Get(p, n))
          {
            LastValueCons(k, kwargs[1..], n, Get(p, n));
          }
        }
        forall i | 1 <= i < |kwargs|
          ensures kwargs[i] == kwargs[1..][i - 1]
        {
        }
    }
  }

  // ------------------------------------------------------------------
  // The computed record and the region label
  // ------------------------------------------------------------------

  /** The dictionary `compute` fills (`_complete_dict`, also exposed as `_CompleteSig`). */
  datatype Record = Record(
    fl: real, ftc: real, fd: real, vssc: real, vicc: real, vssct: real, vicct: real,
    vlv: real, vlf: real,
    muP: real, lamP: real, mu: real, lam: real,
    gc: real, gct: real, s1: real, d: real, dist: real, gcr: real,
    phi: real, muE: real, muEP: real, muECT: real, muER: real, phiE: real,
    regionLabel: string)

  /** `_ClassifiedSig`. */
  datatype Classified = Classified(regionLabel: string, confidence: real)

  /** The twelve region labels the decision produces. */
  const Regions: set<string> := {
    "V", "F", "┬", "┴",
    "QV→ ┬", "QV→ ┴", "QF→ ┬", "QF→ ┴",
    "Q┬ → V", "Q┴→V", "Q┬ → F", "Q┴→F"}

  /**
   * The cascade of `_decide_label`, with the label of the upper-right border region where
   * |GC| exceeds GCT passed in (the one place the two readings below differ). GC_t and GCT_t
   * are accepted and unused, as in the source.
   */
  function LabelCascade(ftc: real, ftct: real, gc: real, gct: real, gcBiased: real, tDec: real,
                        nearTrueTop: string): string
  {
    if gcBiased >= tDec && Abs(gct) < ftct then "V"
    else if gcBiased <= -tDec && Abs(gct) < ftct then "F"
    else if gct >= ftct && Abs(gc) < ftc then "┬"
    else if gct <= -ftct && Abs(gc) < ftc then "┴"
    else if Abs(gc) < ftc && Abs(gct) < ftct then
      if gc >= 0.0 && Abs(gc) >= Abs(gct) then "QV→ ┬"
      else if gc >= 0.0 && Abs(gc) < Abs(gct) then "QV→ ┴"
      else if gc < 0.0 && Abs(gc) >= Abs(gct) then "QF→ ┬"
      else if gc < 0.0 && Abs(gc) < Abs(gct) then "QF→ ┴"
      else "I"
    else if gc >= 0.0 && gct >= 0.0 then (if Abs(gct) >= Abs(gc) then "Q┬ → V" else nearTrueTop)
    else if gc >= 0.0 && gct < 0.0 then (if Abs(gc) >= Abs(gct) then "QV→ ┴" else "Q┴→V")
    else if gc < 0.0 && gct >= 0.0 then (if Abs(gct) >= Abs(gc) then "Q┬ → F" else "QF→ ┬")
    else if gc < 0.0 && gct < 0.0 then (if Abs(gc) >= Abs(gct) then "QF→ ┴" else "Q┴→F")
    else "I"
  }

  /** `_decide_label` as written: the upper-right border label is spelled "Qv→ ┬". */
  function DecideLabelAsWritten(ftc: real, ftct: real, gc: real, gct: real, gcT: real, gctT: real,
                                gcBiased: real, tDec: real): string
  {
    LabelCascade(ftc, ftct, gc, gct, gcBiased, tDec, "Qv→ ┬")
  }

  /** `_decide_label` with that label spelled "QV→ ┬", as in the centre case of the same region. */
  function DecideLabel(ftc: real, ftct: real, gc: real, gct: real, gcT: real, gctT: real,
                       gcBiased: real, tDec: real): (r: string)
    ensures r in Regions
  {
    LabelCascade(ftc, ftct, gc, gct, gcBiased, tDec, "QV→ ┬")
  }

  /**
   * The as-written label escapes the twelve regions: with FtC = FtCT = 0.3, T_dec = 0.3,
   * GC = 0.6, GCT = 0.35 and GC_biased = 1.1 (mu = 0.975, lam = 0.375 under the default
   * biases) neither strong region applies, the point is outside the centre, and the
   * upper-right border yields "Qv→ ┬", a label no other branch produces.
   */
  lemma LowercaseLabelEscapesRegions()
    ensures DecideLabelAsWritten(0.3, 0.3, 0.6, 0.35, 0.6, 0.35, 1.1, 0.3) == "Qv→ ┬"
    ensures "Qv→ ┬" !in Regions
    ensures DecideLabel(0.3, 0.3, 0.6, 0.35, 0.6, 0.35, 1.1, 0.3) == "QV→ ┬"
  {
  }

  /** The strong regions are tested in priority order V, F, ┬, ┴; each label is returned
   * exactly when its condition holds and no earlier one does. */
  lemma DecideLabelStrong(ftc: real, ftct: real, gc: real, gct: real, gcT: real, gctT: real,
                          gcBiased: real, tDec: real)
    ensures var r := DecideLabel(ftc, ftct, gc, gct, gcT, gctT, gcBiased, tDec);
      var isV := gcBiased >= tDec && Abs(gct) < ftct;
      var isF := gcBiased <= -tDec && Abs(gct) < ftct;
      var isTop := gct >= ftct && Abs(gc) < ftc;
      var isBottom := gct <= -ftct && Abs(gc) < ftc;
      && (r == "V" <==> isV)
      && (r == "F" <==> !isV && isF)
      && (r == "┬" <==> !isV && !isF && isTop)
      && (r == "┴" <==> !isV && !isF && !isTop && isBottom)
  {
  }

  /** With a positive decision limit V and F cannot both apply, so their order is immaterial. */
  lemma TrueAndFalseExclusive(gct: real, ftct: real, gcBiased: real, tDec: real)
    requires tDec > 0.0
    ensures !((gcBiased >= tDec && Abs(gct) < ftct) && (gcBiased <= -tDec && Abs(gct) < ftct))
  {
  }

  /** Outside the strong regions, the centre splits by the sign of GC and which degree dominates. */
  lemma DecideLabelCentre(ftc: real, ftct: real, gc: real, gct: real, gcT: real, gctT: real,
                          gcBiased: real, tDec: real)
    requires !(gcBiased >= tDec && Abs(gct) < ftct) && !(gcBiased <= -tDec && Abs(gct) < ftct)
    requires Abs(gc) < ftc && Abs(gct) < ftct
    ensures DecideLabel(ftc, ftct, gc, gct, gcT, gctT, gcBiased, tDec) ==
      if gc >= 0.0 then (if Abs(gc) >= Abs(gct) then "QV→ ┬" else "QV→ ┴")
      else (if Abs(gc) >= Abs(gct) then "QF→ ┬" else "QF→ ┴")
  {
  }

  /** Outside the strong regions and the centre, the label is fixed by the sign quadrant. */
  lemma DecideLabelBorder(ftc: real, ftct: real, gc: real, gct: real, gcT: real, gctT: real,
                          gcBiased: real, tDec: real)
    requires !(gcBiased >= tDec && Abs(gct) < ftct) && !(gcBiased <= -tDec && Abs(gct) < ftct)
    requires !(gct >= ftct && Abs(gc) < ftc) && !(gct <= -ftct && Abs(gc) < ftc)
    requires !(Abs(gc) < ftc && Abs(gct) < ftct)
    ensures DecideLabel(ftc, ftct, gc, gct, gcT, gctT, gcBiased, tDec) ==
      if gc >= 0.0 && gct >= 0.0 then (if Abs(gct) >= Abs(gc) then "Q┬ → V" else "QV→ ┬")
      else if gc >= 0.0 then (if Abs(gc) >= Abs(gct) then "QV→ ┴" else "Q┴→V")
      else if gct >= 0.0 then (if Abs(gct) >= Abs(gc) then "Q┬ → F" else "QF→ ┬")
      else (if Abs(gc) >= Abs(gct) then "QF→ ┴" else "Q┴→F")
  {
  }

  /**
   * The confidence of the classification: the margin of |GC_biased| over T_dec for V and F,
   * of |GCT| over FtCT otherwise, floored at 0 and replaced by L when it is 0.
   */
  function ConfidenceOf(l: real, ftct: real, name: string, gct: real, gcBiased: real, tDec: real): (c: real)
    ensures l >= 0.0 ==> c >= 0.0
    ensures c > 0.0 || c == l
    ensures c != l ==> c == (if name == "V" || name == "F" then Abs(gcBiased) - tDec else Abs(gct) - ftct)
    ensures var m := if name == "V" || name == "F" then Abs(gcBiased) - tDec else Abs(gct) - ftct;
      (m > 0.0 ==> c == m) && (m <= 0.0 ==> c == l)
  {
    var confVF := Max(Abs(gcBiased) - tDec, 0.0);
    var confCT := Max(Abs(gct) - ftct, 0.0);
    var c := if name == "V" || name == "F" then confVF else confCT;
    if c == 0.0 then l else c
  }

  /** `compute`: the record and the classification for the current inputs and parameters. */
  function ComputeBlock(hypot: Calculations.Distance, muIn: real, lamIn: real, p: Params): (Record, Classified)
  {
    var mu := Clamp01(muIn);
    var lam := Clamp01(lamIn);
    var muP := Clamp01(mu + p.fl * p.vssc);
    var lamP := Clamp01(lam + p.fl * p.vicc);
    var gc := mu - lam;
    var gct := mu + lam - 1.0;
    var gctAdj := Max(-1.0, Min(1.0, gct + p.fl * (p.vssct + p.vicct) * 0.5));
    var gcT := if Abs(gc) >= p.ftc then gc else 0.0;
    var gctT := if Abs(gctAdj) >= p.ftct then gctAdj else 0.0;
    var dist := hypot(1.0 - Abs(gc), gct);
    var gcr := if gc >= 0.0 then 1.0 - dist else dist - 1.0;
    var tDec := p.ftc + p.fd * (1.0 - p.ftc);
    var gcBiased := gc + (if gc >= 0.0 then p.vlv else -p.vlf);
    var name := DecideLabel(p.ftc, p.ftct, gc, gct, gcT, gctT, gcBiased, tDec);
    var confidence := ConfidenceOf(p.l, p.ftct, name, gct, gcBiased, tDec);
    (Record(p.fl, p.ftc, p.fd, p.vssc, p.vicc, p.vssct, p.vicct, p.vlv, p.vlf,
            muP, lamP, mu, lam, gc, gct, gcT, Abs(gc), dist, gcr,
            1.0 - Abs(gct), (gc + 1.0) / 2.0, ((muP - lamP) + 1.0) / 2.0, (gct + 1.0) / 2.0,
            (gcr + 1.0) / 2.0, 1.0 - Abs(gct), name),
     Classified(name, confidence))
  }

  /**
   * What every computed record satisfies: clamped inputs and adjusted inputs in [0,1],
   * degrees in the lattice diamond, S1 the tolerated GC, the evidences the images of their
   * degrees, a label among the twelve regions shared with the classification, and a
   * non-negative confidence whenever L is.
   */
  lemma ComputeBlockSpec(hypot: Calculations.Distance, muIn: real, lamIn: real, p: Params)
    ensures var (rec, cls) := ComputeBlock(hypot, muIn, lamIn, p);
      && 0.0 <= rec.mu <= 1.0 && 0.0 <= rec.lam <= 1.0
      && (0.0 <= muIn <= 1.0 ==> rec.mu == muIn) && (0.0 <= lamIn <= 1.0 ==> rec.lam == lamIn)
      && 0.0 <= rec.muP <= 1.0 && 0.0 <= rec.lamP <= 1.0
      && rec.gc == rec.mu - rec.lam && rec.gct == rec.mu + rec.lam - 1.0
      && Abs(rec.gc) + Abs(rec.gct) <= 1.0
      && (Abs(rec.gc) >= p.ftc ==> rec.s1 == rec.gc) && (Abs(rec.gc) < p.ftc ==> rec.s1 == 0.0)
      && rec.d == Abs(rec.gc) && rec.dist >= 0.0
      && (rec.gc >= 0.0 ==> rec.gcr <= 1.0) && (rec.gc < 0.0 ==> rec.gcr >= -1.0)
      && 2.0 * rec.muE - 1.0 == rec.gc && 2.0 * rec.muECT - 1.0 == rec.gct
      && 2.0 * rec.muER - 1.0 == rec.gcr && 2.0 * rec.muEP - 1.0 == rec.muP - rec.lamP
      && 0.0 <= rec.muE <= 1.0 && 0.0 <= rec.muECT <= 1.0 && 0.0 <= rec.muEP <= 1.0
      && 0.0 <= rec.phi <= 1.0 && rec.phiE == rec.phi
      && rec.regionLabel in Regions && cls.regionLabel == rec.regionLabel
      && (p.l >= 0.0 ==> cls.confidence >= 0.0)
      && rec.ftc == p.ftc && rec.fd == p.fd && rec.vlv == p.vlv && rec.vlf == p.vlf
  {
  }

  /** The worked example mu = 0.8, lam = 0.2: GC = 0.6 and GCT = 0, whatever the parameters. */
  lemma ComputeBlockExample(hypot: Calculations.Distance, p: Params)
    ensures ComputeBlock(hypot, 0.8, 0.2, p).0.gc == 0.6
    ensures ComputeBlock(hypot, 0.8, 0.2, p).0.gct == 0.0
    ensures ComputeBlock(hypot, 0.8, 0.2, p).0.muE == 0.8
  {
  }

  /** With FD = 0 the decision limit T_dec is FtC, and with FD = 1 it is 1. */
  lemma DecisionLimit(p: Params)
    ensures p.fd == 0.0 ==> p.ftc + p.fd * (1.0 - p.ftc) == p.ftc
    ensures p.fd == 1.0 ==> p.ftc + p.fd * (1.0 - p.ftc) == 1.0
  {
  }

  // ------------------------------------------------------------------
  // Block state and its transitions
  // ------------------------------------------------------------------

  /** The fields of a block that its operations read and change. */
  datatype BlockState = BlockState(muIn: real, lamIn: real, params: Params,
                                   complete: Option<Record>, classified: Option<Classified>)

  /** The caches are either both empty or both hold the results for the current state. */
  ghost predicate Coherent(hypot: Calculations.Distance, s: BlockState)
  {
    && (s.complete.Some? <==> s.classified.Some?)
    && (s.complete.Some? ==>
          (s.complete.value, s.classified.value) == ComputeBlock(hypot, s.muIn, s.lamIn, s.params))
  }

  /** `_invalidate`. */
  function Invalidated(s: BlockState): (r: BlockState)
    ensures forall hypot: Calculations.Distance :: Coherent(hypot, r)
  {
    s.(complete := None, classified := None)
  }

  /** `set_input`: each given input is clamped into [0,1]; an input not given is kept. */
  function SetInputStep(s: BlockState, mu: Option<real>, lam: Option<real>): (r: BlockState)
    ensures mu.Some? ==> 0.0 <= r.muIn <= 1.0 && (0.0 <= mu.value <= 1.0 ==> r.muIn == mu.value)
    ensures lam.Some? ==> 0.0 <= r.lamIn <= 1.0 && (0.0 <= lam.value <= 1.0 ==> r.lamIn == lam.value)
    ensures mu.None? ==> r.muIn == s.muIn
    ensures lam.None? ==> r.lamIn == s.lamIn
    ensures r.params == s.params && r.complete.None? && r.classified.None?
  {
    var s1 := if mu.Some? then s.(muIn := Clamp01(mu.value)) else s;
    var s2 := if lam.Some? then s1.(lamIn := Clamp01(lam.value)) else s1;
    Invalidated(s2)
  }

  /**
   * `merge_partial`: "mu" replaces mu, "lam" or "lambda" replaces lam, by the clamped value;
   * any other name is a ValueError that leaves the state alone.
   */
  function MergeStep(s: BlockState, attr: string, value: real): (r: Result<BlockState, BlockError>)
    ensures r.Err? <==> attr != "mu" && attr != "lam" && attr != "lambda"
    ensures r.Err? ==> r.error == ValueError(attr)
    ensures r.Ok? ==> r.value.params == s.params && r.value.complete.None? && r.value.classified.None?
    ensures r.Ok? && attr == "mu" ==> r.value.muIn == Clamp01(value) && r.value.lamIn == s.lamIn
    ensures r.Ok? && attr != "mu" ==> r.value.lamIn == Clamp01(value) && r.value.muIn == s.muIn
  {
    var v := Clamp01(value);
    if attr == "mu" then Ok(Invalidated(s.(muIn := v)))
    else if attr == "lam" || attr == "lambda" then Ok(Invalidated(s.(lamIn := v)))
    else Err(ValueError(attr))
  }

  /** `set_params` as written: a failing keyword raises before `_invalidate`, caches kept. */
  function SetParamsAsWritten(s: BlockState, kwargs: seq<(string, real)>): (BlockState, Option<BlockError>)
  {
    var (p, err) := AssignParams(s.params, kwargs);
    if err.None? then (Invalidated(s.(params := p)), None) else (s.(params := p), err)
  }

  /**
   * A failing `set_params` after `compute` leaves caches that describe other parameters:
   * with FtC set to a new value before an unknown keyword, the cached record keeps the old FtC
   * while the parameters hold the new one.
   */
  lemma FailedSetParamsLeavesStaleCache(hypot: Calculations.Distance, s: BlockState)
    requires Coherent(hypot, s) && s.complete.Some? && s.params.ftc != 0.9
    ensures SetParamsAsWritten(s, [("FtC", 0.9), ("Bogus", 1.0)]).1 == Some(AttributeError("Bogus"))
    ensures !Coherent(hypot, SetParamsAsWritten(s, [("FtC", 0.9), ("Bogus", 1.0)]).0)
  {
    var kwargs := [("FtC", 0.9), ("Bogus", 1.0)];
    assert kwargs[1..] == [("Bogus", 1.0)];
    var s' := SetParamsAsWritten(s, kwargs).0;
    assert s'.params.ftc == 0.9;
    ComputeBlockSpec(hypot, s.muIn, s.lamIn, s.params);
    ComputeBlockSpec(hypot, s'.muIn, s'.lamIn, s'.params);
  }

  /** The first keyword names a parameter, so `set_params` assigns at least one value. */
  predicate FirstAssigned(kwargs: seq<(string, real)>)
  {
    kwargs != [] && ParamNamed(kwargs[0].0).Some?
  }

  /**
   * `set_params` with the caches cleared whenever a keyword was assigned, also when a later
   * one fails; a call whose first keyword fails changes nothing, as in the source.
   */
  function SetParamsStep(s: BlockState, kwargs: seq<(string, real)>): (r: (BlockState, Option<BlockError>))
    ensures r.0.muIn == s.muIn && r.0.lamIn == s.lamIn
    ensures r.1.None? <==> forall i :: 0 <= i < |kwargs| ==> ParamNamed(kwargs[i].0).Some?
    ensures r.1.None? ==> forall n :: Get(r.0.params, n) == LastValue(kwargs, n, Get(s.params, n))
    ensures r.1.None? || FirstAssigned(kwargs) ==> r.0.complete.None? && r.0.classified.None?
    ensures r.1.Some? && !FirstAssigned(kwargs) ==> r.0 == s
  {
    AssignParamsSpec(s.params, kwargs);
    var (p, err) := AssignParams(s.params, kwargs);
    if err.None? || FirstAssigned(kwargs) then (Invalidated(s.(params := p)), err) else (s, err)
  }

  /**
   * With `SetParamsStep`, caches that describe the current inputs and parameters still do
   * afterwards, whether the call succeeds or fails.
   */
  lemma SetParamsKeepsCoherent(hypot: Calculations.Distance, s: BlockState, kwargs: seq<(string, real)>)
    requires Coherent(hypot, s)
    ensures Coherent(hypot, SetParamsStep(s, kwargs).0)
  {
  }

  /** `compute`: fill both caches with the results for the current inputs and parameters. */
  function ComputeStep(hypot: Calculations.Distance, s: BlockState): (r: BlockState)
    ensures Coherent(hypot, r)
    ensures r.muIn == s.muIn && r.lamIn == s.lamIn && r.params == s.params
  {
    var (rec, cls) := ComputeBlock(hypot, s.muIn, s.lamIn, s.params);
    s.(complete := Some(rec), classified := Some(cls))
  }

  /** The value a port hands to a reader (`_InSig`, `_CompleteSig`, or the classification). */
  datatype PortValue = InSig(mu: real, lam: real) | CompleteSig(rec: Record) | ClassifiedSig(cls: Option<Classified>)

  /**
   * `read_port` together with `_as_complete_sig`: "complete" computes only when the cache
   * is empty; "classified" returns the cache, possibly empty; an unknown name is a ValueError.
   */
  function ReadStep(hypot: Calculations.Distance, s: BlockState, name: string): (r: Result<(PortValue, BlockState), BlockError>)
  {
    if name == "in" || name == "input" then Ok((InSig(s.muIn, s.lamIn), s))
    else if name == "complete" then
      if s.complete.None? then
        var s' := ComputeStep(hypot, s);
        Ok((CompleteSig(s'.complete.value), s'))
      else Ok((CompleteSig(s.complete.value), s))
    else if name == "classified" || name == "class" then Ok((ClassifiedSig(s.classified), s))
    else Err(ValueError(name))
  }

  /**
   * Reading a port never changes the inputs or parameters and keeps the caches coherent; on a
   * coherent state "complete" always yields the record for the current inputs, cached or not.
   */
  lemma ReadStepSpec(hypot: Calculations.Distance, s: BlockState, name: string)
    requires Coherent(hypot, s)
    ensures ReadStep(hypot, s, name).Err? <==> name !in {"in", "input", "complete", "classified", "class"}
    ensures ReadStep(hypot, s, name).Ok? ==>
      var (v, s') := ReadStep(hypot, s, name).value;
      && Coherent(hypot, s') && s'.muIn == s.muIn && s'.lamIn == s.lamIn && s'.params == s.params
      && (name == "complete" ==> v == CompleteSig(ComputeBlock(hypot, s.muIn, s.lamIn, s.params).0))
      && (name in {"in", "input"} ==> v == InSig(s.muIn, s.lamIn) && s' == s)
  {
  }

  // ------------------------------------------------------------------
  // The port schema read by the wiring layer
  // ------------------------------------------------------------------

  /** The attribute a schema reader fetches from a port value (the keys of `_schema`'s readers). */
  datatype Field =
    | InMu | InLam
    | Mu | Lam | Gc | Gct | Gcr | MuER | PhiE | MuP | LamP | S1 | SmallD | BigD
    | Phi | MuE | MuEP | MuECT
    | Confidence

  /** `_schema`: the field each (port, attribute) pair reads. */
  function Schema(port: string, attr: string): Option<Field>
  {
    if port == "in" then
      if attr == "mu" then Some(InMu) else if attr == "lam" then Some(InLam) else None
    else if port == "complete" then
      if attr == "mu" then Some(Mu) else if attr == "lam" then Some(Lam)
      else if attr == "gc" then Some(Gc) else if attr == "gct" then Some(Gct)
      else if attr == "gcr" then Some(Gcr) else if attr == "mer" then Some(MuER)
      else if attr == "phie" then Some(PhiE) else if attr == "mu_p" then Some(MuP)
      else if attr == "lam_p" then Some(LamP) else if attr == "s1" then Some(S1)
      else if attr == "d" then Some(SmallD) else if attr == "D" then Some(BigD)
      else if attr == "phi" then Some(Phi) else if attr == "muE" then Some(MuE)
      else if attr == "muE_p" then Some(MuEP) else if attr == "muECT" then Some(MuECT)
      else if attr == "muER" then Some(MuER) else if attr == "phiE" then Some(PhiE)
      else None
    else if port == "classified" then
      if attr == "confidence" then Some(Confidence) else None
    else None
  }

  /** `has_attr`. */
  predicate HasAttr(port: string, attr: string)
  {
    Schema(port, attr).Some?
  }

  /** `reader`: the port's reader for the attribute, or AttributeError exactly when there is none. */
  function Reader(port: string, attr: string): (r: Result<Field, BlockError>)
    ensures r.Ok? <==> HasAttr(port, attr)
    ensures r.Ok? ==> Schema(port, attr) == Some(r.value)
    ensures r.Err? ==> r.error == AttributeError(attr)
  {
    match Schema(port, attr)
    case Some(f) => Ok(f)
    case None => Err(AttributeError(attr))
  }

  /** A reader applied to a port value: `getattr` with the default 0.0 for a missing attribute. */
  function ReadField(f: Field, v: PortValue): real
  {
    match v
    case InSig(mu, lam) => if f == InMu then mu else if f == InLam then lam else 0.0
    case CompleteSig(r) =>
      (match f
      case Mu => r.mu case Lam => r.lam case Gc => r.gc case Gct => r.gct case Gcr => r.gcr
      case MuER => r.muER case PhiE => r.phiE case MuP => r.muP case LamP => r.lamP
      case S1 => r.s1 case SmallD => r.d case BigD => r.dist case Phi => r.phi
      case MuE => r.muE case MuEP => r.muEP case MuECT => r.muECT
      case _ => 0.0)
    case ClassifiedSig(c) => if f == Confidence && c.Some? then c.value.confidence else 0.0
  }

  /**
   * Every reader of a port, applied to what that port hands out, reads a real field of it:
   * the input pair, the record (with "mer" and "phie" the aliases of "muER" and "phiE"),
   * or the confidence (0.0 while nothing is classified).
   */
  lemma SchemaReadsPortValues(mu: real, lam: real, rec: Record, cls: Option<Classified>)
    ensures ReadField(Schema("in", "mu").value, InSig(mu, lam)) == mu
    ensures ReadField(Schema("in", "lam").value, InSig(mu, lam)) == lam
    ensures ReadField(Schema("complete", "mer").value, CompleteSig(rec)) == rec.muER
    ensures ReadField(Schema("complete", "muER").value, CompleteSig(rec)) == rec.muER
    ensures ReadField(Schema("complete", "phie").value, CompleteSig(rec)) == rec.phiE
    ensures ReadField(Schema("complete", "phiE").value, CompleteSig(rec)) == rec.phiE
    ensures ReadField(Schema("complete", "gc").value, CompleteSig(rec)) == rec.gc
    ensures ReadField(Schema("complete", "D").value, CompleteSig(rec)) == rec.dist
    ensures ReadField(Schema("classified", "confidence").value, ClassifiedSig(cls)) ==
      if cls.Some? then cls.value.confidence else 0.0
  {
  }

  // ------------------------------------------------------------------
  // The block object
  // ------------------------------------------------------------------

  class ParaconsistentBlock {
    const blockId: string
    /** The square root of `compute`'s distance D. */
    const hypot: Calculations.Distance
    var muIn: real
    var lamIn: real
    var params: Params
    /** `_complete` and `_complete_dict`, which are always set and cleared together. */
    var complete: Option<Record>
    var classified: Option<Classified>
    /** `_graph`: the block graph this block was added to, if any. */
    var graph: object?

    function State(): BlockState
      reads this
    {
      BlockState(muIn, lamIn, params, complete, classified)
    }

    ghost predicate Valid()
      reads this
    {
      Coherent(hypot, State())
    }

    /** The inputs start at the initial values given (unclamped) or 0.0; the caches are empty. */
    constructor(blockId: string, hypot: Calculations.Distance, initialMu: Option<real>,
                initialLam: Option<real>, p: Params)
      ensures Valid() && this.blockId == blockId && this.hypot == hypot && graph == null
      ensures State() == BlockState(if initialMu.Some? then initialMu.value else 0.0,
                                    if initialLam.Some? then initialLam.value else 0.0, p, None, None)
    {
      this.blockId := blockId;
      this.hypot := hypot;
      muIn := if initialMu.Some? then initialMu.value else 0.0;
      lamIn := if initialLam.Some? then initialLam.value else 0.0;
      params := p;
      complete := None;
      classified := None;
      graph := null;
    }

    /** `_invalidate`. */
    method Invalidate()
      modifies this
      ensures State() == Invalidated(old(State())) && Valid() && graph == old(graph)
    {
      complete := None;
      classified := None;
    }

    /** `set_input`. */
    method SetInput(mu: Option<real>, lam: Option<real>)
      modifies this
      ensures State() == SetInputStep(old(State()), mu, lam) && Valid() && graph == old(graph)
    {
      if mu.Some? {
        muIn := Clamp01(mu.value);
      }
      if lam.Some? {
        lamIn := Clamp01(lam.value);
      }
      Invalidate();
    }

    /** `set_params`, clearing the caches also when a keyword fails after another was assigned. */
    method SetParams(kwargs: seq<(string, real)>) returns (err: Option<BlockError>)
      modifies this
      ensures (State(), err) == SetParamsStep(old(State()), kwargs) && graph == old(graph)
      ensures old(Valid()) ==> Valid()
    {
      var i := 0;
      while i < |kwargs|
        invariant 0 <= i <= |kwargs|
        invariant AssignParams(old(params), kwargs) == AssignParams(params, kwargs[i..])
        invariant muIn == old(muIn) && lamIn == old(lamIn) && graph == old(graph)
        invariant complete == old(complete) && classified == old(classified)
        invariant i == 0 ==> params == old(params)
        invariant i > 0 ==> FirstAssigned(kwargs)
      {
        assert kwargs[i..] == [kwargs[i]] + kwargs[i + 1..];
        var n := ParamNamed(kwargs[i].0);
        if n.None? {
          if i > 0 {
            Invalidate();
          }
          return Some(AttributeError(kwargs[i].0));
        }
        params := Set(params, n.value, kwargs[i].1);
        i := i + 1;
      }
      Invalidate();
      err := None;
    }

    /** `merge_partial`. */
    method MergePartial(attr: string, value: real) returns (res: Result<(), BlockError>)
      modifies this
      ensures MergeStep(old(State()), attr, value).Ok? ==>
        res == Ok(()) && State() == MergeStep(old(State()), attr, value).value && Valid()
      ensures MergeStep(old(State()), attr, value).Err? ==>
        res == Err(MergeStep(old(State()), attr, value).error) && State() == old(State())
      ensures graph == old(graph)
    {
      var v := Clamp01(value);
      if attr == "mu" {
        muIn := v;
      } else if attr == "lam" || attr == "lambda" {
        lamIn := v;
      } else {
        return Err(ValueError(attr));
      }
      Invalidate();
      res := Ok(());
    }

    /** `compute`. */
    method Compute()
      modifies this
      ensures State() == ComputeStep(hypot, old(State())) && Valid() && graph == old(graph)
    {
      var (rec, cls) := ComputeBlock(hypot, muIn, lamIn, params);
      complete := Some(rec);
      classified := Some(cls);
    }

    /** `read_port`. */
    method ReadPort(name: string) returns (res: Result<PortValue, BlockError>)
      modifies this
      ensures ReadStep(hypot, old(State()), name).Ok? ==>
        res == Ok(ReadStep(hypot, old(State()), name).value.0)
        && State() == ReadStep(hypot, old(State()), name).value.1
      ensures ReadStep(hypot, old(State()), name).Err? ==>
        res == Err(ReadStep(hypot, old(State()), name).error) && State() == old(State())
      ensures graph == old(graph)
    {
      if name == "in" || name == "input" {
        return Ok(InSig(muIn, lamIn));
      }
      if name == "complete" {
        if complete.None? {
          Compute();
        }
        return Ok(CompleteSig(complete.value));
      }
      if name == "classified" || name == "class" {
        return Ok(ClassifiedSig(classified));
      }
      res := Err(ValueError(name));
    }
  }
}
