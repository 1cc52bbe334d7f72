/**
 * The calculations under src/mrn/calculations/: the formulas they apply to one signal and
 * the state each calculator object keeps between `process` calls, as values.
 */
module Calculations {
  import opened Wrappers
  import opened RealMath
  import opened Signals

  /**
   * Stands for the square-root distance `((1 - |gc|)**2 + gct**2) ** 0.5`; only its
   * non-negativity is modelled.
   */
  type Distance = f: (real, real) -> real | forall a: real, b: real :: f(a, b) >= 0.0
    witness (a: real, b: real) => 0.0

  // ------------------------------------------------------------------
  // simple_to_complete / paraconsistent_signal_parser: one shared formula
  // ------------------------------------------------------------------

  /** The complete record both parser calculations build from (mu, lam). */
  function Expand(dist: Distance, mu: real, lam: real): (r: Signal)
    ensures r.Complete? && r.mu == mu && r.lam == lam && r.sourceId == ""
    ensures r.gc == mu - lam && r.gct == mu + lam - 1.0
    ensures r.gc >= 0.0 ==> r.gcr == 1.0 - dist(1.0 - Abs(r.gc), r.gct) && r.gcr <= 1.0
    ensures r.gc < 0.0 ==> r.gcr == dist(1.0 - Abs(r.gc), r.gct) - 1.0 && r.gcr >= -1.0
    ensures r.mer == (r.gcr + 1.0) / 2.0
    ensures r.phie == 1.0 - Abs(r.gct)
  {
    var gc := mu - lam;
    var gct := mu + lam - 1.0;
    var d := dist(1.0 - Abs(gc), gct);
    var gcr := if gc >= 0.0 then 1.0 - d else d - 1.0;
    var mer := (gcr + 1.0) / 2.0;
    var phie := 1.0 - Abs(2.0 * ((gct + 1.0) / 2.0) - 1.0);
    Complete(mu, lam, gc, gct, gcr, mer, phie, "")
  }

  /** For evidences in [0,1] the certainty and contradiction degrees lie in [-1,1] and phie in [0,1]. */
  lemma ExpandBounds(dist: Distance, mu: real, lam: real)
    requires 0.0 <= mu <= 1.0 && 0.0 <= lam <= 1.0
    ensures -1.0 <= Expand(dist, mu, lam).gc <= 1.0
    ensures -1.0 <= Expand(dist, mu, lam).gct <= 1.0
    ensures 0.0 <= Expand(dist, mu, lam).phie <= 1.0
  {
  }

  /** `ParaconsistentSignalParser.process`: returns a new Complete signal (not the calculator). */
  function ParseSignal(dist: Distance, s: Signal): (r: Result<Signal, Fault>)
    ensures r.Ok? <==> !s.Classified?
    ensures r.Ok? ==> r.value == Expand(dist, s.mu, s.lam)
  {
    if s.Classified? then Err(MissingAttribute("mu")) else Ok(Expand(dist, s.mu, s.lam))
  }

  // ------------------------------------------------------------------
  // threshold_classifier_calculation
  // ------------------------------------------------------------------

  const DefaultThreshold: real := 0.3

  /** The classified signal `ThresholdClassifierCalculation.process` stores. */
  function ThresholdClassify(threshold: real, s: Signal): (r: Result<Signal, Fault>)
    ensures r.Ok? <==> s.Complete?
    ensures r.Ok? ==> r.value.Classified? && r.value.sourceId == s.sourceId
    ensures r.Ok? ==> (r.value.classLabel == "V" <==> s.gc > threshold)
    ensures r.Ok? ==> (r.value.classLabel == "F" <==> s.gc <= threshold)
    ensures r.Ok? ==> r.value.confidence >= 0.0 && (r.value.confidence == s.gc || r.value.confidence == -s.gc)
  {
    match GcAttr(s)
    case Err(f) => Err(f)
    case Ok(gc) =>
      Ok(Classified(if gc > threshold then "V" else "F", Abs(gc), s.sourceId))
  }

  // ------------------------------------------------------------------
  // rule_based_classifier_calculation
  // ------------------------------------------------------------------

  /** One entry of the rules dictionary: a label and its condition, in insertion order. */
  datatype Rule = Rule(ruleLabel: string, condition: Signal -> bool)

  const NoMatchLabel: string := "⊥"

  /** The position of the first rule whose condition holds, if any. */
  function FirstMatch(rules: seq<Rule>, s: Signal): (r: Option<nat>)
    ensures r.Some? ==> r.value < |rules| && rules[r.value].condition(s)
    ensures r.Some? ==> forall j :: 0 <= j < r.value ==> !rules[j].condition(s)
    ensures r.None? ==> forall j :: 0 <= j < |rules| ==> !rules[j].condition(s)
  {
    if rules == [] then None
    else if rules[0].condition(s) then Some(0)
    else match FirstMatch(rules[1..], s)
      case None => None
      case Some(k) => Some(k + 1)
  }

  /** The classified signal `RuleBasedClassifierCalculation.process` stores. */
  function RuleClassify(rules: seq<Rule>, s: Signal): (r: Result<Signal, Fault>)
    ensures r.Ok? ==> r.value.Classified? && r.value.sourceId == s.sourceId
    ensures FirstMatch(rules, s).None? ==> r == Ok(Classified(NoMatchLabel, 0.0, s.sourceId))
    ensures FirstMatch(rules, s).Some? ==> (r.Ok? <==> s.Complete?)
    ensures FirstMatch(rules, s).Some? && r.Ok? ==>
      r.value.classLabel == rules[FirstMatch(rules, s).value].ruleLabel && r.value.confidence == s.gc
  {
    match FirstMatch(rules, s)
    case None => Ok(Classified(NoMatchLabel, 0.0, s.sourceId))
    case Some(i) =>
      (match GcAttr(s)
       case Err(f) => Err(f)
       case Ok(gc) => Ok(Classified(rules[i].ruleLabel, gc, s.sourceId)))
  }

  // ------------------------------------------------------------------
  // paraconsistent_classifier_calculation
  // ------------------------------------------------------------------

  datatype ClassifierParams = ClassifierParams(tC: real, tCT: real, tD: real, L: real, nd: int)

  ghost predicate ValidParams(p: ClassifierParams)
  {
    0.0 <= p.tC <= 1.0 && 0.0 <= p.tCT <= 1.0 && 0.0 <= p.tD <= 1.0 && 0.0 <= p.L <= 1.0
    && p.nd >= 0
  }

  function NatMax(a: int, b: int): int { if a >= b then a else b }

  /** The clamping done by `__init__` and again at the end of `update_thresholds`. */
  function ClampParams(tC: real, tCT: real, tD: real, L: real, nd: int): (p: ClassifierParams)
    ensures ValidParams(p)
    ensures 0.0 <= tC <= 1.0 ==> p.tC == tC
    ensures 0.0 <= tCT <= 1.0 ==> p.tCT == tCT
    ensures 0.0 <= tD <= 1.0 ==> p.tD == tD
    ensures 0.0 <= L <= 1.0 ==> p.L == L
    ensures nd >= 0 ==> p.nd == nd
    ensures nd < 0 ==> p.nd == 0
  {
    ClassifierParams(Clamp01(tC), Clamp01(tCT), Clamp01(tD), Clamp01(L), NatMax(0, nd))
  }

  /** The constructor's defaults: tC = 0.30, tCT = 0.30, tD = 0.20, L = 0.05, nd = 3. */
  const DefaultClassifierParams: ClassifierParams := ClassifierParams(0.3, 0.3, 0.2, 0.05, 3)

  /** One keyword argument of `update_thresholds`. */
  datatype Setting = Setting(name: string, value: real)

  /**
   * `int(v)`: truncation toward zero, the integer of v's sign nearest to zero whose distance
   * from v is less than one.
   */
  function TruncateToInt(v: real): (r: int)
    ensures v >= 0.0 ==> 0 <= r && r as real <= v < r as real + 1.0
    ensures v < 0.0 ==> r <= 0 && v <= r as real < v + 1.0
  {
    if v >= 0.0 then v.Floor else -((-v).Floor)
  }

  /** The assignments of `update_thresholds`' loop, before the final clamping. */
  function Assign(p: ClassifierParams, kwargs: seq<Setting>): ClassifierParams
  {
    if kwargs == [] then p
    else
      var k := kwargs[|kwargs| - 1];
      var q := Assign(p, kwargs[..|kwargs| - 1]);
      if k.name == "tC" then q.(tC := k.value)
      else if k.name == "tCT" then q.(tCT := k.value)
      else if k.name == "tD" then q.(tD := k.value)
      else if k.name == "L" then q.(L := k.value)
      else if k.name == "nd" then q.(nd := TruncateToInt(k.value))
      else q
  }

  /** `update_thresholds(**kwargs)`. */
  function UpdateThresholds(p: ClassifierParams, kwargs: seq<Setting>): (r: ClassifierParams)
    ensures ValidParams(r)
  {
    var q := Assign(p, kwargs);
    ClampParams(q.tC, q.tCT, q.tD, q.L, q.nd)
  }

  /** The value of the last keyword argument called `name`, if any. */
  function LastSetting(kwargs: seq<Setting>, name: string): Option<real>
  {
    if kwargs == [] then None
    else if kwargs[|kwargs| - 1].name == name then Some(kwargs[|kwargs| - 1].value)
    else LastSetting(kwargs[..|kwargs| - 1], name)
  }

  lemma {:induction false} AssignSpec(p: ClassifierParams, kwargs: seq<Setting>)
    ensures Assign(p, kwargs).tC == (match LastSetting(kwargs, "tC") case Some(v) => v case None => p.tC)
    ensures Assign(p, kwargs).tCT == (match LastSetting(kwargs, "tCT") case Some(v) => v case None => p.tCT)
    ensures Assign(p, kwargs).tD == (match LastSetting(kwargs, "tD") case Some(v) => v case None => p.tD)
    ensures Assign(p, kwargs).L == (match LastSetting(kwargs, "L") case Some(v) => v case None => p.L)
    ensures Assign(p, kwargs).nd == (match LastSetting(kwargs, "nd") case Some(v) => TruncateToInt(v) case None => p.nd)
  {
    if kwargs != [] {
      AssignSpec(p, kwargs[..|kwargs| - 1]);
    }
  }

  /**
   * After `update_thresholds` each threshold is the clamped value of the last keyword naming
   * it, or its old value when none does; every other name is ignored.
   */
  lemma UpdateThresholdsSpec(p: ClassifierParams, kwargs: seq<Setting>)
    requires ValidParams(p)
    ensures UpdateThresholds(p, kwargs).tC == (match LastSetting(kwargs, "tC") case Some(v) => Clamp01(v) case None => p.tC)
    ensures UpdateThresholds(p, kwargs).tCT == (match LastSetting(kwargs, "tCT") case Some(v) => Clamp01(v) case None => p.tCT)
    ensures UpdateThresholds(p, kwargs).tD == (match LastSetting(kwargs, "tD") case Some(v) => Clamp01(v) case None => p.tD)
    ensures UpdateThresholds(p, kwargs).L == (match LastSetting(kwargs, "L") case Some(v) => Clamp01(v) case None => p.L)
    ensures UpdateThresholds(p, kwargs).nd == (match LastSetting(kwargs, "nd") case Some(v) => NatMax(0, TruncateToInt(v)) case None => p.nd)
  {
    AssignSpec(p, kwargs);
  }

  /** A keyword whose name is not a threshold changes nothing. */
  lemma {:induction false} UnknownSettingIgnored(p: ClassifierParams, kwargs: seq<Setting>, extra: Setting)
    requires extra.name !in {"tC", "tCT", "tD", "L", "nd"}
    ensures UpdateThresholds(p, kwargs + [extra]) == UpdateThresholds(p, kwargs)
  {
    assert (kwargs + [extra])[..|kwargs|] == kwargs;
  }

  /** The gaps to the thresholds that the doubt branch ("D") collects, in source order. */
  function Gaps(p: ClassifierParams, absC: real, absCt: real): seq<real>
  {
    (if absC < p.tC then [p.tC - absC] else [])
    + (if absCt > p.tD then [absCt - p.tD] else [])
    + (if absCt < p.tCT then [p.tCT - absCt] else [])
  }

  function MinOf(xs: seq<real>): (r: real)
    requires xs != []
    ensures r in xs && forall i :: 0 <= i < |xs| ==> r <= xs[i]
  {
    if |xs| == 1 then xs[0] else Min(xs[0], MinOf(xs[1..]))
  }

  /** The label and the (unrounded) confidence of `ParaconsistentClassifierCalculation.process`. */
  function ParaClassify(p: ClassifierParams, s: Signal): (r: Signal)
    ensures r.Classified? && r.sourceId == s.sourceId
  {
    var mu := MuOrZero(s);
    var lam := LamOrZero(s);
    var c := mu - lam;
    var ct := mu + lam - 1.0;
    var e := Max(mu, lam);
    var absC := Abs(c);
    var absCt := Abs(ct);
    if e < p.L then Classified("L", Max(p.L - e, 0.0), s.sourceId)
    else if absCt >= p.tCT then Classified("C", Max(absCt - p.tCT, 0.0), s.sourceId)
    else if absC >= p.tC && absCt <= p.tD then
      Classified(if c > 0.0 then "V" else "F", Max(absC - p.tC, 0.0), s.sourceId)
    else
      var gaps := Gaps(p, absC, absCt);
      Classified("D", Max(if gaps != [] then MinOf(gaps) else 0.0, 0.0), s.sourceId)
  }

  /**
   * The classifier's cascade is total and exclusive: exactly one of L, C, V, F, D comes out,
   * each under the conditions of its branch and none of the earlier ones, and the confidence
   * is never negative. In the doubt branch at least one gap exists (|ct| < tCT there), so the
   * confidence is the smallest gap and the "no gap" fallback never applies.
   */
  lemma ParaClassifySpec(p: ClassifierParams, s: Signal)
    ensures var r := ParaClassify(p, s);
      var mu, lam := MuOrZero(s), LamOrZero(s);
      var c, ct, e := mu - lam, mu + lam - 1.0, Max(mu, lam);
      && r.confidence >= 0.0
      && r.classLabel in {"L", "C", "V", "F", "D"}
      && (r.classLabel == "L" <==> e < p.L)
      && (r.classLabel == "L" ==> r.confidence == p.L - e)
      && (r.classLabel == "C" <==> e >= p.L && Abs(ct) >= p.tCT)
      && (r.classLabel == "C" ==> r.confidence == Abs(ct) - p.tCT)
      && (r.classLabel == "V" <==> e >= p.L && Abs(ct) < p.tCT && Abs(c) >= p.tC && Abs(ct) <= p.tD && c > 0.0)
      && (r.classLabel == "F" <==> e >= p.L && Abs(ct) < p.tCT && Abs(c) >= p.tC && Abs(ct) <= p.tD && c <= 0.0)
      && (r.classLabel in {"V", "F"} ==> r.confidence == Abs(c) - p.tC)
      && (r.classLabel == "D" <==> e >= p.L && Abs(ct) < p.tCT && (Abs(c) < p.tC || Abs(ct) > p.tD))
      && (r.classLabel == "D" ==> Gaps(p, Abs(c), Abs(ct)) != [] && r.confidence == MinOf(Gaps(p, Abs(c), Abs(ct))) && r.confidence > 0.0)
  {
    var mu, lam := MuOrZero(s), LamOrZero(s);
    var c, ct := mu - lam, mu + lam - 1.0;
    var gaps := Gaps(p, Abs(c), Abs(ct));
    if Max(mu, lam) >= p.L && Abs(ct) < p.tCT && !(Abs(c) >= p.tC && Abs(ct) <= p.tD) {
      assert p.tCT - Abs(ct) in gaps;
      var m := MinOf(gaps);
      assert m > 0.0;
    }
  }

  // ------------------------------------------------------------------
  // average_aggregation_simple_paraconsistent_calculation
  // ------------------------------------------------------------------

  /** The mu of every aggregated signal; a Classified one raises AttributeError. */
  function Mus(signals: seq<Signal>): (r: Result<seq<real>, Fault>)
    ensures r.Ok? <==> forall i :: 0 <= i < |signals| ==> !signals[i].Classified?
    ensures r.Ok? ==> |r.value| == |signals| && forall i :: 0 <= i < |signals| ==> r.value[i] == signals[i].mu
  {
    if signals == [] then Ok([])
    else match Mus(signals[..|signals| - 1])
      case Err(f) => Err(f)
      case Ok(xs) =>
        match MuAttr(signals[|signals| - 1])
        case Err(f) => Err(f)
        case Ok(x) => Ok(xs + [x])
  }

  function Lams(signals: seq<Signal>): (r: Result<seq<real>, Fault>)
    ensures r.Ok? <==> forall i :: 0 <= i < |signals| ==> !signals[i].Classified?
    ensures r.Ok? ==> |r.value| == |signals| && forall i :: 0 <= i < |signals| ==> r.value[i] == signals[i].lam
  {
    if signals == [] then Ok([])
    else match Lams(signals[..|signals| - 1])
      case Err(f) => Err(f)
      case Ok(xs) =>
        match LamAttr(signals[|signals| - 1])
        case Err(f) => Err(f)
        case Ok(x) => Ok(xs + [x])
  }

  const AggregatedSource: string := "aggregated"

  /** `AggregationSimpleParaconsistentCalculation.result()` over everything processed so far. */
  function Aggregate(signals: seq<Signal>): (r: Result<Option<Signal>, Fault>)
    ensures signals == [] ==> r == Ok(None)
    ensures signals != [] && r.Ok? ==> r.value.Some? && r.value.value.Simple?
    ensures r.Ok? <==> forall i :: 0 <= i < |signals| ==> !signals[i].Classified?
  {
    if signals == [] then Ok(None)
    else match (Mus(signals), Lams(signals))
      case (Ok(mus), Ok(lams)) => Ok(Some(Simple(Mean(mus), Mean(lams), AggregatedSource)))
      case (Err(f), _) => Err(f)
      case (_, Err(f)) => Err(f)
  }

  /**
   * The aggregate of signals whose evidences lie in [0,1] has its mu and lam in [0,1], and its
   * source is "aggregated".
   */
  lemma AggregateBounds(signals: seq<Signal>)
    requires signals != []
    requires forall i :: 0 <= i < |signals| ==>
      !signals[i].Classified? && 0.0 <= signals[i].mu <= 1.0 && 0.0 <= signals[i].lam <= 1.0
    ensures Aggregate(signals).Ok? && Aggregate(signals).value.Some?
    ensures var a := Aggregate(signals).value.value;
      0.0 <= a.mu <= 1.0 && 0.0 <= a.lam <= 1.0 && a.sourceId == AggregatedSource
  {
    var mus := Mus(signals).value;
    var lams := Lams(signals).value;
    MeanBounds(mus, 0.0, 1.0);
    MeanBounds(lams, 0.0, 1.0);
  }

  /** (0.9, 0.1) and (0.5, 0.3) aggregate to (0.7, 0.2). */
  lemma AggregateExample()
    ensures Aggregate([Simple(0.9, 0.1, ""), Simple(0.5, 0.3, "")])
      == Ok(Some(Simple(0.7, 0.2, AggregatedSource)))
  {
    var s := [Simple(0.9, 0.1, ""), Simple(0.5, 0.3, "")];
    assert Mus(s).value == [0.9, 0.5];
    assert Lams(s).value == [0.1, 0.3];
    assert Sum([0.9, 0.5]) == 1.4 by { assert [0.9, 0.5][..1] == [0.9]; }
    assert Sum([0.1, 0.3]) == 0.4 by { assert [0.1, 0.3][..1] == [0.1]; }
  }

  // ------------------------------------------------------------------
  // The calculators' state, as values
  // ------------------------------------------------------------------

  /** What each calculator object holds between calls (the `_signals` list or the last result). */
  datatype Calc =
    | Aggregation(signals: seq<Signal>)
    | SimpleToComplete(dist: Distance, last: Option<Signal>)
    | Threshold(threshold: real, last: Option<Signal>)
    | RuleBased(rules: seq<Rule>, last: Option<Signal>)
    | ParaClassifier(params: ClassifierParams, last: Option<Signal>)

  /**
   * `process(signal)`: the calculator's state afterwards. The source raises AttributeError
   * before assigning anything, so a fault leaves the state as it was.
   */
  function Process(c: Calc, s: Signal): (r: Result<Calc, Fault>)
    ensures r.Ok? ==> r.value.Aggregation? == c.Aggregation?
  {
    match c
    case Aggregation(signals) => Ok(Aggregation(signals + [s]))
    case SimpleToComplete(dist, _) =>
      if s.Classified? then Err(MissingAttribute("mu"))
      else Ok(SimpleToComplete(dist, Some(Expand(dist, s.mu, s.lam))))
    case Threshold(t, _) =>
      (match ThresholdClassify(t, s)
       case Err(f) => Err(f)
       case Ok(x) => Ok(Threshold(t, Some(x))))
    case RuleBased(rules, _) =>
      (match RuleClassify(rules, s)
       case Err(f) => Err(f)
       case Ok(x) => Ok(RuleBased(rules, Some(x))))
    case ParaClassifier(p, _) => Ok(ParaClassifier(p, Some(ParaClassify(p, s))))
  }

  /** `result()`: None before any `process`; the aggregation computes its means here. */
  function CalcResult(c: Calc): Result<Option<Signal>, Fault>
  {
    match c
    case Aggregation(signals) => Aggregate(signals)
    case SimpleToComplete(_, last) => Ok(last)
    case Threshold(_, last) => Ok(last)
    case RuleBased(_, last) => Ok(last)
    case ParaClassifier(_, last) => Ok(last)
  }

  /** A freshly constructed calculator has no result yet. */
  predicate Fresh(c: Calc)
  {
    match c
    case Aggregation(signals) => signals == []
    case SimpleToComplete(_, last) => last == None
    case Threshold(_, last) => last == None
    case RuleBased(_, last) => last == None
    case ParaClassifier(_, last) => last == None
  }

  lemma FreshHasNoResult(c: Calc)
    requires Fresh(c)
    ensures CalcResult(c) == Ok(None)
  {
  }

  /**
   * Right after a successful `process(s)` every calculator has a result, and (outside the
   * aggregation, whose result is a mean over all it has seen) that result is the one computed
   * from `s` alone.
   */
  lemma ResultAfterProcess(c: Calc, s: Signal)
    requires Process(c, s).Ok?
    requires c.Aggregation? ==> forall i :: 0 <= i < |c.signals| ==> !c.signals[i].Classified?
    requires c.Aggregation? ==> !s.Classified?
    ensures CalcResult(Process(c, s).value).Ok?
    ensures CalcResult(Process(c, s).value).value.Some?
    ensures c.SimpleToComplete? ==> CalcResult(Process(c, s).value).value.value == Expand(c.dist, s.mu, s.lam)
    ensures c.Threshold? ==> CalcResult(Process(c, s).value).value.value == ThresholdClassify(c.threshold, s).value
    ensures c.RuleBased? ==> CalcResult(Process(c, s).value).value.value == RuleClassify(c.rules, s).value
    ensures c.ParaClassifier? ==> CalcResult(Process(c, s).value).value.value == ParaClassify(c.params, s)
  {
    if c.Aggregation? {
      var all := c.signals + [s];
      assert forall i :: 0 <= i < |all| ==> !all[i].Classified?;
    }
  }
}
