/**
 * The calculator objects of src/mrn/calculations/ with the fields they update in place.
 * Each method is specified by the value-level functions of `Calculations`: `State()` reads
 * the object as a `Calc`, and `Process` moves it exactly as `Calculations.Process` does.
 */
module CalculationObjects {
  import opened Wrappers
  import opened RealMath
  import opened Signals
  import opened Calculations

  /** `AggregationSimpleParaconsistentCalculation`: keeps every processed signal. */
  class AggregationCalculation {
    var signals: seq<Signal>
    /** The last non-empty result; written by `Result` and read by nothing else. */
    var aggregated: Option<Signal>

    function State(): Calc
      reads this
    {
      Aggregation(signals)
    }

    constructor()
      ensures signals == [] && aggregated == None
      ensures Fresh(State())
    {
      signals := [];
      aggregated := None;
    }

    /** `process`: appends the signal; it never fails, whatever the signal's kind. */
    method Process(s: Signal)
      modifies this
      ensures signals == old(signals) + [s]
      ensures aggregated == old(aggregated)
      ensures Calculations.Process(old(State()), s) == Ok(State())
    {
      signals := signals + [s];
    }

    /** `result`: None while empty; otherwise the means, which are also stored. */
    method Result() returns (r: Result<Option<Signal>, Fault>)
      modifies this
      ensures signals == old(signals)
      ensures r == CalcResult(State())
      ensures r.Ok? && r.value.Some? ==> aggregated == r.value
      ensures !(r.Ok? && r.value.Some?) ==> aggregated == old(aggregated)
    {
      r := Aggregate(signals);
      if r.Ok? && r.value.Some? {
        aggregated := r.value;
      }
    }
  }

  /** `SimpleToCompleteParaconsistentCalculation`: keeps the last expanded record. */
  class SimpleToCompleteCalculation {
    /** The square-root distance the formula uses. */
    const dist: Distance
    var lastResult: Option<Signal>

    function State(): Calc
      reads this
    {
      SimpleToComplete(dist, lastResult)
    }

    constructor(dist: Distance)
      ensures this.dist == dist && lastResult == None
    {
      this.dist := dist;
      lastResult := None;
    }

    /** `process`: reading `mu` off a classified signal raises, and nothing is stored then. */
    method Process(s: Signal) returns (fault: Option<Fault>)
      modifies this
      ensures fault.None? <==> !s.Classified?
      ensures fault.None? ==> lastResult == Some(Expand(dist, s.mu, s.lam))
      ensures fault.Some? ==> lastResult == old(lastResult)
      ensures fault.None? ==> Calculations.Process(old(State()), s) == Ok(State())
      ensures fault.Some? ==> Calculations.Process(old(State()), s) == Err(fault.value)
    {
      match MuAttr(s)
      case Err(f) =>
        fault := Some(f);
      case Ok(mu) =>
        lastResult := Some(Expand(dist, mu, s.lam));
        fault := None;
    }

    method Result() returns (r: Option<Signal>)
      ensures Ok(r) == CalcResult(State())
    {
      r := lastResult;
    }
  }

  /** `ThresholdClassifierCalculation`. */
  class ThresholdCalculation {
    var threshold: real
    var lastResult: Option<Signal>

    function State(): Calc
      reads this
    {
      Threshold(threshold, lastResult)
    }

    /** Called without an argument the threshold is `DefaultThreshold`. */
    constructor(threshold: real)
      ensures this.threshold == threshold && lastResult == None
    {
      this.threshold := threshold;
      lastResult := None;
    }

    method Process(s: Signal) returns (fault: Option<Fault>)
      modifies this
      ensures threshold == old(threshold)
      ensures fault.None? <==> s.Complete?
      ensures fault.None? ==> lastResult == Some(ThresholdClassify(threshold, s).value)
      ensures fault.Some? ==> lastResult == old(lastResult)
      ensures fault.None? ==> Calculations.Process(old(State()), s) == Ok(State())
      ensures fault.Some? ==> Calculations.Process(old(State()), s) == Err(fault.value)
    {
      match ThresholdClassify(threshold, s)
      case Err(f) =>
        fault := Some(f);
      case Ok(x) =>
        lastResult := Some(x);
        fault := None;
    }

    method Result() returns (r: Option<Signal>)
      ensures Ok(r) == CalcResult(State())
    {
      r := lastResult;
    }
  }

  /** `RuleBasedClassifierCalculation`: the rules dictionary in insertion order. */
  class RuleBasedCalculation {
    const rules: seq<Rule>
    var lastResult: Option<Signal>

    function State(): Calc
      reads this
    {
      RuleBased(rules, lastResult)
    }

    constructor(rules: seq<Rule>)
      ensures this.rules == rules && lastResult == None
    {
      this.rules := rules;
      lastResult := None;
    }

    /**
     * `process`: tries the rules in order and stores the first match's label with the
     * signal's gc; a signal without gc raises once a rule has matched.
     */
    method Process(s: Signal) returns (fault: Option<Fault>)
      modifies this
      ensures fault.None? ==> Calculations.Process(old(State()), s) == Ok(State())
      ensures fault.Some? ==> Calculations.Process(old(State()), s) == Err(fault.value)
      ensures fault.Some? ==> lastResult == old(lastResult)
    {
      var i := 0;
      while i < |rules|
        invariant 0 <= i <= |rules|
        invariant forall j :: 0 <= j < i ==> !rules[j].condition(s)
      {
        if rules[i].condition(s) {
          match GcAttr(s)
          case Err(f) =>
            fault := Some(f);
            return;
          case Ok(gc) =>
            lastResult := Some(Classified(rules[i].ruleLabel, gc, s.sourceId));
            fault := None;
            return;
        }
        i := i + 1;
      }
      lastResult := Some(Classified(NoMatchLabel, 0.0, s.sourceId));
      fault := None;
    }

    method Result() returns (r: Option<Signal>)
      ensures Ok(r) == CalcResult(State())
    {
      r := lastResult;
    }
  }

  /** `ParaconsistentClassifierCalculation`: thresholds set in the constructor. */
  class ClassifierCalculation {
    var tC: real
    var tCT: real
    var tD: real
    var L: real
    var nd: int
    var last: Option<Signal>

    function Params(): ClassifierParams
      reads this
    {
      ClassifierParams(tC, tCT, tD, L, nd)
    }

    function State(): Calc
      reads this
    {
      ParaClassifier(Params(), last)
    }

    /** Every threshold is clamped into [0,1] and `nd` to at least 0. */
    constructor(tC: real, tCT: real, tD: real, L: real, nd: int)
      ensures Params() == ClampParams(tC, tCT, tD, L, nd) && ValidParams(Params())
      ensures last == None
    {
      this.tC := Clamp01(tC);
      this.tCT := Clamp01(tCT);
      this.tD := Clamp01(tD);
      this.L := Clamp01(L);
      this.nd := NatMax(0, nd);
      last := None;
    }

    /** `update_thresholds(**kwargs)`: assigns the known names in order, then re-clamps. */
    method UpdateThresholds(kwargs: seq<Setting>)
      modifies this
      ensures Params() == Calculations.UpdateThresholds(old(Params()), kwargs)
      ensures ValidParams(Params())
      ensures last == old(last)
    {
      var i := 0;
      while i < |kwargs|
        invariant 0 <= i <= |kwargs|
        invariant Params() == Assign(old(Params()), kwargs[..i])
        invariant last == old(last)
      {
        var k := kwargs[i];
        assert kwargs[..i + 1][..i] == kwargs[..i];
        if k.name == "tC" {
          tC := k.value;
        } else if k.name == "tCT" {
          tCT := k.value;
        } else if k.name == "tD" {
          tD := k.value;
        } else if k.name == "L" {
          L := k.value;
        } else if k.name == "nd" {
          nd := TruncateToInt(k.value);
        }
        i := i + 1;
      }
      assert kwargs[..|kwargs|] == kwargs;
      tC := Clamp01(tC);
      tCT := Clamp01(tCT);
      tD := Clamp01(tD);
      L := Clamp01(L);
      nd := NatMax(0, nd);
    }

    /** `process`: stores the cascade's classification; it never raises. */
    method Process(s: Signal)
      modifies this
      ensures Params() == old(Params())
      ensures last == Some(ParaClassify(Params(), s))
      ensures Calculations.Process(old(State()), s) == Ok(State())
    {
      last := Some(ParaClassify(Params(), s));
    }

    method Result() returns (r: Option<Signal>)
      ensures Ok(r) == CalcResult(State())
    {
      r := last;
    }
  }
}
