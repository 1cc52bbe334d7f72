/**
 * The three signal kinds that flow along the network's edges (the classes under
 * src/mrn/signals/). Signals are values: a clone is an equal value and never shares state.
 */
module Signals {
  import opened Wrappers

  /** One entry of the record returned by `to_dict`. */
  datatype Value = Num(n: real) | Text(t: string)

  type Record = map<string, Value>

  datatype Signal =
    | Simple(mu: real, lam: real, sourceId: string)
    | Complete(mu: real, lam: real, gc: real, gct: real, gcr: real, mer: real, phie: real,
               sourceId: string)
    | Classified(classLabel: string, confidence: real, sourceId: string)

  /** The AttributeError raised when code reads a field that a signal kind does not have. */
  datatype Fault = MissingAttribute(name: string)

  /** `get_certainty` of each kind. */
  function Certainty(s: Signal): real
  {
    match s
    case Simple(mu, lam, _) => mu - lam
    case Complete(_, _, gc, _, _, _, _, _) => gc
    case Classified(_, confidence, _) => confidence
  }

  /** `is_empty` of each kind. */
  predicate IsEmpty(s: Signal)
  {
    match s
    case Simple(mu, lam, _) => mu == 0.0 && lam == 0.0
    case Complete(mu, lam, _, _, _, _, _, _) => mu == 0.0 && lam == 0.0
    case Classified(classLabel, confidence, _) => classLabel == "" || confidence == 0.0
  }

  /** `clone`: a field-by-field copy. */
  function Clone(s: Signal): (r: Signal)
    ensures r == s
  {
    match s
    case Simple(mu, lam, src) => Simple(mu, lam, src)
    case Complete(mu, lam, gc, gct, gcr, mer, phie, src) =>
      Complete(mu, lam, gc, gct, gcr, mer, phie, src)
    case Classified(classLabel, confidence, src) => Classified(classLabel, confidence, src)
  }

  /** The `type` tag written by `to_dict`. */
  function TypeTag(s: Signal): string
  {
    match s
    case Simple(_, _, _) => "paraconsistent"
    case Complete(_, _, _, _, _, _, _, _) => "paraconsistent_complete"
    case Classified(_, _, _) => "paraconsistent_output"
  }

  /** `to_dict`: the fixed-key record each kind exposes to logging collaborators. */
  function ToDict(s: Signal): (r: Record)
    ensures "type" in r && r["type"] == Text(TypeTag(s))
    ensures "source" in r && r["source"] == Text(s.sourceId)
    ensures !s.Classified? ==> "certainty" in r && r["certainty"] == Num(Certainty(s))
    ensures !s.Classified? ==> "mu" in r && r["mu"] == Num(s.mu) && "lambda" in r && r["lambda"] == Num(s.lam)
    ensures s.Simple? ==> r.Keys == {"type", "mu", "lambda", "source", "certainty"}
    ensures s.Complete? ==> r.Keys == {"type", "mu", "lambda", "gc", "gct", "gcr", "mer", "phie", "certainty", "source"}
    ensures s.Classified? ==> r.Keys == {"type", "label", "confidence", "source"}
  {
    match s
    case Simple(mu, lam, src) =>
      map["type" := Text("paraconsistent"), "mu" := Num(mu), "lambda" := Num(lam),
          "source" := Text(src), "certainty" := Num(Certainty(s))]
    case Complete(mu, lam, gc, gct, gcr, mer, phie, src) =>
      map["type" := Text("paraconsistent_complete"), "mu" := Num(mu), "lambda" := Num(lam),
          "gc" := Num(gc), "gct" := Num(gct), "gcr" := Num(gcr), "mer" := Num(mer),
          "phie" := Num(phie), "certainty" := Num(Certainty(s)), "source" := Text(src)]
    case Classified(classLabel, confidence, src) =>
      map["type" := Text("paraconsistent_output"), "label" := Text(classLabel),
          "confidence" := Num(confidence), "source" := Text(src)]
  }

  function NumAt(r: Record, key: string): Option<real>
  {
    if key in r && r[key].Num? then Some(r[key].n) else None
  }

  function TextAt(r: Record, key: string): Option<string>
  {
    if key in r && r[key].Text? then Some(r[key].t) else None
  }

  /**
   * Reads a signal back from its record. Not an operation of the source: it is the inverse
   * against which `to_dict` is checked to lose no field.
   */
  function FromDict(r: Record): Option<Signal>
  {
    match TextAt(r, "type")
    case Some("paraconsistent") =>
      if NumAt(r, "mu").Some? && NumAt(r, "lambda").Some? && TextAt(r, "source").Some? then
        Some(Simple(NumAt(r, "mu").value, NumAt(r, "lambda").value, TextAt(r, "source").value))
      else None
    case Some("paraconsistent_complete") =>
      if NumAt(r, "mu").Some? && NumAt(r, "lambda").Some? && NumAt(r, "gc").Some?
         && NumAt(r, "gct").Some? && NumAt(r, "gcr").Some? && NumAt(r, "mer").Some?
         && NumAt(r, "phie").Some? && TextAt(r, "source").Some? then
        Some(Complete(NumAt(r, "mu").value, NumAt(r, "lambda").value, NumAt(r, "gc").value,
                      NumAt(r, "gct").value, NumAt(r, "gcr").value, NumAt(r, "mer").value,
                      NumAt(r, "phie").value, TextAt(r, "source").value))
      else None
    case Some("paraconsistent_output") =>
      if TextAt(r, "label").Some? && NumAt(r, "confidence").Some? && TextAt(r, "source").Some? then
        Some(Classified(TextAt(r, "label").value, NumAt(r, "confidence").value, TextAt(r, "source").value))
      else None
    case _ => None
  }

  /** `to_dict` keeps every field: the record determines the signal. */
  lemma DictRoundTrip(s: Signal)
    ensures FromDict(ToDict(s)) == Some(s)
  {
    var r := ToDict(s);
    match s
    case Simple(_, _, _) =>
      assert TextAt(r, "type") == Some("paraconsistent");
    case Complete(_, _, _, _, _, _, _, _) =>
      assert TextAt(r, "type") == Some("paraconsistent_complete");
    case Classified(_, _, _) =>
      assert TextAt(r, "type") == Some("paraconsistent_output");
  }

  /** A clone has the same certainty, emptiness and record as its original. */
  lemma CloneIndistinguishable(s: Signal)
    ensures Certainty(Clone(s)) == Certainty(s)
    ensures IsEmpty(Clone(s)) == IsEmpty(s)
    ensures ToDict(Clone(s)) == ToDict(s)
  {
  }

  /** A complete signal's emptiness reads only mu and lam; its derived fields are ignored. */
  lemma CompleteEmptinessIgnoresDerived(a: Signal, b: Signal)
    requires a.Complete? && b.Complete?
    requires a.mu == b.mu && a.lam == b.lam
    ensures IsEmpty(a) == IsEmpty(b)
  {
  }

  /** An empty simple signal has certainty 0; a classified signal with non-zero certainty and a label is not empty. */
  lemma EmptinessAndCertainty(s: Signal)
    ensures s.Simple? && IsEmpty(s) ==> Certainty(s) == 0.0
    ensures s.Classified? ==> (IsEmpty(s) <==> s.classLabel == "" || Certainty(s) == 0.0)
  {
  }

  // ---- attribute reads, as the calculations perform them

  /** `signal.mu`: Simple and Complete signals have it; a Classified signal raises AttributeError. */
  function MuAttr(s: Signal): (r: Result<real, Fault>)
    ensures r.Ok? <==> !s.Classified?
    ensures r.Ok? ==> r.value == s.mu
  {
    if s.Classified? then Err(MissingAttribute("mu")) else Ok(s.mu)
  }

  /** `signal.lam`. */
  function LamAttr(s: Signal): (r: Result<real, Fault>)
    ensures r.Ok? <==> !s.Classified?
    ensures r.Ok? ==> r.value == s.lam
  {
    if s.Classified? then Err(MissingAttribute("lam")) else Ok(s.lam)
  }

  /** `signal.gc`: only Complete signals have it. */
  function GcAttr(s: Signal): (r: Result<real, Fault>)
    ensures r.Ok? <==> s.Complete?
    ensures r.Ok? ==> r.value == s.gc
  {
    if s.Complete? then Ok(s.gc) else Err(MissingAttribute("gc"))
  }

  /** `getattr(s, "mu", 0.0)`: the mu field, or 0.0 for a kind without one. */
  function MuOrZero(s: Signal): real
  {
    if s.Classified? then 0.0 else s.mu
  }

  /** `getattr(s, "lam", getattr(s, "lambda", 0.0))`. */
  function LamOrZero(s: Signal): real
  {
    if s.Classified? then 0.0 else s.lam
  }
}
