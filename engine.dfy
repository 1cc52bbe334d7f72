/**
 * The stand-alone engine of src/paraconsistent/core/engine.py: one call turns the evidence
 * pair (mu, lam) and the block parameters into the complete record (degrees, radial
 * geometry, evidences, decision output and 12-region label).
 *
 * The engine imports four helpers whose modules are not part of this model: `clamp01`,
 * `radial_d_to_nearest_apex`, `classify_12_regions_asymmetric` and `regions_flags`. They
 * are parameters here, each with the assumption this model makes about it written into
 * its type.
 */
module Engine {
  import opened RealMath

  /** `clamp01` of the metrics module: assumed to land in [0,1] and to fix [0,1]. */
  type Clamp = f: real -> real | forall x: real :: 0.0 <= f(x) <= 1.0 && (0.0 <= x <= 1.0 ==> f(x) == x)
    witness Clamp01

  /** `radial_d_to_nearest_apex`: assumed to be a distance, hence never negative. */
  type Radial = f: (real, real) -> real | forall mu: real, lam: real :: f(mu, lam) >= 0.0
    witness (mu: real, lam: real) => 0.0

  /** The four limits handed to the region classifier (`ThresholdsAsym`). */
  datatype Thresholds = Thresholds(ftcPos: real, ftcNeg: real, fdPos: real, fdNeg: real)

  /** `classify_12_regions_asymmetric`: any labelling of (gc, gct) under given limits. */
  type RegionClassifier = (real, real, Thresholds) -> string

  /** `regions_flags`: the boolean flag per region for a label. */
  type RegionFlags = string -> map<string, bool>

  /** The parameters `compute` reads from `BlockParams`. */
  datatype BlockParams = BlockParams(ftc: real, vlv: real, vlf: real, l: real)

  /** The dictionary returned by `evidences`. */
  datatype Evidences = Evidences(phi: real, muE: real, muECT: real, muER: real, phiE: real)

  /** The record `compute` returns (the evidences are spread into it in the source). */
  datatype Complete = Complete(
    ftc: real, vlv: real, vlf: real, l: real,
    mu: real, lam: real,
    gc: real, gct: real,
    d: real, dClamped: real, gcr: real,
    decision: real,
    regionLabel: string, regionFlags: map<string, bool>,
    ev: Evidences)

  /**
   * `core_degrees`: the certainty degree gc and the contradiction degree gct. The pair is
   * an invertible change of coordinates: (mu, lam) is recovered from it.
   */
  function CoreDegrees(mu: real, lam: real): (r: (real, real))
    ensures (r.0 + r.1 + 1.0) / 2.0 == mu
    ensures (r.1 - r.0 + 1.0) / 2.0 == lam
  {
    (mu - lam, mu + lam - 1.0)
  }

  /**
   * For inputs in [0,1] both degrees lie in [-1,1]; more precisely the point (gc, gct)
   * lies in the diamond |gc| + |gct| <= 1 of the lattice diagram.
   */
  lemma CoreDegreesBounds(mu: real, lam: real)
    requires 0.0 <= mu <= 1.0 && 0.0 <= lam <= 1.0
    ensures -1.0 <= CoreDegrees(mu, lam).0 <= 1.0
    ensures -1.0 <= CoreDegrees(mu, lam).1 <= 1.0
    ensures Abs(CoreDegrees(mu, lam).0) + Abs(CoreDegrees(mu, lam).1) <= 1.0
  {
  }

  /**
   * `geometry`: the radial distance d, its clamp D = min(d, 1), and the radial certainty
   * gcr, whose magnitude is 1 - D and whose sign follows gc (zero counts as positive).
   */
  function Geometry(radial: Radial, mu: real, lam: real, gc: real): (r: (real, real, real))
    ensures r.0 == radial(mu, lam)
    ensures 0.0 <= r.1 <= 1.0 && r.1 <= r.0
    ensures r.0 <= 1.0 ==> r.1 == r.0
    ensures Abs(r.2) == 1.0 - r.1
    ensures gc >= 0.0 ==> r.2 >= 0.0
    ensures gc < 0.0 ==> r.2 <= 0.0
  {
    var d := radial(mu, lam);
    var dClamped := Min(d, 1.0);
    (d, dClamped, (1.0 - dClamped) * (if gc >= 0.0 then 1.0 else -1.0))
  }

  /**
   * The limit derivation of `classify`: the effective certainty limits are never below
   * ftc, and the two contradiction limits |1 - ftc| and |ftc - 1| coincide.
   */
  function ClassifyThresholds(ftc: real, vlv: real, vlf: real): (t: Thresholds)
    ensures t.ftcPos >= ftc && t.ftcNeg >= ftc
    ensures t.fdPos == t.fdNeg >= 0.0
  {
    var vssc := ftc;
    var vicc := -ftc;
    var vssct := 1.0 - ftc;
    var vicct := ftc - 1.0;
    var ftcPos := Max(ftc, Abs(vssc));
    var ftcNeg := Max(ftc, Abs(vicc));
    Thresholds(Max(ftcPos - vlv, ftc), Max(ftcNeg - vlf, ftc), Abs(vssct), Abs(vicct))
  }

  /**
   * For a non-negative ftc the base limits equal ftc, so a bias can only raise an effective
   * limit: a non-negative pro-true (pro-false) bias leaves it exactly at ftc, and a
   * negative one raises it by its magnitude.
   */
  lemma BiasOnlyRaises(ftc: real, vlv: real, vlf: real)
    requires ftc >= 0.0
    ensures ClassifyThresholds(ftc, vlv, vlf).ftcPos == ftc + Max(0.0, -vlv)
    ensures ClassifyThresholds(ftc, vlv, vlf).ftcNeg == ftc + Max(0.0, -vlf)
    ensures vlv >= 0.0 ==> ClassifyThresholds(ftc, vlv, vlf).ftcPos == ftc
    ensures vlf >= 0.0 ==> ClassifyThresholds(ftc, vlv, vlf).ftcNeg == ftc
  {
  }

  /** `classify`: the label under the derived limits, and the flags belonging to that label. */
  function Classify(regions: RegionClassifier, flags: RegionFlags,
                    ftc: real, vlv: real, vlf: real, gc: real, gct: real): (r: (string, map<string, bool>))
    ensures r.0 == regions(gc, gct, ClassifyThresholds(ftc, vlv, vlf))
    ensures r.1 == flags(r.0)
  {
    var name := regions(gc, gct, ClassifyThresholds(ftc, vlv, vlf));
    (name, flags(name))
  }

  /**
   * `evidences`: each evidence is the affine image (x + 1) / 2 of its degree, so the degree
   * is recovered as 2e - 1; phi is the complement of the contradiction magnitude.
   */
  function MakeEvidences(gc: real, gct: real, gcr: real): (e: Evidences)
    ensures 2.0 * e.muE - 1.0 == gc
    ensures 2.0 * e.muECT - 1.0 == gct
    ensures 2.0 * e.muER - 1.0 == gcr
    ensures e.phi == 1.0 - Abs(2.0 * e.muECT - 1.0) && e.phiE == e.phi
  {
    var phi := 1.0 - Abs(gct);
    Evidences(phi, (gc + 1.0) / 2.0, (gct + 1.0) / 2.0, (gcr + 1.0) / 2.0, phi)
  }

  /** Degrees in [-1,1] give evidences in [0,1]. */
  lemma EvidencesBounds(gc: real, gct: real, gcr: real)
    requires -1.0 <= gc <= 1.0 && -1.0 <= gct <= 1.0 && -1.0 <= gcr <= 1.0
    ensures var e := MakeEvidences(gc, gct, gcr);
      0.0 <= e.phi <= 1.0 && 0.0 <= e.muE <= 1.0 && 0.0 <= e.muECT <= 1.0
      && 0.0 <= e.muER <= 1.0 && 0.0 <= e.phiE <= 1.0
  {
  }

  /**
   * `decision_output`: 1.0 exactly when muER exceeds ftc, 0.0 exactly when it falls short,
   * 0.5 exactly on a tie; no other value is produced.
   */
  function DecisionOutput(muER: real, ftc: real): (r: real)
    ensures r == 1.0 <==> muER > ftc
    ensures r == 0.0 <==> muER < ftc
    ensures r == 0.5 <==> muER == ftc
    ensures r == 0.0 || r == 0.5 || r == 1.0
  {
    if muER > ftc then 1.0
    else if muER < ftc then 0.0
    else 0.5
  }

  /** More real evidence never lowers the decision, and a higher limit never raises it. */
  lemma DecisionMonotone(m1: real, m2: real, ftc1: real, ftc2: real)
    requires m1 <= m2 && ftc2 <= ftc1
    ensures DecisionOutput(m1, ftc1) <= DecisionOutput(m2, ftc2)
  {
  }

  /** `compute`: clamp the inputs, then assemble every stage into one record. */
  function Compute(clamp: Clamp, radial: Radial, regions: RegionClassifier, flags: RegionFlags,
                   mu: real, lam: real, params: BlockParams): (c: Complete)
    ensures c.ftc == params.ftc && c.vlv == params.vlv && c.vlf == params.vlf && c.l == params.l
    ensures c.mu == clamp(mu) && c.lam == clamp(lam)
  {
    var mu' := clamp(mu);
    var lam' := clamp(lam);
    var degrees := CoreDegrees(mu', lam');
    var geometry := Geometry(radial, mu', lam', degrees.0);
    var ev := MakeEvidences(degrees.0, degrees.1, geometry.2);
    var decision := DecisionOutput(ev.muER, params.ftc);
    var classified := Classify(regions, flags, params.ftc, params.vlv, params.vlf, degrees.0, degrees.1);
    Complete(params.ftc, params.vlv, params.vlf, params.l, mu', lam', degrees.0, degrees.1,
             geometry.0, geometry.1, geometry.2, decision, classified.0, classified.1, ev)
  }

  /**
   * What every record `compute` returns satisfies, whatever the raw inputs: clamped inputs,
   * degrees in the lattice diamond, |gcr| = 1 - D, evidences in [0,1] that invert to the
   * degrees, and a decision that agrees with muER against FtC.
   */
  lemma ComputeSpec(clamp: Clamp, radial: Radial, regions: RegionClassifier, flags: RegionFlags,
                    mu: real, lam: real, params: BlockParams)
    ensures var c := Compute(clamp, radial, regions, flags, mu, lam, params);
      && 0.0 <= c.mu <= 1.0 && 0.0 <= c.lam <= 1.0
      && (0.0 <= mu <= 1.0 ==> c.mu == mu) && (0.0 <= lam <= 1.0 ==> c.lam == lam)
      && c.gc == c.mu - c.lam && c.gct == c.mu + c.lam - 1.0
      && Abs(c.gc) + Abs(c.gct) <= 1.0
      && 0.0 <= c.dClamped <= 1.0 && Abs(c.gcr) == 1.0 - c.dClamped
      && 0.0 <= c.ev.muE <= 1.0 && 0.0 <= c.ev.muECT <= 1.0 && 0.0 <= c.ev.muER <= 1.0
      && 0.0 <= c.ev.phi <= 1.0 && c.ev.phiE == c.ev.phi
      && c.gcr == 2.0 * c.ev.muER - 1.0
      && (c.decision == 1.0 <==> c.ev.muER > c.ftc)
      && (c.decision == 0.0 <==> c.ev.muER < c.ftc)
      && c.regionFlags == flags(c.regionLabel)
  {
    var c := Compute(clamp, radial, regions, flags, mu, lam, params);
    CoreDegreesBounds(c.mu, c.lam);
    EvidencesBounds(c.gc, c.gct, c.gcr);
  }

  /** The worked example of the engine: mu = 0.8, lam = 0.2 gives gc = 0.6 and gct = 0. */
  lemma ComputeExample(clamp: Clamp, radial: Radial, regions: RegionClassifier, flags: RegionFlags,
                       params: BlockParams)
    ensures var c := Compute(clamp, radial, regions, flags, 0.8, 0.2, params);
      c.gc == 0.6 && c.gct == 0.0 && c.ev.muE == 0.8 && c.ev.muECT == 0.5 && c.ev.phi == 1.0
  {
  }

  /** Total and contradictory evidence: mu = lam = 1 gives gc = 0, gct = 1 and phi = 0. */
  lemma ComputeInconsistent(clamp: Clamp, radial: Radial, regions: RegionClassifier,
                            flags: RegionFlags, params: BlockParams)
    ensures var c := Compute(clamp, radial, regions, flags, 1.0, 1.0, params);
      c.gc == 0.0 && c.gct == 1.0 && c.ev.phi == 0.0
  {
  }

  /**
   * At the true and false apexes, where the radial distance is zero, the decision with
   * FtC = 0.5 is 1.0 for (1, 0) and 0.0 for (0, 1).
   */
  lemma ComputeApexes(clamp: Clamp, radial: Radial, regions: RegionClassifier,
                      flags: RegionFlags, params: BlockParams)
    requires params.ftc == 0.5
    requires radial(1.0, 0.0) == 0.0 && radial(0.0, 1.0) == 0.0
    ensures Compute(clamp, radial, regions, flags, 1.0, 0.0, params).decision == 1.0
    ensures Compute(clamp, radial, regions, flags, 0.0, 1.0, params).decision == 0.0
    ensures Compute(clamp, radial, regions, flags, 0.0, 1.0, params).gc == -1.0
  {
  }
}
