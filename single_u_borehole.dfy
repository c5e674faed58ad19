/**
 * bhr/single_u_borehole.py: a grouted borehole with one U-tube, evaluated
 * with the first-order multipole method. The constructor fixes the
 * dimensionless geometry (theta_1, theta_2, theta_3, sigma); every `calc_*`
 * method first refreshes the pipe resistance and beta, then overwrites the
 * cache field of the resistance it computes.
 *
 * The optional arguments flow rate, temperature and pipe resistance are
 * `Option<real>`, `None` standing for Python's default `None`.
 */
module SingleU {
  import opened PyRuntime
  import opened Elementary
  import opened Pipes

  /** The dimensionless parameters fixed at construction. */
  datatype Params = Params(theta1: real, theta2: real, theta3: real, sigma: real)

  /** theta_1 = shank / D_b, theta_2 = D_b / D_po, theta_3 = 1 / (2 theta_1
      theta_2) and sigma = (k_g - k_s) / (k_g + k_s), in that order; each
      step can divide by zero. */
  function Parameters(boreholeDiameter: real, pipeOuterDiameter: real, shankSpace: real,
                      groutConductivity: real, soilConductivity: real): (r: Result<Params>)
    ensures r.Ok? <==> boreholeDiameter != 0.0 && pipeOuterDiameter != 0.0 && shankSpace != 0.0
                       && groutConductivity + soilConductivity != 0.0
    ensures r.Err? ==> r.error == ZeroDivisionError
    ensures r.Ok? ==> r.value.theta1 * boreholeDiameter == shankSpace
    ensures r.Ok? ==> r.value.theta2 * pipeOuterDiameter == boreholeDiameter
    ensures r.Ok? ==>
      r.value.sigma * (groutConductivity + soilConductivity) == groutConductivity - soilConductivity
  {
    var theta1 :- Div(shankSpace, boreholeDiameter);
    var theta2 :- Div(boreholeDiameter, pipeOuterDiameter);
    ThetaProductNonZero(shankSpace, boreholeDiameter, pipeOuterDiameter, theta1, theta2);
    var theta3 :- Div(1.0, 2.0 * theta1 * theta2);
    var sigma :- Div(groutConductivity - soilConductivity, groutConductivity + soilConductivity);
    Ok(Params(theta1, theta2, theta3, sigma))
  }

  /** theta_1 theta_2 = shank / D_po, so it vanishes exactly when the shank
      spacing does. */
  lemma ThetaProductNonZero(shank: real, db: real, dpo: real, theta1: real, theta2: real)
    requires db != 0.0 && dpo != 0.0
    requires theta1 * db == shank && theta2 * dpo == db
    ensures (2.0 * theta1 * theta2 != 0.0) <==> shank != 0.0
    ensures theta1 * theta2 * dpo == shank
  {
    assert theta1 * theta2 * dpo == theta1 * db;
  }

  /** theta_3 = D_po / (2 shank): the pipe diameter over twice the shank
      spacing, whatever the borehole diameter. */
  lemma Theta3Closed(boreholeDiameter: real, pipeOuterDiameter: real, shankSpace: real, kg: real, ks: real)
    requires Parameters(boreholeDiameter, pipeOuterDiameter, shankSpace, kg, ks).Ok?
    ensures Parameters(boreholeDiameter, pipeOuterDiameter, shankSpace, kg, ks).value.theta3 * (2.0 * shankSpace)
      == pipeOuterDiameter
  {
    var p := Parameters(boreholeDiameter, pipeOuterDiameter, shankSpace, kg, ks).value;
    ThetaProductNonZero(shankSpace, boreholeDiameter, pipeOuterDiameter, p.theta1, p.theta2);
    assert p.theta3 * (2.0 * p.theta1 * p.theta2) == 1.0;
    calc {
      p.theta3 * (2.0 * shankSpace);
      p.theta3 * (2.0 * (p.theta1 * p.theta2 * pipeOuterDiameter));
      p.theta3 * (2.0 * p.theta1 * p.theta2) * pipeOuterDiameter;
      pipeOuterDiameter;
    }
  }

  /** For positive grout and soil conductivities sigma lies strictly
      between -1 and 1. */
  lemma SigmaInRange(boreholeDiameter: real, pipeOuterDiameter: real, shankSpace: real, kg: real, ks: real)
    requires boreholeDiameter != 0.0 && pipeOuterDiameter != 0.0 && shankSpace != 0.0
    requires kg > 0.0 && ks > 0.0
    ensures Parameters(boreholeDiameter, pipeOuterDiameter, shankSpace, kg, ks).Ok?
    ensures -1.0 < Parameters(boreholeDiameter, pipeOuterDiameter, shankSpace, kg, ks).value.sigma < 1.0
  {
    var s := Parameters(boreholeDiameter, pipeOuterDiameter, shankSpace, kg, ks).value.sigma;
    RatioInUnitInterval(s, kg, ks);
  }

  lemma RatioInUnitInterval(s: real, kg: real, ks: real)
    requires kg > 0.0 && ks > 0.0 && s * (kg + ks) == kg - ks
    ensures -1.0 < s < 1.0
  {
    if s >= 1.0 {
      assert false;
    }
    if s <= -1.0 {
      assert false;
    }
  }

  /** The repository's test borehole (D_b 0.096 m, D_po 0.032 m, shank
      0.032 m) has theta_1 = 1/3 and theta_2 = 3. */
  lemma TestBoreholeThetas(kg: real, ks: real)
    requires kg + ks != 0.0
    ensures Parameters(0.096, 0.032, 0.032, kg, ks).Ok?
    ensures Parameters(0.096, 0.032, 0.032, kg, ks).value.theta1 == 1.0 / 3.0
    ensures Parameters(0.096, 0.032, 0.032, kg, ks).value.theta2 == 3.0
  {
  }

  /** beta = 2 pi k_g R_p. */
  function Beta(groutConductivity: real, pipeResist: real): (b: real)
    ensures groutConductivity > 0.0 ==> (b > 0.0 <==> pipeResist > 0.0)
    ensures groutConductivity > 0.0 && pipeResist >= 0.0 ==> b >= 0.0
  {
    BetaSign(groutConductivity, pipeResist);
    2.0 * Pi * groutConductivity * pipeResist
  }

  lemma BetaSign(kg: real, rp: real)
    ensures kg > 0.0 ==> (2.0 * Pi * kg * rp > 0.0 <==> rp > 0.0)
    ensures kg > 0.0 && rp >= 0.0 ==> 2.0 * Pi * kg * rp >= 0.0
  {
    if kg > 0.0 {
      var c := 2.0 * Pi * kg;
      assert c > 0.0;
      assert 2.0 * Pi * kg * rp == c * rp;
    }
  }

  /** Equation 13 of the single U-tube multipole method: the average
      borehole resistance for given dimensionless parameters, grout
      conductivity and beta. Every division and logarithm is Python's, so
      beta = 1 is always an error. */
  function AverageResistance(m: Elementary, p: Params, groutConductivity: real, beta: real): (r: Result<real>)
    ensures beta == 1.0 ==> r.Err?
    ensures r.Ok? ==> groutConductivity != 0.0 && p.theta1 != 0.0
    ensures r.Err? ==> r.error in {ZeroDivisionError, ValueError, ComplexValue}
  {
    var t14 := p.theta1 * p.theta1 * p.theta1 * p.theta1;
    var pw :- Pow(m, 1.0 - t14, p.sigma);
    var ratio :- Div(p.theta2, 2.0 * p.theta1 * pw);
    var finalTerm1 :- Log(m, ratio);
    var q :- Div(4.0 * p.sigma * t14, 1.0 - t14);
    var term2Num := p.theta3 * p.theta3 * ((1.0 - q) * (1.0 - q));
    var term2DenPt1 :- Div(1.0 + beta, 1.0 - beta);
    var q2 :- Div(16.0 * p.sigma * t14, (1.0 - t14) * (1.0 - t14));
    var term2DenPt2 := p.theta3 * p.theta3 * (1.0 + q2);
    var finalTerm2 :- Div(term2Num, term2DenPt1 + term2DenPt2);
    var c :- Div(1.0, 4.0 * Pi * groutConductivity);
    Ok(c * (beta + finalTerm1 - finalTerm2))
  }

  /** Equation 26 of the single U-tube multipole method: the total internal
      (pipe-to-pipe) resistance. Like the average resistance it divides by
      1 - beta. */
  function TotalInternalResistance(m: Elementary, p: Params, groutConductivity: real, beta: real): (r: Result<real>)
    ensures beta == 1.0 ==> r.Err?
    ensures r.Ok? ==> groutConductivity != 0.0 && p.theta3 != 0.0
    ensures r.Err? ==> r.error in {ZeroDivisionError, ValueError, ComplexValue}
  {
    var t12 := p.theta1 * p.theta1;
    var t14 := t12 * t12;
    var term1Num :- Pow(m, 1.0 + t12, p.sigma);
    var pw :- Pow(m, 1.0 - t12, p.sigma);
    var ratio :- Div(term1Num, p.theta3 * pw);
    var finalTerm1 :- Log(m, ratio);
    var base := 1.0 - t14 + 4.0 * p.sigma * t12;
    var term2Num := p.theta3 * p.theta3 * (base * base);
    var b :- Div(1.0 + beta, 1.0 - beta);
    var term2DenPt1 := b * ((1.0 - t14) * (1.0 - t14));
    var term2DenPt2 := p.theta3 * p.theta3 * ((1.0 - t14) * (1.0 - t14));
    var term2DenPt3 := 8.0 * p.sigma * t12 * (p.theta3 * p.theta3) * (1.0 + t14);
    var finalTerm2 :- Div(term2Num, term2DenPt1 - term2DenPt2 + term2DenPt3);
    var c :- Div(1.0, Pi * groutConductivity);
    Ok(c * (beta + finalTerm1 - finalTerm2))
  }

  /** The uniform-heat-flux combination R_ave + (1 / (3 R_int)) (L / (cp
      m_dot))^2: the short-circuit term times 3 R_int (cp m_dot)^2 is L^2,
      so for a positive internal resistance the result is at least R_ave,
      and strictly above it for a non-zero length. */
  function UhfCombination(resistAve: real, resistInternal: real, length: real, cp: real, flow: real): (r: Result<real>)
    ensures r.Ok? <==> resistInternal != 0.0 && cp * flow != 0.0
    ensures r.Err? ==> r.error == ZeroDivisionError
    ensures r.Ok? ==>
      (r.value - resistAve) * (3.0 * resistInternal) * ((cp * flow) * (cp * flow)) == length * length
    ensures r.Ok? && resistInternal > 0.0 ==> r.value >= resistAve
    ensures r.Ok? && resistInternal > 0.0 && length != 0.0 ==> r.value > resistAve
  {
    var pt1 :- Div(1.0, 3.0 * resistInternal);
    var x :- Div(length, cp * flow);
    ShortCircuitTerm(pt1, x, resistInternal, length, cp * flow);
    Ok(resistAve + pt1 * (x * x))
  }

  lemma ShortCircuitTerm(pt1: real, x: real, rInt: real, length: real, d: real)
    requires pt1 * (3.0 * rInt) == 1.0 && x * d == length
    ensures pt1 * (x * x) * (3.0 * rInt) * (d * d) == length * length
    ensures rInt > 0.0 ==> pt1 * (x * x) >= 0.0
    ensures rInt > 0.0 && length != 0.0 ==> pt1 * (x * x) > 0.0
  {
    calc {
      pt1 * (x * x) * (3.0 * rInt) * (d * d);
      (pt1 * (3.0 * rInt)) * ((x * d) * (x * d));
      length * length;
    }
    if rInt > 0.0 {
      assert pt1 > 0.0 by {
        if pt1 <= 0.0 {
          assert false;
        }
      }
      if length != 0.0 {
        assert x != 0.0;
        assert x * x > 0.0;
      }
    }
  }

  /** The direct-coupling resistance 4 R_a R_b / (4 R_b - R_a), replaced by
      70 when negative, so the result is never negative; when it is not
      replaced it solves R_12 (4 R_b - R_a) = 4 R_a R_b. */
  function DirectCoupling(resistA: real, resistB: real): (r: Result<real>)
    ensures r.Ok? <==> 4.0 * resistB - resistA != 0.0
    ensures r.Err? ==> r.error == ZeroDivisionError
    ensures r.Ok? ==> r.value >= 0.0
    ensures r.Ok? ==> r.value == 70.0 || r.value * (4.0 * resistB - resistA) == 4.0 * resistA * resistB
    ensures resistA > 0.0 && resistB > 0.0 && 4.0 * resistB > resistA ==>
      r.Ok? && r.value * (4.0 * resistB - resistA) == 4.0 * resistA * resistB
    ensures resistA > 0.0 && resistB > 0.0 && 4.0 * resistB < resistA ==> r == Ok(70.0)
  {
    var r12 :- Div(4.0 * resistA * resistB, 4.0 * resistB - resistA);
    CouplingSign(resistA, resistB, r12);
    Ok(if r12 < 0.0 then 70.0 else r12)
  }

  lemma CouplingSign(ra: real, rb: real, r12: real)
    requires r12 * (4.0 * rb - ra) == 4.0 * ra * rb
    ensures ra > 0.0 && rb > 0.0 && 4.0 * rb > ra ==> r12 > 0.0
    ensures ra > 0.0 && rb > 0.0 && 4.0 * rb < ra ==> r12 < 0.0
  {
    if ra > 0.0 && rb > 0.0 {
      assert 4.0 * ra * rb > 0.0;
      if 4.0 * rb > ra && r12 <= 0.0 {
        assert false;
      }
      if 4.0 * rb < ra && r12 >= 0.0 {
        assert false;
      }
    }
  }

  /** The cache fields, as one value. */
  datatype Caches = Caches(
    beta: Option<real>,
    pipeResist: Option<real>,
    resistBhAve: Option<real>,
    resistBhGrout: Option<real>,
    resistBhEffective: Option<real>,
    resistBhDirectCoupling: Option<real>,
    resistBhTotalInternal: Option<real>)

  const EmptyCaches := Caches(None, None, None, None, None, None, None)

  class SingleUBorehole {
    /** The U-tube's pipe; its length is twice the borehole length. */
    const pipe: Pipe
    const length: real
    const shankSpace: real
    const boreholeDiameter: real
    const pipeOuterDiameter: real
    const groutConductivity: real
    const soilConductivity: real
    const theta1: real
    const theta2: real
    const theta3: real
    const sigma: real

    var beta: Option<real>
    var pipeResist: Option<real>
    var resistBhAve: Option<real>
    var resistBhGrout: Option<real>
    var resistBhEffective: Option<real>
    var resistBhDirectCoupling: Option<real>
    var resistBhTotalInternal: Option<real>

    function Dimensionless(): Params {
      Params(theta1, theta2, theta3, sigma)
    }

    function State(): Caches
      reads this
    {
      Caches(beta, pipeResist, resistBhAve, resistBhGrout, resistBhEffective, resistBhDirectCoupling,
             resistBhTotalInternal)
    }

    constructor (pipe: Pipe, length: real, shankSpace: real, boreholeDiameter: real, pipeOuterDiameter: real,
                 groutConductivity: real, soilConductivity: real, p: Params)
      ensures this.pipe == pipe && this.length == length && this.shankSpace == shankSpace
      ensures this.boreholeDiameter == boreholeDiameter && this.pipeOuterDiameter == pipeOuterDiameter
      ensures this.groutConductivity == groutConductivity && this.soilConductivity == soilConductivity
      ensures Dimensionless() == p
      ensures State() == EmptyCaches
    {
      this.pipe := pipe;
      this.length := length;
      this.shankSpace := shankSpace;
      this.boreholeDiameter := boreholeDiameter;
      this.pipeOuterDiameter := pipeOuterDiameter;
      this.groutConductivity := groutConductivity;
      this.soilConductivity := soilConductivity;
      theta1 := p.theta1;
      theta2 := p.theta2;
      theta3 := p.theta3;
      sigma := p.sigma;
      beta := None;
      pipeResist := None;
      resistBhAve := None;
      resistBhGrout := None;
      resistBhEffective := None;
      resistBhDirectCoupling := None;
      resistBhTotalInternal := None;
    }

    /** Python's `SingleUBorehole(...)` for an already built U-tube pipe:
        raises where `Parameters` does, otherwise every cache is empty. */
    static method Create(pipe: Pipe, length: real, shankSpace: real, boreholeDiameter: real,
                         pipeOuterDiameter: real, groutConductivity: real, soilConductivity: real)
      returns (r: Result<SingleUBorehole>)
      ensures var p := Parameters(boreholeDiameter, pipeOuterDiameter, shankSpace, groutConductivity, soilConductivity);
        && (r.Ok? <==> p.Ok?)
        && (r.Err? ==> r.error == p.error)
        && (r.Ok? ==> fresh(r.value) && r.value.Dimensionless() == p.value && r.value.State() == EmptyCaches
                      && r.value.pipe == pipe && r.value.length == length && r.value.shankSpace == shankSpace
                      && r.value.boreholeDiameter == boreholeDiameter
                      && r.value.pipeOuterDiameter == pipeOuterDiameter
                      && r.value.groutConductivity == groutConductivity
                      && r.value.soilConductivity == soilConductivity)
    {
      var p := Parameters(boreholeDiameter, pipeOuterDiameter, shankSpace, groutConductivity, soilConductivity);
      if p.Err? {
        return Err(p.error);
      }
      var b := new SingleUBorehole(pipe, length, shankSpace, boreholeDiameter, pipeOuterDiameter,
                                   groutConductivity, soilConductivity, p.value);
      return Ok(b);
    }

    /** The pipe resistance `update_beta` settles: the argument when it is
        truthy, otherwise the pipe's resistance at the given flow and
        temperature (a missing one is a TypeError). */
    function PipeResistFor(m: Elementary, flow: Option<real>, temp: Option<real>, pipeResistArg: Option<real>)
      : (r: Result<real>)
      ensures Truthy(pipeResistArg) ==> r == Ok(pipeResistArg.value)
      ensures !Truthy(pipeResistArg) && (flow.None? || temp.None?) ==> r == Err(TypeError)
      ensures !Truthy(pipeResistArg) && flow.Some? && temp.Some? ==> r == pipe.Resist(m, flow.value, temp.value)
    {
      if Truthy(pipeResistArg) then Ok(pipeResistArg.value)
      else if flow.None? || temp.None? then Err(TypeError)
      else pipe.Resist(m, flow.value, temp.value)
    }

    /** A zero pipe-resistance argument is falsy, so it counts as absent. */
    lemma ZeroPipeResistIsAbsent(m: Elementary, flow: Option<real>, temp: Option<real>)
      ensures PipeResistFor(m, flow, temp, Some(0.0)) == PipeResistFor(m, flow, temp, None)
    {
    }

    /** `update_beta`: stores the pipe resistance and beta = 2 pi k_g R_p;
        nothing changes when the pipe resistance cannot be computed. */
    method UpdateBeta(m: Elementary, flow: Option<real>, temp: Option<real>, pipeResistArg: Option<real>)
      returns (r: Result<real>)
      modifies this
      ensures r == PipeResistFor(m, flow, temp, pipeResistArg)
      ensures r.Err? ==> State() == old(State())
      ensures r.Ok? ==>
        State() == old(State()).(pipeResist := Some(r.value), beta := Some(Beta(groutConductivity, r.value)))
    {
      r := PipeResistFor(m, flow, temp, pipeResistArg);
      if r.Err? {
        return;
      }
      pipeResist := Some(r.value);
      beta := Some(Beta(groutConductivity, r.value));
    }

    function AverageFor(m: Elementary, flow: Option<real>, temp: Option<real>, pipeResistArg: Option<real>)
      : (r: Result<real>)
      ensures PipeResistFor(m, flow, temp, pipeResistArg).Err? ==> r == PipeResistFor(m, flow, temp, pipeResistArg)
      ensures r.Ok? ==>
        PipeResistFor(m, flow, temp, pipeResistArg).Ok?
        && Beta(groutConductivity, PipeResistFor(m, flow, temp, pipeResistArg).value) != 1.0
      ensures PipeResistFor(m, flow, temp, pipeResistArg).Ok? ==>
        r == AverageResistance(m, Dimensionless(), groutConductivity,
                               Beta(groutConductivity, PipeResistFor(m, flow, temp, pipeResistArg).value))
    {
      var resist :- PipeResistFor(m, flow, temp, pipeResistArg);
      AverageResistance(m, Dimensionless(), groutConductivity, Beta(groutConductivity, resist))
    }

    function TotalInternalFor(m: Elementary, flow: Option<real>, temp: Option<real>, pipeResistArg: Option<real>)
      : (r: Result<real>)
      ensures PipeResistFor(m, flow, temp, pipeResistArg).Err? ==> r == PipeResistFor(m, flow, temp, pipeResistArg)
      ensures r.Ok? ==>
        PipeResistFor(m, flow, temp, pipeResistArg).Ok?
        && Beta(groutConductivity, PipeResistFor(m, flow, temp, pipeResistArg).value) != 1.0
      ensures PipeResistFor(m, flow, temp, pipeResistArg).Ok? ==>
        r == TotalInternalResistance(m, Dimensionless(), groutConductivity,
                                     Beta(groutConductivity, PipeResistFor(m, flow, temp, pipeResistArg).value))
    {
      var resist :- PipeResistFor(m, flow, temp, pipeResistArg);
      TotalInternalResistance(m, Dimensionless(), groutConductivity, Beta(groutConductivity, resist))
    }

    /** `calc_average_bh_resistance`: returns the average resistance and
        leaves it in `resistBhAve`. */
    method CalcAverageBhResistance(m: Elementary, flow: Option<real>, temp: Option<real>, pipeResistArg: Option<real>)
      returns (r: Result<real>)
      modifies this
      ensures r == AverageFor(m, flow, temp, pipeResistArg)
      ensures var resist := PipeResistFor(m, flow, temp, pipeResistArg);
        && (resist.Err? ==> State() == old(State()))
        && (resist.Ok? ==>
              State() == old(State()).(pipeResist := Some(resist.value), beta := Some(Beta(groutConductivity, resist.value)),
                                       resistBhAve := if r.Ok? then Some(r.value) else old(resistBhAve)))
    {
      var resist := UpdateBeta(m, flow, temp, pipeResistArg);
      if resist.Err? {
        return Err(resist.error);
      }
      r := AverageResistance(m, Dimensionless(), groutConductivity, beta.value);
      if r.Ok? {
        resistBhAve := Some(r.value);
      }
    }

    /** `calc_total_internal_bh_resistance`: returns the total internal
        resistance and leaves it in `resistBhTotalInternal`. */
    method CalcTotalInternalBhResistance(m: Elementary, flow: Option<real>, temp: Option<real>,
                                         pipeResistArg: Option<real>)
      returns (r: Result<real>)
      modifies this
      ensures r == TotalInternalFor(m, flow, temp, pipeResistArg)
      ensures var resist := PipeResistFor(m, flow, temp, pipeResistArg);
        && (resist.Err? ==> State() == old(State()))
        && (resist.Ok? ==>
              State() == old(State()).(pipeResist := Some(resist.value), beta := Some(Beta(groutConductivity, resist.value)),
                                       resistBhTotalInternal := if r.Ok? then Some(r.value) else old(resistBhTotalInternal)))
    {
      var resist := UpdateBeta(m, flow, temp, pipeResistArg);
      if resist.Err? {
        return Err(resist.error);
      }
      r := TotalInternalResistance(m, Dimensionless(), groutConductivity, beta.value);
      if r.Ok? {
        resistBhTotalInternal := Some(r.value);
      }
    }

    /** Grout resistance: the average resistance minus half the pipe
        resistance ARGUMENT, not the stored one. A missing argument is a
        TypeError; a zero argument computes the average from the flow and
        subtracts nothing. */
    function GroutFor(m: Elementary, flow: Option<real>, temp: Option<real>, pipeResistArg: Option<real>)
      : (r: Result<real>)
      ensures pipeResistArg.None? ==> r.Err?
      ensures r.Ok? ==>
        pipeResistArg.Some? && AverageFor(m, flow, temp, pipeResistArg).Ok?
        && r.value == AverageFor(m, flow, temp, pipeResistArg).value - pipeResistArg.value / 2.0
      ensures pipeResistArg == Some(0.0) ==> r == AverageFor(m, flow, temp, None)
    {
      var ave :- AverageFor(m, flow, temp, pipeResistArg);
      if pipeResistArg.None? then Err(TypeError)
      else Ok(ave - pipeResistArg.value / 2.0)
    }

    /** `calc_grout_resistance`. */
    method CalcGroutResistance(m: Elementary, flow: Option<real>, temp: Option<real>, pipeResistArg: Option<real>)
      returns (r: Result<real>)
      modifies this
      ensures r == GroutFor(m, flow, temp, pipeResistArg)
      ensures var resist, ave := PipeResistFor(m, flow, temp, pipeResistArg), AverageFor(m, flow, temp, pipeResistArg);
        && (resist.Err? ==> State() == old(State()))
        && (resist.Ok? ==>
              State() == old(State()).(pipeResist := Some(resist.value), beta := Some(Beta(groutConductivity, resist.value)),
                                       resistBhAve := if ave.Ok? then Some(ave.value) else old(resistBhAve),
                                       resistBhGrout := if r.Ok? then Some(r.value) else old(resistBhGrout)))
    {
      var resist := UpdateBeta(m, flow, temp, pipeResistArg);
      if resist.Err? {
        return Err(resist.error);
      }
      var ave := CalcAverageBhResistance(m, flow, temp, pipeResistArg);
      if ave.Err? {
        return ave;
      }
      if pipeResistArg.None? {
        return Err(TypeError);
      }
      resistBhGrout := Some(ave.value - pipeResistArg.value / 2.0);
      r := Ok(ave.value - pipeResistArg.value / 2.0);
    }

    /** Effective resistance under uniform heat flux: total internal, then
        average, then their combination; the short-circuit factor
        1 / (3 R_int) is evaluated before the flow is used. For a positive
        internal resistance it is at least the average resistance. */
    function EffectiveUhfFor(m: Elementary, flow: Option<real>, temp: Option<real>, pipeResistArg: Option<real>)
      : (r: Result<real>)
      ensures r.Ok? ==> AverageFor(m, flow, temp, pipeResistArg).Ok? && TotalInternalFor(m, flow, temp, pipeResistArg).Ok?
      ensures r.Ok? && TotalInternalFor(m, flow, temp, pipeResistArg).value > 0.0 ==>
        r.value >= AverageFor(m, flow, temp, pipeResistArg).value
      ensures TotalInternalFor(m, flow, temp, pipeResistArg).Ok? && AverageFor(m, flow, temp, pipeResistArg).Ok?
        && TotalInternalFor(m, flow, temp, pipeResistArg).value != 0.0 && (flow.None? || temp.None?)
        ==> r == Err(TypeError)
      ensures TotalInternalFor(m, flow, temp, pipeResistArg).Ok? && AverageFor(m, flow, temp, pipeResistArg).Ok?
        && TotalInternalFor(m, flow, temp, pipeResistArg).value == 0.0
        ==> r == Err(ZeroDivisionError)
      ensures r.Ok? ==>
        && flow.Some? && temp.Some?
        && r == UhfCombination(AverageFor(m, flow, temp, pipeResistArg).value,
                               TotalInternalFor(m, flow, temp, pipeResistArg).value,
                               length, pipe.fluid.cp(temp.value), flow.value)
    {
      var resistInternal :- TotalInternalFor(m, flow, temp, pipeResistArg);
      var resistAve :- AverageFor(m, flow, temp, pipeResistArg);
      if resistInternal == 0.0 then Err(ZeroDivisionError)
      else if flow.None? || temp.None? then Err(TypeError)
      else UhfCombination(resistAve, resistInternal, length, pipe.fluid.cp(temp.value), flow.value)
    }

    /** The caches after `calc_effective_bh_resistance_uhf`, from those
        before: nothing changes when the pipe resistance cannot be settled;
        otherwise beta and the pipe resistance are stored, and each later
        cache only once its own value has been computed. */
    function AfterEffectiveUhf(before: Caches, m: Elementary, flow: Option<real>, temp: Option<real>,
                               pipeResistArg: Option<real>): (c: Caches)
      ensures PipeResistFor(m, flow, temp, pipeResistArg).Err? ==> c == before
      ensures c.resistBhGrout == before.resistBhGrout && c.resistBhDirectCoupling == before.resistBhDirectCoupling
      ensures EffectiveUhfFor(m, flow, temp, pipeResistArg).Ok? ==>
        c.resistBhEffective == Some(EffectiveUhfFor(m, flow, temp, pipeResistArg).value)
        && c.resistBhAve == Some(AverageFor(m, flow, temp, pipeResistArg).value)
        && c.resistBhTotalInternal == Some(TotalInternalFor(m, flow, temp, pipeResistArg).value)
    {
      var resist, internal, ave, eff := PipeResistFor(m, flow, temp, pipeResistArg),
        TotalInternalFor(m, flow, temp, pipeResistArg), AverageFor(m, flow, temp, pipeResistArg),
        EffectiveUhfFor(m, flow, temp, pipeResistArg);
      if resist.Err? then before
      else before.(pipeResist := Some(resist.value), beta := Some(Beta(groutConductivity, resist.value)),
                   resistBhTotalInternal := if internal.Ok? then Some(internal.value) else before.resistBhTotalInternal,
                   resistBhAve := if internal.Ok? && ave.Ok? then Some(ave.value) else before.resistBhAve,
                   resistBhEffective := if eff.Ok? then Some(eff.value) else before.resistBhEffective)
    }

    /** `calc_effective_bh_resistance_uhf`. */
    method CalcEffectiveBhResistanceUhf(m: Elementary, flow: Option<real>, temp: Option<real>,
                                        pipeResistArg: Option<real>)
      returns (r: Result<real>)
      modifies this
      ensures r == EffectiveUhfFor(m, flow, temp, pipeResistArg)
      ensures State() == AfterEffectiveUhf(old(State()), m, flow, temp, pipeResistArg)
    {
      var resist := UpdateBeta(m, flow, temp, pipeResistArg);
      if resist.Err? {
        return Err(resist.error);
      }
      var internal := CalcTotalInternalBhResistance(m, flow, temp, pipeResistArg);
      if internal.Err? {
        return internal;
      }
      var ave := CalcAverageBhResistance(m, flow, temp, pipeResistArg);
      if ave.Err? {
        return ave;
      }
      if resistBhTotalInternal.value == 0.0 {
        return Err(ZeroDivisionError);
      }
      if flow.None? || temp.None? {
        return Err(TypeError);
      }
      var effective := UhfCombination(resistBhAve.value, resistBhTotalInternal.value, length,
                                      pipe.fluid.cp(temp.value), flow.value);
      if effective.Err? {
        return effective;
      }
      resistBhEffective := Some(effective.value);
      r := effective;
    }

    /** Direct-coupling resistance and the average resistance, as the pair
        `calc_direct_coupling_resistance` returns: the first component is
        never negative, the second is the average resistance. */
    function DirectCouplingFor(m: Elementary, flow: Option<real>, temp: Option<real>, pipeResistArg: Option<real>)
      : (r: Result<(real, real)>)
      ensures r.Ok? ==> r.value.0 >= 0.0
      ensures r.Ok? ==> AverageFor(m, flow, temp, pipeResistArg) == Ok(r.value.1)
      ensures r.Ok? ==>
        TotalInternalFor(m, flow, temp, pipeResistArg).Ok?
        && DirectCoupling(TotalInternalFor(m, flow, temp, pipeResistArg).value, r.value.1) == Ok(r.value.0)
    {
      var resistA :- TotalInternalFor(m, flow, temp, pipeResistArg);
      var resistB :- AverageFor(m, flow, temp, pipeResistArg);
      var coupling :- DirectCoupling(resistA, resistB);
      Ok((coupling, resistB))
    }

    /** `calc_direct_coupling_resistance`. */
    method CalcDirectCouplingResistance(m: Elementary, flow: Option<real>, temp: Option<real>,
                                        pipeResistArg: Option<real>)
      returns (r: Result<(real, real)>)
      modifies this
      ensures r == DirectCouplingFor(m, flow, temp, pipeResistArg)
      ensures var resist, internal, ave := PipeResistFor(m, flow, temp, pipeResistArg),
                TotalInternalFor(m, flow, temp, pipeResistArg), AverageFor(m, flow, temp, pipeResistArg);
        && (resist.Err? ==> State() == old(State()))
        && (resist.Ok? ==>
              State() == old(State()).(pipeResist := Some(resist.value), beta := Some(Beta(groutConductivity, resist.value)),
                                       resistBhTotalInternal := if internal.Ok? then Some(internal.value) else old(resistBhTotalInternal),
                                       resistBhAve := if internal.Ok? && ave.Ok? then Some(ave.value) else old(resistBhAve),
                                       resistBhDirectCoupling := if r.Ok? then Some(r.value.0) else old(resistBhDirectCoupling)))
    {
      var resistA := CalcTotalInternalBhResistance(m, flow, temp, pipeResistArg);
      if resistA.Err? {
        return Err(resistA.error);
      }
      var resistB := CalcAverageBhResistance(m, flow, temp, pipeResistArg);
      if resistB.Err? {
        return Err(resistB.error);
      }
      var coupling := DirectCoupling(resistA.value, resistB.value);
      if coupling.Err? {
        return Err(coupling.error);
      }
      resistBhDirectCoupling := Some(coupling.value);
      r := Ok((coupling.value, resistB.value));
    }
  }
}
