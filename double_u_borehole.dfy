/**
 * bhr/double_u_borehole.py: a grouted borehole with two U-tubes placed
 * symmetrically, evaluated with the explicit multipole formulas of
 * Claesson and Javed. The constructor validates the inlet arrangement and
 * the shank spacing; `update_b1` overwrites the stored pipe resistance,
 * which the local and internal resistances then read.
 */
module DoubleU {
  import opened PyRuntime
  import opened Elementary
  import opened Utilities
  import opened Pipes

  /** Which pipes carry the inlet flow. */
  datatype Arrangement = Adjacent | Diagonal {
    /** The member name the constructor compares the argument with. */
    function Name(): string {
      match this
      case Adjacent => "ADJACENT"
      case Diagonal => "DIAGONAL"
    }
  }

  /** The arrangement argument must equal a member name exactly; anything
      else, lower case included, is an AssertionError. */
  function ParseArrangement(s: string): (r: Result<Arrangement>)
    ensures r.Ok? <==> s == "ADJACENT" || s == "DIAGONAL"
    ensures r.Err? ==> r.error == AssertionError
    ensures r.Ok? ==> r.value.Name() == s
  {
    if s == Adjacent.Name() then Ok(Adjacent)
    else if s == Diagonal.Name() then Ok(Diagonal)
    else Err(AssertionError)
  }

  /** Every arrangement is accepted under its own name, and the lower-case
      spelling of a name is not. */
  lemma ParseArrangementNames(a: Arrangement)
    ensures ParseArrangement(a.Name()) == Ok(a)
    ensures ParseArrangement("adjacent") == Err(AssertionError)
  {
    assert "adjacent" != "ADJACENT" && "adjacent" != "DIAGONAL" by {
      assert "adjacent"[0] != "ADJACENT"[0] && "adjacent"[0] != "DIAGONAL"[0];
    }
  }

  /** `x ** n` for a float and a non-negative integer exponent. */
  function IntPow(x: real, n: nat): real {
    if n == 0 then 1.0 else x * IntPow(x, n - 1)
  }

  /** A positive base stays positive under an integer power, and a power
      of the larger of two positive bases is the larger. */
  lemma {:induction false} IntPowIncreasing(x: real, y: real, n: nat)
    requires 0.0 < x < y && n > 0
    ensures 0.0 < IntPow(x, n) < IntPow(y, n)
  {
    if n > 1 {
      IntPowIncreasing(x, y, n - 1);
      var a, b := IntPow(x, n - 1), IntPow(y, n - 1);
      assert x * a < y * a;
      assert y * a < y * b;
    }
  }

  /** The constructor's checked geometry; the arrangement is kept apart
      because only the internal resistance reads it. */
  datatype Geometry = Geometry(
    boreholeRadius: real,
    pipeRadius: real,
    pipeCentersRadius: real,  // r_c, distance of each pipe centre from the borehole centre
    sigma: real)

  /** The constructor's validation and derived parameters, in Python's
      order: the arrangement name (AssertionError), sigma (division by
      k_g + k_s), then the chained shank check 2 r_p <= shank <= (2 /
      sqrt 2)(r_b - r_p), whose upper bound is only evaluated when the lower
      one holds. */
  function Validate(m: Elementary, boreholeDiameter: real, pipeOuterDiameter: real, shankSpace: real,
                    arrangement: string, groutConductivity: real, soilConductivity: real)
    : (r: Result<(Geometry, Arrangement)>)
    ensures !(arrangement == "ADJACENT" || arrangement == "DIAGONAL") ==> r == Err(AssertionError)
    ensures ((arrangement == "ADJACENT" || arrangement == "DIAGONAL")
             && groutConductivity + soilConductivity == 0.0)
      ==> r == Err(ZeroDivisionError)
    ensures shankSpace < pipeOuterDiameter ==> r.Err?
    ensures r.Ok? ==> r.value.1.Name() == arrangement
    ensures r.Ok? ==> r.value.0.boreholeRadius * 2.0 == boreholeDiameter && r.value.0.pipeRadius * 2.0 == pipeOuterDiameter
    ensures r.Ok? ==> 2.0 * r.value.0.pipeRadius <= shankSpace
    ensures r.Ok? ==> r.value.0.pipeCentersRadius * 2.0 == shankSpace * m.pow(2.0, 0.5)
    ensures r.Ok? ==>
      r.value.0.sigma * (groutConductivity + soilConductivity) == groutConductivity - soilConductivity
    ensures r.Ok? && PowPositive(m) ==>
      shankSpace * m.pow(2.0, 0.5) <= 2.0 * (r.value.0.boreholeRadius - r.value.0.pipeRadius)
    ensures (PowPositive(m) && (arrangement == "ADJACENT" || arrangement == "DIAGONAL")
             && groutConductivity + soilConductivity != 0.0 && pipeOuterDiameter <= shankSpace
             && shankSpace * m.pow(2.0, 0.5) <= 2.0 * (boreholeDiameter / 2.0 - pipeOuterDiameter / 2.0))
      ==> r.Ok?
  {
    var boreholeRadius := boreholeDiameter / 2.0;
    var pipeRadius := pipeOuterDiameter / 2.0;
    var a :- ParseArrangement(arrangement);
    // 2 ** 0.5 has a positive base, so Python's power is math's pow here
    var sqrt2 := m.pow(2.0, 0.5);
    var pipeCentersRadius := shankSpace * (sqrt2 / 2.0);
    var sigma :- Div(groutConductivity - soilConductivity, groutConductivity + soilConductivity);
    if !(pipeRadius * 2.0 <= shankSpace) then Err(AssertionError)
    else
      var c :- Div(2.0, sqrt2);
      LowerShankBound(shankSpace, sqrt2, c, boreholeRadius - pipeRadius);
      if !(shankSpace <= c * (boreholeRadius - pipeRadius)) then Err(AssertionError)
      else
        UpperShankBound(shankSpace, sqrt2, c, boreholeRadius - pipeRadius);
        Ok((Geometry(boreholeRadius, pipeRadius, pipeCentersRadius, sigma), a))
  }

  /** The converse: the bound stated with sqrt 2 as a factor gives the
      bound the source checks, with 2 / sqrt 2. */
  lemma LowerShankBound(shank: real, s2: real, c: real, gap: real)
    requires c * s2 == 2.0
    ensures s2 > 0.0 && shank * s2 <= 2.0 * gap ==> shank <= c * gap
  {
    if s2 > 0.0 && shank * s2 <= 2.0 * gap {
      assert shank * s2 <= c * s2 * gap;
      assert (shank - c * gap) * s2 <= 0.0;
    }
  }

  lemma UpperShankBound(shank: real, s2: real, c: real, gap: real)
    requires c * s2 == 2.0 && shank <= c * gap
    ensures s2 > 0.0 ==> shank * s2 <= 2.0 * gap
  {
    if s2 > 0.0 {
      assert shank * s2 <= c * gap * s2;
      assert c * gap * s2 == 2.0 * gap;
    }
  }

  /** With the shank check passed, r_c = shank sqrt(2) / 2 lies in (0, r_b -
      r_p], so 0 < r_c < r_b and r_b^8 - r_c^8 > 0. */
  lemma CentersInsideBorehole(m: Elementary, boreholeDiameter: real, pipeOuterDiameter: real, shankSpace: real,
                              arrangement: string, kg: real, ks: real)
    requires PowPositive(m) && pipeOuterDiameter > 0.0
    requires Validate(m, boreholeDiameter, pipeOuterDiameter, shankSpace, arrangement, kg, ks).Ok?
    ensures var g := Validate(m, boreholeDiameter, pipeOuterDiameter, shankSpace, arrangement, kg, ks).value.0;
      && 0.0 < g.pipeCentersRadius <= g.boreholeRadius - g.pipeRadius < g.boreholeRadius
      && IntPow(g.boreholeRadius, 8) - IntPow(g.pipeCentersRadius, 8) > 0.0
  {
    var g := Validate(m, boreholeDiameter, pipeOuterDiameter, shankSpace, arrangement, kg, ks).value.0;
    var s2 := m.pow(2.0, 0.5);
    assert s2 > 0.0;
    assert g.pipeCentersRadius == shankSpace * (s2 / 2.0);
    assert shankSpace > 0.0;
    assert g.pipeCentersRadius * 2.0 == shankSpace * s2;
    assert 0.0 < g.pipeCentersRadius by {
      assert shankSpace * s2 > 0.0;
    }
    IntPowIncreasing(g.pipeCentersRadius, g.boreholeRadius, 8);
  }

  /** The dimensionless multipole parameters p_pc, p_c and p_b. */
  datatype Multipole = Multipole(ppc: real, pc: real, pb: real)

  /** p_pc = r_p^2 / (4 r_c^2), p_c = r_c^2 / (r_b^8 - r_c^8)^(1/4) and
      p_b = r_b^2 / (r_b^8 - r_c^8)^(1/4). */
  function MultipoleParams(m: Elementary, g: Geometry): (r: Result<Multipole>)
    ensures g.pipeCentersRadius == 0.0 ==> r == Err(ZeroDivisionError)
    ensures g.pipeCentersRadius != 0.0 && IntPow(g.boreholeRadius, 8) - IntPow(g.pipeCentersRadius, 8) < 0.0
      ==> r == Err(ComplexValue)
    ensures PowPositive(m) && g.pipeCentersRadius != 0.0 && g.boreholeRadius != 0.0
      && IntPow(g.boreholeRadius, 8) - IntPow(g.pipeCentersRadius, 8) > 0.0
      ==> r.Ok? && r.value.pc > 0.0 && r.value.pb > 0.0 && r.value.ppc >= 0.0
  {
    SquareSign(g.pipeCentersRadius);
    var ppc :- Div(IntPow(g.pipeRadius, 2), 4.0 * IntPow(g.pipeCentersRadius, 2));
    assert !IsInteger(0.25);
    var root :- Pow(m, IntPow(g.boreholeRadius, 8) - IntPow(g.pipeCentersRadius, 8), 0.25);
    var pc :- Div(IntPow(g.pipeCentersRadius, 2), root);
    var pb := IntPow(g.boreholeRadius, 2) / root;  // root != 0 once p_c exists
    MultipoleSigns(g.pipeRadius, g.pipeCentersRadius, g.boreholeRadius, root, ppc, pc, pb);
    Ok(Multipole(ppc, pc, pb))
  }

  lemma MultipoleSigns(rp: real, rc: real, rb: real, root: real, ppc: real, pc: real, pb: real)
    requires ppc * (4.0 * IntPow(rc, 2)) == IntPow(rp, 2)
    requires pc * root == IntPow(rc, 2) && pb * root == IntPow(rb, 2)
    ensures rc != 0.0 && root > 0.0 && rb != 0.0 ==> ppc >= 0.0 && pc > 0.0 && pb > 0.0
  {
    if rc != 0.0 && root > 0.0 && rb != 0.0 {
      SquareSign(rc);
      SquareSign(rb);
      SquareSign(rp);
      PositiveFactor(pc, root, IntPow(rc, 2));
      PositiveFactor(pb, root, IntPow(rb, 2));
      NonNegativeFactor(ppc, 4.0 * IntPow(rc, 2), IntPow(rp, 2));
    }
  }

  /** A square is non-negative, and positive away from zero. */
  lemma SquareSign(x: real)
    ensures IntPow(x, 2) >= 0.0
    ensures x != 0.0 ==> IntPow(x, 2) > 0.0
  {
    var y := IntPow(x, 1);
    assert y == x * IntPow(x, 0);
    assert IntPow(x, 2) == x * y;
    if x < 0.0 {
      assert x * y > 0.0;
    }
  }

  /** For a validated geometry with a positive pipe diameter the roots and
      divisions of the multipole parameters are all defined. */
  lemma MultipoleParamsDefined(m: Elementary, boreholeDiameter: real, pipeOuterDiameter: real, shankSpace: real,
                               arrangement: string, kg: real, ks: real)
    requires PowPositive(m) && pipeOuterDiameter > 0.0
    requires Validate(m, boreholeDiameter, pipeOuterDiameter, shankSpace, arrangement, kg, ks).Ok?
    ensures var g := Validate(m, boreholeDiameter, pipeOuterDiameter, shankSpace, arrangement, kg, ks).value.0;
      MultipoleParams(m, g).Ok? && MultipoleParams(m, g).value.pc > 0.0 && MultipoleParams(m, g).value.pb > 0.0
  {
    CentersInsideBorehole(m, boreholeDiameter, pipeOuterDiameter, shankSpace, arrangement, kg, ks);
  }

  /** b1 = (1 - beta) / (1 + beta) with beta = 2 pi k_g R_p: for a
      non-negative pipe resistance and positive grout conductivity it lies
      in (-1, 1], and is 1 exactly when the pipe resistance is zero. */
  function B1(groutConductivity: real, pipeResist: real): (r: Result<real>)
    ensures groutConductivity > 0.0 && pipeResist >= 0.0 ==> r.Ok? && -1.0 < r.value <= 1.0
    ensures groutConductivity > 0.0 && pipeResist >= 0.0 ==> (r.value == 1.0 <==> pipeResist == 0.0)
    ensures r.Ok? ==>
      r.value * (1.0 + 2.0 * Pi * groutConductivity * pipeResist) == 1.0 - 2.0 * Pi * groutConductivity * pipeResist
  {
    var beta := 2.0 * Pi * groutConductivity * pipeResist;
    B1Range(groutConductivity, pipeResist, beta);
    Div(1.0 - beta, 1.0 + beta)
  }

  lemma B1Range(kg: real, rp: real, beta: real)
    requires beta == 2.0 * Pi * kg * rp
    ensures kg > 0.0 && rp >= 0.0 ==>
      1.0 + beta > 0.0 && -1.0 < (1.0 - beta) / (1.0 + beta) <= 1.0
      && ((1.0 - beta) / (1.0 + beta) == 1.0 <==> rp == 0.0)
  {
    if kg > 0.0 && rp >= 0.0 {
      assert beta == (2.0 * Pi * kg) * rp;
      assert beta >= 0.0;
      assert (beta == 0.0 <==> rp == 0.0);
      UnitRatio(beta);
    }
  }

  lemma UnitRatio(beta: real)
    requires beta >= 0.0
    ensures -1.0 < (1.0 - beta) / (1.0 + beta) <= 1.0
    ensures (1.0 - beta) / (1.0 + beta) == 1.0 <==> beta == 0.0
  {
    var q := (1.0 - beta) / (1.0 + beta);
    assert q * (1.0 + beta) == 1.0 - beta;
    if q <= -1.0 {
      assert false;
    }
    if q > 1.0 {
      assert false;
    }
    if q == 1.0 {
      assert beta == 0.0;
    }
  }

  /** Equations 13 and 14: the local (tube-to-borehole) resistance, zeroth
      order plus the first-order multipole correction. It takes no
      arrangement: only the internal resistance depends on it. */
  function LocalResistance(m: Elementary, g: Geometry, mp: Multipole, groutConductivity: real,
                           pipeResist: real, b1: real): (r: Result<real>)
    ensures groutConductivity == 0.0 ==> r.Err?
  {
    var c :- Div(1.0, 8.0 * Pi * groutConductivity);
    var q1 :- Div(IntPow(g.boreholeRadius, 4), 4.0 * g.pipeRadius * IntPow(g.pipeCentersRadius, 3));
    var l1 :- Log(m, q1);
    var q2 :- Div(IntPow(g.boreholeRadius, 8), IntPow(g.boreholeRadius, 8) - IntPow(g.pipeCentersRadius, 8));
    var l2 :- Log(m, q2);
    var rb0 := pipeResist / 4.0 + c * (l1 + g.sigma * l2);
    var v := 3.0 - 8.0 * g.sigma * IntPow(mp.pc, 4);
    var correction :- Div(c * (b1 * mp.ppc * (v * v)),
                          1.0 + b1 * mp.ppc * (5.0 + 64.0 * g.sigma * IntPow(mp.pc, 4) * IntPow(mp.pb, 4)));
    Ok(rb0 - correction)
  }

  /** Equations 18 and 19: internal resistance with the inlets on a
      diagonal. */
  function InternalDiagonal(m: Elementary, g: Geometry, mp: Multipole, twoPiKg: real, c1: real,
                            pipeResist: real, b1: real): (r: Result<real>)
    ensures twoPiKg == 0.0 ==> r == Err(ZeroDivisionError)
  {
    var c2 := IntPow(g.boreholeRadius, 4) + IntPow(g.pipeCentersRadius, 4);
    var c3 := IntPow(g.boreholeRadius, 4) - IntPow(g.pipeCentersRadius, 4);
    var k :- Div(2.0, twoPiKg);
    var l1 :- Log(m, c1);
    var q :- Div(c2, c3);
    var l2 :- Log(m, q);
    var ra0 := 2.0 * pipeResist + k * (l1 + g.sigma * l2);
    var w := 1.0 + 8.0 * g.sigma * IntPow(mp.pc, 2) * IntPow(mp.pb, 2);
    var correction :- Div(k * (b1 * mp.ppc * (w * w)),
                          1.0 - b1 * mp.ppc * (3.0 - 32.0 * g.sigma * (IntPow(mp.pc, 2) * IntPow(mp.pb, 6)
                                                                      + IntPow(mp.pc, 6) * IntPow(mp.pb, 2))));
    Ok(ra0 - correction)
  }

  /** Equations 22 and 23: internal resistance with adjacent inlets, a
      two-by-two system solved in closed form. */
  function InternalAdjacent(m: Elementary, g: Geometry, mp: Multipole, twoPiKg: real, c1: real,
                            pipeResist: real, b1: real): (r: Result<real>)
    ensures twoPiKg == 0.0 ==> r == Err(ZeroDivisionError)
  {
    var d2 := IntPow(g.boreholeRadius, 2) + IntPow(g.pipeCentersRadius, 2);
    var d3 := IntPow(g.boreholeRadius, 2) - IntPow(g.pipeCentersRadius, 2);
    var k :- Div(2.0, twoPiKg);
    var l1 :- Log(m, 2.0 * c1);
    var q :- Div(d2, d3);
    var l2 :- Log(m, q);
    var ra0 := 2.0 * pipeResist + k * (l1 + g.sigma * l2);
    var pc, pb := mp.pc, mp.pb;
    var m11 := 1.0 + 16.0 * b1 * g.sigma * mp.ppc * (3.0 * IntPow(pc, 3) * IntPow(pb, 5) + IntPow(pc, 7) * pb);
    var m22 := -1.0 - 16.0 * b1 * g.sigma * mp.ppc * (pc * IntPow(pb, 7) + 3.0 * IntPow(pc, 5) * IntPow(pb, 3));
    var m21 := b1 * mp.ppc;
    var v1 := 1.0 - 8.0 * g.sigma * IntPow(pc, 3) * pb;
    var v2 := 3.0 + 8.0 * g.sigma * pc * IntPow(pb, 3);
    var correction :- Div(k * b1 * mp.ppc / 2.0 * (v2 * v2 * m11 - 2.0 * v1 * v2 * m21 - v1 * v1 * m22),
                          m11 * m22 + m21 * m21);
    Ok(ra0 + correction)
  }

  /** Internal resistance: c_1 = r_c / r_p, then the closed form of the
      stored arrangement. The arrangement type has only the two members
      the constructor accepts, so the source's final `raise` cannot be
      reached. */
  function InternalResistance(m: Elementary, g: Geometry, arrangement: Arrangement, mp: Multipole,
                              groutConductivity: real, pipeResist: real, b1: real): (r: Result<real>)
    ensures g.pipeRadius == 0.0 ==> r == Err(ZeroDivisionError)
    ensures g.pipeRadius != 0.0 && arrangement == Diagonal ==>
      r == InternalDiagonal(m, g, mp, 2.0 * Pi * groutConductivity, g.pipeCentersRadius / g.pipeRadius, pipeResist, b1)
    ensures g.pipeRadius != 0.0 && arrangement == Adjacent ==>
      r == InternalAdjacent(m, g, mp, 2.0 * Pi * groutConductivity, g.pipeCentersRadius / g.pipeRadius, pipeResist, b1)
  {
    var twoPiKg := 2.0 * Pi * groutConductivity;
    var c1 :- Div(g.pipeCentersRadius, g.pipeRadius);
    match arrangement
    case Diagonal => InternalDiagonal(m, g, mp, twoPiKg, c1, pipeResist, b1)
    case Adjacent => InternalAdjacent(m, g, mp, twoPiKg, c1, pipeResist, b1)
  }

  /** Uniform heat flux: R_local + Rv^2 / (6 R_int) with Rv = L / (cp
      m_dot). The short-circuit term times 6 R_int (cp m_dot)^2 is L^2, so
      for a positive internal resistance the result is at least R_local. */
  function UhfCombination(resistLocal: real, resistInternal: real, length: real, cp: real, flow: real)
    : (r: Result<real>)
    ensures r.Ok? <==> cp * flow != 0.0 && resistInternal != 0.0
    ensures r.Err? ==> r.error == ZeroDivisionError
    ensures r.Ok? ==>
      (r.value - resistLocal) * (6.0 * resistInternal) * ((cp * flow) * (cp * flow)) == length * length
    ensures r.Ok? && resistInternal > 0.0 ==> r.value >= resistLocal
  {
    var rv :- Div(length, cp * flow);
    var term :- Div(rv * rv, 6.0 * resistInternal);
    UhfTerm(rv, term, resistInternal, length, cp * flow);
    Ok(resistLocal + term)
  }

  lemma UhfTerm(rv: real, term: real, rInt: real, length: real, d: real)
    requires rv * d == length && term * (6.0 * rInt) == rv * rv
    ensures term * (6.0 * rInt) * (d * d) == length * length
    ensures rInt > 0.0 ==> term >= 0.0
  {
    calc {
      term * (6.0 * rInt) * (d * d);
      (rv * d) * (rv * d);
      length * length;
    }
    if rInt > 0.0 {
      NonNegativeFactor(term, 6.0 * rInt, rv * rv);
    }
  }

  /** The dimensionless wall-temperature parameter eta = Rv / (2 R_local
      R_int)^(1/2) with Rv = L / (m_dot cp). Zero flow·cp divides by zero;
      a negative product R_local R_int has no real root, a zero one divides
      by zero; positive resistances, length and flow give a positive eta. */
  function UbwtEta(m: Elementary, resistLocal: real, resistInternal: real, length: real,
                   cp: real, flow: real): (r: Result<real>)
    ensures flow * cp == 0.0 ==> r == Err(ZeroDivisionError)
    ensures flow * cp != 0.0 && resistLocal * resistInternal < 0.0 ==> r == Err(ComplexValue)
    ensures flow * cp != 0.0 && resistLocal * resistInternal == 0.0 ==> r == Err(ZeroDivisionError)
    ensures r.Ok? ==> r.value * m.pow(2.0 * resistLocal * resistInternal, 0.5) * (flow * cp) == length
    ensures (PowPositive(m) && resistLocal > 0.0 && resistInternal > 0.0 && length > 0.0 && flow * cp > 0.0)
      ==> r.Ok? && r.value > 0.0
  {
    var rv :- Div(length, flow * cp);
    var root :- Pow(m, 2.0 * resistLocal * resistInternal, 0.5);
    EtaPositive(m, resistLocal, resistInternal, length, flow * cp, rv, root);
    Div(rv, root)
  }

  lemma EtaPositive(m: Elementary, rl: real, ri: real, length: real, d: real, rv: real, root: real)
    requires rv * d == length && Pow(m, 2.0 * rl * ri, 0.5) == Ok(root)
    ensures PowPositive(m) && rl > 0.0 && ri > 0.0 && length > 0.0 && d > 0.0
      ==> rv > 0.0 && root > 0.0 && rv / root > 0.0
  {
    if PowPositive(m) && rl > 0.0 && ri > 0.0 && length > 0.0 && d > 0.0 {
      assert 2.0 * rl * ri > 0.0;
      assert root > 0.0;
      PositiveFactor(rv, d, length);
    }
  }

  /** Uniform borehole wall temperature: R_local eta coth(eta). The error
      cases are those of eta; for positive resistances, length and flow the
      result exceeds R_local, because eta coth(eta) > 1. */
  function UbwtCombination(m: Elementary, resistLocal: real, resistInternal: real, length: real,
                           cp: real, flow: real): (r: Result<real>)
    ensures flow * cp == 0.0 ==> r == Err(ZeroDivisionError)
    ensures flow * cp != 0.0 && resistLocal * resistInternal < 0.0 ==> r == Err(ComplexValue)
    ensures flow * cp != 0.0 && resistLocal * resistInternal == 0.0 ==> r == Err(ZeroDivisionError)
    ensures (HyperbolicLaws(m) && PowPositive(m) && resistLocal > 0.0 && resistInternal > 0.0
             && length > 0.0 && flow * cp > 0.0)
      ==> r.Ok? && r.value > resistLocal
  {
    var eta :- UbwtEta(m, resistLocal, resistInternal, length, cp, flow);
    var coth :- Coth(m, eta);
    UbwtAboveLocal(m, resistLocal, eta, coth);
    Ok(resistLocal * eta * coth)
  }

  lemma UbwtAboveLocal(m: Elementary, rl: real, eta: real, coth: real)
    requires Coth(m, eta) == Ok(coth)
    ensures HyperbolicLaws(m) && rl > 0.0 && eta > 0.0 ==> rl * eta * coth > rl
  {
    if HyperbolicLaws(m) && rl > 0.0 && eta > 0.0 {
      CothScaledAboveOne(m, eta, coth);
      ScaleAboveOne(rl, eta, coth);
    }
  }

  lemma PositiveFactor(x: real, d: real, p: real)
    requires d > 0.0 && p > 0.0 && x * d == p
    ensures x > 0.0
  {
    if x <= 0.0 {
      assert false;
    }
  }

  lemma NonNegativeFactor(x: real, d: real, p: real)
    requires d > 0.0 && p >= 0.0 && x * d == p
    ensures x >= 0.0
  {
    if x < 0.0 {
      assert false;
    }
  }

  lemma ScaleAboveOne(r: real, e: real, c: real)
    requires r > 0.0 && e * c > 1.0
    ensures r * e * c > r
  {
    assert r * e * c == r * (e * c);
  }

  /** The UWT formula as the repository writes it: `coth` raises
      NameError, so the combination fails wherever it gets that far. */
  function UbwtCombinationAsWritten(m: Elementary, resistLocal: real, resistInternal: real, length: real,
                                    cp: real, flow: real): (r: Result<real>)
    ensures r.Err?
  {
    var eta :- UbwtEta(m, resistLocal, resistInternal, length, cp, flow);
    var coth := CothAsWritten(eta);
    Err(coth.error)
  }

  /** For the same positive inputs the corrected combination yields a
      value while the written one raises NameError. */
  lemma UbwtAsWrittenRaises(m: Elementary, resistLocal: real, resistInternal: real, length: real,
                            cp: real, flow: real)
    requires HyperbolicLaws(m) && PowPositive(m)
    requires resistLocal > 0.0 && resistInternal > 0.0 && length > 0.0 && flow * cp > 0.0
    ensures UbwtCombination(m, resistLocal, resistInternal, length, cp, flow).Ok?
    ensures UbwtCombinationAsWritten(m, resistLocal, resistInternal, length, cp, flow) == Err(NameError)
  { }

  class DoubleUTube {
    /** The U-tubes' pipe; its length is twice the borehole length. */
    const pipe: Pipe
    const boreholeRadius: real
    const pipeRadius: real
    const arrangement: Arrangement
    const bhLength: real
    const groutConductivity: real
    const soilConductivity: real
    const pipeCentersRadius: real
    const sigma: real

    var pipeResist: Option<real>

    function Geom(): Geometry {
      Geometry(boreholeRadius, pipeRadius, pipeCentersRadius, sigma)
    }

    constructor (pipe: Pipe, length: real, groutConductivity: real, soilConductivity: real, g: Geometry,
                 arrangement: Arrangement)
      ensures this.pipe == pipe && bhLength == length
      ensures this.groutConductivity == groutConductivity && this.soilConductivity == soilConductivity
      ensures Geom() == g && this.arrangement == arrangement && pipeResist == None
    {
      this.pipe := pipe;
      bhLength := length;
      this.groutConductivity := groutConductivity;
      this.soilConductivity := soilConductivity;
      boreholeRadius := g.boreholeRadius;
      pipeRadius := g.pipeRadius;
      pipeCentersRadius := g.pipeCentersRadius;
      sigma := g.sigma;
      this.arrangement := arrangement;
      pipeResist := None;
    }

    /** Python's `DoubleUTube(...)` for an already built U-tube pipe:
        raises where `Validate` does. */
    static method Create(m: Elementary, pipe: Pipe, boreholeDiameter: real, pipeOuterDiameter: real, length: real,
                         shankSpace: real, arrangement: string, groutConductivity: real, soilConductivity: real)
      returns (r: Result<DoubleUTube>)
      ensures var g := Validate(m, boreholeDiameter, pipeOuterDiameter, shankSpace, arrangement,
                                groutConductivity, soilConductivity);
        && (r.Ok? <==> g.Ok?)
        && (r.Err? ==> r.error == g.error)
        && (r.Ok? ==> fresh(r.value) && r.value.Geom() == g.value.0 && r.value.arrangement == g.value.1
                      && r.value.pipeResist == None
                      && r.value.pipe == pipe && r.value.bhLength == length
                      && r.value.groutConductivity == groutConductivity)
    {
      var g := Validate(m, boreholeDiameter, pipeOuterDiameter, shankSpace, arrangement,
                        groutConductivity, soilConductivity);
      if g.Err? {
        return Err(g.error);
      }
      var t := new DoubleUTube(pipe, length, groutConductivity, soilConductivity, g.value.0, g.value.1);
      return Ok(t);
    }

    /** The stored pipe resistance after any of the `calc_*` methods: the
        pipe's resistance when it could be computed, otherwise unchanged. */
    function PipeResistAfter(before: Option<real>, m: Elementary, flow: real, temp: real): (p: Option<real>)
      ensures pipe.Resist(m, flow, temp).Err? ==> p == before
      ensures pipe.Resist(m, flow, temp).Ok? ==> p == Some(pipe.Resist(m, flow, temp).value)
    {
      var resist := pipe.Resist(m, flow, temp);
      if resist.Ok? then Some(resist.value) else before
    }

    /** b1 at the pipe resistance for the given flow and temperature. */
    function B1For(m: Elementary, flow: real, temp: real): (r: Result<real>)
      ensures pipe.Resist(m, flow, temp).Err? ==> r == pipe.Resist(m, flow, temp)
      ensures pipe.Resist(m, flow, temp).Ok? ==> r == B1(groutConductivity, pipe.Resist(m, flow, temp).value)
    {
      var resist :- pipe.Resist(m, flow, temp);
      B1(groutConductivity, resist)
    }

    /** `update_b1`: stores the pipe resistance, then returns b1; the
        stored value changes even when b1 itself divides by zero. */
    method UpdateB1(m: Elementary, flow: real, temp: real) returns (r: Result<real>)
      modifies this
      ensures r == B1For(m, flow, temp)
      ensures pipeResist == PipeResistAfter(old(pipeResist), m, flow, temp)
    {
      var resist := pipe.Resist(m, flow, temp);
      if resist.Err? {
        return Err(resist.error);
      }
      pipeResist := Some(resist.value);
      r := B1(groutConductivity, resist.value);
    }

    function LocalFor(m: Elementary, flow: real, temp: real): (r: Result<real>)
      ensures B1For(m, flow, temp).Err? ==> r == B1For(m, flow, temp)
      ensures groutConductivity == 0.0 ==> r.Err?
    {
      var resist :- pipe.Resist(m, flow, temp);
      var b1 :- B1(groutConductivity, resist);
      var mp :- MultipoleParams(m, Geom());
      LocalResistance(m, Geom(), mp, groutConductivity, resist, b1)
    }

    function InternalFor(m: Elementary, flow: real, temp: real): (r: Result<real>)
      ensures B1For(m, flow, temp).Err? ==> r == B1For(m, flow, temp)
      ensures groutConductivity == 0.0 ==> r.Err?
    {
      var resist :- pipe.Resist(m, flow, temp);
      var b1 :- B1(groutConductivity, resist);
      var mp :- MultipoleParams(m, Geom());
      InternalResistance(m, Geom(), arrangement, mp, groutConductivity, resist, b1)
    }

    /** `calc_bh_resist_local`: b1 first, then the multipole parameters and
        the local resistance at the pipe resistance just stored. */
    method CalcBhResistLocal(m: Elementary, flow: real, temp: real) returns (r: Result<real>)
      modifies this
      ensures r == LocalFor(m, flow, temp)
      ensures pipeResist == PipeResistAfter(old(pipeResist), m, flow, temp)
    {
      var b1 := UpdateB1(m, flow, temp);
      if b1.Err? {
        return b1;
      }
      var mp := MultipoleParams(m, Geom());
      if mp.Err? {
        return Err(mp.error);
      }
      r := LocalResistance(m, Geom(), mp.value, groutConductivity, pipeResist.value, b1.value);
    }

    /** `calc_internal_resist`. */
    method CalcInternalResist(m: Elementary, flow: real, temp: real) returns (r: Result<real>)
      modifies this
      ensures r == InternalFor(m, flow, temp)
      ensures pipeResist == PipeResistAfter(old(pipeResist), m, flow, temp)
    {
      var b1 := UpdateB1(m, flow, temp);
      if b1.Err? {
        return b1;
      }
      var mp := MultipoleParams(m, Geom());
      if mp.Err? {
        return Err(mp.error);
      }
      r := InternalResistance(m, Geom(), arrangement, mp.value, groutConductivity, pipeResist.value, b1.value);
    }

    /** Uniform heat flux: internal, then local, then their combination;
        at least the local resistance when the internal one is positive. */
    function EffectiveUhfFor(m: Elementary, flow: real, temp: real): (r: Result<real>)
      ensures r.Ok? ==> InternalFor(m, flow, temp).Ok? && LocalFor(m, flow, temp).Ok?
      ensures r.Ok? && InternalFor(m, flow, temp).value > 0.0 ==> r.value >= LocalFor(m, flow, temp).value
      ensures InternalFor(m, flow, temp).Ok? && LocalFor(m, flow, temp).Ok? ==>
        r == UhfCombination(LocalFor(m, flow, temp).value, InternalFor(m, flow, temp).value,
                            bhLength, pipe.fluid.cp(temp), flow)
    {
      var internal :- InternalFor(m, flow, temp);
      var local :- LocalFor(m, flow, temp);
      UhfCombination(local, internal, bhLength, pipe.fluid.cp(temp), flow)
    }

    /** `calc_effective_bh_resistance_uhf`. */
    method CalcEffectiveBhResistanceUhf(m: Elementary, flow: real, temp: real) returns (r: Result<real>)
      modifies this
      ensures r == EffectiveUhfFor(m, flow, temp)
      ensures pipeResist == PipeResistAfter(old(pipeResist), m, flow, temp)
    {
      var internal := CalcInternalResist(m, flow, temp);
      if internal.Err? {
        return internal;
      }
      var local := CalcBhResistLocal(m, flow, temp);
      if local.Err? {
        return local;
      }
      r := UhfCombination(local.value, internal.value, bhLength, pipe.fluid.cp(temp), flow);
    }

    /** Uniform borehole wall temperature, with coth taken from cosh and
        sinh: above the local resistance when both resistances, the length
        and the flow are positive. */
    function EffectiveUbwtFor(m: Elementary, flow: real, temp: real): (r: Result<real>)
      ensures r.Ok? ==> InternalFor(m, flow, temp).Ok? && LocalFor(m, flow, temp).Ok?
      ensures HyperbolicLaws(m) && PowPositive(m) && bhLength > 0.0 && flow * pipe.fluid.cp(temp) > 0.0
        && InternalFor(m, flow, temp).Ok? && InternalFor(m, flow, temp).value > 0.0
        && LocalFor(m, flow, temp).Ok? && LocalFor(m, flow, temp).value > 0.0
        ==> r.Ok? && r.value > LocalFor(m, flow, temp).value
      ensures InternalFor(m, flow, temp).Ok? && LocalFor(m, flow, temp).Ok? ==>
        r == UbwtCombination(m, LocalFor(m, flow, temp).value, InternalFor(m, flow, temp).value,
                             bhLength, pipe.fluid.cp(temp), flow)
    {
      var internal :- InternalFor(m, flow, temp);
      var local :- LocalFor(m, flow, temp);
      UbwtCombination(m, local, internal, bhLength, pipe.fluid.cp(temp), flow)
    }

    /** `calc_effective_bh_resistance_ubwt`. */
    method CalcEffectiveBhResistanceUbwt(m: Elementary, flow: real, temp: real) returns (r: Result<real>)
      modifies this
      ensures r == EffectiveUbwtFor(m, flow, temp)
      ensures pipeResist == PipeResistAfter(old(pipeResist), m, flow, temp)
    {
      var internal := CalcInternalResist(m, flow, temp);
      if internal.Err? {
        return internal;
      }
      var local := CalcBhResistLocal(m, flow, temp);
      if local.Err? {
        return local;
      }
      r := UbwtCombination(m, local.value, internal.value, bhLength, pipe.fluid.cp(temp), flow);
    }
  }
}
