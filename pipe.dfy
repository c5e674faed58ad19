/**
 * bhr/pipe.py: a circular pipe carrying the working fluid. The constructor
 * settles the diameters, length and wall conductivity from an input
 * dictionary and derives radii, areas and volumes from them; the remaining
 * operations convert mass flow, pick a flow regime by Reynolds number and
 * compute friction factor, pressure loss and thermal resistance.
 */
module Pipes {
  import opened PyRuntime
  import opened Elementary
  import opened Fluids
  import opened Utilities

  /** The keys of the pipe's input dictionary that the constructor reads;
      `None` is a missing key. The fluid keys are resolved by the caller into
      a `Fluid`. */
  datatype PipeInputs = PipeInputs(
    dimensionRatio: Option<real>,
    nominalPipeDiameterInch: Option<real>,
    actualPipeOuterDiameterMeter: Option<real>,
    length: Option<real>,
    conductivity: Option<real>)

  /** The primary dimensions the constructor settles before deriving the rest. */
  datatype Dimensions = Dimensions(
    dimensionRatio: real,  // outer diameter over wall thickness
    innerDiameter: real,   // m
    outerDiameter: real,   // m
    length: real,          // m
    conductivity: real)    // W/(m K)

  const DefaultDimensionRatio: real := 11.0
  const DefaultConductivity: real := 0.4

  /** Inner diameter outer * (1 - 2 / ratio): the wall, counted twice, is
      the outer diameter divided by the dimension ratio. */
  function InnerDiameter(outer: real, dimensionRatio: real): (r: Result<real>)
    ensures r.Ok? <==> dimensionRatio != 0.0
    ensures r.Err? ==> r.error == ZeroDivisionError
    ensures r.Ok? ==> (outer - r.value) * dimensionRatio == 2.0 * outer
  {
    var q :- Div(2.0, dimensionRatio);
    assert (outer - outer * (1.0 - q)) * dimensionRatio == outer * (q * dimensionRatio);
    Ok(outer * (1.0 - q))
  }

  /** For a positive outer diameter and a ratio above two the inner
      diameter lies strictly between zero and the outer diameter. */
  lemma InnerDiameterBetween(outer: real, dimensionRatio: real)
    requires outer > 0.0 && dimensionRatio > 2.0
    ensures InnerDiameter(outer, dimensionRatio).Ok?
    ensures 0.0 < InnerDiameter(outer, dimensionRatio).value < outer
  {
    var q := 2.0 / dimensionRatio;
    assert 0.0 < q < 1.0 by {
      DivideByPositive(0.0, 2.0, dimensionRatio);
      DivideByPositive(2.0, dimensionRatio, dimensionRatio);
    }
    assert InnerDiameter(outer, dimensionRatio).value == outer * (1.0 - q);
    assert 0.0 < outer * (1.0 - q) < outer by {
      ProductBelow(outer, 1.0 - q);
    }
  }

  lemma ProductBelow(x: real, y: real)
    requires x > 0.0 && 0.0 < y < 1.0
    ensures 0.0 < x * y < x
  {
  }

  /** The nominal pipe sizes, in inches, that the imperial lookup knows. */
  predicate IsNominalSize(nps: real) {
    nps in {0.75, 1.0, 1.25, 1.5, 2.0, 3.0, 4.0, 6.0, 8.0}
  }

  /** Outer diameter, in inches, of a nominal pipe size; any other size is
      a ValueError. The outer diameter always exceeds the nominal size. */
  function NominalOuterDiameterInch(nps: real): (r: Result<real>)
    ensures r.Ok? <==> IsNominalSize(nps)
    ensures r.Err? ==> r.error == ValueError
    ensures r.Ok? ==> nps < r.value
  {
    if nps == 0.75 then Ok(1.05)
    else if nps == 1.0 then Ok(1.315)
    else if nps == 1.25 then Ok(1.66)
    else if nps == 1.5 then Ok(1.9)
    else if nps == 2.0 then Ok(2.375)
    else if nps == 3.0 then Ok(3.5)
    else if nps == 4.0 then Ok(4.5)
    else if nps == 6.0 then Ok(6.625)
    else if nps == 8.0 then Ok(8.625)
    else Err(ValueError)
  }

  /** (inner, outer) diameters in metres for a nominal size; the ratio of
      outer diameter to wall survives the unit conversion. */
  function ImperialDiameters(nps: real, dimensionRatio: real): (r: Result<(real, real)>)
    ensures r.Ok? <==> IsNominalSize(nps) && dimensionRatio != 0.0
    ensures !IsNominalSize(nps) ==> r == Err(ValueError)
    ensures IsNominalSize(nps) && dimensionRatio == 0.0 ==> r == Err(ZeroDivisionError)
    ensures r.Ok? ==> r.value.1 == InchToM(NominalOuterDiameterInch(nps).value)
    ensures r.Ok? ==> (r.value.1 - r.value.0) * dimensionRatio == 2.0 * r.value.1
    ensures r.Ok? && dimensionRatio > 2.0 ==> 0.0 < r.value.0 < r.value.1
  {
    var outer :- NominalOuterDiameterInch(nps);
    var inner :- InnerDiameter(outer, dimensionRatio);
    InnerDiameterBetweenIfAboveTwo(outer, dimensionRatio);
    assert (InchToM(outer) - InchToM(inner)) * dimensionRatio == InchToM((outer - inner) * dimensionRatio);
    Ok((InchToM(inner), InchToM(outer)))
  }

  lemma InnerDiameterBetweenIfAboveTwo(outer: real, dimensionRatio: real)
    requires outer > 0.0
    ensures dimensionRatio > 2.0 ==>
      InnerDiameter(outer, dimensionRatio).Ok? && 0.0 < InnerDiameter(outer, dimensionRatio).value < outer
  {
    if dimensionRatio > 2.0 {
      InnerDiameterBetween(outer, dimensionRatio);
    }
  }

  /** The dimensions the constructor settles, with Python's order of
      failures: a bad nominal size or a zero ratio first, then a missing
      length (KeyError), and last a dictionary with neither diameter key,
      where the inner diameter is read before it was ever set
      (AttributeError). */
  function PipeDimensions(inputs: PipeInputs): (r: Result<Dimensions>)
    ensures inputs.nominalPipeDiameterInch.Some? && !IsNominalSize(inputs.nominalPipeDiameterInch.value)
      ==> r == Err(ValueError)
    ensures inputs.dimensionRatio == Some(0.0)
      && (inputs.nominalPipeDiameterInch.Some? ==> IsNominalSize(inputs.nominalPipeDiameterInch.value))
      && (inputs.nominalPipeDiameterInch.Some? || inputs.actualPipeOuterDiameterMeter.Some?)
      ==> r == Err(ZeroDivisionError)
    ensures inputs.nominalPipeDiameterInch.None? && inputs.actualPipeOuterDiameterMeter.None?
      ==> r == Err(if inputs.length.None? then KeyError else AttributeError)
    ensures r.Err? && inputs.length.Some? && inputs.dimensionRatio != Some(0.0)
      && (inputs.nominalPipeDiameterInch.Some? ==> IsNominalSize(inputs.nominalPipeDiameterInch.value))
      ==> r.error == AttributeError
    ensures r.Ok? ==> Some(r.value.length) == inputs.length
    ensures r.Ok? ==>
      r.value.dimensionRatio == (if inputs.dimensionRatio.Some? then inputs.dimensionRatio.value else DefaultDimensionRatio)
    ensures r.Ok? ==>
      r.value.conductivity == (if inputs.conductivity.Some? then inputs.conductivity.value else DefaultConductivity)
    ensures r.Ok? && inputs.nominalPipeDiameterInch.None?
      ==> Some(r.value.outerDiameter) == inputs.actualPipeOuterDiameterMeter
    ensures r.Ok? ==>
      (r.value.outerDiameter - r.value.innerDiameter) * r.value.dimensionRatio == 2.0 * r.value.outerDiameter
  {
    var dimensionRatio := if inputs.dimensionRatio.Some? then inputs.dimensionRatio.value else DefaultDimensionRatio;
    var diameters :-
      if inputs.nominalPipeDiameterInch.Some? then
        var d :- ImperialDiameters(inputs.nominalPipeDiameterInch.value, dimensionRatio);
        Ok(Some(d))
      else if inputs.actualPipeOuterDiameterMeter.Some? then
        var outer := inputs.actualPipeOuterDiameterMeter.value;
        var inner :- InnerDiameter(outer, dimensionRatio);
        Ok(Some((inner, outer)))
      else
        Ok(None);
    if inputs.length.None? then Err(KeyError)
    else if diameters.None? then Err(AttributeError)
    else
      var conductivity := if inputs.conductivity.Some? then inputs.conductivity.value else DefaultConductivity;
      Ok(Dimensions(dimensionRatio, diameters.value.0, diameters.value.1, inputs.length.value, conductivity))
  }

  /** The convex combination (1 - s) * low + s * high used to blend the
      laminar and turbulent values of a quantity: for a weight in [0, 1] it
      lies between the two. */
  function Blend(s: real, low: real, high: real): (r: real)
    ensures 0.0 <= s <= 1.0 ==> Min(low, high) <= r <= Max(low, high)
    ensures s == 0.0 ==> r == low
    ensures s == 1.0 ==> r == high
  {
    if 0.0 <= s <= 1.0 then
      ScaleSplit(s, low);
      ScaleSplit(s, high);
      ScaleMonotone(s, low, high);
      ScaleMonotone(1.0 - s, low, high);
      Scale(1.0 - s, low) + Scale(s, high)
    else
      Scale(1.0 - s, low) + Scale(s, high)
  }

  /** The product a * x, named so that the blend's bounds follow linearly
      from the two facts below. */
  function Scale(a: real, x: real): real {
    a * x
  }

  /** A value splits into its two weighted parts. */
  lemma ScaleSplit(s: real, x: real)
    ensures Scale(1.0 - s, x) + Scale(s, x) == x
  {
  }

  /** A non-negative weight keeps the order of two values. */
  lemma ScaleMonotone(a: real, x: real, y: real)
    requires a >= 0.0
    ensures x <= y ==> Scale(a, x) <= Scale(a, y)
    ensures y <= x ==> Scale(a, y) <= Scale(a, x)
  {
  }

  function Min(x: real, y: real): real { if x <= y then x else y }
  function Max(x: real, y: real): real { if x <= y then y else x }

  /** Laminar friction factor 64 / Re; undefined at Re = 0. */
  function LaminarFrictionFactor(re: real): (r: Result<real>)
    ensures r.Ok? <==> re != 0.0
    ensures r.Err? ==> r.error == ZeroDivisionError
    ensures r.Ok? ==> r.value * re == 64.0
  {
    Div(64.0, re)
  }

  /** Petukhov's turbulent friction factor (0.79 ln Re - 1.64) ** -2.0. A
      float raised to the integral power -2.0 is 1 / b^2, so it is positive
      wherever it is defined, and zero to that power is a division by zero. */
  function TurbulentFrictionFactor(m: Elementary, re: real): (r: Result<real>)
    ensures r.Ok? <==> re > 0.0 && 0.79 * m.ln(re) - 1.64 != 0.0
    ensures re <= 0.0 ==> r == Err(ValueError)
    ensures re > 0.0 && r.Err? ==> r.error == ZeroDivisionError
    ensures r.Ok? ==> r.value > 0.0
    ensures r.Ok? ==> r.value * (0.79 * m.ln(re) - 1.64) * (0.79 * m.ln(re) - 1.64) == 1.0
  {
    var l :- Log(m, re);
    var b := 0.79 * l - 1.64;
    var r :- Div(1.0, b * b);
    PositiveReciprocal(r, b * b);
    Ok(r)
  }

  lemma PositiveReciprocal(r: real, d: real)
    requires d > 0.0 && r * d == 1.0
    ensures r > 0.0
  {
    if r <= 0.0 {
      assert false;
    }
  }

  /** A positive base times itself is positive. */
  lemma SquarePositive(b: real)
    requires b != 0.0
    ensures b * b > 0.0
  {
  }

  /** The Gnielinski correlation for a given friction factor, Reynolds
      number and Prandtl number:
      (f/8)(Re - 1000) Pr / (1 + 12.7 (f/8)^0.5 (Pr^(2/3) - 1)). */
  function Gnielinski(m: Elementary, f: real, re: real, pr: real): (r: Result<real>)
    ensures f > 0.0 && re > 1000.0 && pr >= 1.0 && PowPositive(m) && PowAtLeastOne(m)
      ==> r.Ok? && r.value > 0.0
    ensures f < 0.0 ==> r == Err(ComplexValue)
  {
    var root :- Pow(m, f / 8.0, 0.5);
    var prPow :- Pow(m, pr, 2.0 / 3.0);
    var denominator := 1.0 + 12.7 * root * (prPow - 1.0);
    GnielinskiPositive(m, f, re, pr, root, prPow);
    Div(f / 8.0 * (re - 1000.0) * pr, denominator)
  }

  lemma GnielinskiPositive(m: Elementary, f: real, re: real, pr: real, root: real, prPow: real)
    requires Pow(m, f / 8.0, 0.5) == Ok(root) && Pow(m, pr, 2.0 / 3.0) == Ok(prPow)
    ensures f > 0.0 && re > 1000.0 && pr >= 1.0 && PowPositive(m) && PowAtLeastOne(m)
      ==> (1.0 + 12.7 * root * (prPow - 1.0) > 0.0
        && Div(f / 8.0 * (re - 1000.0) * pr, 1.0 + 12.7 * root * (prPow - 1.0)).value > 0.0)
  {
    if f > 0.0 && re > 1000.0 && pr >= 1.0 && PowPositive(m) && PowAtLeastOne(m) {
      assert root > 0.0 && prPow >= 1.0;
      assert 12.7 * root * (prPow - 1.0) >= 0.0 by { NonNegativeProduct(12.7 * root, prPow - 1.0); }
      var numerator := f / 8.0 * (re - 1000.0) * pr;
      assert numerator > 0.0 by { PositiveProduct3(f / 8.0, re - 1000.0, pr); }
      PositiveQuotient(numerator, 1.0 + 12.7 * root * (prPow - 1.0));
    }
  }

  lemma NonNegativeProduct(x: real, y: real)
    requires x >= 0.0 && y >= 0.0
    ensures x * y >= 0.0
  {
  }

  lemma PositiveProduct3(x: real, y: real, z: real)
    requires x > 0.0 && y > 0.0 && z > 0.0
    ensures x * y * z > 0.0
  {
    assert x * y > 0.0;
  }

  lemma QuotientAboveOne(a: real, s: real)
    requires 0.0 < s < a
    ensures a / s > 1.0
  {
    if a / s <= 1.0 {
      assert false;
    }
  }

  /** A quotient q = a / d times a factor t, multiplied back by d, is a t. */
  lemma LossTimesDiameter(a: real, d: real, q: real, t: real)
    requires Div(a, d) == Ok(q)
    ensures d != 0.0 && (q * t) * d == a * t
  {
  }

  lemma PositiveQuotient(x: real, y: real)
    requires x > 0.0 && y > 0.0
    ensures Div(x, y).Ok? && Div(x, y).value > 0.0
  {
  }

  /** Laminar Nusselt number: the mean of the uniform-heat-flux value 4.36
      and the uniform-wall-temperature value 3.66. */
  function LaminarNusselt(): (nu: real)
    ensures nu == (4.36 + 3.66) / 2.0
    ensures 3.66 < nu < 4.36
  {
    4.01
  }

  /** A pipe: its fluid, primary dimensions and the radii, areas and volumes
      derived from them at construction. */
  class Pipe {
    const fluid: Fluid
    const dimensionRatio: real
    const innerDiameter: real
    const outerDiameter: real
    const length: real
    const conductivity: real
    const innerRadius: real
    const outerRadius: real
    const wallThickness: real
    const areaCrInner: real
    const areaCrOuter: real
    const areaCrPipe: real
    const areaSInner: real
    const areaSOuter: real
    const totalVol: real
    const fluidVol: real
    const pipeWallVol: real

    function Dims(): Dimensions {
      Dimensions(dimensionRatio, innerDiameter, outerDiameter, length, conductivity)
    }

    /** How the derived fields follow from the primary dimensions. */
    predicate Derived() {
      && innerRadius == innerDiameter / 2.0
      && outerRadius == outerDiameter / 2.0
      && wallThickness == outerRadius - innerRadius
      && areaCrInner == Pi / 4.0 * (innerDiameter * innerDiameter)
      && areaCrOuter == Pi / 4.0 * (outerDiameter * outerDiameter)
      && areaCrPipe == areaCrOuter - areaCrInner
      && areaSInner == Pi * innerDiameter * length
      && areaSOuter == Pi * outerDiameter * length
      && totalVol == areaCrOuter * length
      && fluidVol == areaCrInner * length
      && pipeWallVol == areaCrPipe * length
    }

    constructor (fluid: Fluid, d: Dimensions)
      ensures this.fluid == fluid && Dims() == d
      ensures Derived()
    {
      this.fluid := fluid;
      dimensionRatio := d.dimensionRatio;
      innerDiameter := d.innerDiameter;
      outerDiameter := d.outerDiameter;
      length := d.length;
      conductivity := d.conductivity;
      innerRadius := d.innerDiameter / 2.0;
      outerRadius := d.outerDiameter / 2.0;
      wallThickness := d.outerDiameter / 2.0 - d.innerDiameter / 2.0;
      areaCrInner := Pi / 4.0 * (d.innerDiameter * d.innerDiameter);
      areaCrOuter := Pi / 4.0 * (d.outerDiameter * d.outerDiameter);
      areaCrPipe := Pi / 4.0 * (d.outerDiameter * d.outerDiameter) - Pi / 4.0 * (d.innerDiameter * d.innerDiameter);
      areaSInner := Pi * d.innerDiameter * d.length;
      areaSOuter := Pi * d.outerDiameter * d.length;
      totalVol := Pi / 4.0 * (d.outerDiameter * d.outerDiameter) * d.length;
      fluidVol := Pi / 4.0 * (d.innerDiameter * d.innerDiameter) * d.length;
      pipeWallVol := (Pi / 4.0 * (d.outerDiameter * d.outerDiameter) - Pi / 4.0 * (d.innerDiameter * d.innerDiameter)) * d.length;
    }

    /** Python's `Pipe(inputs)`: the construction either raises or yields a
        pipe whose dimensions are those `PipeDimensions` settles. */
    static method Create(fluid: Fluid, inputs: PipeInputs) returns (r: Result<Pipe>)
      ensures r.Ok? <==> PipeDimensions(inputs).Ok?
      ensures r.Err? ==> r.error == PipeDimensions(inputs).error
      ensures r.Ok? ==> fresh(r.value) && r.value.fluid == fluid && r.value.Dims() == PipeDimensions(inputs).value
      ensures r.Ok? ==> r.value.Derived()
    {
      var d := PipeDimensions(inputs);
      if d.Err? {
        return Err(d.error);
      }
      var p := new Pipe(fluid, d.value);
      return Ok(p);
    }

    /** Volumetric flow m_dot / density. */
    function MdotToVdot(mdot: real, temp: real): (r: Result<real>)
      ensures r.Ok? <==> fluid.density(temp) != 0.0
      ensures Physical(fluid) ==> r.Ok?
      ensures r.Ok? ==> r.value * fluid.density(temp) == mdot
    {
      Div(mdot, fluid.density(temp))
    }

    /** Reynolds number 4 m_dot / (mu pi D_i). */
    function MdotToRe(mdot: real, temp: real): (r: Result<real>)
      ensures r.Ok? <==> fluid.mu(temp) * Pi * innerDiameter != 0.0
      ensures Physical(fluid) && innerDiameter > 0.0 ==> r.Ok?
      ensures r.Ok? ==> r.value * (fluid.mu(temp) * Pi * innerDiameter) == 4.0 * mdot
    {
      Div(4.0 * mdot, fluid.mu(temp) * Pi * innerDiameter)
    }

    /** Mean velocity m_dot / (A_cr,inner density). */
    function MdotToVelocity(mdot: real, temp: real): (r: Result<real>)
      ensures r.Ok? <==> areaCrInner * fluid.density(temp) != 0.0
      ensures r.Ok? ==> r.value * areaCrInner * fluid.density(temp) == mdot
    {
      Div(mdot, areaCrInner * fluid.density(temp))
    }

    /** Friction factor in a smooth tube: laminar below Re 1500, turbulent
        from Re 5000, and in between the blend with weight
        smoothing(Re, 3000, 450). */
    function FrictionFactor(m: Elementary, mdot: real, temp: real): (r: Result<real>)
      ensures MdotToRe(mdot, temp).Err? ==> r == Err(ZeroDivisionError)
    {
      var re :- MdotToRe(mdot, temp);
      if re < 1500.0 then
        LaminarFrictionFactor(re)
      else if re < 5000.0 then
        var fLow :- LaminarFrictionFactor(re);
        var fHigh :- TurbulentFrictionFactor(m, re);
        var s :- Smoothing(m, re, 3000.0, 450.0);
        Ok(Blend(s, fLow, fHigh))
      else
        TurbulentFrictionFactor(m, re)
    }

    /** The three friction regimes: 64 / Re below 1500, the turbulent form
        from 5000 on, and in between the blend with weight
        smoothing(Re, 3000, 450), which lies between the laminar and
        turbulent values. */
    lemma FrictionFactorRegimes(m: Elementary, mdot: real, temp: real, re: real)
      requires MdotToRe(mdot, temp) == Ok(re)
      ensures re < 1500.0 ==> FrictionFactor(m, mdot, temp) == LaminarFrictionFactor(re)
      ensures re >= 5000.0 ==> FrictionFactor(m, mdot, temp) == TurbulentFrictionFactor(m, re)
      ensures 1500.0 <= re < 5000.0 && ExpPositive(m) && TurbulentFrictionFactor(m, re).Ok? ==>
        var fLow, fHigh := LaminarFrictionFactor(re).value, TurbulentFrictionFactor(m, re).value;
        FrictionFactor(m, mdot, temp).Ok?
        && Min(fLow, fHigh) <= FrictionFactor(m, mdot, temp).value <= Max(fLow, fHigh)
      ensures 1500.0 <= re < 5000.0 && FrictionFactor(m, mdot, temp).Ok? ==>
        && LaminarFrictionFactor(re).Ok? && TurbulentFrictionFactor(m, re).Ok?
        && Smoothing(m, re, 3000.0, 450.0).Ok?
        && FrictionFactor(m, mdot, temp)
           == Ok(Blend(Smoothing(m, re, 3000.0, 450.0).value, LaminarFrictionFactor(re).value,
                       TurbulentFrictionFactor(m, re).value))
    {
      if 1500.0 <= re < 5000.0 && ExpPositive(m) && TurbulentFrictionFactor(m, re).Ok? {
        var s := Smoothing(m, re, 3000.0, 450.0).value;
        assert 0.0 < s < 1.0;
      }
    }

    /** Pressure loss over the pipe length: zero for a non-positive flow,
        otherwise f (L / D_i) (density v^2 / 2). */
    function PressureLoss(m: Elementary, mdot: real, temp: real): (r: Result<real>)
      ensures mdot <= 0.0 ==> r == Ok(0.0)
      ensures mdot > 0.0 && FrictionFactor(m, mdot, temp).Err? ==> r == FrictionFactor(m, mdot, temp)
      ensures mdot > 0.0 && FrictionFactor(m, mdot, temp).Ok? && innerDiameter == 0.0 ==> r == Err(ZeroDivisionError)
      ensures mdot > 0.0 && r.Ok? ==>
        && FrictionFactor(m, mdot, temp).Ok? && innerDiameter != 0.0 && MdotToVelocity(mdot, temp).Ok?
        && r.value * innerDiameter
           == FrictionFactor(m, mdot, temp).value * length * VelocityHead(temp, MdotToVelocity(mdot, temp).value)
    {
      if mdot <= 0.0 then Ok(0.0)
      else
        var f :- FrictionFactor(m, mdot, temp);
        var term1 :- Div(f * length, innerDiameter);
        var velocity :- MdotToVelocity(mdot, temp);
        var term2 := VelocityHead(temp, velocity);
        LossTimesDiameter(f * length, innerDiameter, term1, term2);
        Ok(term1 * term2)
    }

    /** The dynamic pressure density v^2 / 2. */
    function VelocityHead(temp: real, velocity: real): real
    {
      fluid.density(temp) * (velocity * velocity) / 2.0
    }

    /** The zero-flow guard matters: at zero flow the friction factor is a
        division by zero (Re = 0 is laminar, 64 / 0), yet the pressure loss
        is 0. */
    lemma PressureLossZeroFlowGuard(m: Elementary, temp: real)
      requires Physical(fluid) && innerDiameter > 0.0
      ensures FrictionFactor(m, 0.0, temp) == Err(ZeroDivisionError)
      ensures PressureLoss(m, 0.0, temp) == Ok(0.0)
    {
      var re := MdotToRe(0.0, temp).value;
      assert re * (fluid.mu(temp) * Pi * innerDiameter) == 0.0;
      assert fluid.mu(temp) * Pi * innerDiameter != 0.0 by {
        PositiveProduct3(fluid.mu(temp), Pi, innerDiameter);
      }
      assert re == 0.0;
    }

    /** Turbulent Nusselt number (Gnielinski). As written it evaluates the
        friction factor with the Reynolds number in the mass-flow slot, so
        the friction factor is that of Reynolds number MdotToRe(re). */
    function TurbulentNusselt(m: Elementary, re: real, temp: real): (r: Result<real>)
      ensures r.Ok? ==>
        FrictionFactor(m, re, temp).Ok? && r == Gnielinski(m, FrictionFactor(m, re, temp).value, re, fluid.pr(temp))
      ensures FrictionFactor(m, re, temp).Ok? && FrictionFactor(m, re, temp).value > 0.0
        && re > 1000.0 && fluid.pr(temp) >= 1.0 && PowPositive(m) && PowAtLeastOne(m)
        ==> r.Ok? && r.value > 0.0
    {
      var f :- FrictionFactor(m, re, temp);
      Gnielinski(m, f, re, fluid.pr(temp))
    }

    /** Conduction resistance of the wall ln(D_o / D_i) / (2 pi k). */
    function CondResist(m: Elementary): (r: Result<real>)
      ensures innerDiameter == 0.0 ==> r == Err(ZeroDivisionError)
      ensures r.Ok? ==> r.value * (2.0 * Pi * conductivity) == m.ln(outerDiameter / innerDiameter)
      ensures 0.0 < innerDiameter < outerDiameter && conductivity > 0.0 && LnPositiveAboveOne(m)
        ==> r.Ok? && r.value > 0.0
    {
      var ratio :- Div(outerDiameter, innerDiameter);
      var l :- Log(m, ratio);
      CondResistPositive(m, ratio, l);
      Div(l, 2.0 * Pi * conductivity)
    }

    lemma CondResistPositive(m: Elementary, ratio: real, l: real)
      requires Div(outerDiameter, innerDiameter) == Ok(ratio) && Log(m, ratio) == Ok(l)
      ensures 0.0 < innerDiameter < outerDiameter && conductivity > 0.0 && LnPositiveAboveOne(m)
        ==> Div(l, 2.0 * Pi * conductivity).Ok? && Div(l, 2.0 * Pi * conductivity).value > 0.0
    {
      if 0.0 < innerDiameter < outerDiameter && conductivity > 0.0 && LnPositiveAboveOne(m) {
        QuotientAboveOne(outerDiameter, innerDiameter);
        PositiveQuotient(l, 2.0 * Pi * conductivity);
      }
    }

    /** Nusselt number for the convection resistance: 4.01 below Re 2000,
        Gnielinski from Re 4000, and in between the blend with weight
        smoothing(Re, 3000, 150), the turbulent value taken at the actual
        Reynolds number. */
    function ConvNusselt(m: Elementary, re: real, temp: real): (r: Result<real>)
      ensures re < 2000.0 ==> r == Ok(LaminarNusselt())
      ensures re >= 4000.0 ==> r == TurbulentNusselt(m, re, temp)
      ensures 2000.0 <= re < 4000.0 && ExpPositive(m) && TurbulentNusselt(m, re, temp).Ok? ==>
        r.Ok? && Min(LaminarNusselt(), TurbulentNusselt(m, re, temp).value) <= r.value
              <= Max(LaminarNusselt(), TurbulentNusselt(m, re, temp).value)
      ensures 2000.0 <= re < 4000.0 && r.Ok? ==>
        && TurbulentNusselt(m, re, temp).Ok? && Smoothing(m, re, 3000.0, 150.0).Ok?
        && r == Ok(Blend(Smoothing(m, re, 3000.0, 150.0).value, LaminarNusselt(), TurbulentNusselt(m, re, temp).value))
    {
      if re < 2000.0 then Ok(LaminarNusselt())
      else if re < 4000.0 then
        var nuHigh :- TurbulentNusselt(m, re, temp);
        var s :- Smoothing(m, re, 3000.0, 150.0);
        Ok(Blend(s, LaminarNusselt(), nuHigh))
      else
        TurbulentNusselt(m, re, temp)
    }

    /** The convective conductance per unit length, Nu pi k. */
    function ConvConductance(nu: real, temp: real): real {
      nu * Pi * fluid.k(temp)
    }

    /** Convection resistance 1 / (Nu pi k) at the Reynolds number of the
        given mass flow. */
    function ConvResist(m: Elementary, mdot: real, temp: real): (r: Result<real>)
      ensures MdotToRe(mdot, temp).Err? ==> r == Err(ZeroDivisionError)
      ensures r.Ok? ==>
        && MdotToRe(mdot, temp).Ok?
        && ConvNusselt(m, MdotToRe(mdot, temp).value, temp).Ok?
        && r.value * ConvConductance(ConvNusselt(m, MdotToRe(mdot, temp).value, temp).value, temp) == 1.0
    {
      var re :- MdotToRe(mdot, temp);
      var nu :- ConvNusselt(m, re, temp);
      Div(1.0, ConvConductance(nu, temp))
    }

    /** In the laminar regime (which includes zero flow, Re = 0) the
        convection resistance is 1 / (4.01 pi k), positive for a physical
        fluid. */
    lemma ConvResistLaminar(m: Elementary, mdot: real, temp: real)
      requires Physical(fluid) && innerDiameter > 0.0
      requires mdot * 4.0 < 2000.0 * (fluid.mu(temp) * Pi * innerDiameter)
      ensures ConvResist(m, mdot, temp).Ok?
      ensures ConvResist(m, mdot, temp).value * (LaminarNusselt() * Pi * fluid.k(temp)) == 1.0
      ensures ConvResist(m, mdot, temp).value > 0.0
    {
      var d := fluid.mu(temp) * Pi * innerDiameter;
      assert d > 0.0 by { PositiveProduct3(fluid.mu(temp), Pi, innerDiameter); }
      var re := MdotToRe(mdot, temp).value;
      assert re * d == 4.0 * mdot;
      assert re < 2000.0 by { BelowByProduct(re, 2000.0, d); }
      assert LaminarNusselt() * Pi * fluid.k(temp) > 0.0 by {
        PositiveProduct3(LaminarNusselt(), Pi, fluid.k(temp));
      }
      PositiveQuotient(1.0, LaminarNusselt() * Pi * fluid.k(temp));
    }

    lemma BelowByProduct(x: real, bound: real, d: real)
      requires d > 0.0 && x * d < bound * d
      ensures x < bound
    {
      if x >= bound {
        assert false;
      }
    }

    /** Total pipe resistance: convection plus conduction. */
    function Resist(m: Elementary, mdot: real, temp: real): (r: Result<real>)
      ensures r.Ok? <==> ConvResist(m, mdot, temp).Ok? && CondResist(m).Ok?
      ensures r.Ok? ==> r.value == ConvResist(m, mdot, temp).value + CondResist(m).value
    {
      var conv :- ConvResist(m, mdot, temp);
      var cond :- CondResist(m);
      Ok(conv + cond)
    }

    /** With laminar flow, a physical fluid and a proper wall, the pipe
        resistance is defined and exceeds its conduction part, which is
        itself positive. */
    lemma ResistLaminarAboveConduction(m: Elementary, mdot: real, temp: real)
      requires Physical(fluid) && LnPositiveAboveOne(m)
      requires 0.0 < innerDiameter < outerDiameter && conductivity > 0.0
      requires mdot * 4.0 < 2000.0 * (fluid.mu(temp) * Pi * innerDiameter)
      ensures Resist(m, mdot, temp).Ok? && CondResist(m).Ok?
      ensures Resist(m, mdot, temp).value > CondResist(m).value > 0.0
    {
      ConvResistLaminar(m, mdot, temp);
    }
  }

  /** Wall and area relations that hold for every constructed pipe. */
  lemma GeometryConsistent(p: Pipe)
    requires p.Derived()
    ensures p.wallThickness * 2.0 == p.outerDiameter - p.innerDiameter
    ensures p.totalVol == p.fluidVol + p.pipeWallVol
    ensures p.areaSOuter - p.areaSInner == 2.0 * Pi * p.wallThickness * p.length
  {
    assert p.pipeWallVol == p.areaCrOuter * p.length - p.areaCrInner * p.length;
  }

  /** With 0 < D_i < D_o and a positive length every derived measure is
      positive and the fluid takes up less than the whole volume. */
  lemma GeometryPositive(p: Pipe)
    requires p.Derived()
    requires 0.0 < p.innerDiameter < p.outerDiameter && p.length > 0.0
    ensures 0.0 < p.innerRadius < p.outerRadius && p.wallThickness > 0.0
    ensures 0.0 < p.areaCrInner < p.areaCrOuter && p.areaCrPipe > 0.0
    ensures 0.0 < p.areaSInner < p.areaSOuter
    ensures 0.0 < p.fluidVol < p.totalVol && p.pipeWallVol > 0.0
  {
    var di, dO := p.innerDiameter, p.outerDiameter;
    SquareIncreasing(di, dO);
    ScaleIncreasing(Pi / 4.0, di * di, dO * dO);
    ScaleIncreasing(Pi * p.length, di, dO);
    assert p.areaSInner == Pi * p.length * di && p.areaSOuter == Pi * p.length * dO;
    ScaleIncreasing(p.length, p.areaCrInner, p.areaCrOuter);
    assert p.fluidVol == p.length * p.areaCrInner && p.totalVol == p.length * p.areaCrOuter;
    GeometryConsistent(p);
  }

  lemma SquareIncreasing(x: real, y: real)
    requires 0.0 < x < y
    ensures 0.0 < x * x < y * y
  {
    assert x * x < x * y;
    assert x * y < y * y;
  }

  lemma ScaleIncreasing(c: real, x: real, y: real)
    requires c > 0.0 && 0.0 < x < y
    ensures 0.0 < c * x < c * y
  {
  }

  /** The repository's pipe test: a 1-inch nominal pipe, default ratio 11,
      100 m long has D_o = 0.033401 m, D_i within 0.0001 of 0.02732 m and
      surface areas within 0.01 of 10.49 and 8.58 m^2. */
  lemma NominalOneInchPipe(p: Pipe)
    requires p.Derived()
    requires p.Dims() == PipeDimensions(PipeInputs(None, Some(1.0), None, Some(100.0), None)).value
    ensures PipeDimensions(PipeInputs(None, Some(1.0), None, Some(100.0), None)).Ok?
    ensures p.outerDiameter == 0.033401 && p.length == 100.0 && p.dimensionRatio == 11.0
    ensures -0.0001 <= p.innerDiameter - 0.02732 <= 0.0001
    ensures -0.01 <= p.areaSOuter - 10.49 <= 0.01
    ensures -0.01 <= p.areaSInner - 8.58 <= 0.01
  {
    var inputs := PipeInputs(None, Some(1.0), None, Some(100.0), None);
    assert ImperialDiameters(1.0, 11.0) == Ok((InchToM(1.315 * (1.0 - 2.0 / 11.0)), InchToM(1.315)));
    assert PipeDimensions(inputs) == Ok(Dimensions(11.0, InchToM(1.315 * (1.0 - 2.0 / 11.0)), InchToM(1.315), 100.0, 0.4));
  }
}
