/**
 * bhr/borehole.py: the `Borehole` front end. `init_from_dict` reads the
 * borehole type and the boundary condition from an input dictionary
 * (case-insensitively), then the shared and type-specific keys, and builds
 * the matching borehole object; `calc_bh_resist` refuses to run before that
 * object exists and otherwise routes the request by boundary condition.
 */
module Dispatcher {
  import opened PyRuntime
  import opened Elementary
  import opened Fluids
  import opened Pipes
  import SingleU
  import DoubleU

  /** The borehole kinds of the `BoreholeType` enum, with their member names. */
  datatype BoreholeType = SingleUTube | DoubleUTube | Coaxial {
    function Name(): string {
      match this
      case SingleUTube => "SINGLE_U_TUBE"
      case DoubleUTube => "DOUBLE_U_TUBE"
      case Coaxial => "COAXIAL"
    }
  }

  /** The boundary conditions of the `BoundaryCondition` enum. */
  datatype BoundaryCondition = UniformHeatFlux | UniformBoreholeWallTemp {
    function Name(): string {
      match this
      case UniformHeatFlux => "UNIFORM_HEAT_FLUX"
      case UniformBoreholeWallTemp => "UNIFORM_BOREHOLE_WALL_TEMP"
    }
  }

  // ---------------------------------------------------------------- upper case

  /** `str.upper` on one character, for the ASCII letters. */
  function UpperChar(c: char): (u: char)
    ensures !('a' <= u <= 'z')
    ensures !('a' <= c <= 'z') ==> u == c
    ensures 'a' <= c <= 'z' ==> 'A' <= u <= 'Z' && u as int - 'A' as int == c as int - 'a' as int
  {
    if 'a' <= c <= 'z' then (c as int - 32) as char else c
  }

  /** `str.upper`: the same length, every character upper-cased. */
  function Upper(s: string): (r: string)
    ensures |r| == |s|
    ensures forall i :: 0 <= i < |s| ==> r[i] == UpperChar(s[i])
  {
    if s == [] then [] else [UpperChar(s[0])] + Upper(s[1..])
  }

  /** Upper-casing twice is upper-casing once. */
  lemma UpperIdempotent(s: string)
    ensures Upper(Upper(s)) == Upper(s)
  {
    var u := Upper(s);
    assert forall i :: 0 <= i < |u| ==> Upper(u)[i] == u[i];
  }

  /** A string without lower-case letters is its own upper case. */
  lemma UpperOfUpper(s: string)
    requires forall i :: 0 <= i < |s| ==> !('a' <= s[i] <= 'z')
    ensures Upper(s) == s
  {
    assert forall i :: 0 <= i < |s| ==> Upper(s)[i] == s[i];
  }

  // ------------------------------------------------------------------ parsing

  /** The borehole type whose member name is exactly `u`. */
  function BoreholeTypeNamed(u: string): (r: Result<BoreholeType>)
    ensures r.Ok? <==> u in {"SINGLE_U_TUBE", "DOUBLE_U_TUBE", "COAXIAL"}
    ensures r.Ok? ==> r.value.Name() == u
    ensures r.Err? ==> r.error == LookupError
  {
    if u == SingleUTube.Name() then Ok(SingleUTube)
    else if u == DoubleUTube.Name() then Ok(DoubleUTube)
    else if u == Coaxial.Name() then Ok(Coaxial)
    else Err(LookupError)
  }

  /** The borehole type named by `s` in any letter case: `s.upper()` must
      be a member name, otherwise LookupError. */
  function ParseBoreholeType(s: string): (r: Result<BoreholeType>)
    ensures r.Ok? <==> Upper(s) in {"SINGLE_U_TUBE", "DOUBLE_U_TUBE", "COAXIAL"}
    ensures r.Ok? ==> r.value.Name() == Upper(s)
    ensures r.Err? ==> r.error == LookupError
  {
    BoreholeTypeNamed(Upper(s))
  }

  /** The boundary condition whose member name is exactly `u`. */
  function BoundaryConditionNamed(u: string): (r: Result<BoundaryCondition>)
    ensures r.Ok? <==> u in {"UNIFORM_HEAT_FLUX", "UNIFORM_BOREHOLE_WALL_TEMP"}
    ensures r.Ok? ==> r.value.Name() == u
    ensures r.Err? ==> r.error == LookupError
  {
    if u == UniformHeatFlux.Name() then Ok(UniformHeatFlux)
    else if u == UniformBoreholeWallTemp.Name() then Ok(UniformBoreholeWallTemp)
    else Err(LookupError)
  }

  /** The boundary condition named by `s` in any letter case. */
  function ParseBoundaryCondition(s: string): (r: Result<BoundaryCondition>)
    ensures r.Ok? <==> Upper(s) in {"UNIFORM_HEAT_FLUX", "UNIFORM_BOREHOLE_WALL_TEMP"}
    ensures r.Ok? ==> r.value.Name() == Upper(s)
    ensures r.Err? ==> r.error == LookupError
  {
    BoundaryConditionNamed(Upper(s))
  }

  /** Parsing ignores letter case: a string and its upper case parse alike. */
  lemma ParseIgnoresCase(s: string)
    ensures ParseBoreholeType(s) == ParseBoreholeType(Upper(s))
    ensures ParseBoundaryCondition(s) == ParseBoundaryCondition(Upper(s))
  {
    UpperIdempotent(s);
  }

  /** A member name has no lower-case letter, so it is its own upper case. */
  lemma NameIsUpper(t: BoreholeType, c: BoundaryCondition)
    ensures Upper(t.Name()) == t.Name()
    ensures Upper(c.Name()) == c.Name()
  {
    var u, v := t.Name(), c.Name();
    assert forall i :: 0 <= i < |u| ==> !('a' <= u[i] <= 'z');
    assert forall i :: 0 <= i < |v| ==> !('a' <= v[i] <= 'z');
    UpperOfUpper(u);
    UpperOfUpper(v);
  }

  /** A string parses to the member whose name is its upper case; with
      `NameIsUpper` this covers the member names themselves. */
  lemma ParseName(t: BoreholeType, c: BoundaryCondition, s: string, v: string)
    requires Upper(s) == t.Name() && Upper(v) == c.Name()
    ensures ParseBoreholeType(s) == Ok(t)
    ensures ParseBoundaryCondition(v) == Ok(c)
  {
    assert BoreholeTypeNamed(t.Name()) == Ok(t);
    assert BoundaryConditionNamed(c.Name()) == Ok(c);
  }

  // --------------------------------------------------------- input dictionary

  /** A value of the JSON-like input dictionary. */
  datatype Value = Str(s: string) | Num(x: real) | Dict(entries: map<string, Value>)

  /** `d[key]`: KeyError when the key is absent. */
  function Lookup(d: map<string, Value>, key: string): (r: Result<Value>)
    ensures r.Ok? <==> key in d
    ensures r.Ok? ==> r.value == d[key]
    ensures r.Err? ==> r.error == KeyError
  {
    if key in d then Ok(d[key]) else Err(KeyError)
  }

  /** `v[key]` on a value: TypeError unless it is a dictionary. */
  function Subscript(v: Value, key: string): (r: Result<Value>)
    ensures !v.Dict? ==> r == Err(TypeError)
    ensures v.Dict? ==> r == Lookup(v.entries, key)
  {
    if v.Dict? then Lookup(v.entries, key) else Err(TypeError)
  }

  /** The borehole type of `inputs["borehole_type"].upper()`: KeyError,
      AttributeError for a non-string, then LookupError. */
  function BoreholeTypeOf(inputs: map<string, Value>): (r: Result<BoreholeType>)
    ensures "borehole_type" !in inputs ==> r == Err(KeyError)
    ensures "borehole_type" in inputs && !inputs["borehole_type"].Str? ==> r == Err(AttributeError)
    ensures "borehole_type" in inputs && inputs["borehole_type"].Str? ==>
      r == ParseBoreholeType(inputs["borehole_type"].s)
  {
    var v :- Lookup(inputs, "borehole_type");
    if v.Str? then ParseBoreholeType(v.s) else Err(AttributeError)
  }

  /** The boundary condition of `inputs["boundary_condition"].upper()`. */
  function BoundaryConditionOf(inputs: map<string, Value>): (r: Result<BoundaryCondition>)
    ensures "boundary_condition" !in inputs ==> r == Err(KeyError)
    ensures "boundary_condition" in inputs && !inputs["boundary_condition"].Str? ==> r == Err(AttributeError)
    ensures "boundary_condition" in inputs && inputs["boundary_condition"].Str? ==>
      r == ParseBoundaryCondition(inputs["boundary_condition"].s)
  {
    var v :- Lookup(inputs, "boundary_condition");
    if v.Str? then ParseBoundaryCondition(v.s) else Err(AttributeError)
  }

  /** The keys every borehole type reads from the top level. */
  const CommonKeys: set<string> :=
    {"borehole_diameter", "length", "grout_conductivity", "soil_conductivity", "fluid_type", "fluid_concentration"}

  /** The keys a U-tube section must hold. */
  const UTubeKeys: set<string> := {"pipe_outer_diameter", "pipe_dimension_ratio", "shank_space", "pipe_conductivity"}

  /** The keys the coaxial section must hold. */
  const CoaxialKeys: set<string> :=
    {"outer_pipe_outer_diameter", "outer_pipe_dimension_ratio", "outer_pipe_conductivity",
     "inner_pipe_outer_diameter", "inner_pipe_dimension_ratio", "inner_pipe_conductivity"}

  /** The name of the section holding a type's own keys. */
  function SectionKey(t: BoreholeType): string {
    match t
    case SingleUTube => "single_u_tube"
    case DoubleUTube => "double_u_tube"
    case Coaxial => "coaxial"
  }

  /** The keys the section of a type must hold. */
  function SectionKeys(t: BoreholeType): set<string> {
    match t
    case SingleUTube => UTubeKeys
    case DoubleUTube => UTubeKeys + {"pipe_inlet_arrangement"}
    case Coaxial => CoaxialKeys
  }

  datatype Common = Common(boreholeDiameter: Value, length: Value, groutConductivity: Value,
                           soilConductivity: Value, fluidType: Value, fluidConcentration: Value)

  datatype UTubeArgs = UTubeArgs(pipeOuterDiameter: Value, dimensionRatio: Value, shankSpace: Value,
                                 pipeConductivity: Value)

  /** What `init_from_dict` has read once all its lookups succeeded. */
  datatype Args =
    | SingleArgs(common: Common, tube: UTubeArgs)
    | DoubleArgs(common: Common, tube: UTubeArgs, arrangement: Value)
    | CoaxialArgs(common: Common)
  {
    function Kind(): BoreholeType {
      match this
      case SingleArgs(_, _) => SingleUTube
      case DoubleArgs(_, _, _) => DoubleUTube
      case CoaxialArgs(_) => Coaxial
    }
  }

  /** The shared lookups, in the order the source makes them. */
  function CommonOf(inputs: map<string, Value>): (r: Result<Common>)
    ensures r.Ok? <==> CommonKeys <= inputs.Keys
    ensures r.Err? ==> r.error == KeyError
    ensures r.Ok? ==> r.value.boreholeDiameter == inputs["borehole_diameter"] && r.value.length == inputs["length"]
    ensures r.Ok? ==>
      r.value.groutConductivity == inputs["grout_conductivity"] && r.value.soilConductivity == inputs["soil_conductivity"]
  {
    var d :- Lookup(inputs, "borehole_diameter");
    var l :- Lookup(inputs, "length");
    var kg :- Lookup(inputs, "grout_conductivity");
    var ks :- Lookup(inputs, "soil_conductivity");
    var ft :- Lookup(inputs, "fluid_type");
    var fc :- Lookup(inputs, "fluid_concentration");
    Ok(Common(d, l, kg, ks, ft, fc))
  }

  /** The U-tube section's lookups: TypeError when the section is not a
      dictionary, KeyError for a missing key. */
  function UTubeOf(section: Value): (r: Result<UTubeArgs>)
    ensures r.Ok? <==> section.Dict? && UTubeKeys <= section.entries.Keys
    ensures !section.Dict? ==> r == Err(TypeError)
    ensures section.Dict? && r.Err? ==> r.error == KeyError
    ensures r.Ok? ==>
      r.value.pipeOuterDiameter == section.entries["pipe_outer_diameter"]
      && r.value.shankSpace == section.entries["shank_space"]
  {
    var od :- Subscript(section, "pipe_outer_diameter");
    var dr :- Subscript(section, "pipe_dimension_ratio");
    var sh :- Subscript(section, "shank_space");
    var k :- Subscript(section, "pipe_conductivity");
    Ok(UTubeArgs(od, dr, sh, k))
  }

  /** The coaxial section's lookups; the values feed a stub. */
  function CoaxialOf(section: Value): (r: Result<()>)
    ensures r.Ok? <==> section.Dict? && CoaxialKeys <= section.entries.Keys
    ensures !section.Dict? ==> r == Err(TypeError)
    ensures section.Dict? && r.Err? ==> r.error == KeyError
  {
    var _ :- Subscript(section, "outer_pipe_outer_diameter");
    var _ :- Subscript(section, "outer_pipe_dimension_ratio");
    var _ :- Subscript(section, "outer_pipe_conductivity");
    var _ :- Subscript(section, "inner_pipe_outer_diameter");
    var _ :- Subscript(section, "inner_pipe_dimension_ratio");
    var _ :- Subscript(section, "inner_pipe_conductivity");
    Ok(())
  }

  /** Every lookup `init_from_dict` makes after parsing the type: the
      shared keys, then the type's section and its keys. */
  function ArgsOf(t: BoreholeType, inputs: map<string, Value>): (r: Result<Args>)
    ensures r.Ok? <==>
      CommonKeys <= inputs.Keys && SectionKey(t) in inputs && inputs[SectionKey(t)].Dict?
      && SectionKeys(t) <= inputs[SectionKey(t)].entries.Keys
    ensures r.Ok? ==> r.value.Kind() == t
    ensures !(CommonKeys <= inputs.Keys) ==> r == Err(KeyError)
  {
    var c :- CommonOf(inputs);
    var section :- Lookup(inputs, SectionKey(t));
    match t
    case SingleUTube =>
      var u :- UTubeOf(section);
      Ok(SingleArgs(c, u))
    case DoubleUTube =>
      var u :- UTubeOf(section);
      var a :- Subscript(section, "pipe_inlet_arrangement");
      Ok(DoubleArgs(c, u, a))
    case Coaxial =>
      var _ :- CoaxialOf(section);
      Ok(CoaxialArgs(c))
  }

  // ----------------------------------------------------------- construction

  /** A number of the dictionary; any other value is a TypeError once the
      constructor computes with it. */
  function AsReal(v: Value): (r: Result<real>)
    ensures r.Ok? <==> v.Num?
    ensures r.Ok? ==> r.value == v.x
    ensures r.Err? ==> r.error == TypeError
  {
    if v.Num? then Ok(v.x) else Err(TypeError)
  }

  /** The numbers a U-tube borehole is built from. */
  datatype UTubeNumbers = UTubeNumbers(boreholeDiameter: real, length: real, groutConductivity: real,
                                       soilConductivity: real, pipeOuterDiameter: real, dimensionRatio: real,
                                       shankSpace: real, pipeConductivity: real)

  function UTubeNumbersOf(c: Common, u: UTubeArgs): (r: Result<UTubeNumbers>)
    ensures r.Ok? <==>
      && c.boreholeDiameter.Num? && c.length.Num? && c.groutConductivity.Num? && c.soilConductivity.Num?
      && u.pipeOuterDiameter.Num? && u.dimensionRatio.Num? && u.shankSpace.Num? && u.pipeConductivity.Num?
    ensures r.Err? ==> r.error == TypeError
  {
    var d :- AsReal(c.boreholeDiameter);
    var l :- AsReal(c.length);
    var kg :- AsReal(c.groutConductivity);
    var ks :- AsReal(c.soilConductivity);
    var od :- AsReal(u.pipeOuterDiameter);
    var dr :- AsReal(u.dimensionRatio);
    var sh :- AsReal(u.shankSpace);
    var k :- AsReal(u.pipeConductivity);
    Ok(UTubeNumbers(d, l, kg, ks, od, dr, sh, k))
  }

  /** The U-tube's pipe: its outer diameter and dimension ratio, twice the
      borehole length (down and back up), and the pipe conductivity. */
  function UTubePipe(n: UTubeNumbers): (p: PipeInputs)
    ensures p.length == Some(2.0 * n.length) && p.nominalPipeDiameterInch.None?
    ensures PipeDimensions(p).Ok? <==> n.dimensionRatio != 0.0
  {
    PipeInputs(Some(n.dimensionRatio), None, Some(n.pipeOuterDiameter), Some(2.0 * n.length),
               Some(n.pipeConductivity))
  }

  /** Whether construction succeeds, and the error it raises when not: the
      numbers, then the pipe, then the borehole's own checks. A coaxial
      borehole is a stub whose construction is taken to succeed. */
  function BuildCheck(m: Elementary, args: Args): (r: Result<()>)
    ensures args.CoaxialArgs? ==> r.Ok?
    ensures args.DoubleArgs? && UTubeNumbersOf(args.common, args.tube).Ok? && !args.arrangement.Str?
      && PipeDimensions(UTubePipe(UTubeNumbersOf(args.common, args.tube).value)).Ok?
      ==> r == Err(AssertionError)
    ensures !args.CoaxialArgs? && UTubeNumbersOf(args.common, args.tube).Err? ==>
      r == Err(TypeError)
    ensures !args.CoaxialArgs? && r.Ok? ==>
      UTubeNumbersOf(args.common, args.tube).Ok?
      && PipeDimensions(UTubePipe(UTubeNumbersOf(args.common, args.tube).value)).Ok?
  {
    match args
    case SingleArgs(c, u) =>
      var n :- UTubeNumbersOf(c, u);
      var _ :- PipeDimensions(UTubePipe(n));
      var _ :- SingleU.Parameters(n.boreholeDiameter, n.pipeOuterDiameter, n.shankSpace,
                                  n.groutConductivity, n.soilConductivity);
      Ok(())
    case DoubleArgs(c, u, a) =>
      var n :- UTubeNumbersOf(c, u);
      var _ :- PipeDimensions(UTubePipe(n));
      if !a.Str? then Err(AssertionError)
      else
        var _ :- DoubleU.Validate(m, n.boreholeDiameter, n.pipeOuterDiameter, n.shankSpace, a.s,
                                  n.groutConductivity, n.soilConductivity);
        Ok(())
    case CoaxialArgs(_) => Ok(())
  }

  /** The object `self.bh` holds. */
  datatype Component =
    | SingleComponent(single: SingleU.SingleUBorehole)
    | DoubleComponent(double: DoubleU.DoubleUTube)
    | CoaxialComponent
  {
    function Kind(): BoreholeType {
      match this
      case SingleComponent(_) => SingleUTube
      case DoubleComponent(_) => DoubleUTube
      case CoaxialComponent => Coaxial
    }

    /** The mutable objects behind the component. */
    function Objects(): set<object> {
      match this
      case SingleComponent(s) => {s}
      case DoubleComponent(d) => {d}
      case CoaxialComponent => {}
    }
  }

  /** The freshly built component matches what was read: its kind, its
      pipe's dimensions, its derived parameters and its empty caches. */
  ghost predicate BuiltFrom(m: Elementary, fluid: Fluid, c: Component, args: Args)
    reads c.Objects()
  {
    c.Kind() == args.Kind()
    && match c
       case SingleComponent(s) =>
         args.SingleArgs? && UTubeNumbersOf(args.common, args.tube).Ok?
         && var n := UTubeNumbersOf(args.common, args.tube).value;
         && PipeDimensions(UTubePipe(n)).Ok?
         && s.pipe.Dims() == PipeDimensions(UTubePipe(n)).value && s.pipe.fluid == fluid
         && SingleU.Parameters(n.boreholeDiameter, n.pipeOuterDiameter, n.shankSpace, n.groutConductivity,
                               n.soilConductivity) == Ok(s.Dimensionless())
         && s.length == n.length && s.State() == SingleU.EmptyCaches
       case DoubleComponent(d) =>
         args.DoubleArgs? && UTubeNumbersOf(args.common, args.tube).Ok? && args.arrangement.Str?
         && var n := UTubeNumbersOf(args.common, args.tube).value;
         && PipeDimensions(UTubePipe(n)).Ok?
         && d.pipe.Dims() == PipeDimensions(UTubePipe(n)).value && d.pipe.fluid == fluid
         && DoubleU.Validate(m, n.boreholeDiameter, n.pipeOuterDiameter, n.shankSpace, args.arrangement.s,
                             n.groutConductivity, n.soilConductivity) == Ok((d.Geom(), d.arrangement))
         && d.bhLength == n.length && d.pipeResist == None
       case CoaxialComponent => true
  }

  /** The constructor call of `init_from_dict`'s last branch. */
  method Build(m: Elementary, fluid: Fluid, args: Args) returns (r: Result<Component>)
    ensures r.Ok? <==> BuildCheck(m, args).Ok?
    ensures r.Err? ==> r.error == BuildCheck(m, args).error
    ensures r.Ok? ==> fresh(r.value.Objects()) && BuiltFrom(m, fluid, r.value, args)
  {
    match args
    case SingleArgs(c, u) =>
      var n := UTubeNumbersOf(c, u);
      if n.Err? {
        return Err(n.error);
      }
      var pipe := Pipe.Create(fluid, UTubePipe(n.value));
      if pipe.Err? {
        return Err(pipe.error);
      }
      var s := SingleU.SingleUBorehole.Create(pipe.value, n.value.length, n.value.shankSpace,
                                              n.value.boreholeDiameter, n.value.pipeOuterDiameter,
                                              n.value.groutConductivity, n.value.soilConductivity);
      if s.Err? {
        return Err(s.error);
      }
      r := Ok(SingleComponent(s.value));
    case DoubleArgs(c, u, a) =>
      var n := UTubeNumbersOf(c, u);
      if n.Err? {
        return Err(n.error);
      }
      var pipe := Pipe.Create(fluid, UTubePipe(n.value));
      if pipe.Err? {
        return Err(pipe.error);
      }
      if !a.Str? {
        return Err(AssertionError);
      }
      var d := DoubleU.DoubleUTube.Create(m, pipe.value, n.value.boreholeDiameter, n.value.pipeOuterDiameter,
                                          n.value.length, n.value.shankSpace, a.s,
                                          n.value.groutConductivity, n.value.soilConductivity);
      if d.Err? {
        return Err(d.error);
      }
      r := Ok(DoubleComponent(d.value));
    case CoaxialArgs(_) =>
      r := Ok(CoaxialComponent);
  }

  // ------------------------------------------------------------------ routing

  /** The methods each component class defines or inherits (from `Pipe`
      through `UTube` for the two U-tube classes). */
  const PipeMethods: set<string> :=
    {"get_inner_dia", "get_pipe_diameters_imperial", "mdot_to_vdot", "mdot_to_re", "mdot_to_velocity",
     "friction_factor", "laminar_friction_factor", "turbulent_friction_factor", "pressure_loss",
     "laminar_nusselt", "turbulent_nusselt", "calc_cond_resist", "calc_conv_resist", "calc_resist"}

  function MethodsOf(t: BoreholeType): (ms: set<string>)
    ensures t != Coaxial ==> PipeMethods <= ms
    ensures "calc_effective_bh_resistance_uhf" in ms <==> t != Coaxial
    ensures "calc_effective_bh_resistance_ubwt" in ms <==> t == DoubleUTube
    ensures "calc_bh_resist" in ms <==> t == Coaxial
  {
    match t
    case SingleUTube =>
      PipeMethods + {"calc_average_bh_resistance", "calc_total_internal_bh_resistance", "calc_grout_resistance",
                     "calc_effective_bh_resistance_uhf", "calc_direct_coupling_resistance", "update_beta"}
    case DoubleUTube =>
      PipeMethods + {"update_b1", "calc_bh_resist_local", "calc_internal_resist",
                     "calc_effective_bh_resistance_uhf", "calc_effective_bh_resistance_ubwt"}
    case Coaxial => {"convective_heat_transfer_coefficients_concentric_annulus", "calc_bh_resist"}
  }

  /** The method `calc_bh_resist` calls for a boundary condition, as written. */
  function RoutedMethodAsWritten(bc: BoundaryCondition): (name: string)
    ensures bc == UniformHeatFlux ==>
      name in MethodsOf(SingleUTube) && name in MethodsOf(DoubleUTube) && name !in MethodsOf(Coaxial)
  {
    match bc
    case UniformHeatFlux => "calc_effective_bh_resistance_uhf"
    case UniformBoreholeWallTemp => "calc_effective_bh_resistance_uwt"
  }

  /** As written, the wall-temperature route names a method no component
      has, so every wall-temperature request raises AttributeError. */
  lemma UwtRouteAsWrittenUndefined(t: BoreholeType)
    ensures RoutedMethodAsWritten(UniformBoreholeWallTemp) !in MethodsOf(t)
    ensures RoutedMethodAsWritten(UniformHeatFlux) in MethodsOf(t) <==> t != Coaxial
  {
    var name := RoutedMethodAsWritten(UniformBoreholeWallTemp);
    assert name !in PipeMethods;
    assert name != "calc_effective_bh_resistance_uhf" by {
      assert name[30] != "calc_effective_bh_resistance_uhf"[30];
    }
    assert name != "calc_effective_bh_resistance_ubwt" by {
      assert name[30] != "calc_effective_bh_resistance_ubwt"[30];
    }
  }

  /** The method the wall-temperature route evidently means: the double
      U-tube's `calc_effective_bh_resistance_ubwt`. */
  function RoutedMethod(bc: BoundaryCondition): (name: string)
    ensures bc == UniformHeatFlux ==> name == RoutedMethodAsWritten(bc)
    ensures name in MethodsOf(DoubleUTube)
    ensures name !in MethodsOf(Coaxial)
  {
    match bc
    case UniformHeatFlux => "calc_effective_bh_resistance_uhf"
    case UniformBoreholeWallTemp => "calc_effective_bh_resistance_ubwt"
  }

  /** With the corrected route only the double U-tube answers a
      wall-temperature request. */
  lemma UwtRouteReachesDoubleU(t: BoreholeType)
    ensures RoutedMethod(UniformBoreholeWallTemp) in MethodsOf(t) <==> t == DoubleUTube
  {
    assert "calc_effective_bh_resistance_ubwt" !in PipeMethods;
  }

  function Lift(r: Result<real>): (l: Result<Option<real>>)
    ensures r.Ok? <==> l.Ok?
    ensures r.Ok? ==> l.value == Some(r.value)
    ensures r.Err? ==> l.error == r.error
  {
    match r
    case Ok(v) => Ok(Some(v))
    case Err(e) => Err(e)
  }

  /** The routed methods the components do define. */
  lemma RoutesDefined()
    ensures RoutedMethod(UniformHeatFlux) in MethodsOf(SingleUTube)
    ensures RoutedMethod(UniformHeatFlux) in MethodsOf(DoubleUTube)
    ensures RoutedMethod(UniformBoreholeWallTemp) in MethodsOf(DoubleUTube)
  {
  }

  /** What the routed method returns: AttributeError when the component
      lacks it, otherwise the component's effective resistance for the
      flow and temperature (the single U-tube without a pipe resistance
      override). */
  function Routed(m: Elementary, c: Component, bc: BoundaryCondition, flow: real, temp: real)
    : (r: Result<Option<real>>)
    ensures RoutedMethod(bc) !in MethodsOf(c.Kind()) ==> r == Err(AttributeError)
    ensures c.SingleComponent? && bc == UniformHeatFlux ==>
      r == Lift(c.single.EffectiveUhfFor(m, Some(flow), Some(temp), None))
    ensures c.DoubleComponent? && bc == UniformHeatFlux ==> r == Lift(c.double.EffectiveUhfFor(m, flow, temp))
    ensures c.DoubleComponent? && bc == UniformBoreholeWallTemp ==>
      r == Lift(c.double.EffectiveUbwtFor(m, flow, temp))
    ensures r.Ok? ==> r.value.Some?
  {
    RoutesDefined();
    match c
    case SingleComponent(s) =>
      if bc == UniformHeatFlux then Lift(s.EffectiveUhfFor(m, Some(flow), Some(temp), None))
      else Err(AttributeError)
    case DoubleComponent(d) =>
      if bc == UniformHeatFlux then Lift(d.EffectiveUhfFor(m, flow, temp))
      else Lift(d.EffectiveUbwtFor(m, flow, temp))
    case CoaxialComponent => Err(AttributeError)
  }

  // --------------------------------------------------------------- the state

  class Borehole {
    var bhType: Option<BoreholeType>
    var boundaryCondition: Option<BoundaryCondition>
    var bh: Option<Component>

    /** The component is only ever stored after a boundary condition. */
    ghost predicate Valid()
      reads this
    {
      bh.Some? ==> boundaryCondition.Some?
    }

    /** A fresh borehole has no type, no boundary condition and no
        component. */
    constructor ()
      ensures bhType == None && boundaryCondition == None && bh == None
      ensures Valid()
    {
      bhType := None;
      boundaryCondition := None;
      bh := None;
    }

    /** `init_from_dict`: the type is parsed and stored first, then the
        boundary condition, then the keys are read and the component is
        built. A failure at any step raises and leaves the later fields as
        they were, so a bad boundary condition on a fresh borehole leaves
        its type set and its component absent. */
    method InitFromDict(m: Elementary, fluid: Fluid, inputs: map<string, Value>) returns (r: Result<()>)
      modifies this
      ensures old(Valid()) ==> Valid()
      ensures var t := BoreholeTypeOf(inputs);
        t.Err? ==> r == Err(t.error) && bhType == old(bhType)
                   && boundaryCondition == old(boundaryCondition) && bh == old(bh)
      ensures var t, c := BoreholeTypeOf(inputs), BoundaryConditionOf(inputs);
        && (t.Ok? ==> bhType == Some(t.value))
        && (t.Ok? && c.Err? ==> r == Err(c.error) && boundaryCondition == old(boundaryCondition) && bh == old(bh))
        && (t.Ok? && c.Ok? ==> boundaryCondition == Some(c.value))
      ensures var t, c := BoreholeTypeOf(inputs), BoundaryConditionOf(inputs);
        t.Ok? && c.Ok? ==>
          var a := ArgsOf(t.value, inputs);
          && (a.Err? ==> r == Err(a.error) && bh == old(bh))
          && (a.Ok? && BuildCheck(m, a.value).Err? ==> r == Err(BuildCheck(m, a.value).error) && bh == old(bh))
          && (a.Ok? && BuildCheck(m, a.value).Ok? ==>
                r == Ok(()) && bh.Some? && fresh(bh.value.Objects()) && BuiltFrom(m, fluid, bh.value, a.value))
    {
      var t := BoreholeTypeOf(inputs);
      if t.Err? {
        return Err(t.error);
      }
      bhType := Some(t.value);
      var c := BoundaryConditionOf(inputs);
      if c.Err? {
        return Err(c.error);
      }
      boundaryCondition := Some(c.value);
      var a := ArgsOf(t.value, inputs);
      if a.Err? {
        return Err(a.error);
      }
      var built := Build(m, fluid, a.value);
      if built.Err? {
        return Err(built.error);
      }
      bh := Some(built.value);
      r := Ok(());
    }

    /** The objects a resistance request may update. */
    function Objects(): set<object>
      reads this
    {
      if bh.Some? then bh.value.Objects() else {}
    }

    /** `calc_bh_resist`: TypeError before a component exists; otherwise
        the routed method's result, or None when no boundary condition is
        stored. Only the called component's caches change, as its own
        method describes. */
    method CalcBhResist(m: Elementary, flow: real, temp: real) returns (r: Result<Option<real>>)
      modifies Objects()
      ensures bh.None? ==> r == Err(TypeError)
      ensures bh.Some? && boundaryCondition.None? ==> r == Ok(None)
      ensures bh.Some? && boundaryCondition.Some? ==> r == Routed(m, bh.value, boundaryCondition.value, flow, temp)
      ensures bh.Some? && bh.value.SingleComponent? && boundaryCondition == Some(UniformHeatFlux) ==>
        var s := bh.value.single;
        s.State() == s.AfterEffectiveUhf(old(s.State()), m, Some(flow), Some(temp), None)
      ensures bh.Some? && bh.value.DoubleComponent? && boundaryCondition.Some? ==>
        var d := bh.value.double;
        d.pipeResist == d.PipeResistAfter(old(d.pipeResist), m, flow, temp)
      ensures boundaryCondition.None? || (bh.Some? && RoutedMethod(boundaryCondition.value) !in MethodsOf(bh.value.Kind()))
        ==> unchanged(Objects())
    {
      if bh.None? {
        return Err(TypeError);
      }
      if boundaryCondition.None? {
        return Ok(None);
      }
      match (bh.value, boundaryCondition.value)
      case (SingleComponent(s), UniformHeatFlux) =>
        var v := s.CalcEffectiveBhResistanceUhf(m, Some(flow), Some(temp), None);
        r := Lift(v);
      case (DoubleComponent(d), UniformHeatFlux) =>
        var v := d.CalcEffectiveBhResistanceUhf(m, flow, temp);
        r := Lift(v);
      case (DoubleComponent(d), UniformBoreholeWallTemp) =>
        var v := d.CalcEffectiveBhResistanceUbwt(m, flow, temp);
        r := Lift(v);
      case _ =>
        r := Err(AttributeError);
    }
  }
}
