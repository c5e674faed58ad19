# Borehole thermal resistance — a verified model

BHResist computes the thermal resistance of a ground heat exchanger borehole. It does this from closed-form multipole formulas. This project models the core of that library in Dafny:

- `Pipes` (`bhr/pipe.py`): the pipe.
  - Its constructor settles the diameters from a dimension ratio or a nominal-size table.
  - It derives radii, areas and volumes.
  - It converts mass flow into volume flow, Reynolds number and velocity.
  - It picks the laminar, blended or turbulent regime for the friction factor and the Nusselt number.
  - It combines convection and conduction into the pipe resistance.
- `Utilities` (`bhr/utilities.py`): the inch conversion, the sigmoid blending weight and the hyperbolic cotangent.
- `SingleU` (`bhr/single_u_borehole.py`): the single U-tube borehole.
  - It holds the dimensionless parameters θ₁, θ₂, θ₃ and σ.
  - β is refreshed on every call.
  - The average, total internal, grout, uniform-heat-flux effective and direct-coupling resistances are each written to their own cache field.
- `DoubleU` (`bhr/double_u_borehole.py`): the double U-tube borehole.
  - Its constructor validates the inlet arrangement and the shank spacing.
  - b1 overwrites the stored pipe resistance.
  - It computes the local and internal resistances; the internal one branches on the arrangement.
  - It computes the effective resistances for uniform heat flux and for uniform borehole wall temperature.
- `Dispatcher` (`bhr/borehole.py`): the `Borehole` state machine.
  - It parses the type and the boundary condition without regard to case, raising LookupError on an unknown name.
  - It reads the input dictionary and builds the component.
  - It raises TypeError while nothing is built.
  - It routes `calc_bh_resist` by boundary condition.

How Python is modelled:

- Python floats are `real`.
- Every operation that can raise in Python returns a `Result` (module `PyRuntime`), and each error is named by its Python class:
  - float division by zero;
  - `math.log` of a non-positive number;
  - `0.0 ** negative`;
  - a negative base raised to a non-integral power. Python turns this into a complex number, which may raise later (in `math.log`, say) or may be returned as it is; the model stops there with `ComplexValue`;
  - a missing dictionary key;
  - a missing attribute.
- `math.exp`, `math.log`, `**`, `cosh` and `sinh` are fields of a value `Elementary`.
- The fluid property tables (`cp`, `mu`, `density`, `k`, `pr`) are fields of a value `Fluid`.
- Their laws (exp is positive and increasing, ln(x) > 0 for x > 1, x**y > 0 for x > 0, cosh > 0 and 0 < sinh(x) < x·cosh(x) for x > 0) are ghost predicates. A property that relies on a law requires it explicitly.
- π is the literal value of `math.pi`.
- The input dictionary is a `Value` tree. `Dispatcher.Lookup` is `d[key]`, with KeyError for a missing key. `Dispatcher.Subscript` raises TypeError on a value that is not a dictionary, and looks up a key otherwise. `Dispatcher.AsReal` takes a number as it is and raises TypeError for anything else.
- `Dispatcher.Lift` wraps a component's result for the borehole, which returns an optional number: success carries the same value and failure the same error.
- Classes whose methods overwrite fields in place (`SingleUBorehole`, `DoubleUTube`, `Borehole`) are Dafny classes. `Pipe` is a Dafny class too: it holds the dimensions and the fields its constructor derives from them, and none of its methods changes them.
- Each method is proved against a function of the inputs and of the old state. The properties are proved about those functions.

## Model

| member | source | states |
|---|---|---|
| PyRuntime.Div | bhr/pipe.py:51 | float `/` raises ZeroDivisionError exactly when the divisor is zero, and otherwise the quotient times the divisor gives back the dividend |
| Elementary.Log | bhr/pipe.py:161 | `math.log` is defined exactly on positive arguments and raises ValueError elsewhere |
| Elementary.Pow | bhr/double_u_borehole.py:105-108 | `**` is defined for a positive base, for zero with a non-negative exponent, and for a negative base with an integral exponent; `0 ** negative` raises ZeroDivisionError and a negative base with a fractional exponent gives a complex value |
| Utilities.InchToM | bhr/utilities.py:4-11 | inches become metres at 0.0254 m to the inch: the result divided by 0.0254 is the input, and a positive length stays positive |
| Utilities.InchToMLinear | bhr/utilities.py:4-11 | the inch conversion maps 0 to 0, is strictly increasing and additive, and dividing by 0.0254 undoes it |
| Utilities.Smoothing | bhr/utilities.py:14-26 | the sigmoid raises ZeroDivisionError for width 0; otherwise, with exp positive, it lies strictly between 0 and 1 |
| Utilities.SmoothingAtCentre | bhr/utilities.py:26 | with exp(0) = 1 the sigmoid is exactly 1/2 at x = a |
| Utilities.SmoothingIncreasing | bhr/utilities.py:26 | with exp positive and increasing and b > 0, the sigmoid is strictly increasing in x |
| Utilities.Coth | bhr/utilities.py:28-29 | intended coth is defined exactly away from 0 (ZeroDivisionError at 0), and the result times sinh gives back cosh |
| Utilities.CothScaledAboveOne | bhr/utilities.py:28-29 | for x > 0, coth(x) > 0 and x·coth(x) > 1 |
| Utilities.CothAsWritten | bhr/utilities.py:1-29 | as written, every call raises NameError, because only `exp` is imported |
| Utilities.CothAsWrittenFailsWhereDefined | bhr/utilities.py:28-29 | at x = 1 the intended coth exists (and exceeds 1) while the written one raises |
| Pipes.InnerDiameter | bhr/pipe.py:49-51 | the inner diameter is outer·(1 − 2/DR): the outer minus inner difference times DR is twice the outer diameter; DR = 0 raises ZeroDivisionError |
| Pipes.InnerDiameterBetween | bhr/pipe.py:50-51 | for outer > 0 and DR > 2 the inner diameter lies strictly between 0 and the outer diameter |
| Pipes.NominalOuterDiameterInch | bhr/pipe.py:53-73 | the lookup accepts exactly the nine sizes 0.75, 1, 1.25, 1.5, 2, 3, 4, 6, 8 and raises ValueError otherwise; each outer diameter exceeds its nominal size |
| Pipes.ImperialDiameters | bhr/pipe.py:53-75 | an unlisted size raises ValueError before DR = 0 raises ZeroDivisionError; the outer diameter is the table value converted with `inch_to_m`; the inner diameter keeps the DR relation and lies inside the outer one for DR > 2 |
| Pipes.PipeDimensions | bhr/pipe.py:9-28 | the constructor's failures come in Python's order: bad size or zero ratio, then a missing length (KeyError), then neither diameter key (AttributeError); on success DR defaults to 11, conductivity to 0.4, the given outer diameter and length are kept, and the inner diameter follows DR |
| Pipes.LaminarNusselt | bhr/pipe.py:180-188 | the laminar Nusselt number is the mean of 4.36 and 3.66, and so lies strictly between the two |
| Pipes.Pipe.constructor | bhr/pipe.py:30-47 | the derived radii, areas and volumes are the stated functions of the primary dimensions |
| Pipes.Pipe.Create | bhr/pipe.py:9-47 | construction succeeds exactly when the dimensions can be settled, fails with their error otherwise, and yields a fresh pipe with those dimensions and derived fields |
| Pipes.GeometryConsistent | bhr/pipe.py:31-47 | twice the wall thickness is outer minus inner diameter; total volume is fluid plus wall volume; the outer surface exceeds the inner by 2π·wall·length |
| Pipes.GeometryPositive | bhr/pipe.py:31-47 | for 0 < inner < outer and positive length, all radii, areas and volumes are positive and inner ones are smaller than outer ones |
| Pipes.NominalOneInchPipe | bhr/tests/test_pipe.py:8-21 | a 1-inch pipe of length 100 has outer diameter 0.033401, inner diameter 0.02732 ± 0.0001, outer surface 10.49 ± 0.01 and inner surface 8.58 ± 0.01 |
| Pipes.Pipe.MdotToVdot | bhr/pipe.py:77-86 | the volume flow times the density gives back the mass flow; defined whenever the density is non-zero |
| Pipes.Pipe.MdotToRe | bhr/pipe.py:88-97 | Re·(μ·π·d_i) = 4·ṁ; defined exactly when μ·π·d_i ≠ 0 |
| Pipes.Pipe.MdotToVelocity | bhr/pipe.py:99-108 | the velocity times the inner cross-section and the density gives back the mass flow |
| Pipes.LaminarFrictionFactor | bhr/pipe.py:137-146 | f·Re = 64; Re = 0 raises ZeroDivisionError |
| Pipes.TurbulentFrictionFactor | bhr/pipe.py:148-161 | defined exactly when Re > 0 and 0.79·ln(Re) − 1.64 ≠ 0; Re ≤ 0 raises ValueError; the result is positive and is the inverse square of 0.79·ln(Re) − 1.64 |
| Pipes.Blend | bhr/pipe.py:132-133 | the blend of two values with weight s is low at s = 0, high at s = 1, and between the two for s in [0, 1] |
| Pipes.Pipe.FrictionFactor | bhr/pipe.py:110-135 | a flow that has no Reynolds number raises ZeroDivisionError |
| Pipes.Pipe.FrictionFactorRegimes | bhr/pipe.py:118-135 | Re < 1500 gives the laminar value; Re ≥ 5000 gives the turbulent value; for 1500 ≤ Re < 5000 a result is exactly (1 − s)·f_lam + s·f_turb with s = smoothing(Re, 3000, 450), and with exp positive it exists whenever the turbulent value does and lies between the two |
| Pipes.Pipe.PressureLoss | bhr/pipe.py:163-178 | a mass flow ≤ 0 gives exactly 0; for a positive flow a friction-factor failure is passed on, then an inner diameter of 0 raises ZeroDivisionError; a result satisfies ΔP·D_i = f·L·(ρ·v²/2) with f the friction factor and v the flow velocity |
| Pipes.Pipe.PressureLossZeroFlowGuard | bhr/pipe.py:172-173 | at zero flow the friction factor would raise, yet the loss is 0, so the guard comes before any friction factor |
| Pipes.Gnielinski | bhr/pipe.py:204 | the Gnielinski correlation is positive for f > 0, Re > 1000 and Pr ≥ 1; a negative f raises through the fractional power |
| Pipes.Pipe.TurbulentNusselt | bhr/pipe.py:190-204 | the Nusselt number is Gnielinski applied to the friction factor computed with Re in the mass-flow argument, as written; positive under the same conditions |
| Pipes.Pipe.CondResist | bhr/pipe.py:206-216 | R·(2π·k) = ln(d_o/d_i); d_i = 0 raises; positive for 0 < d_i < d_o and k > 0 |
| Pipes.Pipe.ConvNusselt | bhr/pipe.py:230-243 | Re < 2000 gives the laminar 4.01; Re ≥ 4000 gives the turbulent value; for 2000 ≤ Re < 4000 a result is exactly (1 − s)·4.01 + s·Nu_turb with s = smoothing(Re, 3000, 150), and with exp positive it exists whenever the turbulent value does and lies between the two |
| Pipes.Pipe.ConvResist | bhr/pipe.py:218-245 | a flow without a Reynolds number raises ZeroDivisionError; a result needs a Reynolds number and a Nusselt number, and then R·(Nu·π·k) = 1 for the regime's Nusselt number at that Reynolds number |
| Pipes.Pipe.ConvResistLaminar | bhr/pipe.py:235-245 | in the laminar regime the convection resistance is positive with R·(4.01·π·k) = 1 |
| Pipes.Pipe.Resist | bhr/pipe.py:247-257 | the pipe resistance is exactly convection plus conduction, defined when both are |
| Pipes.Pipe.ResistLaminarAboveConduction | bhr/pipe.py:257 | for laminar flow the pipe resistance strictly exceeds the positive conduction resistance |
| SingleU.Parameters | bhr/single_u_borehole.py:26-30 | θ₁·D_b = shank, θ₂·D_po = D_b, σ·(k_g + k_s) = k_g − k_s; any zero divisor raises ZeroDivisionError |
| SingleU.ThetaProductNonZero | bhr/single_u_borehole.py:26-28 | θ₁·θ₂·D_po = shank, so θ₃'s divisor is non-zero exactly when the shank spacing is |
| SingleU.Theta3Closed | bhr/single_u_borehole.py:28 | θ₃ = D_po/(2·shank) |
| SingleU.SigmaInRange | bhr/single_u_borehole.py:29-30 | with positive conductivities σ lies strictly in (−1, 1) |
| SingleU.TestBoreholeThetas | bhr/tests/test_single_u_borehole.py:10-27 | D_b 0.096, D_po 0.032 and shank 0.032 give θ₁ = 1/3 and θ₂ = 3 |
| SingleU.Beta | bhr/single_u_borehole.py:200 | with k_g > 0, β is positive exactly when the pipe resistance is, and non-negative when it is |
| SingleU.AverageResistance | bhr/single_u_borehole.py:62-70 | β = 1 raises; success needs k_g ≠ 0 and θ₁ ≠ 0; failures are division, log or complex-power errors |
| SingleU.TotalInternalResistance | bhr/single_u_borehole.py:92-103 | β = 1 raises; success needs k_g ≠ 0 and θ₃ ≠ 0; failures are division, log or complex-power errors |
| SingleU.UhfCombination | bhr/single_u_borehole.py:150-154 | (R_eff − R_ave)·3·R_int·(cp·ṁ)² = L²; defined exactly when R_int ≠ 0 and cp·ṁ ≠ 0; R_eff ≥ R_ave when R_int > 0, strictly when L ≠ 0 |
| SingleU.DirectCoupling | bhr/single_u_borehole.py:164-168 | defined exactly when 4·r_b − r_a ≠ 0; the result is never negative; it is either the clamp 70 or satisfies r₁₂·(4r_b − r_a) = 4r_a·r_b; for positive inputs it is the formula when 4r_b > r_a and 70 when 4r_b < r_a |
| SingleU.CouplingSign | bhr/single_u_borehole.py:164-168 | for positive r_a, r_b the unclamped value is positive when 4r_b > r_a and negative when 4r_b < r_a |
| SingleU.SingleUBorehole.constructor | bhr/single_u_borehole.py:8-39 | the static parameters are stored and every cache starts as None |
| SingleU.SingleUBorehole.Create | bhr/single_u_borehole.py:8-39 | construction succeeds exactly when the dimensionless parameters exist, and yields a fresh borehole with empty caches that holds the given pipe, length, shank spacing, diameters and conductivities |
| SingleU.SingleUBorehole.PipeResistFor | bhr/single_u_borehole.py:195-198 | a truthy argument is used as given; otherwise the pipe's resistance at the given flow and temperature, and TypeError when either is missing |
| SingleU.SingleUBorehole.ZeroPipeResistIsAbsent | bhr/single_u_borehole.py:195 | an explicit pipe resistance of 0 is treated exactly like none |
| SingleU.SingleUBorehole.UpdateBeta | bhr/single_u_borehole.py:173-200 | stores the pipe resistance and β = 2π·k_g·R_p; nothing else changes; a failure leaves the state as it was |
| SingleU.SingleUBorehole.AverageFor | bhr/single_u_borehole.py:60-71 | a pipe-resistance failure is passed on; otherwise the result is exactly the average resistance at β = 2π·k_g·R_p of that pipe resistance, and success implies β ≠ 1 |
| SingleU.SingleUBorehole.TotalInternalFor | bhr/single_u_borehole.py:90-105 | a pipe-resistance failure is passed on; otherwise the result is exactly the total internal resistance at β = 2π·k_g·R_p of that pipe resistance, and success implies β ≠ 1 |
| SingleU.SingleUBorehole.CalcAverageBhResistance | bhr/single_u_borehole.py:41-71 | returns the average resistance and leaves `resist_bh_ave` equal to it, after refreshing the pipe resistance and β; no other cache changes |
| SingleU.SingleUBorehole.CalcTotalInternalBhResistance | bhr/single_u_borehole.py:73-105 | returns the total internal resistance and leaves `resist_bh_total_internal` equal to it, after refreshing the pipe resistance and β; no other cache changes |
| SingleU.SingleUBorehole.GroutFor | bhr/single_u_borehole.py:124-126 | the grout resistance is the average minus the argument `pipe_resist`/2 (not the stored field); a missing argument fails; an argument of 0 computes the pipe resistance and subtracts 0 |
| SingleU.SingleUBorehole.CalcGroutResistance | bhr/single_u_borehole.py:107-126 | returns the grout resistance and leaves `resist_bh_grout` and `resist_bh_ave` equal to what was computed |
| SingleU.SingleUBorehole.EffectiveUhfFor | bhr/single_u_borehole.py:145-155 | success needs the average and internal resistances and is exactly the uniform-heat-flux combination of the two with the borehole length, cp and flow; the result is at least the average when R_int > 0; R_int = 0 raises ZeroDivisionError and, otherwise, a missing flow or temperature raises TypeError |
| SingleU.SingleUBorehole.AfterEffectiveUhf | bhr/single_u_borehole.py:145-155 | on success the effective, average and internal caches hold the computed values; grout and direct-coupling caches never change; a pipe-resistance failure changes nothing |
| SingleU.SingleUBorehole.CalcEffectiveBhResistanceUhf | bhr/single_u_borehole.py:128-155 | returns the effective resistance and moves the state exactly as stated for the uniform-heat-flux step |
| SingleU.SingleUBorehole.DirectCouplingFor | bhr/single_u_borehole.py:161-171 | the first component is the clamped direct coupling of (R_int, R_ave) and is never negative; the second is the average resistance |
| SingleU.SingleUBorehole.CalcDirectCouplingResistance | bhr/single_u_borehole.py:157-171 | returns that pair and leaves `resist_bh_direct_coupling` equal to its first component, with the internal and average caches written on the way |
| DoubleU.ParseArrangement | bhr/double_u_borehole.py:32-40 | only the exact strings "ADJACENT" and "DIAGONAL" are accepted, and the result is named by the string; anything else raises AssertionError |
| DoubleU.ParseArrangementNames | bhr/double_u_borehole.py:32-40 | each arrangement parses back from its name; the comparison is case-sensitive |
| DoubleU.IntPowIncreasing | bhr/double_u_borehole.py:105-108 | on positive reals xⁿ is strictly increasing for n > 0, which makes r_b⁸ − r_c⁸ positive once r_c < r_b |
| DoubleU.Validate | bhr/double_u_borehole.py:27-55 | a bad arrangement raises AssertionError first, then k_g + k_s = 0 raises ZeroDivisionError; shank < D_po fails; on success the radii are half the diameters, 2r_p ≤ shank ≤ (2/√2)(r_b − r_p), the pipe-centre radius satisfies 2·r_c = shank·√2, and σ is the conductivity ratio; conversely every input that passes these checks is accepted |
| DoubleU.CentersInsideBorehole | bhr/double_u_borehole.py:47-55 | once the shank check passes, 0 < r_c ≤ r_b − r_p < r_b and r_b⁸ − r_c⁸ > 0 |
| DoubleU.MultipoleParams | bhr/double_u_borehole.py:104-108 | r_c = 0 raises ZeroDivisionError; r_b⁸ < r_c⁸ gives a complex fourth root; otherwise p_c, p_b > 0 and p_pc ≥ 0 |
| DoubleU.MultipoleParamsDefined | bhr/double_u_borehole.py:104-108 | for every validated geometry the fourth roots are defined and p_c, p_b are positive |
| DoubleU.B1 | bhr/double_u_borehole.py:81-82 | b1·(1 + β) = 1 − β; for k_g > 0 and R_p ≥ 0, b1 ∈ (−1, 1], with b1 = 1 exactly when R_p = 0 |
| DoubleU.B1Range | bhr/double_u_borehole.py:81-82 | the same range for the ratio (1 − β)/(1 + β) with β = 2π·k_g·R_p |
| DoubleU.LocalResistance | bhr/double_u_borehole.py:110-120 | the local resistance takes no arrangement argument; k_g = 0 raises |
| DoubleU.InternalDiagonal | bhr/double_u_borehole.py:148-161 | the diagonal closed form raises ZeroDivisionError when 2π·k_g = 0 |
| DoubleU.InternalAdjacent | bhr/double_u_borehole.py:163-183 | the adjacent closed form raises ZeroDivisionError when 2π·k_g = 0 |
| DoubleU.InternalResistance | bhr/double_u_borehole.py:145-185 | r_p = 0 raises (c₁); otherwise the result is the diagonal or adjacent form for the stored arrangement, with c₁ = r_c/r_p; no third case exists |
| DoubleU.UhfCombination | bhr/double_u_borehole.py:207-209 | (R_eff − R_local)·6·R_int·(cp·ṁ)² = L²; defined exactly when cp·ṁ ≠ 0 and R_int ≠ 0; R_eff ≥ R_local when R_int > 0 |
| DoubleU.UbwtEta | bhr/double_u_borehole.py:233-234 | zero flow·cp raises ZeroDivisionError; R_local·R_int < 0 gives a complex root and = 0 a division by zero; a result satisfies η·(2·R_local·R_int)^½·(ṁ·cp) = L; positive resistances, length and flow give a positive η |
| DoubleU.UbwtCombination | bhr/double_u_borehole.py:233-235 | zero flow·cp raises ZeroDivisionError; R_local·R_int < 0 gives a complex root and = 0 a division by zero; positive resistances, length and flow give a result strictly above R_local |
| DoubleU.UbwtAboveLocal | bhr/double_u_borehole.py:235 | wherever coth(η) is defined, R_local·η·coth(η) > R_local for R_local > 0 and η > 0 |
| DoubleU.UbwtCombinationAsWritten | bhr/double_u_borehole.py:233-235 | as written, the step always fails |
| DoubleU.UbwtAsWrittenRaises | bhr/double_u_borehole.py:235 | where the intended value exists, the written method raises NameError from `coth` |
| DoubleU.DoubleUTube.constructor | bhr/double_u_borehole.py:27-58 | stores the validated geometry and arrangement; no pipe resistance yet |
| DoubleU.DoubleUTube.Create | bhr/double_u_borehole.py:11-58 | construction succeeds exactly when validation does, with its error otherwise, and the object holds the validated geometry and arrangement |
| DoubleU.DoubleUTube.PipeResistAfter | bhr/double_u_borehole.py:80 | the stored pipe resistance becomes the computed one, and stays as it was when that computation raises |
| DoubleU.DoubleUTube.B1For | bhr/double_u_borehole.py:80-84 | b1 of the pipe's resistance, or the pipe's error |
| DoubleU.DoubleUTube.UpdateB1 | bhr/double_u_borehole.py:60-84 | returns b1 and overwrites `pipe_resist` with the pipe's resistance |
| DoubleU.DoubleUTube.LocalFor | bhr/double_u_borehole.py:101-120 | the b1 error is passed on; k_g = 0 fails |
| DoubleU.DoubleUTube.InternalFor | bhr/double_u_borehole.py:136-185 | the b1 error is passed on; k_g = 0 fails |
| DoubleU.DoubleUTube.CalcBhResistLocal | bhr/double_u_borehole.py:86-120 | returns the local resistance; the stored pipe resistance is refreshed first |
| DoubleU.DoubleUTube.CalcInternalResist | bhr/double_u_borehole.py:122-185 | returns the internal resistance; the stored pipe resistance is refreshed first |
| DoubleU.DoubleUTube.EffectiveUhfFor | bhr/double_u_borehole.py:204-211 | success needs both resistances, and once both exist the result is exactly the uniform-heat-flux combination of the local and internal resistances with the borehole length, cp and flow; it is at least the local resistance when R_int > 0 |
| DoubleU.DoubleUTube.CalcEffectiveBhResistanceUhf | bhr/double_u_borehole.py:187-211 | returns that value and refreshes the stored pipe resistance |
| DoubleU.DoubleUTube.EffectiveUbwtFor | bhr/double_u_borehole.py:230-237 | success needs both resistances, and once both exist the result is exactly R_local·η·coth(η) of the local and internal resistances with the borehole length, cp and flow; with positive resistances, length and flow·cp it strictly exceeds the local resistance |
| DoubleU.DoubleUTube.CalcEffectiveBhResistanceUbwt | bhr/double_u_borehole.py:213-237 | returns that value and refreshes the stored pipe resistance |
| Dispatcher.UpperChar | bhr/borehole.py:34 | an upper-cased character is never lower-case, leaves non-letters alone, and maps a..z onto A..Z in order |
| Dispatcher.Upper | bhr/borehole.py:34 | `.upper()` keeps the length and upper-cases each character |
| Dispatcher.UpperIdempotent | bhr/borehole.py:44 | upper-casing twice is upper-casing once |
| Dispatcher.BoreholeTypeNamed | bhr/borehole.py:35-42 | exactly SINGLE_U_TUBE, DOUBLE_U_TUBE and COAXIAL are accepted, each to the type of that name; anything else raises LookupError |
| Dispatcher.ParseBoreholeType | bhr/borehole.py:34-42 | the type parses exactly when the upper-cased string is one of the three names, to the type of that name; LookupError otherwise |
| Dispatcher.BoundaryConditionNamed | bhr/borehole.py:45-50 | exactly UNIFORM_HEAT_FLUX and UNIFORM_BOREHOLE_WALL_TEMP are accepted; anything else raises LookupError |
| Dispatcher.ParseBoundaryCondition | bhr/borehole.py:44-50 | the condition parses exactly when the upper-cased string is one of the two names; LookupError otherwise |
| Dispatcher.ParseIgnoresCase | bhr/borehole.py:34-50 | parsing a string and parsing its upper-cased form agree, for both enums |
| Dispatcher.NameIsUpper | bhr/borehole.py:35-49 | every member name is already upper-case |
| Dispatcher.ParseName | bhr/borehole.py:34-50 | any string whose upper-cased form is a member's name, such as its lower-case spelling, parses to that member |
| Dispatcher.Lookup | bhr/borehole.py:52-57 | `d[key]` yields the entry when present and raises KeyError otherwise |
| Dispatcher.BoreholeTypeOf | bhr/borehole.py:34-42 | a missing key raises KeyError, a non-string raises AttributeError (no `.upper`), a string is parsed |
| Dispatcher.BoundaryConditionOf | bhr/borehole.py:44-50 | a missing key raises KeyError, a non-string raises AttributeError, a string is parsed |
| Dispatcher.CommonOf | bhr/borehole.py:52-57 | the six top-level reads succeed exactly when all six keys are present (KeyError otherwise) and yield their entries |
| Dispatcher.UTubeOf | bhr/borehole.py:60-63 | the U-tube section reads succeed exactly when the section is a dictionary with the four keys; TypeError for a non-dictionary, KeyError for a missing key |
| Dispatcher.CoaxialOf | bhr/borehole.py:98-103 | the coaxial section reads succeed exactly when the section is a dictionary with its six keys |
| Dispatcher.ArgsOf | bhr/borehole.py:52-103 | all reads succeed exactly when the common keys, the type's section and its keys (plus `pipe_inlet_arrangement` for double U) are present; a missing common key is reported first |
| Dispatcher.UTubeNumbersOf | bhr/borehole.py:65-74 | construction needs all eight inputs to be numbers; TypeError otherwise |
| Dispatcher.UTubePipe | bhr/u_tube.py:17-27 | the U-tube's pipe has twice the borehole length and is given by its outer diameter, so its dimensions settle exactly when DR ≠ 0 |
| Dispatcher.BuildCheck | bhr/borehole.py:59-117 | coaxial builds; a U-tube needs numeric inputs (TypeError) and pipe dimensions; a double U-tube with a non-string arrangement raises AssertionError; success implies the pipe dimensions exist |
| Dispatcher.Build | bhr/borehole.py:59-117 | builds the component exactly when those checks pass, with their error otherwise, and the result is fresh and built from the inputs |
| Dispatcher.MethodsOf | bhr/double_u_borehole.py:9-237 | both U-tube classes have every `Pipe` method (through `UTube`); both have `calc_effective_bh_resistance_uhf`; only the double U-tube has `calc_effective_bh_resistance_ubwt`; only the coaxial stub has `calc_bh_resist`. The sets are the definitions at bhr/pipe.py:49-257, bhr/single_u_borehole.py:41-200, bhr/double_u_borehole.py:60-237 and bhr/coaxial_borehole.py:32-38 |
| Dispatcher.RoutedMethodAsWritten | bhr/borehole.py:127-131 | as written, the heat-flux route names a method both U-tubes have and the coaxial stub lacks |
| Dispatcher.UwtRouteAsWrittenUndefined | bhr/borehole.py:130-131 | as written, the wall-temperature route names a method no component defines; the heat-flux route exists for both U-tubes |
| Dispatcher.RoutedMethod | bhr/borehole.py:127-131 | the heat-flux route is unchanged, the routed name always exists on the double U-tube, and never on the coaxial stub |
| Dispatcher.UwtRouteReachesDoubleU | bhr/double_u_borehole.py:213 | the corrected wall-temperature route exists exactly on the double U-tube |
| Dispatcher.Routed | bhr/borehole.py:127-131 | a missing method raises AttributeError; otherwise the result is exactly the component's uniform-heat-flux or wall-temperature effective resistance |
| Dispatcher.Borehole.constructor | bhr/borehole.py:9-12 | a fresh borehole has type, boundary condition and component all None |
| Dispatcher.Borehole.InitFromDict | bhr/borehole.py:32-120 | a bad type changes nothing; a valid type is stored before the condition is parsed, so a bad condition leaves the new type with the old component; a read or build failure leaves the component as it was; success stores a fresh component built from the inputs; a component never exists without a condition |
| Dispatcher.Borehole.CalcBhResist | bhr/borehole.py:122-131 | TypeError while no component exists; None when no condition is stored; otherwise exactly the routed result, with the component's state moved as its method states and nothing changed when the method is missing |

## Left out

- Floating point: `real` is exact, so rounding, overflow to infinity and NaN are not modelled.
- Numeric values of ln, exp, fractional powers, cosh and sinh are not modelled. The model requires only the laws a property needs, so decimal expected values of the tests are not proved (except the geometry of the 1-inch pipe, which needs none of them).
- Complex results: where Python produces a complex number from a negative base and a fractional exponent, the model stops with `ComplexValue`. Python carries the complex value on. It may raise later, for instance in `math.log` or a comparison, or it may be returned from `calc_conv_resist` or `calc_resist` as a complex resistance without any exception.
- `bhr.fluid` is not part of this model. `get_fluid` and the fluid tables are a `Fluid` value passed in by the caller, with the fluid type and concentration keys read but not interpreted.
- `bhr/enums.py` is not part of this model. The enums are closed datatypes whose names are the strings the source compares against.
- `Dispatcher.Upper` upper-cases ASCII letters only; Python's `str.upper` also maps other Unicode letters.
- `Dispatcher.UTubeNumbersOf`: a non-number input raises TypeError at construction. Python would instead fail (or succeed) later, wherever that value is first used in arithmetic.
- The constructor glue in `bhr/u_tube.py` and `bhr/coaxial_borehole.py` passes positional arguments to `Pipe`, whose constructor takes one dictionary. As written, every construction in `init_from_dict` raises TypeError. The model builds the U-tube pipe as evidently intended: outer diameter, dimension ratio, twice the borehole length, pipe conductivity.
- `SingleU.Parameters`: θ₂ uses the `pipe_outer_diameter` constructor argument. The source reads `self.pipe_outer_diameter` (bhr/single_u_borehole.py:27), which neither `UTube` nor `Pipe` sets, so even with the glue above repaired Python would raise AttributeError there. The model repairs this too, as `bhr/tests/test_single_u_borehole.py:26` expects (θ₂ = 3).
- `bhr/coaxial_borehole.py` and `bhr/coaxial.py` are stubs. A coaxial component is built without behaviour, and both of its routes raise AttributeError.
- `calc_pipe_resist`, called by both U-tube classes, is not defined in the files modelled. It is bound to the pipe's `calc_resist`.
- `init_single_u_borehole`, `init_double_u_borehole` and `init_coaxial_borehole` (bhr/borehole.py:14-30) call constructors without their required arguments. They always raise TypeError and are not modelled.
- The `NotImplementedError` branch of `init_from_dict` cannot be reached with a closed enum of three types.
- `bhr/2_u_borehole_math.py` (a script duplicating the double-U formulas), `bhr/double_u_tube.py` (a stub) and the documentation and packaging files are not part of this model.
- `DoubleU.LocalResistance`, `DoubleU.InternalDiagonal`, `DoubleU.InternalAdjacent`: beyond their error cases, the contracts do not state the closed-form values, since these are log and polynomial terms of uninterpreted functions.
- `SingleU.AverageResistance`, `SingleU.TotalInternalResistance`: the same; only the β = 1 singularity and the error classes are stated.
- `Pipes.Pipe.FrictionFactor`: the function's own contract states only its failure on a flow without a Reynolds number. The regimes are stated by `Pipes.Pipe.FrictionFactorRegimes`.
- `DoubleU.DoubleUTube.LocalFor`, `DoubleU.DoubleUTube.InternalFor`: state error propagation only, for the same reason as the closed forms they evaluate.

## Findings

| source | as written | input that shows it | evidently intended | confidence | as-written member | corrected member |
|---|---|---|---|---|---|---|
| bhr/utilities.py:28-29 | `coth` calls `cosh` and `sinh`, but the module imports only `exp` (bhr/utilities.py:1), so every call raises NameError; the double-U wall-temperature resistance (bhr/double_u_borehole.py:235) therefore always raises | x = 1.0, where cosh(1)/sinh(1) exists; any positive resistances, length and flow for the wall-temperature method | coth(x) = cosh(x)/sinh(x), defined for x ≠ 0 | not executed | Utilities.CothAsWritten, Utilities.CothAsWrittenFailsWhereDefined, DoubleU.UbwtCombinationAsWritten, DoubleU.UbwtAsWrittenRaises | Utilities.Coth, Utilities.CothScaledAboveOne, DoubleU.UbwtCombination |
| bhr/borehole.py:130-131 | the uniform-borehole-wall-temperature route calls `calc_effective_bh_resistance_uwt`, which no component defines; the double U-tube has `calc_effective_bh_resistance_ubwt` (bhr/double_u_borehole.py:213) | a double U-tube borehole with boundary condition "UNIFORM_BOREHOLE_WALL_TEMP" raises AttributeError | route to `calc_effective_bh_resistance_ubwt` | not executed | Dispatcher.RoutedMethodAsWritten, Dispatcher.UwtRouteAsWrittenUndefined | Dispatcher.RoutedMethod, Dispatcher.UwtRouteReachesDoubleU, Dispatcher.Borehole.CalcBhResist |
