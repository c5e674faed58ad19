/**
 * The fluid-property capability the pipe and borehole code consumes
 * (`self.fluid.density(temp)`, `.mu`, `.cp`, `.k`, `.pr`). Property tables
 * are not modelled: each property is an uninterpreted function of the
 * temperature in degrees Celsius.
 */
module Fluids {

  datatype Fluid = Fluid(
    density: real -> real,  // kg/m3
    mu: real -> real,       // dynamic viscosity, Pa s
    cp: real -> real,       // specific heat, J/(kg K)
    k: real -> real,        // thermal conductivity, W/(m K)
    pr: real -> real)       // Prandtl number

  /** Every physical property is positive at every temperature. */
  ghost predicate Physical(f: Fluid) {
    && (forall t :: f.density(t) > 0.0)
    && (forall t :: f.mu(t) > 0.0)
    && (forall t :: f.cp(t) > 0.0)
    && (forall t :: f.k(t) > 0.0)
    && (forall t :: f.pr(t) > 0.0)
  }
}
