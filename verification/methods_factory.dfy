/**
 * The two `DualMethodsFactory` functions, modelled as the mapping from a
 * method name and a tuning parameter to the constructor configuration they
 * select. The current factory also asks every method to maximise
 * (`sense='max'`); the earlier one does not pass a sense.
 */
module MethodsFactory {
  import opened Wrappers
  import U = Universal
  import QM = QuasiMonotone
  import B = Bundle

  /** `AVAILABLE_METHODS`, the same in both factories. */
  const AvailableMethods: seq<string> :=
    ["SG 1/k", "SG const", "UPGM", "UDGM", "UFGM", "DSA", "TA 1", "TA 2", "CP", "bundle"]

  /**
   * A constructor call the factory makes. `stepsize0 = None` leaves the
   * subgradient constructor's own default in place.
   */
  datatype Config =
    | SGConfig(rule: string, stepsize0: Option<real>)
    | UniversalConfig(kind: U.Kind, epsilon: real)
    | DSAConfig(gamma: real)
    | TAConfig(variant: int, gamma: real)
    | CPConfig(epsilon: real)
    | BundleConfig(epsilon: real, mu: real)

  /** What the factory returns: the constructor call and whether it asks for maximisation. */
  datatype Request = Request(config: Config, senseMax: bool)

  /** The module-level defaults a factory falls back to when `param == 0`. */
  datatype Defaults = Defaults(ugmEpsilon: real, gamma: real, cpEpsilon: real, mu: real)

  /** The current package's defaults: `UGM_DEFAULT_EPSILON`, `METHOD_QUASI_MONOTONE_DEFAULT_GAMMA`, `DEFAULT_EPSILON`, `DEFAULT_MU`. */
  const CurrentDefaults: Defaults := Defaults(U.DefaultEpsilon, QM.DefaultGamma, B.DefaultEpsilon, B.DefaultMu)

  /** `param` itself, or the default when `param == 0`. */
  function OrDefault(param: real, default: real): real {
    if param == 0.0 then default else param
  }

  /** The if/elif chain both factories share; an unknown name falls off its end. */
  function Select(defaults: Defaults, name: string, param: real): (c: Option<Config>)
    ensures c.Some? <==> name in AvailableMethods
  {
    if name == "SG 1/k" then Some(SGConfig("1/k", if param == 0.0 then None else Some(param)))
    else if name == "SG const" then Some(SGConfig("constant", if param == 0.0 then None else Some(param)))
    else if name == "UPGM" then Some(UniversalConfig(U.Primal, OrDefault(param, defaults.ugmEpsilon)))
    else if name == "UDGM" then Some(UniversalConfig(U.Dual, OrDefault(param, defaults.ugmEpsilon)))
    else if name == "UFGM" then Some(UniversalConfig(U.Fast, OrDefault(param, defaults.ugmEpsilon)))
    else if name == "DSA" then Some(DSAConfig(OrDefault(param, defaults.gamma)))
    else if name == "TA 1" then Some(TAConfig(1, OrDefault(param, defaults.gamma)))
    else if name == "TA 2" then Some(TAConfig(2, OrDefault(param, defaults.gamma)))
    else if name == "CP" then Some(CPConfig(OrDefault(param, defaults.cpEpsilon)))
    else if name == "bundle" then Some(BundleConfig(OrDefault(param, defaults.cpEpsilon), defaults.mu))
    else None
  }

  /** `nsopy.methods_factory.DualMethodsFactory`: the current defaults, and every method maximises. */
  function DualMethodsFactory(name: string, param: real): (r: Option<Request>)
    ensures r.Some? <==> name in AvailableMethods
    ensures r.Some? ==> r.value.senseMax
  {
    match Select(CurrentDefaults, name, param)
    case None => None
    case Some(c) => Some(Request(c, true))
  }

  /**
   * The earlier `methods.methods_factory.DualMethodsFactory`: the same
   * mapping and no sense. Its default gamma is the earlier quasi-monotone
   * module's 1.0; the other defaults are passed in, since the modules
   * defining them are not part of this model.
   */
  function LegacyDualMethodsFactory(ugmEpsilon: real, cpEpsilon: real, mu: real, name: string, param: real): (r: Option<Request>)
    ensures r.Some? <==> name in AvailableMethods
    ensures r.Some? ==> !r.value.senseMax
  {
    match Select(Defaults(ugmEpsilon, QM.DefaultGamma, cpEpsilon, mu), name, param)
    case None => None
    case Some(c) => Some(Request(c, false))
  }

  /** The name under which the factory selects a configuration. */
  function NameOf(c: Config): string {
    match c
    case SGConfig(rule, _) => if rule == "1/k" then "SG 1/k" else "SG const"
    case UniversalConfig(kind, _) => U.KindName(kind)
    case DSAConfig(_) => "DSA"
    case TAConfig(variant, _) => if variant == 1 then "TA 1" else "TA 2"
    case CPConfig(_) => "CP"
    case BundleConfig(_, _) => "bundle"
  }

  /** The tuning value a configuration carries: the step size, epsilon or gamma. */
  function TunedValue(c: Config): Option<real> {
    match c
    case SGConfig(_, s0) => s0
    case UniversalConfig(_, epsilon) => Some(epsilon)
    case DSAConfig(gamma) => Some(gamma)
    case TAConfig(_, gamma) => Some(gamma)
    case CPConfig(epsilon) => Some(epsilon)
    case BundleConfig(epsilon, _) => Some(epsilon)
  }

  /** The ten names are pairwise distinct. */
  lemma AvailableMethodsDistinct()
    ensures |AvailableMethods| == 10
    ensures forall i, j :: 0 <= i < j < |AvailableMethods| ==> AvailableMethods[i] != AvailableMethods[j]
  {
  }

  /**
   * Every available name selects a configuration of that very method (the
   * names are recovered from the configurations, so no two names share
   * one), and the parameter is used as given unless it is 0, when the
   * subgradient method keeps its constructor default and the others take
   * the module default of their family.
   */
  lemma SelectRoundTrip(defaults: Defaults, name: string, param: real)
    requires name in AvailableMethods
    ensures NameOf(Select(defaults, name, param).value) == name
    ensures param != 0.0 ==> TunedValue(Select(defaults, name, param).value) == Some(param)
    ensures param == 0.0 && (name == "SG 1/k" || name == "SG const") ==>
              TunedValue(Select(defaults, name, param).value).None?
    ensures param == 0.0 && name in ["UPGM", "UDGM", "UFGM"] ==>
              TunedValue(Select(defaults, name, param).value) == Some(defaults.ugmEpsilon)
    ensures param == 0.0 && name in ["DSA", "TA 1", "TA 2"] ==>
              TunedValue(Select(defaults, name, param).value) == Some(defaults.gamma)
    ensures param == 0.0 && name in ["CP", "bundle"] ==>
              TunedValue(Select(defaults, name, param).value) == Some(defaults.cpEpsilon)
  {
  }

  /** The bundle method always gets the default `mu`, whatever `param` is. */
  lemma BundleKeepsDefaultMu(defaults: Defaults, param: real)
    ensures Select(defaults, "bundle", param) == Some(BundleConfig(OrDefault(param, defaults.cpEpsilon), defaults.mu))
  {
  }

  /**
   * With a non-zero default gamma, the quasi-monotone configurations the
   * factory selects never fail their first step: the variants are 1 and 2,
   * and gamma is either a non-zero `param` or the default.
   */
  lemma FactoryAvoidsBadConfig(defaults: Defaults, param: real)
    requires defaults.gamma != 0.0
    ensures Select(defaults, "TA 1", param).value == TAConfig(1, OrDefault(param, defaults.gamma))
    ensures Select(defaults, "TA 2", param).value == TAConfig(2, OrDefault(param, defaults.gamma))
    ensures !QM.BadConfig(QM.DSA, Select(defaults, "DSA", param).value.gamma)
    ensures !QM.BadConfig(QM.TA(1), Select(defaults, "TA 1", param).value.gamma)
    ensures !QM.BadConfig(QM.TA(2), Select(defaults, "TA 2", param).value.gamma)
  {
  }

  /**
   * The two factories differ only in their defaults and in the sense they
   * request: with the same defaults they select the same configuration.
   */
  lemma FactoriesAgree(name: string, param: real)
    ensures DualMethodsFactory(name, param).Some? ==>
              LegacyDualMethodsFactory(U.DefaultEpsilon, B.DefaultEpsilon, B.DefaultMu, name, param)
              == Some(DualMethodsFactory(name, param).value.(senseMax := false))
  {
  }
}
