/** The instationary nonlinear discretization: a validated, immutable bundle of
    a nonlinear operator A, a linear right-hand side F and initial data U0,
    together with the time horizon and step count of the explicit Euler scheme
    that solves dU/dt = -A(U, t; mu) + F(t; mu), U(0) = U0(mu). */
module Nonlinear {
  import opened Basics
  import opened Parameters
  import opened Operators

  /** Opaque handle for the parameter space object; it is stored, never inspected. */
  datatype ParameterSpace = ParameterSpace(handle: nat)

  /** Opaque handle for the visualizer callable; it is stored, never inspected. */
  datatype Visualizer = Visualizer(handle: nat)

  /** A constructed discretization. `visualize` is `None` when the object has
      no visualize capability; `loggingDisabled` is the only state that can
      change after construction. */
  datatype Discretization = Discretization(
    operator: Operator,
    rhs: Operator,
    initialData: Operator,
    parameterType: ParameterType,
    providedType: ParameterType,
    T: real,
    nt: int,
    parameterSpace: Option<ParameterSpace>,
    visualize: Option<Visualizer>,
    solutionDim: nat,
    name: Option<string>,
    loggingDisabled: bool)

  /** The components the discretization provides itself rather than taking
      from the caller: the scalar time. */
  const TimeProvided: ParameterType := map[TimeComponent := []]

  /** The name under which a bare initial vector is wrapped. */
  const InitialDataName: string := "initial_data"

  // ---------------------------------------------------------------------------
  // Construction

  /** The arguments have the required types: an operator, a linear operator,
      and a vector array or operator for the initial data. */
  predicate WellTyped(operator: Argument, rhs: Argument, initialData: Argument) {
    && operator.OperatorArg?
    && rhs.OperatorArg? && rhs.op.kind.Linear?
    && (initialData.VectorArg? || initialData.OperatorArg?)
  }

  /** The range dimension of the initial data as given by the caller. */
  function InitialRange(initialData: Argument): nat
    requires !initialData.OtherArg?
  {
    if initialData.VectorArg? then initialData.vector.dim else initialData.op.dimRange
  }

  /** Reference statement of when construction is possible: the arguments are
      well typed, operator initial data takes no input, A maps its space to
      itself, F and the initial data live in that same space, and F has a
      one-dimensional range. */
  predicate Admissible(operator: Argument, rhs: Argument, initialData: Argument) {
    && WellTyped(operator, rhs, initialData)
    && (initialData.OperatorArg? ==> initialData.op.dimSource == 0)
    && operator.op.dimSource == operator.op.dimRange == rhs.op.dimSource == InitialRange(initialData)
    && rhs.op.dimRange == 1
  }

  /** The invariant every constructed discretization satisfies. */
  ghost predicate Valid(d: Discretization) {
    && d.rhs.kind.Linear?
    && d.initialData.dimSource == 0
    && d.operator.dimSource == d.operator.dimRange == d.rhs.dimSource == d.initialData.dimRange
    && d.rhs.dimRange == 1
    && d.solutionDim == d.operator.dimRange
    && d.providedType == TimeProvided
    && d.parameterType == BuildParameterType(
         [d.operator.parameterType, d.rhs.parameterType, d.initialData.parameterType], TimeProvided)
  }

  /** Validated construction. The assertions of the Python constructor are checked in
      their order: operator type, rhs type, initial data type, initial data
      source dimension, the chained dimension equality, the rhs range. A bare
      vector array given as initial data is wrapped as a constant operator. */
  function Construct(
    operator: Argument, rhs: Argument, initialData: Argument, T: real, nt: int,
    parameterSpace: Option<ParameterSpace>, visualizer: Option<Visualizer>, name: Option<string>
  ): (r: Result<Discretization>)
    ensures r.Success? <==> Admissible(operator, rhs, initialData)
    ensures r.Failure? ==> (r.error == TypeMismatch <==> !WellTyped(operator, rhs, initialData))
    ensures r.Failure? ==> r.error != ConfigConflict
    ensures r.Success? ==> Valid(r.value)
    ensures r.Success? ==> r.value.operator == operator.op && r.value.rhs == rhs.op
    ensures r.Success? && initialData.VectorArg? ==>
              r.value.initialData == ConstantOperator(initialData.vector, InitialDataName)
    ensures r.Success? && initialData.OperatorArg? ==> r.value.initialData == initialData.op
    ensures r.Success? ==> r.value.solutionDim == operator.op.dimRange
    ensures r.Success? ==> r.value.T == T && r.value.nt == nt
    ensures r.Success? ==> r.value.parameterSpace == parameterSpace && r.value.name == name
    ensures r.Success? ==> r.value.visualize == visualizer && !r.value.loggingDisabled
    ensures r.Success? ==> TimeComponent in r.value.providedType && TimeComponent !in r.value.parameterType
    ensures r.Success? ==> forall k :: k in r.value.parameterType <==>
              && k != TimeComponent
              && (k in operator.op.parameterType || k in rhs.op.parameterType
                  || k in r.value.initialData.parameterType)
  {
    if !operator.OperatorArg? then Failure(TypeMismatch)
    else if !(rhs.OperatorArg? && rhs.op.kind.Linear?) then Failure(TypeMismatch)
    else if initialData.OtherArg? then Failure(TypeMismatch)
    else if initialData.OperatorArg? && initialData.op.dimSource != 0 then Failure(DimensionMismatch)
    else
      var init := if initialData.VectorArg? then ConstantOperator(initialData.vector, InitialDataName)
                  else initialData.op;
      var a := operator.op;
      var f := rhs.op;
      if !(a.dimSource == a.dimRange && a.dimRange == f.dimSource && f.dimSource == init.dimRange) then
        Failure(DimensionMismatch)
      else if f.dimRange != 1 then Failure(DimensionMismatch)
      else
        var types := [a.parameterType, f.parameterType, init.parameterType];
        assert forall k :: InheritedFrom(types, k) <==>
                 k in a.parameterType || k in f.parameterType || k in init.parameterType by {
          assert types[0] == a.parameterType && types[1] == f.parameterType && types[2] == init.parameterType;
        }
        Success(Discretization(
          a, f, init, BuildParameterType(types, TimeProvided), TimeProvided,
          T, nt, parameterSpace, visualizer, a.dimRange, name, false))
  }

  // ---------------------------------------------------------------------------
  // Re-derivation with overrides

  /** The keyword overrides a re-derivation accepts: one optional entry per
      constructor argument, plus an `operators` bundle that may carry new
      `operator` and `rhs` entries. An absent entry means "keep the current
      value"; for the optional fields, `Some(None)` overrides with `None`. */
  datatype Overrides = Overrides(
    operator: Option<Argument>,
    rhs: Option<Argument>,
    initialData: Option<Argument>,
    T: Option<real>,
    nt: Option<int>,
    parameterSpace: Option<Option<ParameterSpace>>,
    visualizer: Option<Option<Visualizer>>,
    name: Option<Option<string>>,
    operators: Option<map<string, Argument>>)

  /** No override at all. */
  const NoOverrides: Overrides := Overrides(None, None, None, None, None, None, None, None, None)

  /** Reference statement of the two rejected override sets: an operator bundle
      given together with `operator` or `rhs`, or a bundle with a key other
      than `operator` and `rhs`. */
  predicate BundleConflicts(o: Overrides) {
    o.operators.Some? &&
    (o.operator.Some? || o.rhs.Some? || exists k :: k in o.operators.value && k != "operator" && k != "rhs")
  }

  /** The entry `key` of the bundle, if the bundle exists and has that key. */
  function BundleEntry(o: Overrides, key: string): Option<Argument> {
    if o.operators.Some? && key in o.operators.value then Some(o.operators.value[key]) else None
  }

  /** The override of `operator` that takes effect, bundle included. */
  function EffectiveOperator(o: Overrides): Option<Argument> {
    BundleEntry(o, "operator").Or(o.operator)
  }

  /** The override of `rhs` that takes effect, bundle included. */
  function EffectiveRhs(o: Overrides): Option<Argument> {
    BundleEntry(o, "rhs").Or(o.rhs)
  }

  /** The overrides with the bundle dissolved into individual `operator` and
      `rhs` entries; a bundle entry replaces an individual one. */
  function Flatten(o: Overrides): (f: Overrides)
    ensures f.operators.None?
    ensures f.operator == EffectiveOperator(o)
    ensures f.rhs == EffectiveRhs(o)
    ensures f.(operator := o.operator, rhs := o.rhs, operators := o.operators) == o
  {
    match o.operators
    case None => o
    case Some(bundle) =>
      o.(operator := if "operator" in bundle then Some(bundle["operator"]) else o.operator,
         rhs := if "rhs" in bundle then Some(bundle["rhs"]) else o.rhs,
         operators := None)
  }

  /** Re-run the constructor on the current fields of `d` with the entries of
      `o` replacing them. Modelling assumption: this is what the library's
      re-derivation through the constructor does. `o` carries no bundle here. */
  function ViaInit(d: Discretization, o: Overrides): Result<Discretization> {
    Construct(
      o.operator.GetOr(OperatorArg(d.operator)),
      o.rhs.GetOr(OperatorArg(d.rhs)),
      o.initialData.GetOr(OperatorArg(d.initialData)),
      o.T.GetOr(d.T),
      o.nt.GetOr(d.nt),
      o.parameterSpace.GetOr(d.parameterSpace),
      o.visualizer.GetOr(d.visualize),
      o.name.GetOr(d.name))
  }

  /** A new discretization equal to `d` except for the overridden fields, fully
      re-validated. A visualizer that is not overridden is carried over. */
  function With(d: Discretization, o: Overrides): (r: Result<Discretization>)
    ensures r == Failure(ConfigConflict) <==> BundleConflicts(o)
    ensures r.Success? <==>
              && !BundleConflicts(o)
              && Admissible(EffectiveOperator(o).GetOr(OperatorArg(d.operator)),
                            EffectiveRhs(o).GetOr(OperatorArg(d.rhs)),
                            o.initialData.GetOr(OperatorArg(d.initialData)))
    ensures r.Success? ==> Valid(r.value) && !r.value.loggingDisabled
    ensures r.Success? ==> r.value.T == o.T.GetOr(d.T) && r.value.nt == o.nt.GetOr(d.nt)
    ensures r.Success? ==> r.value.parameterSpace == o.parameterSpace.GetOr(d.parameterSpace)
    ensures r.Success? ==> r.value.name == o.name.GetOr(d.name)
    ensures r.Success? ==> r.value.visualize == o.visualizer.GetOr(d.visualize)
    ensures r.Success? ==> OperatorArg(r.value.operator) == EffectiveOperator(o).GetOr(OperatorArg(d.operator))
    ensures r.Success? ==> OperatorArg(r.value.rhs) == EffectiveRhs(o).GetOr(OperatorArg(d.rhs))
    ensures r.Success? && o.initialData.None? ==> r.value.initialData == d.initialData
  {
    if o.operators.Some? && (o.operator.Some? || o.rhs.Some?) then Failure(ConfigConflict)
    else if o.operators.Some? && !(o.operators.value.Keys <= {"operator", "rhs"}) then Failure(ConfigConflict)
    else
      var withVisualizer := if o.visualizer.None? then o.(visualizer := Some(d.visualize)) else o;
      ViaInit(d, Flatten(withVisualizer))
  }

  // ---------------------------------------------------------------------------
  // Solving

  /** The call handed to the explicit Euler integrator: the operators, the
      initial vector, the time interval, the step count and the parameter
      values bound to A and F. */
  datatype EulerCall = EulerCall(
    A: Operator, F: Operator, U0: VectorArray, t0: real, t1: real, nt: int,
    muA: Parameter, muF: Parameter)

  /** What solving for one parameter value does: whether the informational
      record is emitted, the parameter value the initial data is evaluated
      under, and the integrator call. */
  datatype SolveCall = SolveCall(logged: bool, initialBinding: Parameter, integrate: EulerCall)

  /** The time component fixed at zero, injected into the bindings of A and F. */
  const TimeZero: Parameter := map[TimeComponent := Scalar(0.0)]

  /** True when `binding` holds exactly the components of `mu` that the
      parameter type `t` names, plus the time component set to zero. */
  ghost predicate TimeBinding(binding: Parameter, mu: Parameter, t: ParameterType) {
    && TimeComponent in binding && binding[TimeComponent] == Scalar(0.0)
    && (forall k :: k in binding && k != TimeComponent ==> k in mu && k in t && binding[k] == mu[k])
    && (forall k :: k in mu && k in t ==> k in binding)
  }

  /** Set up the solution for the parameter value `mu`; `apply` stands for the
      evaluation of a non-constant initial-data operator. */
  function SolveSetup(d: Discretization, mu: Parameter, apply: (Operator, Parameter) -> VectorArray): (r: SolveCall)
    ensures r.logged <==> !d.loggingDisabled
    ensures TimeBinding(r.integrate.muA, mu, d.operator.parameterType)
    ensures TimeBinding(r.integrate.muF, mu, d.rhs.parameterType)
    ensures forall k :: k in r.initialBinding ==> k in mu && k in d.initialData.parameterType && r.initialBinding[k] == mu[k]
    ensures forall k :: k in mu && k in d.initialData.parameterType ==> k in r.initialBinding
    ensures r.integrate.A == d.operator && r.integrate.F == d.rhs
    ensures r.integrate.U0 == ApplyToEmpty(d.initialData, r.initialBinding, apply)
    ensures r.integrate.t0 == 0.0 && r.integrate.t1 == d.T && r.integrate.nt == d.nt
  {
    var muA := MapParameter(mu, d.operator.parameterType, TimeZero);
    var muF := MapParameter(mu, d.rhs.parameterType, TimeZero);
    var muU0 := MapParameter(mu, d.initialData.parameterType, map[]);
    var u0 := ApplyToEmpty(d.initialData, muU0, apply);
    SolveCall(!d.loggingDisabled, muU0, EulerCall(d.operator, d.rhs, u0, 0.0, d.T, d.nt, muA, muF))
  }

  // ---------------------------------------------------------------------------
  // Logging toggle

  /** Whether logging is disabled for `d`. */
  function LoggingDisabled(d: Discretization): bool {
    d.loggingDisabled
  }

  /** Disable logging (or, with `doit` false, enable it); nothing else changes. */
  function DisableLogging(d: Discretization, doit: bool): (r: Discretization)
    ensures LoggingDisabled(r) == doit
    ensures r.(loggingDisabled := d.loggingDisabled) == d
  {
    d.(loggingDisabled := doit)
  }

  /** Enable logging (or, with `doit` false, disable it); nothing else changes. */
  function EnableLogging(d: Discretization, doit: bool): (r: Discretization)
    ensures LoggingDisabled(r) == !doit
    ensures r.(loggingDisabled := d.loggingDisabled) == d
  {
    d.(loggingDisabled := !doit)
  }
}
