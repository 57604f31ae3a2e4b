/** Properties that relate several operations of the discretization:
    re-derivation as a functional update, the parameter bindings of a solve,
    and the logging toggle. */
module Properties {
  import opened Basics
  import opened Parameters
  import opened Operators
  import opened Nonlinear

  // ---------------------------------------------------------------------------
  // Re-derivation

  /** Re-deriving a constructed discretization without overrides rebuilds it
      unchanged, except that the new object starts with logging enabled. */
  lemma RederiveWithoutOverrides(d: Discretization)
    requires Valid(d)
    ensures With(d, NoOverrides) == Success(d.(loggingDisabled := false))
  {
  }

  /** Doubling the horizon keeps the operators and the step count. */
  lemma WithDoubledHorizon(d: Discretization)
    requires Valid(d)
    ensures With(d, NoOverrides.(T := Some(2.0 * d.T))).Success?
    ensures var d' := With(d, NoOverrides.(T := Some(2.0 * d.T))).value;
            && d'.T == 2.0 * d.T && d'.nt == d.nt
            && d'.operator == d.operator && d'.rhs == d.rhs && d'.initialData == d.initialData
  {
  }

  /** The single override set equivalent to applying `o1` and then `o2`: the
      entries of `o2` win, bundles dissolved first. */
  function Then(o1: Overrides, o2: Overrides): Overrides {
    var f1 := Flatten(o1);
    var f2 := Flatten(o2);
    Overrides(
      f2.operator.Or(f1.operator), f2.rhs.Or(f1.rhs), f2.initialData.Or(f1.initialData),
      f2.T.Or(f1.T), f2.nt.Or(f1.nt), f2.parameterSpace.Or(f1.parameterSpace),
      f2.visualizer.Or(f1.visualizer), f2.name.Or(f1.name), None)
  }

  /** Passing the wrapped constant operator as initial data gives the same
      discretization as passing the bare vector array it wraps: wrapping
      happens at most once. */
  lemma WrappingIsIdempotent(
    operator: Argument, rhs: Argument, v: VectorArray, T: real, nt: int,
    parameterSpace: Option<ParameterSpace>, visualizer: Option<Visualizer>, name: Option<string>)
    ensures Construct(operator, rhs, OperatorArg(ConstantOperator(v, InitialDataName)), T, nt,
                      parameterSpace, visualizer, name)
         == Construct(operator, rhs, VectorArg(v), T, nt, parameterSpace, visualizer, name)
  {
  }

  /** A re-derivation without conflicting overrides is one constructor call on
      the current fields, with the effective overrides in their place. */
  lemma WithUnfolds(d: Discretization, o: Overrides)
    requires !BundleConflicts(o)
    ensures With(d, o) == Construct(
              EffectiveOperator(o).GetOr(OperatorArg(d.operator)),
              EffectiveRhs(o).GetOr(OperatorArg(d.rhs)),
              o.initialData.GetOr(OperatorArg(d.initialData)),
              o.T.GetOr(d.T), o.nt.GetOr(d.nt), o.parameterSpace.GetOr(d.parameterSpace),
              o.visualizer.GetOr(d.visualize), o.name.GetOr(d.name))
  {
  }

  /** Two successive re-derivations amount to one with the combined overrides:
      nothing of the intermediate object survives except what the overrides
      put there. In particular a bare vector given as initial data in the
      first step is wrapped once and then carried as an operator unchanged. */
  lemma WithComposes(d: Discretization, o1: Overrides, o2: Overrides)
    requires With(d, o1).Success?
    requires !BundleConflicts(o2)
    ensures With(With(d, o1).value, o2) == With(d, Then(o1, o2))
  {
    var d1 := With(d, o1).value;
    var t := Then(o1, o2);
    assert !BundleConflicts(o1);
    assert !BundleConflicts(t);
    WithUnfolds(d1, o2);
    WithUnfolds(d, t);
    var op := EffectiveOperator(o2).GetOr(OperatorArg(d1.operator));
    var rhs := EffectiveRhs(o2).GetOr(OperatorArg(d1.rhs));
    assert op == EffectiveOperator(t).GetOr(OperatorArg(d.operator));
    assert rhs == EffectiveRhs(t).GetOr(OperatorArg(d.rhs));
    var init1 := o2.initialData.GetOr(OperatorArg(d1.initialData));
    var init2 := t.initialData.GetOr(OperatorArg(d.initialData));
    var T := o2.T.GetOr(d1.T);
    var nt := o2.nt.GetOr(d1.nt);
    var space := o2.parameterSpace.GetOr(d1.parameterSpace);
    var vis := o2.visualizer.GetOr(d1.visualize);
    var name := o2.name.GetOr(d1.name);
    assert T == t.T.GetOr(d.T) && nt == t.nt.GetOr(d.nt);
    assert space == t.parameterSpace.GetOr(d.parameterSpace) && name == t.name.GetOr(d.name);
    assert vis == t.visualizer.GetOr(d.visualize);
    if o2.initialData.None? && o1.initialData.Some? && o1.initialData.value.VectorArg? {
      var v := o1.initialData.value.vector;
      assert init1 == OperatorArg(ConstantOperator(v, InitialDataName));
      assert init2 == VectorArg(v);
      WrappingIsIdempotent(op, rhs, v, T, nt, space, vis, name);
    } else {
      assert init1 == init2;
    }
  }

  // ---------------------------------------------------------------------------
  // Solving

  /** Initial data given as a bare vector array is the integrator's initial
      vector, whatever the parameter value and the operator backend. */
  lemma VectorInitialDataIsU0(
    operator: Argument, rhs: Argument, v: VectorArray, T: real, nt: int,
    parameterSpace: Option<ParameterSpace>, visualizer: Option<Visualizer>, name: Option<string>,
    mu: Parameter, apply: (Operator, Parameter) -> VectorArray)
    requires Construct(operator, rhs, VectorArg(v), T, nt, parameterSpace, visualizer, name).Success?
    ensures SolveSetup(Construct(operator, rhs, VectorArg(v), T, nt, parameterSpace, visualizer, name).value,
                       mu, apply).integrate.U0 == v
  {
  }

  /** Constant initial data whose dimensions match its wrapped vector array
      yields an initial vector of the solution dimension. A bare vector given
      at construction always satisfies this, since wrapping builds such an
      operator. */
  lemma ConstantInitialDataHasSolutionDim(d: Discretization, mu: Parameter, apply: (Operator, Parameter) -> VectorArray)
    requires Valid(d)
    requires d.initialData.kind.Constant? && WellFormed(d.initialData)
    ensures SolveSetup(d, mu, apply).integrate.U0.dim == d.solutionDim
  {
  }

  /** A parameter value that conforms to the discretization's parameter type
      never sets the time component, so the initial data is evaluated without
      one, while A and F receive it fixed at zero. */
  lemma ConformingParameterOmitsTime(d: Discretization, mu: Parameter, apply: (Operator, Parameter) -> VectorArray)
    requires Valid(d)
    requires Conforms(d.parameterType, mu)
    ensures TimeComponent !in mu
    ensures TimeComponent !in SolveSetup(d, mu, apply).initialBinding
    ensures SolveSetup(d, mu, apply).integrate.muA[TimeComponent] == Scalar(0.0)
    ensures SolveSetup(d, mu, apply).integrate.muF[TimeComponent] == Scalar(0.0)
  {
    assert TimeComponent in TimeProvided;
  }

  /** The initial vector depends only on the components of the parameter value
      that the initial data's parameter type names. */
  lemma InitialDataReadsOwnComponents(
    d: Discretization, mu1: Parameter, mu2: Parameter, apply: (Operator, Parameter) -> VectorArray)
    requires forall k :: k in d.initialData.parameterType ==>
               (k in mu1 <==> k in mu2) && (k in mu1 ==> mu1[k] == mu2[k])
    ensures SolveSetup(d, mu1, apply).integrate.U0 == SolveSetup(d, mu2, apply).integrate.U0
  {
    var b1 := SolveSetup(d, mu1, apply).initialBinding;
    var b2 := SolveSetup(d, mu2, apply).initialBinding;
    assert b1 == b2;
  }

  // ---------------------------------------------------------------------------
  // Logging toggle

  /** The `logging_disabled` property reads back exactly what the setters
      store: disabling with the value it reports leaves the object as it was. */
  lemma LoggingDisabledReadsToggle(d: Discretization)
    ensures DisableLogging(d, LoggingDisabled(d)) == d
  {
  }

  /** Enabling logging after disabling it restores the default state. */
  lemma EnableAfterDisableRestoresDefault(d: Discretization)
    ensures EnableLogging(DisableLogging(d, true), true) == d.(loggingDisabled := false)
    ensures !d.loggingDisabled ==> EnableLogging(DisableLogging(d, true), true) == d
  {
  }

  /** Enabling with a flag is disabling with the negated flag. */
  lemma EnableIsNegatedDisable(d: Discretization, doit: bool)
    ensures EnableLogging(d, doit) == DisableLogging(d, !doit)
  {
  }

  /** The logging toggle keeps the invariant and changes nothing about the
      integrator call; it only decides whether the record is emitted. */
  lemma LoggingIsOrthogonal(d: Discretization, doit: bool, mu: Parameter, apply: (Operator, Parameter) -> VectorArray)
    ensures Valid(d) ==> Valid(DisableLogging(d, doit))
    ensures SolveSetup(DisableLogging(d, doit), mu, apply).integrate == SolveSetup(d, mu, apply).integrate
    ensures SolveSetup(DisableLogging(d, doit), mu, apply).initialBinding == SolveSetup(d, mu, apply).initialBinding
    ensures SolveSetup(DisableLogging(d, doit), mu, apply).logged == !doit
  {
  }
}
