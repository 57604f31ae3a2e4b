# Instationary nonlinear discretization — a Dafny model

This project models pyMOR's `InstationaryNonlinearDiscretization`
(`src/pymor/discretizations/nonlinear.py`). The class bundles three operators:

- a nonlinear operator A;
- a linear right-hand side F;
- initial data U0.

It also holds the horizon `T` and the step count `nt` of an explicit Euler
scheme for dU/dt = -A(U, t; mu) + F(t; mu), U(0) = U0(mu).

The model covers four parts of that class:

- the validated constructor;
- the `with_` functional update;
- the set-up of a solve, meaning the parameter bindings and the call handed to the integrator;
- the logging toggle.

Every operation is a pure function over immutable datatypes. The files are:

- `basics.dfy` (`Basics`): `Option`, and `Result` with the error kinds.
- `parameters.dfy` (`Parameters`): parameter types and values. It holds the
  abstracted library operations for merging inherited parameter types
  (`Inherit`, `BuildParameterType`) and for binding a value to one operator
  (`MapParameter`).
- `operators.dfy` (`Operators`): operators seen through their kind
  (`General | Linear | Constant(value)`) and their source and range
  dimensions. Also the dynamically typed constructor argument (`Argument`),
  the constant-operator wrapper, and evaluation on the empty input.
- `nonlinear.dfy` (`Nonlinear`): the discretization record and the operations
  themselves. It also holds the reference predicates `Admissible` (when
  construction succeeds) and `Valid` (the invariant every constructed object
  keeps), and `BundleConflicts` (when `with_` is rejected).
- `properties.dfy` (`Properties`): lemmas that relate several operations.

Modelling decisions:

- The Python `isinstance` assertions become the `Argument` variants and the
  `OpKind` tag. Every kind is an operator. Only `Linear` passes the
  linear-operator check; a constant operator is affine, not linear.
- A failed assertion is a `Failure`:
  - lines 29-31 give `TypeMismatch`;
  - lines 32, 35 and 36 give `DimensionMismatch`;
  - lines 56-57 give `ConfigConflict`.

  The code raises a plain assertion error in all these cases. The tag only
  records which group of assertions failed.
- `T` and `nt` are stored as given. The code does not check that they are
  positive, so the model does not either.
- The library's `_with_via_init` is modelled as three steps: take the current
  fields, replace the overridden ones, and run the constructor again
  (`ViaInit`). That is a modelling assumption. It is also why a re-derived
  object starts with logging enabled: `_with_via_init` is library code outside
  `nonlinear.py`, so this file does not decide whether the flag is carried over.
- `build_parameter_type` is modelled as the union of the inherited parameter
  types without the provided components. When two operators share a
  component, the first operator (A, then F, then U0) supplies its shape. The
  provided time component `_t` is kept separately in `providedType`; its
  shape `0` in `nonlinear.py` stands for a scalar.
- The time component `_t = 0` goes only into the bindings of A and F
  (lines 69-70). The initial data's binding (line 71) gets no `_t`, and the
  model follows the code there.
- `map_parameter(mu, target, provide)` is modelled as `mu` restricted to the
  target operator's components, plus the provided entries.
- Applying a constant operator yields the vector it wraps. Any other operator
  is evaluated by a function parameter that stays uninterpreted.
- A newly constructed object starts with logging enabled, because
  `_logging_disabled` is a class attribute that defaults to `False`
  (line 23).
- The `logging_disabled` property (lines 24-26) is `Nonlinear.LoggingDisabled`.
  It is a plain accessor; its row names the lemma about it.
- `nonlinear.py` keeps the three operators in an `operators` dictionary (line 39).
  The `operator`, `rhs` and `initial_data` properties read from that
  dictionary (lines 19-21). The model stores them as the record fields
  `operator`, `rhs` and `initialData` instead.

## Model

| member | source | states |
|---|---|---|
| `Parameters.Inherit` | src/pymor/discretizations/nonlinear.py:40-41 | the merged parameter type has exactly the components of some inherited type; a shared component gets the shape of the first operator that has it |
| `Parameters.BuildParameterType` | src/pymor/discretizations/nonlinear.py:40-41 | the parameter type callers must supply is the merged inherited type minus the provided components, with the shapes of the inherited types |
| `Parameters.MapParameter` | src/pymor/discretizations/nonlinear.py:69-71 | a binding holds the provided entries and, for every other component, exactly the components of mu that the operator uses, with mu's values |
| `Operators.ConstantOperator` | src/pymor/discretizations/nonlinear.py:33-34 | wrapping a vector array gives a constant operator named as given, with no input, range dimension equal to the vector's dimension, and no parameters |
| `Operators.ApplyToEmpty` | src/pymor/discretizations/nonlinear.py:71 | a constant operator yields the vector array it wraps, whatever the parameter value, and a well-formed one yields vectors of its range dimension; any other operator is evaluated by the uninterpreted backend |
| `Nonlinear.Construct` | src/pymor/discretizations/nonlinear.py:28-51 | succeeds exactly when the arguments are admissible: correct types, initial data with dim_source 0, the four-way equality of A's source and range, F's source and the initial data's range, and F's range 1; a type failure is reported as such; on success the result is valid, the initial vector is wrapped as the constant operator 'initial_data' and an initial operator is kept unchanged, T, nt, parameter_space, name and visualizer are stored, solution_dim is A's range, logging is enabled, and `_t` is provided, never required |
| `Nonlinear.Flatten` | src/pymor/discretizations/nonlinear.py:61-62 | dissolving the operators bundle replaces operator and rhs by the bundle's entries, removes the bundle and leaves every other override alone |
| `Nonlinear.With` | src/pymor/discretizations/nonlinear.py:55-64 | rejected as a conflict exactly when a bundle comes with operator or rhs, or has a key other than operator and rhs; otherwise succeeds exactly when the merged arguments are admissible, and the result is valid, takes each field from the overrides or else from the current object (visualizer included), and starts with logging enabled |
| `Nonlinear.SolveSetup` | src/pymor/discretizations/nonlinear.py:66-72 | logs exactly when logging is not disabled; the bindings of A and F are mu restricted to their components with `_t` fixed to 0; the initial data's binding takes only mu's own entries; the integrator gets A, F, U0, start time 0, end time T and nt |
| `Nonlinear.DisableLogging` | src/pymor/discretizations/nonlinear.py:74-75 | afterwards logging is disabled exactly when doit holds, and no other field changes |
| `Nonlinear.EnableLogging` | src/pymor/discretizations/nonlinear.py:77-78 | afterwards logging is disabled exactly when doit does not hold, and no other field changes |
| `Properties.RederiveWithoutOverrides` | src/pymor/discretizations/nonlinear.py:55-64 | re-deriving a valid discretization with no overrides rebuilds the same object, apart from the logging toggle being reset |
| `Properties.WithDoubledHorizon` | src/pymor/discretizations/nonlinear.py:55-64 | overriding only T succeeds on a valid discretization and keeps operator, rhs, initial data and nt |
| `Properties.WrappingIsIdempotent` | src/pymor/discretizations/nonlinear.py:31-39 | passing the constant operator that wraps a vector gives the same outcome as passing the bare vector |
| `Properties.WithUnfolds` | src/pymor/discretizations/nonlinear.py:59-64 | a non-conflicting re-derivation is one constructor call on the current fields with the effective overrides in their place |
| `Properties.WithComposes` | src/pymor/discretizations/nonlinear.py:55-64 | two successive re-derivations equal one re-derivation with the combined overrides, the later ones winning |
| `Properties.VectorInitialDataIsU0` | src/pymor/discretizations/nonlinear.py:33-71 | when the initial data was given as a bare vector, the integrator's initial vector is that vector, for every mu and every operator backend |
| `Properties.ConstantInitialDataHasSolutionDim` | src/pymor/discretizations/nonlinear.py:33-71 | well-formed constant initial data on a valid discretization yields an initial vector whose dimension is solution_dim |
| `Properties.ConformingParameterOmitsTime` | src/pymor/discretizations/nonlinear.py:40-71 | a parameter value that conforms to the discretization's parameter type never sets `_t`, so the initial data is evaluated without it while A and F get `_t = 0` |
| `Properties.InitialDataReadsOwnComponents` | src/pymor/discretizations/nonlinear.py:71 | the initial vector depends only on the components of mu that the initial data uses |
| `Properties.LoggingDisabledReadsToggle` | src/pymor/discretizations/nonlinear.py:23-26 | logging_disabled reads back exactly the stored toggle: disabling logging with the value it reports leaves the object unchanged (the default of line 23 is stated by `Nonlinear.Construct`, the setters' effect by `Nonlinear.DisableLogging` and `Nonlinear.EnableLogging`) |
| `Properties.EnableAfterDisableRestoresDefault` | src/pymor/discretizations/nonlinear.py:23-26 | enable_logging() after disable_logging() restores the default state of logging being enabled |
| `Properties.EnableIsNegatedDisable` | src/pymor/discretizations/nonlinear.py:74-78 | enable_logging(doit) has the same effect as disable_logging(not doit) |
| `Properties.LoggingIsOrthogonal` | src/pymor/discretizations/nonlinear.py:66-78 | toggling logging keeps the invariant and changes neither the bindings nor the integrator call, only whether the record is emitted |

## Left out

- `explicit_euler` (lines 10 and 72) is not part of this model. It is floating-point time integration defined in `pymor.algorithms.timestepping`, outside this file; the model returns its arguments as an `EulerCall` record instead.
- The informational log record (line 68) is output. Only the flag that decides whether it is emitted is modelled.
- The visualizer and the parameter space are opaque objects. They are carried as uninterpreted handles.
- The internals of `build_parameter_type`, `map_parameter`, `lock`, `_with_via_init`, `dict_property` and `selfless_arguments` are library code that is not part of this model. They are abstracted as described above.
- Nonlinear.With: promises that the result starts with logging enabled. That follows from modelling `_with_via_init` as a plain constructor call, which is an assumption; `nonlinear.py` does not decide how the flag is treated.
- Nonlinear.Construct: accepts a caller-supplied constant operator as initial data even when its dimensions differ from those of the vector it wraps, as the Python constructor does. Only well-formed constant operators (`Operators.WellFormed`) are promised an initial vector of dimension solution_dim.
- Parameters.Inherit: keeps the first shape when operators disagree on a shared component, and does not model any shape-agreement check the library may perform.
- Parameters.MapParameter: does not model the library's checks of the parameter value's shape.
- The interface-level `solve`, which parses and validates mu before calling `_solve`, is not part of this model. `Parameters.Conforms` states the shape a valid mu has, and `Properties.ConformingParameterOmitsTime` assumes it.
- The runtime lock against attribute assignment is not modelled as a mechanism. Immutability holds because the record is a value; only the logging flag has an update function.
- Line 53 lists the keyword names `with_` is meant to accept, but nothing in `nonlinear.py` reads the list. An unknown keyword goes on to `_with_via_init`, which is not modelled. `Overrides` has exactly the listed fields, so such a call cannot be expressed, and its failure path is left out.
- Python assertions are assumed to be enabled. Under `python -O` the assertions at lines 29-36 and 56-57 are stripped and nothing is rejected; the model always performs these checks.
- Vector-array storage and arithmetic, and `apply` of non-constant operators, belong to external backends.
