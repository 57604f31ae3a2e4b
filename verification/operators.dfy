/** The operators and vector arrays the discretization is built from, seen only
    through the attributes the discretization inspects. Their numerical
    behaviour belongs to external backends and is not modelled. */
module Operators {
  import opened Basics
  import opened Parameters

  /** An array of vectors of dimension `dim`. The entries are carried along
      but never computed with. */
  datatype VectorArray = VectorArray(dim: nat, vectors: seq<seq<real>>)

  /** Which interface an operator implements. Every kind is an operator; only
      `Linear` implements the linear-operator interface; a `Constant` operator
      wraps a fixed vector array and ignores its input. */
  datatype OpKind = General | Linear | Constant(value: VectorArray)

  /** An operator: its kind, the dimensions of its source and range spaces, its
      optional name and the parameter type it depends on. */
  datatype Operator = Operator(
    kind: OpKind,
    dimSource: nat,
    dimRange: nat,
    name: Option<string>,
    parameterType: ParameterType)

  /** A constant operator has the shape of the vector array it wraps: no
      input, and a range of the wrapped vectors' dimension. Other kinds put
      no constraint on the dimensions. */
  predicate WellFormed(op: Operator) {
    op.kind.Constant? ==> op.dimSource == 0 && op.dimRange == op.kind.value.dim
  }

  /** A dynamically typed argument as a caller may pass it: an operator, a
      vector array, or some other object. */
  datatype Argument = OperatorArg(op: Operator) | VectorArg(vector: VectorArray) | OtherArg

  /** The constant operator wrapping `v`: it takes no input, produces vectors of
      the dimension of `v` and depends on no parameter. */
  function ConstantOperator(v: VectorArray, name: string): (op: Operator)
    ensures op.kind.Constant? && op.kind.value == v
    ensures op.dimSource == 0 && op.dimRange == v.dim
    ensures op.name == Some(name) && op.parameterType == map[]
    ensures WellFormed(op)
  {
    Operator(Constant(v), 0, v.dim, Some(name), map[])
  }

  /** The result of applying `op` to the empty input under the parameter value
      `mu`. A constant operator yields its wrapped vector array; every other
      operator is evaluated by `external`, which stands for the operator
      backend and is left uninterpreted. */
  function ApplyToEmpty(op: Operator, mu: Parameter, external: (Operator, Parameter) -> VectorArray): (u: VectorArray)
    ensures op.kind.Constant? ==> u == op.kind.value
    ensures op.kind.Constant? && WellFormed(op) ==> u.dim == op.dimRange
    ensures !op.kind.Constant? ==> u == external(op, mu)
  {
    match op.kind
    case Constant(v) => v
    case _ => external(op, mu)
  }
}
