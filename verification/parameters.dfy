/** Parameter types (component name to shape) and parameter values, with the
    two library operations the discretization relies on: merging the parameter
    types it inherits from its operators, and binding a parameter value to one
    operator. Both are abstractions of library code that is not part of this
    model; the assumptions are stated on each function. */
module Parameters {

  /** The shape of a numeric array; the empty shape is a scalar. */
  type Shape = seq<nat>

  /** A parameter type maps each component name to the shape of its value. */
  type ParameterType = map<string, Shape>

  /** A numeric array: its shape and its entries in row-major order. */
  datatype Array = Array(shape: Shape, data: seq<real>)

  /** A parameter value maps component names to arrays. */
  type Parameter = map<string, Array>

  /** The reserved component carrying the current integration time. */
  const TimeComponent: string := "_t"

  /** The scalar array holding `x`. */
  function Scalar(x: real): Array {
    Array([], [x])
  }

  /** True when `k` is a component of at least one of `types`. */
  ghost predicate InheritedFrom(types: seq<ParameterType>, k: string) {
    exists i :: 0 <= i < |types| && k in types[i]
  }

  /** True when `i` is the first of `types` that has the component `k`. */
  ghost predicate FirstHolder(types: seq<ParameterType>, k: string, i: int) {
    0 <= i < |types| && k in types[i] && forall j :: 0 <= j < i ==> k !in types[j]
  }

  /** The union of inherited parameter types. Modelling assumption: where two
      inherited types share a component, the first one in `types` supplies its
      shape (the library requires them to agree; that check is not modelled). */
  function Inherit(types: seq<ParameterType>): (r: ParameterType)
    ensures forall k :: k in r <==> InheritedFrom(types, k)
    ensures forall k, i :: k in r && FirstHolder(types, k, i) ==> r[k] == types[i][k]
    decreases |types|
  {
    if |types| == 0 then map[]
    else
      var rest := Inherit(types[1..]);
      assert forall k :: InheritedFrom(types[1..], k) ==> InheritedFrom(types, k) by {
        forall k | InheritedFrom(types[1..], k)
          ensures InheritedFrom(types, k)
        {
          var i :| 0 <= i < |types[1..]| && k in types[1..][i];
          assert k in types[i + 1];
        }
      }
      assert forall k :: InheritedFrom(types, k) && k !in types[0] ==> InheritedFrom(types[1..], k) by {
        forall k | InheritedFrom(types, k) && k !in types[0]
          ensures InheritedFrom(types[1..], k)
        {
          var i :| 0 <= i < |types| && k in types[i];
          assert i != 0;
          assert k in types[1..][i - 1];
        }
      }
      assert forall k, i :: k !in types[0] && FirstHolder(types, k, i) ==> FirstHolder(types[1..], k, i - 1) by {
        forall k, i | k !in types[0] && FirstHolder(types, k, i)
          ensures FirstHolder(types[1..], k, i - 1)
        {
          assert i != 0;
          forall j | 0 <= j < i - 1 ensures k !in types[1..][j] {
            assert types[1..][j] == types[j + 1];
          }
        }
      }
      rest + types[0]
  }

  /** The parameter type of an object that inherits the parameter types of
      `inherits` and provided the components of `provided` itself: the merged
      inherited type without the provided components. */
  function BuildParameterType(inherits: seq<ParameterType>, provided: ParameterType): (r: ParameterType)
    ensures forall k :: k in r <==> k !in provided && InheritedFrom(inherits, k)
    ensures forall k, i :: k in r && FirstHolder(inherits, k, i) ==> r[k] == inherits[i][k]
  {
    Inherit(inherits) - provided.Keys
  }

  /** The value handed to one operator: the caller's value `mu` restricted to
      the components of the operator's parameter type `target`, together with
      the entries of `provide`, which take precedence. Modelling assumption:
      this is all the library's parameter mapping does (its shape checks are
      not modelled). */
  function MapParameter(mu: Parameter, target: ParameterType, provide: Parameter): (r: Parameter)
    ensures forall k :: k in r <==> k in provide || (k in mu && k in target)
    ensures forall k :: k in provide ==> r[k] == provide[k]
    ensures forall k :: k in r && k !in provide ==> r[k] == mu[k]
  {
    (map k | k in mu && k in target :: mu[k]) + provide
  }

  /** True when `mu` supplies exactly the components of `t`, each with its shape. */
  predicate Conforms(t: ParameterType, mu: Parameter) {
    mu.Keys == t.Keys && forall k :: k in mu ==> mu[k].shape == t[k]
  }
}
