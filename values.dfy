/**
 * The values that flow through the query builder: request parameters,
 * normalised query parameters and the rows a store returns. JavaScript's
 * dynamic values are narrowed to the shapes the lookup service handles:
 * scalars, and arrays of scalars.
 */
module Values {
  import opened Strings

  datatype Option<T> = None | Some(value: T)

  /** A scalar request or row value. `Null` and `Undefined` are kept apart, as JavaScript keeps them. */
  datatype Scalar = Null | Undefined | Num(n: int) | Str(s: string)

  /** A parameter value: a scalar, or an array of scalars (a repeated query key, a list of houses). */
  datatype Value = Atom(a: Scalar) | List(items: seq<Scalar>)

  /** The failures of the core: the two mapping errors, a value that is not an array, a store failure, a missing row. */
  datatype Error =
    | BadFieldMapping
    | BadParamMapping
    | NotAnArray
    | StoreError(reason: string)
    | NoRows

  datatype Result<T> = Ok(value: T) | Err(error: Error)

  /** The loose comparison `v != null`, which is false for both null and undefined. */
  predicate IsNullish(x: Scalar) {
    x.Null? || x.Undefined?
  }

  /** How `Array.prototype.join` writes one element: null and undefined become the empty text. */
  function RenderScalar(x: Scalar): (t: string)
    ensures IsNullish(x) ==> t == ""
    ensures x.Num? ==> t == IntToString(x.n) && IsIntText(t) && ParseInt(t) == x.n
    ensures x.Str? ==> t == x.s
  {
    match x
    case Null => ""
    case Undefined => ""
    case Num(n) => IntToString(n)
    case Str(s) => s
  }

  /** How `Array.prototype.join` writes a parameter; an array element is written as its own comma-joined text. */
  function Render(v: Value): (t: string)
    ensures v.Atom? ==> t == RenderScalar(v.a)
    ensures v.List? && |v.items| == 1 ==> t == RenderScalar(v.items[0])
  {
    match v
    case Atom(x) => RenderScalar(x)
    case List(xs) => Join(RenderScalars(xs), ",")
  }

  function RenderScalars(xs: seq<Scalar>): (ts: seq<string>)
    ensures |ts| == |xs| && forall i :: 0 <= i < |xs| ==> ts[i] == RenderScalar(xs[i])
  {
    if xs == [] then [] else [RenderScalar(xs[0])] + RenderScalars(xs[1..])
  }

  /** The texts of the parameters, one per parameter, in order. */
  function RenderAll(ps: seq<Value>): (ts: seq<string>)
    ensures |ts| == |ps| && forall i :: 0 <= i < |ps| ==> ts[i] == Render(ps[i])
  {
    if ps == [] then [] else [Render(ps[0])] + RenderAll(ps[1..])
  }

  /** `params.join(',')`: the parameter texts with one comma between neighbours. */
  function RenderParams(ps: seq<Value>): (t: string)
    ensures ps == [] ==> t == ""
    ensures |ps| > 0 ==> |t| == TotalLength(RenderAll(ps)) + |ps| - 1
    ensures |ps| == 1 ==> t == Render(ps[0])
  {
    Join(RenderAll(ps), ",")
  }

  /** One more parameter appends a comma and its text. */
  lemma RenderParamsAppend(ps: seq<Value>, p: Value)
    requires |ps| > 0
    ensures RenderParams(ps + [p]) == RenderParams(ps) + "," + Render(p)
  {
    assert RenderAll(ps + [p]) == RenderAll(ps) + [Render(p)];
    JoinAppend(RenderAll(ps), Render(p), ",");
  }

  /** Each element of `xs` as a parameter of its own. */
  function Atoms(xs: seq<Scalar>): (ps: seq<Value>)
    ensures |ps| == |xs| && forall i :: 0 <= i < |xs| ==> ps[i] == Atom(xs[i])
  {
    if xs == [] then [] else [Atom(xs[0])] + Atoms(xs[1..])
  }

  /** `join` flattens an array parameter: it is written exactly as its elements would be, each as a parameter of its own. */
  lemma RenderListFlattens(xs: seq<Scalar>)
    ensures Render(List(xs)) == RenderParams(Atoms(xs))
  {
    assert RenderScalars(xs) == RenderAll(Atoms(xs));
  }
}
