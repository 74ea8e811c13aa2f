/**
 * The JavaScript values that the form factory and the textarea inspect, and
 * JavaScript's truthiness on them. Numbers are integers here: NaN and
 * fractional values are not modelled.
 */
module JsValues {

  datatype JsValue =
    | Undefined
    | Null
    | Bool(b: bool)
    | Num(n: int)
    | Str(s: string)
    | Arr(elems: seq<JsValue>)
    | Obj

  /** The falsy values that this model can represent (NaN is not one of them). */
  const FalsyValues: set<JsValue> := {Undefined, Null, Bool(false), Num(0), Str("")}

  /** `!!v`: false exactly for undefined, null, false, 0 and the empty string. */
  predicate Truthy(v: JsValue)
    ensures Truthy(v) <==> v !in FalsyValues
  {
    match v
    case Undefined => false
    case Null => false
    case Bool(b) => b
    case Num(n) => n != 0
    case Str(s) => s != ""
    case Arr(_) => true
    case Obj => true
  }

  /** `v == null` with loose equality: undefined and null only. */
  predicate LooselyNull(v: JsValue)
    ensures LooselyNull(v) ==> !Truthy(v)
    ensures LooselyNull(v) <==> v in {Undefined, Null}
  {
    v == Undefined || v == Null
  }

  /** `xs.filter(e => !!e)`: the truthy elements, in their order. */
  function FilterTruthy(xs: seq<JsValue>): (r: seq<JsValue>)
    ensures |r| <= |xs|
    ensures forall i :: 0 <= i < |r| ==> Truthy(r[i])
  {
    if xs == [] then []
    else if Truthy(xs[0]) then [xs[0]] + FilterTruthy(xs[1..])
    else FilterTruthy(xs[1..])
  }

  /** The filtered array is non-empty exactly when some element is truthy. */
  lemma {:induction false} FilterTruthyNonEmpty(xs: seq<JsValue>)
    ensures |FilterTruthy(xs)| > 0 <==> exists i :: 0 <= i < |xs| && Truthy(xs[i])
  {
    if xs != [] {
      FilterTruthyNonEmpty(xs[1..]);
      if !Truthy(xs[0]) {
        if exists i :: 0 <= i < |xs| && Truthy(xs[i]) {
          var i :| 0 <= i < |xs| && Truthy(xs[i]);
          assert xs[1..][i - 1] == xs[i];
        }
      } else {
        assert Truthy(xs[0]);
      }
    }
  }
}
