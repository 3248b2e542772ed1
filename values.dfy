/**
  JavaScript values as the accessors see them: the arguments of a call, the
  defaults they return unchanged, and the values they produce by coercion.
  Only what the accessors inspect is kept: the class tag that
  Object.prototype.toString reports, string contents, and number identity.
 */
module JsValues {

  /** A JavaScript number. NaN is the one value that is not strictly equal to itself. */
  datatype JsNumber = NaN | Infinity(negative: bool) | Finite(value: real)

  datatype JsValue =
    | Undefined
    | Null
    | Bool(b: bool)
    | Num(n: JsNumber)
    | Str(s: string)
    | Arr(elems: seq<JsValue>)
    | Obj

  /** The class name that Object.prototype.toString puts between "[object " and "]". */
  function ClassName(v: JsValue): string
  {
    match v
    case Undefined => "Undefined"
    case Null => "Null"
    case Bool(_) => "Boolean"
    case Num(_) => "Number"
    case Str(_) => "String"
    case Arr(_) => "Array"
    case Obj => "Object"
  }

  /** Object.prototype.toString.call(v) */
  function ToStringTag(v: JsValue): string
  {
    "[object " + ClassName(v) + "]"
  }

  /** The tag comparison the accessors perform is a comparison of class names. */
  lemma TagMatchesClassName(v: JsValue, typeName: string)
    ensures ToStringTag(v) == "[object " + typeName + "]" <==> ClassName(v) == typeName
  {
    var p := "[object ";
    if ToStringTag(v) == p + typeName + "]" {
      var t := ToStringTag(v);
      assert |ClassName(v)| == |typeName|;
      assert ClassName(v) == t[|p|..|t| - 1];
      assert typeName == t[|p|..|t| - 1];
    }
  }

  /** The three class names the accessors expect select exactly one kind of value. */
  lemma ClassNameSelectsKind(v: JsValue)
    ensures ClassName(v) == "String" <==> v.Str?
    ensures ClassName(v) == "Number" <==> v.Num?
    ensures ClassName(v) == "Boolean" <==> v.Bool?
  {
  }

  /** The strict equality `===` restricted to numbers (signed zeros are not modelled). */
  function StrictEqualsNumber(a: JsNumber, b: JsNumber): bool
  {
    !a.NaN? && !b.NaN? && a == b
  }

  /** `x === x` fails exactly for NaN; this is the test `number` uses. */
  lemma SelfEqualUnlessNaN(x: JsNumber)
    ensures StrictEqualsNumber(x, x) <==> x != NaN
  {
  }
}
