/**
  The accessors: `boolean`, `number` and `string`, built from one generic
  accessor `Def`, and the enumerated accessor `oneOf`.

  A call is modelled by its argument list, so that the argument count the
  accessors check is the length of `args`. An explicitly passed `undefined`
  is an argument like any other. Each call reads the effective source `env`
  once.
 */
module Accessors {
  import opened JsValues
  import opened Outcomes
  import opened Sources
  import opened Text
  import opened Messages

  /** A type-specific coercion of a present raw value, given the variable name for messages. */
  type Coercer = (string, string) -> Result<JsValue>

  /**
    The declared type of the name argument (and, for `oneOf`, of the allowed
    values) for calls whose argument count is accepted.
   */
  predicate WellTypedCall(args: seq<JsValue>, min: nat, max: nat)
  {
    min <= |args| <= max ==> 1 <= |args| && args[0].Str? && (min < 2 || args[1].Arr?)
  }

  /** The argument-count check, which runs before every other check. */
  function CheckArity(args: seq<JsValue>, min: nat, max: nat): (e: Option<Error>)
    requires min <= max
    ensures e.None? <==> min <= |args| <= max
    ensures |args| < min ==> e == Some(Error(ArgumentError, TooFewArguments))
    ensures |args| > max ==> e == Some(Error(ArgumentError, TooManyArguments))
  {
    if |args| < min then Some(Error(ArgumentError, TooFewArguments))
    else if |args| > max then Some(Error(ArgumentError, TooManyArguments))
    else None
  }

  /** checkDefaultValueType: the default's class tag must name the accessor's type. */
  function CheckDefaultValueType(name: string, typeName: string, value: JsValue): (e: Option<Error>)
    ensures e.None? <==> ClassName(value) == typeName
    ensures e.Some? ==> e.value.kind == TypeError && e.value.message == DefaultTypeMessage(name, typeName)
  {
    TagMatchesClassName(value, typeName);
    if ToStringTag(value) != "[object " + typeName + "]" then
      Some(Error(TypeError, DefaultTypeMessage(name, typeName)))
    else
      None
  }

  /** createUnsetVariableError: the error for an absent name, quoting that name. */
  function CreateUnsetVariableError(name: string): (e: Error)
    ensures e.kind == UnsetVariable
    ensures |UnsetPrefix| + |name| <= |e.message| && e.message[|UnsetPrefix|..|UnsetPrefix| + |name|] == name
  {
    Error(UnsetVariable, UnsetVariableMessage(name))
  }

  /**
    def: check the argument count, then the default's type, then look the name
    up; an absent name yields the default unchanged (or an UnsetVariable
    error), a present one is coerced.
   */
  function Def(typeName: string, coerce: Coercer, env: Source, args: seq<JsValue>): (r: Result<JsValue>)
    requires WellTypedCall(args, 1, 2)
    ensures r.Ok? ==> 1 <= |args| <= 2
    ensures r.Ok? && |args| == 2 && args[0].s !in env ==> r.value == args[1] && ClassName(r.value) == typeName
  {
    match CheckArity(args, 1, 2)
    case Some(e) => Err(e)
    case None =>
      var name := args[0].s;
      if |args| == 2 && CheckDefaultValueType(name, typeName, args[1]).Some? then
        Err(CheckDefaultValueType(name, typeName, args[1]).value)
      else if name !in env then
        if |args| == 2 then Ok(args[1]) else Err(CreateUnsetVariableError(name))
      else
        coerce(name, env[name])
  }

  /** The coercion of `boolean`: exactly the texts "true" and "false" are accepted. */
  function CoerceBoolean(name: string, value: string): (r: Result<JsValue>)
    ensures r == Ok(Bool(true)) <==> value == "true"
    ensures r == Ok(Bool(false)) <==> value == "false"
    ensures r.Ok? || r == Err(Error(ValueError, NotBooleanMessage(name)))
  {
    if value == "true" then Ok(Bool(true))
    else if value == "false" then Ok(Bool(false))
    else Err(Error(ValueError, NotBooleanMessage(name)))
  }

  /**
    The coercion of `number`: `toNumber` stands for the built-in Number()
    conversion; the result is kept unless it is NaN, the one number that is not
    strictly equal to itself.
   */
  function CoerceNumber(toNumber: string -> JsNumber, name: string, value: string): (r: Result<JsValue>)
    ensures r.Ok? <==> toNumber(value) != NaN
    ensures r.Ok? ==> r.value == Num(toNumber(value))
    ensures r.Err? ==> r.error == Error(ValueError, NotNumberMessage(name))
  {
    var num := toNumber(value);
    SelfEqualUnlessNaN(num);
    if StrictEqualsNumber(num, num) then Ok(Num(num))
    else Err(Error(ValueError, NotNumberMessage(name)))
  }

  /** The coercion of `string`: the raw value itself. */
  function CoerceString(name: string, value: string): Result<JsValue>
  {
    Ok(Str(value))
  }

  function Boolean(env: Source, args: seq<JsValue>): (r: Result<JsValue>)
    requires WellTypedCall(args, 1, 2)
    ensures r.Ok? ==> r.value.Bool?
  {
    Def("Boolean", CoerceBoolean, env, args)
  }

  function Number(toNumber: string -> JsNumber, env: Source, args: seq<JsValue>): (r: Result<JsValue>)
    requires WellTypedCall(args, 1, 2)
    ensures r.Ok? ==> r.value.Num?
  {
    Def("Number", (name, value) => CoerceNumber(toNumber, name, value), env, args)
  }

  function String(env: Source, args: seq<JsValue>): (r: Result<JsValue>)
    requires WellTypedCall(args, 1, 2)
    ensures r.Ok? ==> r.value.Str?
  {
    Def("String", CoerceString, env, args)
  }

  /**
    The scan over the allowed values: every one must have the class tag of a
    string. On success it yields the values as strings, in order.
   */
  function CheckMembers(members: seq<JsValue>): (r: Result<seq<string>>)
    ensures r.Ok? <==> forall i :: 0 <= i < |members| ==> members[i].Str?
    ensures r.Ok? ==> |r.value| == |members| && forall i :: 0 <= i < |members| ==> members[i] == Str(r.value[i])
    ensures r.Err? ==> r.error == Error(TypeError, EnumeratedTypeMessage)
  {
    if |members| == 0 then Ok([])
    else
      TagMatchesClassName(members[0], "String");
      if ToStringTag(members[0]) != "[object String]" then Err(Error(TypeError, EnumeratedTypeMessage))
      else
        match CheckMembers(members[1..])
        case Err(e) => Err(e)
        case Ok(rest) => Ok([members[0].s] + rest)
  }

  /**
    oneOf: check the argument count, then the allowed values, then the
    default's type, then look the name up; an absent name yields the default
    unchanged (or an UnsetVariable error), a present one must be one of the
    allowed values.
   */
  function OneOf(env: Source, args: seq<JsValue>): (r: Result<JsValue>)
    requires WellTypedCall(args, 2, 3)
    ensures r.Ok? ==> r.value.Str?
    ensures r.Ok? ==> 2 <= |args| <= 3
    ensures r.Ok? && 2 <= |args| <= 3 && args[0].s in env ==>
      r.value == Str(env[args[0].s]) && r.value in args[1].elems
    ensures r.Ok? && 2 <= |args| <= 3 && args[0].s !in env ==> |args| == 3 && r.value == args[2]
  {
    match CheckArity(args, 2, 3)
    case Some(e) => Err(e)
    case None =>
      var name := args[0].s;
      match CheckMembers(args[1].elems)
      case Err(e) => Err(e)
      case Ok(members) =>
        if |args| == 3 && CheckDefaultValueType(name, "String", args[2]).Some? then
          Err(CheckDefaultValueType(name, "String", args[2]).value)
        else if name !in env then
          if |args| == 3 then Ok(args[2]) else Err(CreateUnsetVariableError(name))
        else if IndexOf(members, env[name]) < 0 then
          Err(Error(ValueError, NotMemberMessage(name, members)))
        else
          Ok(Str(env[name]))
  }
}
