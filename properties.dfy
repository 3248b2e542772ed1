/**
  What the accessors promise, stated across calls: the order of the checks,
  the roles of presence and default, the accepted values, and which errors
  depend on the environment at all.
 */
module AccessorProperties {
  import opened JsValues
  import opened Outcomes
  import opened Sources
  import opened Text
  import opened Messages
  import opened Accessors

  /** An allowed-value list made of the given strings. */
  function Strs(ms: seq<string>): (vs: seq<JsValue>)
    ensures |vs| == |ms| && forall i :: 0 <= i < |ms| ==> vs[i] == Str(ms[i])
  {
    seq(|ms|, i requires 0 <= i < |ms| => Str(ms[i]))
  }

  lemma CheckMembersOfStrings(ms: seq<string>)
    ensures CheckMembers(Strs(ms)) == Ok(ms)
  {
    var r := CheckMembers(Strs(ms));
    assert r.Ok?;
    assert r.value == ms;
  }

  /**
    The argument count is checked before anything else: outside the accepted
    counts the result is the same error whatever the arguments and the
    environment are.
   */
  lemma ArgumentCountCheckedFirst(toNumber: string -> JsNumber, env: Source, args: seq<JsValue>)
    ensures |args| < 1 ==>
      var e := Err(Error(ArgumentError, TooFewArguments));
      Boolean(env, args) == e && Number(toNumber, env, args) == e && String(env, args) == e
    ensures |args| > 2 ==>
      var e := Err(Error(ArgumentError, TooManyArguments));
      Boolean(env, args) == e && Number(toNumber, env, args) == e && String(env, args) == e
    ensures |args| < 2 ==> OneOf(env, args) == Err(Error(ArgumentError, TooFewArguments))
    ensures |args| > 3 ==> OneOf(env, args) == Err(Error(ArgumentError, TooManyArguments))
  {
  }

  /**
    A default of the wrong type is refused before the name is looked up, so
    the outcome is the same whether the variable is set or not.
   */
  lemma DefaultTypeCheckedBeforeLookup(toNumber: string -> JsNumber, env: Source, name: string, d: JsValue, ms: seq<string>)
    ensures !d.Bool? ==> Boolean(env, [Str(name), d]) == Err(Error(TypeError, DefaultTypeMessage(name, "Boolean")))
    ensures !d.Num? ==> Number(toNumber, env, [Str(name), d]) == Err(Error(TypeError, DefaultTypeMessage(name, "Number")))
    ensures !d.Str? ==> String(env, [Str(name), d]) == Err(Error(TypeError, DefaultTypeMessage(name, "String")))
    ensures !d.Str? ==> OneOf(env, [Str(name), Arr(Strs(ms)), d]) == Err(Error(TypeError, DefaultTypeMessage(name, "String")))
  {
    ClassNameSelectsKind(d);
    CheckMembersOfStrings(ms);
  }

  /**
    The allowed values are checked before the default's type and before the
    lookup: one value that is not a string refuses the call, even with a
    valid default and whatever the environment holds.
   */
  lemma MembersCheckedBeforeDefaultAndLookup(env: Source, name: string, ms: seq<JsValue>, d: JsValue, i: nat)
    requires i < |ms| && !ms[i].Str?
    ensures OneOf(env, [Str(name), Arr(ms)]) == Err(Error(TypeError, EnumeratedTypeMessage))
    ensures OneOf(env, [Str(name), Arr(ms), d]) == Err(Error(TypeError, EnumeratedTypeMessage))
  {
  }

  /**
    An unset variable yields a well-typed default unchanged, without coercing
    it, and without a default it is an UnsetVariable error naming the
    variable.
   */
  lemma UnsetVariableUsesDefault(toNumber: string -> JsNumber, env: Source, name: string, d: JsValue, ms: seq<string>)
    requires name !in env
    ensures d.Bool? ==> Boolean(env, [Str(name), d]) == Ok(d)
    ensures d.Num? ==> Number(toNumber, env, [Str(name), d]) == Ok(d)
    ensures d.Str? ==> String(env, [Str(name), d]) == Ok(d)
    ensures d.Str? ==> OneOf(env, [Str(name), Arr(Strs(ms)), d]) == Ok(d)
    ensures var e := Err(Error(UnsetVariable, UnsetVariableMessage(name)));
      && Boolean(env, [Str(name)]) == e
      && Number(toNumber, env, [Str(name)]) == e
      && String(env, [Str(name)]) == e
      && OneOf(env, [Str(name), Arr(Strs(ms))]) == e
  {
    ClassNameSelectsKind(d);
    CheckMembersOfStrings(ms);
  }

  /**
    A set variable always takes the coercion path: a well-typed default makes
    no difference to the outcome, value or error.
   */
  lemma SetVariableIgnoresDefault(toNumber: string -> JsNumber, env: Source, name: string, d: JsValue, ms: seq<JsValue>)
    requires name in env
    ensures d.Bool? ==> Boolean(env, [Str(name), d]) == Boolean(env, [Str(name)])
    ensures d.Num? ==> Number(toNumber, env, [Str(name), d]) == Number(toNumber, env, [Str(name)])
    ensures d.Str? ==> String(env, [Str(name), d]) == String(env, [Str(name)])
    ensures d.Str? ==> OneOf(env, [Str(name), Arr(ms), d]) == OneOf(env, [Str(name), Arr(ms)])
  {
    ClassNameSelectsKind(d);
  }

  /** `boolean` accepts exactly the texts "true" and "false" and refuses everything else. */
  lemma BooleanAcceptsExactlyTrueAndFalse(env: Source, name: string)
    requires name in env
    ensures Boolean(env, [Str(name)]) == Ok(Bool(true)) <==> env[name] == "true"
    ensures Boolean(env, [Str(name)]) == Ok(Bool(false)) <==> env[name] == "false"
    ensures Boolean(env, [Str(name)]).Err? <==> env[name] != "true" && env[name] != "false"
    ensures Boolean(env, [Str(name)]).Err? ==> Boolean(env, [Str(name)]).error == Error(ValueError, NotBooleanMessage(name))
  {
  }

  /** `number` yields the converted number of a set variable unless the conversion gives NaN. */
  lemma NumberKeepsConvertedValue(toNumber: string -> JsNumber, env: Source, name: string)
    requires name in env
    ensures Number(toNumber, env, [Str(name)]).Ok? <==> toNumber(env[name]) != NaN
    ensures Number(toNumber, env, [Str(name)]).Ok? ==> Number(toNumber, env, [Str(name)]).value == Num(toNumber(env[name]))
    ensures Number(toNumber, env, [Str(name)]).Err? ==>
      Number(toNumber, env, [Str(name)]).error == Error(ValueError, NotNumberMessage(name))
  {
  }

  /** `string` returns the stored value itself. */
  lemma StringIsIdentity(env: Source, name: string)
    requires name in env
    ensures String(env, [Str(name)]) == Ok(Str(env[name]))
  {
  }

  /**
    For a set variable, `oneOf` succeeds exactly when the value is one of the
    allowed values, and then returns it; otherwise the error lists the allowed
    values in their given order.
   */
  lemma OneOfAcceptsExactlyMembers(env: Source, name: string, ms: seq<string>)
    requires name in env
    ensures OneOf(env, [Str(name), Arr(Strs(ms))]).Ok? <==> env[name] in ms
    ensures OneOf(env, [Str(name), Arr(Strs(ms))]).Ok? ==> OneOf(env, [Str(name), Arr(Strs(ms))]).value == Str(env[name])
    ensures OneOf(env, [Str(name), Arr(Strs(ms))]).Err? ==>
      OneOf(env, [Str(name), Arr(Strs(ms))]).error == Error(ValueError, NotMemberMessage(name, ms))
  {
    CheckMembersOfStrings(ms);
  }

  /**
    The default of `oneOf` is only checked to be a string, not to be one of
    the allowed values: an unset variable yields it even when it is not.
   */
  lemma OneOfDefaultNotCheckedForMembership(env: Source, name: string, ms: seq<string>, d: string)
    requires name !in env && d !in ms
    ensures OneOf(env, [Str(name), Arr(Strs(ms)), Str(d)]) == Ok(Str(d))
    ensures Str(d) !in Strs(ms)
  {
    CheckMembersOfStrings(ms);
  }

  /**
    Argument and type errors are decided before the environment is read: the
    same call gives the same such error against any environment.
   */
  lemma CallerErrorsIndependentOfEnvironment(toNumber: string -> JsNumber, env1: Source, env2: Source, args: seq<JsValue>)
    ensures WellTypedCall(args, 1, 2) && Boolean(env1, args).Err? && IsCallerError(Boolean(env1, args).error.kind) ==>
      Boolean(env2, args) == Boolean(env1, args)
    ensures WellTypedCall(args, 1, 2) && Number(toNumber, env1, args).Err? && IsCallerError(Number(toNumber, env1, args).error.kind) ==>
      Number(toNumber, env2, args) == Number(toNumber, env1, args)
    ensures WellTypedCall(args, 1, 2) && String(env1, args).Err? && IsCallerError(String(env1, args).error.kind) ==>
      String(env2, args) == String(env1, args)
  {
  }

  /** The same holds for `oneOf`, whose caller errors include the allowed-value check. */
  lemma OneOfCallerErrorsIndependentOfEnvironment(env1: Source, env2: Source, args: seq<JsValue>)
    ensures WellTypedCall(args, 2, 3) && OneOf(env1, args).Err? && IsCallerError(OneOf(env1, args).error.kind) ==>
      OneOf(env2, args) == OneOf(env1, args)
  {
  }

  /**
    Errors about the environment say which way it failed: an UnsetVariable
    error only when the name is absent and no default was given, a ValueError
    only when the name is present.
   */
  lemma EnvironmentErrorsMatchPresence(toNumber: string -> JsNumber, env: Source, args: seq<JsValue>)
    ensures WellTypedCall(args, 1, 2) && Boolean(env, args).Err? && Boolean(env, args).error.kind == UnsetVariable ==>
      |args| == 1 && args[0].s !in env
    ensures WellTypedCall(args, 1, 2) && Boolean(env, args).Err? && Boolean(env, args).error.kind == ValueError ==>
      1 <= |args| <= 2 && args[0].s in env
    ensures WellTypedCall(args, 1, 2) && Number(toNumber, env, args).Err? && Number(toNumber, env, args).error.kind == UnsetVariable ==>
      |args| == 1 && args[0].s !in env
    ensures WellTypedCall(args, 1, 2) && Number(toNumber, env, args).Err? && Number(toNumber, env, args).error.kind == ValueError ==>
      1 <= |args| <= 2 && args[0].s in env
    ensures WellTypedCall(args, 1, 2) && String(env, args).Err? ==> String(env, args).error.kind != ValueError
    ensures WellTypedCall(args, 1, 2) && String(env, args).Err? && String(env, args).error.kind == UnsetVariable ==>
      |args| == 1 && args[0].s !in env
    ensures WellTypedCall(args, 2, 3) && OneOf(env, args).Err? && OneOf(env, args).error.kind == UnsetVariable ==>
      |args| == 2 && args[0].s !in env
    ensures WellTypedCall(args, 2, 3) && OneOf(env, args).Err? && OneOf(env, args).error.kind == ValueError ==>
      2 <= |args| <= 3 && args[0].s in env
  {
  }
}
