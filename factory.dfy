/**
  spazio(source, source2): the accessor object. It keeps only the two sources;
  every call computes the effective source afresh from them and from the
  process environment as it is at the time of the call, which is therefore a
  parameter of each call.
 */
module Factory {
  import opened JsValues
  import opened Outcomes
  import opened Sources
  import Accessors

  datatype Spazio = Spazio(source: Option<Source>, source2: Option<Source>)
  {
    /**
      getEnv: the process environment when no source is given; otherwise the
      merge of the sources, which does not depend on the process environment.
     */
    function Env(processEnv: Source): (e: Source)
      ensures source.None? && source2.None? ==> e == processEnv
      ensures source.Some? || source2.Some? ==> e == GetEnv(map[], source, source2)
    {
      GetEnv(processEnv, source, source2)
    }

    /** `boolean` over the effective source: a set variable reads as `true` exactly when its text is "true". */
    function Boolean(processEnv: Source, args: seq<JsValue>): (r: Result<JsValue>)
      requires Accessors.WellTypedCall(args, 1, 2)
      ensures r.Ok? ==> 1 <= |args| <= 2 && r.value.Bool?
      ensures r.Ok? && 1 <= |args| <= 2 && args[0].s in Env(processEnv) ==>
        r.value == Bool(Env(processEnv)[args[0].s] == "true")
    {
      Accessors.Boolean(Env(processEnv), args)
    }

    /** `number` over the effective source: a set variable reads as its converted number. */
    function Number(toNumber: string -> JsNumber, processEnv: Source, args: seq<JsValue>): (r: Result<JsValue>)
      requires Accessors.WellTypedCall(args, 1, 2)
      ensures r.Ok? ==> 1 <= |args| <= 2 && r.value.Num?
      ensures r.Ok? && 1 <= |args| <= 2 && args[0].s in Env(processEnv) ==>
        r.value == Num(toNumber(Env(processEnv)[args[0].s])) && r.value.n != NaN
    {
      Accessors.Number(toNumber, Env(processEnv), args)
    }

    /** `string` over the effective source: a set variable reads as its own text. */
    function String(processEnv: Source, args: seq<JsValue>): (r: Result<JsValue>)
      requires Accessors.WellTypedCall(args, 1, 2)
      ensures r.Ok? ==> 1 <= |args| <= 2 && r.value.Str?
      ensures r.Ok? && 1 <= |args| <= 2 && args[0].s in Env(processEnv) ==>
        r.value == Str(Env(processEnv)[args[0].s])
    {
      Accessors.String(Env(processEnv), args)
    }

    /** `oneOf` over the effective source: a set variable reads as its own text, one of the allowed values. */
    function OneOf(processEnv: Source, args: seq<JsValue>): (r: Result<JsValue>)
      requires Accessors.WellTypedCall(args, 2, 3)
      ensures r.Ok? ==> 2 <= |args| <= 3 && r.value.Str?
      ensures r.Ok? && 2 <= |args| <= 3 && args[0].s in Env(processEnv) ==>
        r.value == Str(Env(processEnv)[args[0].s]) && r.value in args[1].elems
    {
      Accessors.OneOf(Env(processEnv), args)
    }
  }

  /**
    Without sources, each call sees the process environment of that moment:
    the same accessor object answers differently once the variable changes.
   */
  lemma ProcessEnvReadOnEachCall(pe: Source, name: string, v: string)
    ensures Spazio(None, None).String(pe[name := v], [Str(name)]) == Ok(Str(v))
    ensures Spazio(None, None).String(pe - {name}, [Str(name)]) == Err(Accessors.CreateUnsetVariableError(name))
  {
  }

  /**
    With both sources given, a name the second one defines reads the second
    one's value, and a name only the first one defines reads the first one's;
    the process environment plays no part.
   */
  lemma SecondSourceTakesPrecedence(pe: Source, s1: Source, s2: Source, name: string)
    ensures name in s2 ==> Spazio(Some(s1), Some(s2)).String(pe, [Str(name)]) == Ok(Str(s2[name]))
    ensures name in s1 && name !in s2 ==> Spazio(Some(s1), Some(s2)).String(pe, [Str(name)]) == Ok(Str(s1[name]))
    ensures name !in s1 && name !in s2 ==>
      Spazio(Some(s1), Some(s2)).String(pe, [Str(name)]) == Err(Accessors.CreateUnsetVariableError(name))
  {
  }
}
