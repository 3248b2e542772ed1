/**
  Concrete calls with their exact outcomes, as the repository's test suite
  exercises them.
 */
module Scenarios {
  import opened JsValues
  import opened Outcomes
  import opened Sources
  import opened Text
  import opened Messages
  import opened Accessors
  import Factory

  /** The allowed values appear joined by " | " in their given order. */
  lemma DigitMemberList()
    ensures MemberList(["0", "1", "2"]) == "(0 | 1 | 2)"
  {
    var ms := ["0", "1", "2"];
    assert ms[1..] == ["1", "2"] && ms[1..][1..] == ["2"];
    assert Join(["1", "2"], MemberSeparator) == "1 | 2";
  }

  lemma WrongArgumentCounts(env: Source)
    ensures Boolean(env, []) == Err(Error(ArgumentError, "Too few arguments"))
    ensures Boolean(env, [Num(Finite(1.0)), Num(Finite(2.0)), Num(Finite(3.0))]) == Err(Error(ArgumentError, "Too many arguments"))
  {
  }

  lemma OneOfWrongArgumentCounts(env: Source)
    ensures OneOf(env, [Num(Finite(1.0))]) == Err(Error(ArgumentError, "Too few arguments"))
    ensures OneOf(env, [Num(Finite(1.0)), Num(Finite(2.0)), Num(Finite(3.0)), Num(Finite(4.0))]) ==
      Err(Error(ArgumentError, "Too many arguments"))
  {
  }

  /** A text default for `boolean` is refused; so is an explicitly passed undefined. */
  lemma MistypedDefaults(env: Source)
    ensures Boolean(env, [Str("FOO"), Str("true")]) == Err(Error(TypeError, DefaultTypeMessage("FOO", "Boolean")))
    ensures Boolean(env, [Str("FOO"), Undefined]) == Err(Error(TypeError, DefaultTypeMessage("FOO", "Boolean")))
  {
  }

  lemma UnsetFooWithoutDefault(env: Source)
    requires "FOO" !in env
    ensures Boolean(env, [Str("FOO")]) == Err(Error(UnsetVariable, UnsetVariableMessage("FOO")))
  {
  }

  lemma BooleanRefusesOne()
    ensures Boolean(map["FOO" := "1"], [Str("FOO")]) == Err(Error(ValueError, NotBooleanMessage("FOO")))
    ensures Boolean(map["FOO" := "false"], [Str("FOO"), Bool(true)]) == Ok(Bool(false))
  {
  }

  /** Whatever Number() makes of "1.2.3", if it is NaN the call is a ValueError. */
  lemma NumberRefusesNaN(toNumber: string -> JsNumber)
    requires toNumber("1.2.3") == NaN
    ensures Number(toNumber, map["FOO" := "1.2.3"], [Str("FOO")]) == Err(Error(ValueError, NotNumberMessage("FOO")))
  {
  }

  lemma CheckDigitMembers()
    ensures CheckMembers([Str("0"), Str("1"), Str("2")]) == Ok(["0", "1", "2"])
  {
    var ms := [Str("0"), Str("1"), Str("2")];
    var r := CheckMembers(ms);
    assert ms[0] == Str(r.value[0]) && ms[1] == Str(r.value[1]) && ms[2] == Str(r.value[2]);
    assert r.value == ["0", "1", "2"];
  }

  lemma OneOfRefusesNonMember()
    ensures OneOf(map["FOO" := "X"], [Str("FOO"), Arr([Str("0"), Str("1"), Str("2")])]) ==
      Err(Error(ValueError, NotMemberMessage("FOO", ["0", "1", "2"])))
    ensures MemberList(["0", "1", "2"]) == "(0 | 1 | 2)"
  {
    CheckDigitMembers();
    DigitMemberList();
  }

  lemma OneOfRefusesNumberMember()
    ensures OneOf(map[], [Str("FOO"), Arr([Str("0"), Str("1"), Num(Finite(2.0))]), Str("0")]) ==
      Err(Error(TypeError, "Enumerated types must consist solely of string values"))
  {
    assert !Num(Finite(2.0)).Str?;
  }

  lemma OneOfReturnsValue()
    ensures OneOf(map["FOO" := "2"], [Str("FOO"), Arr([Str("0"), Str("1"), Str("2")])]) == Ok(Str("2"))
  {
    CheckDigitMembers();
  }

  lemma OneOfReturnsDefault()
    ensures OneOf(map[], [Str("FOO"), Arr([Str("0"), Str("1"), Str("2")]), Str("0")]) == Ok(Str("0"))
  {
    CheckDigitMembers();
  }

  /** spazio(process.env, window.env).string('FOO') reads window.env's value. */
  lemma MergedSourcesPreferSecond(processEnv: Source)
    requires processEnv == map["FOO" := "321"]
    ensures Factory.Spazio(Some(processEnv), Some(map["FOO" := "123"])).String(processEnv, [Str("FOO")]) == Ok(Str("123"))
    ensures Factory.Spazio(None, Some(processEnv)).String(processEnv, [Str("FOO")]) == Ok(Str("321"))
  {
  }
}
