/**
  The effective source mapping an accessor reads: either the process
  environment, or the two sources given to the factory merged into a fresh
  mapping.
 */
module Sources {
  import opened Outcomes

  /** A mapping from variable name to raw value. */
  type Source = map<string, string>

  /** A source given to the factory, or the empty mapping for one that was not. */
  function Given(source: Option<Source>): Source
  {
    if source.Some? then source.value else map[]
  }

  /**
    getEnv: with no source given, the process environment; otherwise the first
    source overlaid with the second, so that on a shared name the second wins.
    The result is a new mapping; neither source is changed.
   */
  function GetEnv(processEnv: Source, source: Option<Source>, source2: Option<Source>): (env: Source)
    ensures source.None? && source2.None? ==> env == processEnv
    ensures source.Some? || source2.Some? ==> env.Keys == Given(source).Keys + Given(source2).Keys
    ensures source.Some? || source2.Some? ==>
      forall k :: k in Given(source2) ==> k in env && env[k] == Given(source2)[k]
    ensures source.Some? || source2.Some? ==>
      forall k :: k in Given(source) && k !in Given(source2) ==> k in env && env[k] == Given(source)[k]
  {
    if source.Some? || source2.Some? then Given(source) + Given(source2) else processEnv
  }

  /**
    Once any source is given, the process environment is not consulted at all,
    even when the given source is empty (an empty object is truthy).
   */
  lemma GivenSourceHidesProcessEnv(pe1: Source, pe2: Source, source: Option<Source>, source2: Option<Source>)
    requires source.Some? || source2.Some?
    ensures GetEnv(pe1, source, source2) == GetEnv(pe2, source, source2)
  {
  }

  /** A single given source is used as it is. */
  lemma SingleSourceUsedAsIs(processEnv: Source, s: Source)
    ensures GetEnv(processEnv, Some(s), None) == s
    ensures GetEnv(processEnv, None, Some(s)) == s
  {
    assert Given(Some(s)) + map[] == s;
    assert map[] + Given(Some(s)) == s;
  }

  /**
    Passing the process environment as the second source makes it win over the
    first one on every name it defines.
   */
  lemma SecondSourceWins(processEnv: Source, s1: Source, s2: Source, name: string)
    requires name in s2
    ensures var env := GetEnv(processEnv, Some(s1), Some(s2)); name in env && env[name] == s2[name]
  {
  }
}
