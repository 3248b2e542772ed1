/**
  The exact messages of the errors the accessors throw. Every message about a
  variable quotes its name right after a fixed prefix, so the message
  identifies the variable.
 */
module Messages {
  import opened Text

  const TooFewArguments := "Too few arguments"
  const TooManyArguments := "Too many arguments"
  const EnumeratedTypeMessage := "Enumerated types must consist solely of string values"

  /** The prefix of every message about a variable's value or default. */
  const SourcePrefix := "(source)[\""
  const DefaultPrefix := "Default value of " + SourcePrefix
  const ValuePrefix := "Value of " + SourcePrefix
  const UnsetPrefix := "No environment variable named \""

  /** The separator placed between the allowed values in a membership error. */
  const MemberSeparator := " | "

  function DefaultTypeMessage(name: string, typeName: string): (m: string)
    ensures |DefaultPrefix| + |name| <= |m| && m[|DefaultPrefix|..|DefaultPrefix| + |name|] == name
    ensures |typeName| <= |m| && m[|m| - |typeName|..] == typeName
  {
    DefaultPrefix + name + "\"] is not of type " + typeName
  }

  function UnsetVariableMessage(name: string): (m: string)
    ensures |UnsetPrefix| + |name| <= |m| && m[|UnsetPrefix|..|UnsetPrefix| + |name|] == name
  {
    UnsetPrefix + name + "\""
  }

  function NotBooleanMessage(name: string): (m: string)
    ensures |ValuePrefix| + |name| <= |m| && m[|ValuePrefix|..|ValuePrefix| + |name|] == name
  {
    ValuePrefix + name + "\"] is neither \"true\" nor \"false\""
  }

  function NotNumberMessage(name: string): (m: string)
    ensures |ValuePrefix| + |name| <= |m| && m[|ValuePrefix|..|ValuePrefix| + |name|] == name
  {
    ValuePrefix + name + "\"] does not represent a number"
  }

  /** The allowed values, joined in their given order and put in parentheses. */
  function MemberList(members: seq<string>): (m: string)
    ensures |m| >= 2 && m[0] == '(' && m[|m| - 1] == ')'
    ensures m[1..|m| - 1] == Join(members, MemberSeparator)
  {
    "(" + Join(members, MemberSeparator) + ")"
  }

  function NotMemberMessage(name: string, members: seq<string>): (m: string)
    ensures |ValuePrefix| + |name| <= |m| && m[|ValuePrefix|..|ValuePrefix| + |name|] == name
    ensures |MemberList(members)| <= |m| && m[|m| - |MemberList(members)|..] == MemberList(members)
  {
    ValuePrefix + name + "\"] " + "is not a member of " + MemberList(members)
  }

  /** Two errors of one kind about different variables have different messages. */
  lemma MessagesIdentifyVariable(a: string, b: string, typeName: string, members: seq<string>)
    ensures DefaultTypeMessage(a, typeName) == DefaultTypeMessage(b, typeName) ==> a == b
    ensures UnsetVariableMessage(a) == UnsetVariableMessage(b) ==> a == b
    ensures NotBooleanMessage(a) == NotBooleanMessage(b) ==> a == b
    ensures NotNumberMessage(a) == NotNumberMessage(b) ==> a == b
    ensures NotMemberMessage(a, members) == NotMemberMessage(b, members) ==> a == b
  {
  }

  /**
    The list in a membership error holds every allowed value, in the given
    order, each followed by the separator except the last, which closes the
    parenthesis. The message ends with this list (see `NotMemberMessage`).
   */
  lemma {:induction false} MemberListHoldsMembers(members: seq<string>, i: nat)
    requires i < |members|
    ensures var l, start := MemberList(members), 1 + Offset(members, MemberSeparator, i);
      && start + |members[i]| <= |l|
      && l[start..start + |members[i]|] == members[i]
      && (i + 1 < |members| ==>
            start + |members[i]| + |MemberSeparator| <= |l| &&
            l[start + |members[i]|..start + |members[i]| + |MemberSeparator|] == MemberSeparator)
      && (i + 1 == |members| ==> start + |members[i]| == |l| - 1)
  {
    var j := Join(members, MemberSeparator);
    var o := Offset(members, MemberSeparator, i);
    var len := |members[i]|;
    JoinAt(members, MemberSeparator, i);
    SliceLeft("(" + j, ")", 1 + o, 1 + o + len);
    SliceRight("(", j, 1 + o, 1 + o + len);
    if i + 1 < |members| {
      var e := o + len;
      SliceLeft("(" + j, ")", 1 + e, 1 + e + |MemberSeparator|);
      SliceRight("(", j, 1 + e, 1 + e + |MemberSeparator|);
    }
  }
}
