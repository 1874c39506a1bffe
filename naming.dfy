/**
 * How a dynamically called method name is sorted into a guard query, a state query,
 * a timestamp query or a bare action, by the three name patterns tried in order.
 */
module Naming {

  predicate IsUpper(ch: char) {
    'A' <= ch <= 'Z'
  }

  /** The character class `[A-z]`, which spans 'A'..'Z', six punctuation marks and 'a'..'z'. */
  predicate InRegexClassAz(ch: char) {
    'A' <= ch <= 'z'
  }

  /** `name` starts with `prefix` immediately followed by an upper-case letter. */
  predicate PrefixedQuery(name: string, prefix: string) {
    |name| > |prefix| && name[..|prefix|] == prefix && IsUpper(name[|prefix|])
  }

  /** `name` ends in "At" preceded by at least one character of `[A-z]`. */
  predicate TimestampQuery(name: string) {
    |name| >= 3 && name[|name| - 2..] == "At" && InRegexClassAz(name[|name| - 3])
  }

  datatype Kind =
    | CanQuery(action: string)
    | IsQuery(state: string)
    | AtQuery(state: string)
    | Bare(action: string)

  /** The kind of a method name and the remainder its pattern leaves; the `can` pattern is
      tried first, then `is`, then `At`, so a name matching several takes the first. */
  function Classify(name: string): (k: Kind)
    ensures k.CanQuery? <==> PrefixedQuery(name, "can")
    ensures k.IsQuery? <==> !PrefixedQuery(name, "can") && PrefixedQuery(name, "is")
    ensures k.AtQuery? <==> !PrefixedQuery(name, "can") && !PrefixedQuery(name, "is") && TimestampQuery(name)
    ensures k.CanQuery? ==> name == "can" + k.action && IsUpper(k.action[0])
    ensures k.IsQuery? ==> name == "is" + k.state && IsUpper(k.state[0])
    ensures k.AtQuery? ==> name == k.state + "At" && k.state != [] && InRegexClassAz(k.state[|k.state| - 1])
    ensures k.Bare? ==> k.action == name
  {
    if PrefixedQuery(name, "can") then CanQuery(name[3..])
    else if PrefixedQuery(name, "is") then IsQuery(name[2..])
    else if TimestampQuery(name) then AtQuery(name[..|name| - 2])
    else Bare(name)
  }

  /** Names whose patterns overlap go to the first pattern in the order. */
  lemma PatternOrder()
    ensures Classify("canAt") == CanQuery("At")
    ensures Classify("isAt") == IsQuery("At")
    ensures Classify("canceledAt") == AtQuery("canceled")
    ensures Classify("cancel") == Bare("cancel")
    ensures Classify("At") == Bare("At")
  {
  }
}
