/** JSON values as the service holds them once they are loaded, with what Python makes
    of one where it expects something else. */
module JsonValue {
  import opened Wrappers

  /** A number is kept as it is written, with whether it is zero. */
  datatype Json =
    | Null
    | Bool(b: bool)
    | Number(literal: string, isZero: bool)
    | Str(s: string)
    | List(items: seq<Json>)
    | Object(members: seq<(string, Json)>)

  /** The value of a member; null when there is none. */
  function Member(members: seq<(string, Json)>, key: string): Json {
    if members == [] then Null else if members[0].0 == key then members[0].1 else Member(members[1..], key)
  }

  function Get(j: Json, key: string): Json
    requires j.Object?
  {
    Member(j.members, key)
  }

  /** Assigning to a key keeps its place. */
  function WithMember(members: seq<(string, Json)>, key: string, value: Json): seq<(string, Json)> {
    if members == [] then [(key, value)]
    else if members[0].0 == key then [(key, value)] + members[1..]
    else [members[0]] + WithMember(members[1..], key, value)
  }

  function Put(j: Json, key: string, value: Json): Json
    requires j.Object?
  {
    Object(WithMember(j.members, key, value))
  }

  lemma {:induction false} MemberOfWith(members: seq<(string, Json)>, key: string, value: Json, other: string)
    ensures Member(WithMember(members, key, value), other) == if other == key then value else Member(members, other)
  {
    if members != [] && members[0].0 != key {
      MemberOfWith(members[1..], key, value, other);
      var after := WithMember(members, key, value);
      assert after[0] == members[0] && after[1..] == WithMember(members[1..], key, value);
    } else {
      var after := WithMember(members, key, value);
      assert after[0] == (key, value);
      if members != [] { assert after[1..] == members[1..]; }
    }
  }

  /** What Python takes for false. */
  predicate IsFalsy(j: Json) {
    match j
    case Null => true
    case Bool(b) => !b
    case Number(_, isZero) => isZero
    case Str(s) => s == ""
    case List(items) => items == []
    case Object(members) => members == []
  }

  /** `or []`. */
  function OrEmpty(j: Json): Json {
    if IsFalsy(j) then List([]) else j
  }

  /** What iterating yields, and counting counts: items, characters or keys. There is
      no iterating over the rest. */
  function Elements(j: Json): Option<seq<Json>> {
    match j
    case List(items) => Some(items)
    case Str(s) => Some(seq(|s|, i requires 0 <= i < |s| => Str([s[i]])))
    case Object(members) => Some(seq(|members|, i requires 0 <= i < |members| => Str(members[i].0)))
    case _ => None
  }

  /** Lists and objects cannot be looked up in a set. */
  predicate IsHashable(j: Json) {
    !j.List? && !j.Object?
  }

  /** A number other than zero, or true: neither empty nor a collection. */
  predicate IsScalar(j: Json) {
    j == Bool(true) || (j.Number? && !j.isZero)
  }

  /** What Python takes for false: nothing, false, zero, and whatever is empty. */
  lemma FalsyAre(j: Json)
    ensures IsFalsy(j) <==>
            || j == Null || j == Bool(false) || (j.Number? && j.isZero)
            || j == Str("") || j == List([]) || j == Object([])
  {
  }

  lemma OnlyScalarsHaveNoElements(j: Json)
    ensures Elements(OrEmpty(j)).None? <==> IsScalar(j)
  {
  }
}
