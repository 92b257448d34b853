/**
 * The values `json.load` produces, with the two Python conversions the
 * configuration code applies to them: `bool(v)` and `str(v)`.
 */
module PyJson {
  import opened Python

  /**
   * A decoded JSON document. An object is a Python dict: its members in
   * insertion order. Names are meant to be distinct (`DistinctKeys`); the
   * type does not enforce it. Numbers are integers only.
   */
  datatype Json =
    | JNull
    | JBool(b: bool)
    | JInt(i: int)
    | JStr(s: string)
    | JArray(items: seq<Json>)
    | JObject(members: seq<(string, Json)>)

  /** The names of a dict are distinct, as `json.load` guarantees. */
  predicate DistinctKeys(members: seq<(string, Json)>) {
    forall i, j :: 0 <= i < j < |members| ==> members[i].0 != members[j].0
  }

  /** `d.get(key)`: the value stored under `key`, if any. */
  function Get(members: seq<(string, Json)>, key: string): (r: Option<Json>)
    ensures r.None? <==> forall i :: 0 <= i < |members| ==> members[i].0 != key
    ensures r.Some? ==> (key, r.value) in members
    decreases |members|
  {
    if members == [] then None
    else if members[0].0 == key then Some(members[0].1)
    else Get(members[1..], key)
  }

  /** In a dict, looking up the name of a member gives that member's value. */
  lemma {:induction false} GetMember(members: seq<(string, Json)>, i: nat)
    requires DistinctKeys(members) && i < |members|
    ensures Get(members, members[i].0) == Some(members[i].1)
    decreases i
  {
    if i > 0 {
      assert members[0].0 != members[i].0;
      assert members[1..][i - 1] == members[i];
      GetMember(members[1..], i - 1);
    }
  }

  /** `bool(v)`: null, false, 0, "", [] and {} are falsy. */
  function Truthy(v: Json): (t: bool)
    ensures !t <==> v == JNull || v == JBool(false) || v == JInt(0) || v == JStr("") || v == JArray([]) || v == JObject([])
  {
    match v
    case JNull => false
    case JBool(b) => b
    case JInt(i) => i != 0
    case JStr(s) => s != ""
    case JArray(items) => items != []
    case JObject(members) => members != []
  }

  /** `str(b)` for a Python bool */
  function BoolStr(b: bool): string {
    if b then "True" else "False"
  }

  function DigitChar(d: nat): char
    requires d < 10
  {
    "0123456789"[d]
  }

  function NatStr(n: nat): string
    decreases n
  {
    if n < 10 then [DigitChar(n)] else NatStr(n / 10) + [DigitChar(n % 10)]
  }

  /** `str(i)` for a Python int */
  function IntStr(i: int): string {
    if i < 0 then "-" + NatStr(-i) else NatStr(i)
  }

  /** `repr(v)`; strings are quoted with single quotes and not escaped. */
  function Repr(v: Json): string
    decreases v
  {
    match v
    case JNull => "None"
    case JBool(b) => BoolStr(b)
    case JInt(i) => IntStr(i)
    case JStr(s) => "'" + s + "'"
    case JArray(items) => "[" + ReprItems(items) + "]"
    case JObject(members) => "{" + ReprMembers(members) + "}"
  }

  /** The elements of a list, each as its repr, separated by ", ". */
  function ReprItems(items: seq<Json>): string
    decreases items
  {
    if items == [] then ""
    else Repr(items[0]) + (if |items| == 1 then "" else ", " + ReprItems(items[1..]))
  }

  function ReprMember(member: (string, Json)): string
    decreases member
  {
    "'" + member.0 + "': " + Repr(member.1)
  }

  /** The members of a dict, each as `'name': repr(value)`, separated by ", ". */
  function ReprMembers(members: seq<(string, Json)>): string
    decreases members
  {
    if members == [] then ""
    else ReprMember(members[0]) + (if |members| == 1 then "" else ", " + ReprMembers(members[1..]))
  }

  /** `str(v)`: a string is itself, everything else is its repr. */
  function Str(v: Json): (r: string)
    ensures v.JStr? ==> r == v.s
    ensures !v.JStr? ==> r == Repr(v) && r != ""
  {
    if v.JStr? then v.s else Repr(v)
  }
}
