/**
 * The part of `serde_json::Value` the client reads: lookup by key, the null
 * test, and the compact text that `Display` writes (which `format!("{}", v)`
 * uses). Numbers are integers; an object is a sequence of members, and lookup
 * takes the first member with a key.
 */
module Json {
  import opened Wrappers

  datatype Value =
    | Null
    | Bool(b: bool)
    | Number(n: int)
    | String(s: string)
    | Array(items: seq<Value>)
    | Object(members: seq<Member>)

  datatype Member = Member(key: string, value: Value)

  /** The value of the first member with the key. */
  function Lookup(members: seq<Member>, key: string): Option<Value> {
    if members == [] then None
    else if members[0].key == key then Some(members[0].value)
    else Lookup(members[1..], key)
  }

  /** The first member with the key is the one found. */
  lemma {:induction false} LookupAt(members: seq<Member>, key: string, k: nat)
    requires k < |members| && members[k].key == key
    requires forall j :: 0 <= j < k ==> members[j].key != key
    ensures Lookup(members, key) == Some(members[k].value)
  {
    if k > 0 {
      LookupAt(members[1..], key, k - 1);
    }
  }

  /** `Value::get(key)`: the member's value when `v` is an object that has the key, `None` otherwise. */
  function Get(v: Value, key: string): (r: Option<Value>)
    ensures !v.Object? ==> r.None?
    ensures v.Object? ==> r == Lookup(v.members, key)
  {
    if v.Object? then Lookup(v.members, key) else None
  }

  /** `v[key]` on a shared value: a missing key, or a value that is not an object, reads as `null`. */
  function Index(v: Value, key: string): (r: Value)
    ensures Get(v, key).Some? ==> r == Get(v, key).value
    ensures Get(v, key).None? ==> r == Null
  {
    match Get(v, key)
    case Some(x) => x
    case None => Null
  }

  const HexDigits: string := "0123456789abcdef"

  /** How the compact formatter writes one character inside a string literal. */
  function EscapeChar(c: char): string {
    if c == '"' then "\\\""
    else if c == '\\' then "\\\\"
    else if c as int == 0x08 then "\\b"
    else if c as int == 0x09 then "\\t"
    else if c as int == 0x0A then "\\n"
    else if c as int == 0x0C then "\\f"
    else if c as int == 0x0D then "\\r"
    else if c as int < 0x20 then "\\u00" + [HexDigits[c as int / 16], HexDigits[c as int % 16]]
    else [c]
  }

  function Escape(s: string): string {
    if s == [] then [] else EscapeChar(s[0]) + Escape(s[1..])
  }

  /** A character the formatter writes as it is. */
  predicate Plain(c: char) {
    c != '"' && c != '\\' && c as int >= 0x20
  }

  function NatText(n: nat): (t: string)
    ensures |t| > 0
  {
    var digit := [HexDigits[n % 10]];
    if n < 10 then digit else NatText(n / 10) + digit
  }

  function Join(parts: seq<string>): string {
    if parts == [] then ""
    else if |parts| == 1 then parts[0]
    else parts[0] + "," + Join(parts[1..])
  }

  /** `Display for Value`: compact JSON, no whitespace. */
  function Render(v: Value): string
    decreases v
  {
    match v
    case Null => "null"
    case Bool(b) => if b then "true" else "false"
    case Number(n) => if n < 0 then "-" + NatText(-n) else NatText(n)
    case String(s) => "\"" + Escape(s) + "\""
    case Array(items) =>
      "[" + Join(seq(|items|, i requires 0 <= i < |items| => Render(items[i]))) + "]"
    case Object(members) =>
      "{" + Join(seq(|members|, i requires 0 <= i < |members| =>
                     "\"" + Escape(members[i].key) + "\":" + Render(members[i].value))) + "}"
  }

  /** Text made only of plain characters is written unchanged. */
  lemma {:induction false} EscapePlain(s: string)
    requires forall i :: 0 <= i < |s| ==> Plain(s[i])
    ensures Escape(s) == s
  {
    if s != [] {
      EscapePlain(s[1..]);
      assert s == [s[0]] + s[1..];
    }
  }

  /** A string value is written between double quotes, so its text is not what `Display` gives back. */
  lemma RenderPlainString(s: string)
    requires forall i :: 0 <= i < |s| ==> Plain(s[i])
    ensures Render(String(s)) == "\"" + s + "\""
  {
    EscapePlain(s);
  }
}
