/** JSON values as the source handles them after `JSON.parse`, and the few
    JavaScript semantics it relies on when reading them: property reads,
    truthiness, the `a || b` default idiom, string coercion in `+=` and
    template literals, `JSON.stringify` of a string, and the greedy
    `/\[[\s\S]*\]/` and `/\{[\s\S]*\}/` matches. `JSON.parse` itself is never
    modelled: every caller receives it as a parameter. */
module JsonModel {
  import opened Common
  import opened Strings

  /** A parsed JSON value. Numbers are modelled as integers. */
  datatype Json =
    | JNull
    | JBool(b: bool)
    | JNum(n: int)
    | JStr(s: string)
    | JArr(items: seq<Json>)
    | JObj(fields: map<string, Json>)

  /** `v.key` on a value that is not null: an object's own field, and
      `undefined` (None) for every other kind of value. Reading a property of
      null throws a TypeError; callers check for that first. The keys the
      source reads (`id`, `type`, `risks`, ...) are never inherited or array
      properties, so nothing else can answer them. */
  function Get(v: Json, key: string): (r: Option<Json>)
    ensures r.Some? <==> v.JObj? && key in v.fields
    ensures r.Some? ==> r.value == v.fields[key]
  {
    if v.JObj? && key in v.fields then Some(v.fields[key]) else None
  }

  /** JavaScript truthiness of a value that may be `undefined` (None). */
  predicate Truthy(v: Option<Json>) {
    match v
    case None => false
    case Some(JNull) => false
    case Some(JBool(b)) => b
    case Some(JNum(n)) => n != 0
    case Some(JStr(s)) => s != ""
    case Some(JArr(_)) => true
    case Some(JObj(_)) => true
  }

  /** `v || fallback`: the value itself when truthy, otherwise the fallback. */
  function Or(v: Option<Json>, fallback: Json): (r: Json)
    ensures Truthy(v) ==> Some(r) == v
    ensures !Truthy(v) ==> r == fallback
  {
    if Truthy(v) then v.value else fallback
  }

  /** `|| fallback` never yields a falsy value when the fallback is truthy. */
  lemma OrTruthy(v: Option<Json>, fallback: Json)
    requires Truthy(Some(fallback))
    ensures Truthy(Some(Or(v, fallback)))
  {
  }

  /** `String(v)`: the text a value contributes to `s += v` or `${v}`. */
  function Coerce(v: Option<Json>): string {
    match v
    case None => "undefined"
    case Some(j) => ToJsString(j)
  }

  /** `String(j)`. An object is "[object Object]" whatever its keys: an
      own `toString` key, which would make the conversion call it or
      throw, is not consulted. */
  function ToJsString(j: Json): string
    decreases j, 1
  {
    match j
    case JNull => "null"
    case JBool(b) => if b then "true" else "false"
    case JNum(n) => IntToString(n)
    case JStr(s) => s
    case JArr(items) => JoinElements(items, j)
    case JObj(_) => "[object Object]"
  }

  /** `Array.prototype.join(",")`: elements that are null contribute "". */
  function JoinElements(items: seq<Json>, ghost whole: Json): string
    requires forall k :: 0 <= k < |items| ==> items[k] < whole
    decreases whole, 0, |items|
  {
    if |items| == 0 then ""
    else if |items| == 1 then ElementString(items[0], whole)
    else JoinElements(items[..|items| - 1], whole) + "," + ElementString(items[|items| - 1], whole)
  }

  function ElementString(item: Json, ghost whole: Json): string
    requires item < whole
    decreases whole, 0, 0
  {
    if item.JNull? then "" else ToJsString(item)
  }

  /** A string coerces to itself. */
  lemma CoerceString(s: string)
    ensures Coerce(Some(JStr(s))) == s
  {
  }

  // ------------------------------------------------- JSON.stringify(string)

  function HexDigit(d: nat): (c: char)
    requires d < 16
    ensures '0' <= c <= '9' || 'a' <= c <= 'f'
  {
    if d < 10 then (d + '0' as int) as char else (d - 10 + 'a' as int) as char
  }

  /** How `JSON.stringify` writes one character inside a string literal
      (QuoteJSONString, section 25.5.2.3 of ECMA-262, 2023 edition): the short
      escapes, `\u00xx` in lower-case hex for the other control characters,
      and every other character as itself. */
  function EscapeChar(c: char): (r: string)
    ensures |r| >= 1
    ensures forall i :: 0 <= i < |r| ==> r[i] >= ' '
    ensures c >= ' ' && c != '"' && c != '\\' ==> r == [c]
  {
    if c == '\U{0008}' then "\\b"
    else if c == '\t' then "\\t"
    else if c == '\n' then "\\n"
    else if c == '\U{000C}' then "\\f"
    else if c == '\r' then "\\r"
    else if c == '"' then "\\\""
    else if c == '\\' then "\\\\"
    else if c < ' ' then "\\u00" + [HexDigit(c as int / 16), HexDigit(c as int % 16)]
    else [c]
  }

  function EscapeString(s: string): (r: string)
    ensures forall i :: 0 <= i < |r| ==> r[i] >= ' '
    ensures |r| >= |s|
    decreases |s|
  {
    if |s| == 0 then "" else EscapeChar(s[0]) + EscapeString(s[1..])
  }

  /** `JSON.stringify(s)` for a string: a quoted literal that contains no
      control character at all, in particular no line feed. */
  function QuoteJsonString(s: string): (r: string)
    ensures |r| >= 2 && r[0] == '"' && r[|r| - 1] == '"'
    ensures forall i :: 0 <= i < |r| ==> r[i] >= ' '
  {
    "\"" + EscapeString(s) + "\""
  }

  /** Text without a line feed or a quote passes through unchanged. */
  lemma {:induction false} EscapePlain(s: string)
    requires forall i :: 0 <= i < |s| ==> s[i] >= ' ' && s[i] != '"' && s[i] != '\\'
    ensures EscapeString(s) == s
    decreases |s|
  {
    if |s| > 0 {
      EscapePlain(s[1..]);
      assert s == [s[0]] + s[1..];
    }
  }

  // ------------------------------------------------ /\[[\s\S]*\]/ matching

  /** Position of the first `c` in `s`, if any. */
  function FirstIndex(s: string, c: char): (r: Option<nat>)
    ensures r.None? <==> c !in s
    ensures r.Some? ==> r.value < |s| && s[r.value] == c && c !in s[..r.value]
    decreases |s|
  {
    if |s| == 0 then None
    else if s[0] == c then Some(0)
    else match FirstIndex(s[1..], c)
      case None => None
      case Some(i) => Some(i + 1)
  }

  /** Position of the last `c` in `s`, if any. */
  function LastIndex(s: string, c: char): (r: Option<nat>)
    ensures r.None? <==> c !in s
    ensures r.Some? ==> r.value < |s| && s[r.value] == c && c !in s[r.value + 1..]
    decreases |s|
  {
    if |s| == 0 then None
    else if s[|s| - 1] == c then Some(|s| - 1)
    else LastIndex(s[..|s| - 1], c)
  }

  /** What `s.match(/O[\s\S]*C/)` returns for one-character delimiters O, C:
      the leftmost match starts at the first O, and the greedy `*` extends it
      to the last C. There is a match exactly when some O comes before some
      C; it starts with O, ends with C, and no O precedes it and no C follows
      it in `s`. */
  function GreedySpan(s: string, open: char, close: char): (r: Option<string>)
    ensures r.None? <==> !(exists i, j :: 0 <= i < j < |s| && s[i] == open && s[j] == close)
    ensures r.Some? ==>
      var t := r.value;
      |t| >= 2 && t[0] == open && t[|t| - 1] == close &&
      exists i :: 0 <= i && i + |t| <= |s| && t == s[i..i + |t|] &&
        open !in s[..i] && close !in s[i + |t|..]
  {
    match (FirstIndex(s, open), LastIndex(s, close))
    case (Some(i), Some(j)) =>
      if i < j then
        assert s[i..j + 1] == s[i..i + |s[i..j + 1]|];
        Some(s[i..j + 1])
      else
        NoSpanWhenOrderWrong(s, open, close, i, j);
        None
    case (None, _) =>
      None
    case (_, None) =>
      None
  }

  /** When the last closer comes before the first opener, no opener precedes
      any closer. */
  lemma NoSpanWhenOrderWrong(s: string, open: char, close: char, first: nat, last: nat)
    requires first < |s| && last < |s| && last <= first
    requires open !in s[..first] && close !in s[last + 1..]
    requires s[first] == open && s[last] == close
    ensures !(exists i, j :: 0 <= i < j < |s| && s[i] == open && s[j] == close)
  {
    forall i, j | 0 <= i < j < |s| && s[i] == open
      ensures s[j] != close
    {
      assert s[i] in s[..first] ==> false;
    }
  }
}
