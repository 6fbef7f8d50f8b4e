/** Python values as the adapters see them once JSON input is decoded, with the
    built-ins the adapters apply to them: `dict.get`, truthiness, `str()`,
    iteration, `str.join` and `str.strip`. */
module PyValue {
  import opened Wrappers

  /** A decoded JSON value. An object keeps its members in document order,
      as the dict `json.loads` builds does. */
  datatype Json =
    | JNull
    | JBool(b: bool)
    | JInt(i: int)
    | JStr(s: string)
    | JArr(items: seq<Json>)
    | JObj(members: seq<(string, Json)>)

  type Members = seq<(string, Json)>

  /** The exceptions the core raises or catches, by Python class. */
  datatype Exception =
    | ValueError(message: string)
    | KeyError(key: string)
    | TypeError(message: string)
    | OtherException(message: string)

  /** `d.get(key)`: the value bound last to `key`, as in a dict built from the members. */
  function Lookup(m: Members, key: string): (r: Option<Json>)
    ensures r.None? <==> forall i :: 0 <= i < |m| ==> m[i].0 != key
    ensures r.Some? ==> exists i :: 0 <= i < |m| && m[i] == (key, r.value) && forall j :: i < j < |m| ==> m[j].0 != key
  {
    if m == [] then None
    else if m[|m| - 1].0 == key then Some(m[|m| - 1].1)
    else Lookup(m[..|m| - 1], key)
  }

  /** `d.get(key, default)`. */
  function Get(m: Members, key: string, default: Json): Json {
    Lookup(m, key).GetOr(default)
  }

  /** `bool(v)` for a decoded value. */
  predicate Truthy(j: Json) {
    match j
    case JNull => false
    case JBool(b) => b
    case JInt(i) => i != 0
    case JStr(s) => s != ""
    case JArr(items) => items != []
    case JObj(m) => m != []
  }

  /** `type(v).__name__` for a decoded value. */
  function TypeName(j: Json): string {
    match j
    case JNull => "NoneType"
    case JBool(_) => "bool"
    case JInt(_) => "int"
    case JStr(_) => "str"
    case JArr(_) => "list"
    case JObj(_) => "dict"
  }

  /** `s.startswith(prefix)`. */
  predicate StartsWith(s: string, prefix: string) {
    |prefix| <= |s| && s[..|prefix|] == prefix
  }

  /** `text.startswith('{')`. */
  predicate StartsWithBrace(text: string) {
    |text| > 0 && text[0] == '{'
  }

  /** `json.loads(text) if text.startswith('{') else {key: text}`, the way every adapter
      reads its input; `decode` stands for the JSON decoder and its error text. */
  function ParseInput(text: string, key: string, decode: string -> Result<Members, string>): Result<Members, string> {
    if StartsWithBrace(text) then decode(text) else Ok([(key, JStr(text))])
  }

  // ---------------------------------------------------------------- str()

  function DigitChar(d: nat): char
    requires d < 10
  {
    "0123456789"[d]
  }

  /** Decimal digits of a natural number, most significant first. */
  function NatString(n: nat): (s: string)
    ensures |s| > 0
    ensures forall k :: 0 <= k < |s| ==> '0' <= s[k] <= '9'
  {
    if n < 10 then [DigitChar(n)] else NatString(n / 10) + [DigitChar(n % 10)]
  }

  /** `str(i)` for an int. */
  function IntString(i: int): string {
    if i < 0 then "-" + NatString(-i) else NatString(i)
  }

  /** `repr(v)`; a string is shown between single quotes, without escaping. */
  function Repr(j: Json): string
    decreases j, 0
  {
    match j
    case JNull => "None"
    case JBool(b) => if b then "True" else "False"
    case JInt(i) => IntString(i)
    case JStr(s) => "'" + s + "'"
    case JArr(items) =>
      "[" + Join(", ", seq(|items|, k requires 0 <= k < |items| => Repr(items[k]))) + "]"
    case JObj(m) =>
      "{" + Join(", ", seq(|m|, k requires 0 <= k < |m| => "'" + m[k].0 + "': " + Repr(m[k].1))) + "}"
  }

  /** `str(v)`, which is what an f-string interpolates. */
  function PyStr(j: Json): string {
    if j.JStr? then j.s else Repr(j)
  }

  // ---------------------------------------------------------------- join

  /** `sep.join(parts)`. */
  function Join(sep: string, parts: seq<string>): string {
    if parts == [] then ""
    else if |parts| == 1 then parts[0]
    else parts[0] + sep + Join(sep, parts[1..])
  }

  /** `x` occurs in `t` starting at position `i`. */
  predicate InfixAt(x: string, t: string, i: nat) {
    i + |x| <= |t| && t[i..i + |x|] == x
  }

  predicate IsInfix(x: string, t: string) {
    exists i: nat :: i <= |t| && InfixAt(x, t, i)
  }

  lemma InfixOfConcat(pre: string, x: string, post: string)
    ensures InfixAt(x, pre + x + post, |pre|)
  {
    assert (pre + x + post)[|pre|..|pre| + |x|] == x;
  }

  /** Every part shows up in the joined text, surrounded by the rest of the join. */
  lemma {:induction false} JoinContainsPart(sep: string, parts: seq<string>, k: nat)
    requires k < |parts|
    ensures exists pre: string :: InfixAt(parts[k], Join(sep, parts), |pre|) && Join(sep, parts)[..|pre|] == pre
  {
    if |parts| == 1 {
      InfixOfConcat([], parts[0], []);
      assert Join(sep, parts) == [] + parts[0] + [];
      var pre: string := [];
      assert InfixAt(parts[k], Join(sep, parts), |pre|) && Join(sep, parts)[..|pre|] == pre;
    } else if k == 0 {
      var post := sep + Join(sep, parts[1..]);
      assert Join(sep, parts) == [] + parts[0] + post;
      InfixOfConcat([], parts[0], post);
      var pre: string := [];
      assert InfixAt(parts[k], Join(sep, parts), |pre|) && Join(sep, parts)[..|pre|] == pre;
    } else {
      JoinContainsPart(sep, parts[1..], k - 1);
      var rest := Join(sep, parts[1..]);
      var pre' :| InfixAt(parts[1..][k - 1], rest, |pre'|) && rest[..|pre'|] == pre';
      var head := parts[0] + sep;
      assert Join(sep, parts) == head + rest;
      InfixAfterHead(head, rest, parts[k], pre');
      var pre := head + pre';
      assert InfixAt(parts[k], Join(sep, parts), |pre|) && Join(sep, parts)[..|pre|] == pre;
    }
  }

  /** Putting `head` in front of a text moves each of its infixes, and the text before it, by `head`. */
  lemma InfixAfterHead(head: string, t: string, x: string, pre: string)
    requires InfixAt(x, t, |pre|) && t[..|pre|] == pre
    ensures InfixAt(x, head + t, |head + pre|) && (head + t)[..|head + pre|] == head + pre
  {
    assert (head + t)[|head| + |pre|..|head| + |pre| + |x|] == t[|pre|..|pre| + |x|];
    assert (head + t)[..|head| + |pre|] == head + t[..|pre|];
  }

  /** An infix of an infix is an infix. */
  lemma InfixTransitive(x: string, t: string, u: string, i: nat, j: nat)
    requires InfixAt(x, t, i) && InfixAt(t, u, j)
    ensures InfixAt(x, u, i + j)
  {
    forall k | 0 <= k < |x|
      ensures u[i + j..i + j + |x|][k] == x[k]
    {
      assert x[k] == t[i..i + |x|][k] == t[i + k];
      assert t[i + k] == u[j..j + |t|][i + k] == u[j + i + k];
    }
    assert u[i + j..i + j + |x|] == x;
  }

  lemma JoinContainsEveryPart(sep: string, parts: seq<string>, k: nat)
    requires k < |parts|
    ensures IsInfix(parts[k], Join(sep, parts))
  {
    JoinContainsPart(sep, parts, k);
    var pre: string :| InfixAt(parts[k], Join(sep, parts), |pre|) && Join(sep, parts)[..|pre|] == pre;
    var i: nat := |pre|;
    assert InfixAt(parts[k], Join(sep, parts), i);
  }

  /** `iter(v)`: the items a for-loop over the value visits, or the TypeError it raises. */
  function Iterate(j: Json): (r: Result<seq<Json>, string>)
    ensures r.Err? <==> !(j.JStr? || j.JArr? || j.JObj?)
  {
    match j
    case JStr(s) => Ok(seq(|s|, k requires 0 <= k < |s| => JStr([s[k]])))
    case JArr(items) => Ok(items)
    case JObj(m) => Ok(seq(|m|, k requires 0 <= k < |m| => JStr(m[k].0)))
    case _ => Err("'" + TypeName(j) + "' object is not iterable")
  }

  /** The index of the first item that is not a string, if any. */
  function FirstNonString(items: seq<Json>): (r: Option<nat>)
    ensures r.None? <==> forall k :: 0 <= k < |items| ==> items[k].JStr?
    ensures r.Some? ==> r.value < |items| && !items[r.value].JStr? && forall k :: 0 <= k < r.value ==> items[k].JStr?
  {
    if items == [] then None
    else if !items[0].JStr? then Some(0)
    else
      var rest := FirstNonString(items[1..]);
      if rest.Some? then Some(rest.value + 1) else None
  }

  /** The texts of a list of string values. */
  function Strings(items: seq<Json>): seq<string> {
    seq(|items|, k requires 0 <= k < |items| => if items[k].JStr? then items[k].s else "")
  }

  /** `sep.join(v)` with the TypeError texts Python uses when `v` is not an
      iterable of strings. */
  function JoinValues(sep: string, j: Json): (r: Result<string, string>)
    ensures r.Ok? <==> Iterate(j).Ok? && forall k :: 0 <= k < |Iterate(j).value| ==> Iterate(j).value[k].JStr?
    ensures r.Ok? ==> r.value == Join(sep, Strings(Iterate(j).value))
  {
    match Iterate(j)
    case Err(_) => Err("can only join an iterable")
    case Ok(items) =>
      var bad := FirstNonString(items);
      if bad.Some? then
        Err("sequence item " + IntString(bad.value) + ": expected str instance, " + TypeName(items[bad.value]) + " found")
      else
        Ok(Join(sep, Strings(items)))
  }

  // ---------------------------------------------------------------- strip

  /** The characters `str.strip()` removes. */
  predicate IsSpace(c: char) {
    c == ' ' || ('\t' <= c <= '\r') || ('\U{1C}' <= c <= '\U{1F}') || c == '\U{85}' || c == '\U{A0}'
    || c == '\U{1680}' || ('\U{2000}' <= c <= '\U{200A}') || c == '\U{2028}' || c == '\U{2029}'
    || c == '\U{202F}' || c == '\U{205F}' || c == '\U{3000}'
  }

  function TrimEnd(s: string): string {
    if s != [] && IsSpace(s[|s| - 1]) then TrimEnd(s[..|s| - 1]) else s
  }

  function TrimStart(s: string): string {
    if s != [] && IsSpace(s[0]) then TrimStart(s[1..]) else s
  }

  /** `s.strip()`. */
  function Strip(s: string): string {
    TrimEnd(TrimStart(s))
  }

  /** Trailing whitespace is removed from the end only: a prefix ending in a
      visible character is never touched. */
  lemma {:induction false} TrimEndKeepsPrefix(p: string, q: string)
    requires p != [] && !IsSpace(p[|p| - 1])
    ensures TrimEnd(p + q) == p + TrimEnd(q)
  {
    if q == [] {
      assert p + q == p;
    } else {
      var q' := q[..|q| - 1];
      assert (p + q)[..|p + q| - 1] == p + q';
      if IsSpace(q[|q| - 1]) {
        TrimEndKeepsPrefix(p, q');
      }
    }
  }

  /** Stripping text that starts with one newline and then a visible character
      drops that newline and trims the tail after the last visible character of `p`. */
  lemma StripNewlineFramed(p: string, q: string)
    requires p != [] && !IsSpace(p[0]) && !IsSpace(p[|p| - 1])
    ensures Strip("\n" + p + q) == p + TrimEnd(q)
  {
    assert ("\n" + p + q)[1..] == p + q;
    assert TrimStart("\n" + p + q) == TrimStart(p + q);
    assert (p + q)[0] == p[0];
    TrimEndKeepsPrefix(p, q);
  }
}
