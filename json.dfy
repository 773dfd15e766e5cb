/** JavaScript values as the workflow API sees them: parsed JSON plus `undefined`,
    with the truthiness, `??`, `||`, optional-chaining and object-spread rules the
    TypeScript code relies on. */
module Json {
  import opened Wrappers
  import opened Text

  /** A JSON value. Numbers are exact reals; objects are maps, so key order is not kept. */
  datatype Json =
    | JNull
    | JUndefined
    | JBool(b: bool)
    | JNum(n: real)
    | JStr(s: string)
    | JArr(items: seq<Json>)
    | JObj(fields: map<string, Json>)

  /** `x == null` in JavaScript: null or undefined. */
  predicate Nullish(j: Json)
  {
    j.JNull? || j.JUndefined?
  }

  /** JavaScript truthiness (NaN is not a value of this model). */
  predicate Truthy(j: Json)
  {
    match j
    case JNull => false
    case JUndefined => false
    case JBool(b) => b
    case JNum(n) => n != 0.0
    case JStr(s) => s != ""
    case JArr(_) => true
    case JObj(_) => true
  }

  /** `a ?? b`. */
  function Coalesce(a: Json, b: Json): (r: Json)
    ensures Nullish(r) <==> Nullish(a) && Nullish(b)
    ensures !Nullish(a) ==> r == a
    ensures r == a || r == b
  {
    if Nullish(a) then b else a
  }

  /** `(a ?? b) ?? c` and `a ?? (b ?? c)` agree, so a chain of fallbacks can be read
      either way. */
  lemma CoalesceAssociative(a: Json, b: Json, c: Json)
    ensures Coalesce(Coalesce(a, b), c) == Coalesce(a, Coalesce(b, c))
  {
  }

  /** `a || b`. */
  function Or(a: Json, b: Json): (r: Json)
    ensures Truthy(r) <==> Truthy(a) || Truthy(b)
    ensures Truthy(a) ==> r == a
    ensures r == a || r == b
  {
    if Truthy(a) then a else b
  }

  /** `(a || b) || c` and `a || (b || c)` agree. */
  lemma OrAssociative(a: Json, b: Json, c: Json)
    ensures Or(Or(a, b), c) == Or(a, Or(b, c))
  {
  }

  /** The numeral that names array index `i` when used as a property key. */
  function IndexKey(i: nat): string
  {
    NatToDecimal(i)
  }

  /** `x[k]` on a value that is not null or undefined: an own property of an object,
      an element or the length of an array; primitives have no properties here. */
  function Member(j: Json, k: string): (r: Json)
    ensures j.JObj? && k in j.fields ==> r == j.fields[k]
    ensures j.JObj? && k !in j.fields ==> r == JUndefined
    ensures !j.JObj? && !j.JArr? ==> r == JUndefined
  {
    match j
    case JObj(m) => if k in m then m[k] else JUndefined
    case JArr(xs) =>
      if k == "length" then JNum(|xs| as real)
      else if |k| > 0 && AllDigits(k) && (|k| == 1 || k[0] != '0') && DigitsValue(k) < |xs| then xs[DigitsValue(k)]
      else JUndefined
    case _ => JUndefined
  }

  /** `x?.k`: undefined when `x` is null or undefined. */
  function Field(j: Json, k: string): (r: Json)
    ensures Nullish(j) ==> r == JUndefined
    ensures j.JObj? && k in j.fields ==> r == j.fields[k]
    ensures j.JObj? && k !in j.fields ==> r == JUndefined
    ensures !j.JObj? && !j.JArr? ==> r == JUndefined
    ensures j.JArr? ==> r == Member(j, k)
  {
    if Nullish(j) then JUndefined else Member(j, k)
  }

  /** The index-keyed object that spreading an array (or a string's characters) produces. */
  function IndexMap(xs: seq<Json>): (m: map<string, Json>)
    ensures m.Keys == set i | 0 <= i < |xs| :: IndexKey(i)
  {
    if xs == [] then map[]
    else IndexMap(xs[..|xs| - 1])[IndexKey(|xs| - 1) := xs[|xs| - 1]]
  }

  lemma {:induction false} IndexMapAt(xs: seq<Json>, i: nat)
    requires i < |xs|
    ensures IndexKey(i) in IndexMap(xs) && IndexMap(xs)[IndexKey(i)] == xs[i]
  {
    if i < |xs| - 1 {
      IndexMapAt(xs[..|xs| - 1], i);
      if IndexKey(i) == IndexKey(|xs| - 1) {
        DecimalInjective(i, |xs| - 1);
      }
    }
  }

  /** The own enumerable properties `{...x}` copies: an object's fields, an array's
      elements and a string's characters under their indices, nothing for the rest. */
  function Spread(j: Json): (m: map<string, Json>)
    ensures j.JObj? ==> m == j.fields
    ensures !j.JObj? && !j.JArr? && !j.JStr? ==> m == map[]
  {
    match j
    case JObj(fields) => fields
    case JArr(xs) => IndexMap(xs)
    case JStr(s) => IndexMap(seq(|s|, i requires 0 <= i < |s| => JStr([s[i]])))
    case _ => map[]
  }

  /** A JavaScript error value: its `message` property (absent when a non-Error was
      thrown) and what `String(e)` gives. */
  datatype Thrown = Thrown(message: Option<string>, text: string)

  /** `new Error(msg)`. */
  function ErrorOf(msg: string): (e: Thrown)
    ensures e.message == Some(msg) && e.text == "Error: " + msg
  {
    Thrown(Some(msg), "Error: " + msg)
  }

  /** `e.message || String(e)`. */
  function MessageOr(e: Thrown): (s: string)
    ensures e.message.Some? && e.message.value != "" ==> s == e.message.value
    ensures e.message.None? || e.message.value == "" ==> s == e.text
  {
    if e.message.Some? && e.message.value != "" then e.message.value else e.text
  }

  /** `e?.message ?? String(e)`: an empty message is kept. */
  function MessageOrElse(e: Thrown): (s: string)
    ensures e.message.Some? ==> s == e.message.value
    ensures e.message.None? ==> s == e.text
  {
    if e.message.Some? then e.message.value else e.text
  }

  lemma MessageOfError(msg: string)
    requires msg != ""
    ensures MessageOr(ErrorOf(msg)) == msg && MessageOrElse(ErrorOf(msg)) == msg
  {
  }

  /** `new TypeError(msg)`. */
  function TypeErrorOf(msg: string): (e: Thrown)
    ensures e.message == Some(msg) && e.text == "TypeError: " + msg
  {
    Thrown(Some(msg), "TypeError: " + msg)
  }

  /** The TypeError for reading property `key` of null or undefined. */
  function NullAccess(target: Json, key: string): (e: Thrown)
    requires Nullish(target)
  {
    TypeErrorOf("Cannot read properties of " + (if target.JNull? then "null" else "undefined")
                + " (reading '" + key + "')")
  }

  /** How `String(n)` writes a number: integers in plain decimal, other values as
      `numText` says (the shortest round-tripping decimal of the double). */
  function NumberText(n: real, numText: real -> string): (s: string)
    ensures n == n.Floor as real ==> s == IntToDecimal(n.Floor)
  {
    if n == n.Floor as real then IntToDecimal(n.Floor) else numText(n)
  }

  /** `String(x)`: arrays are joined with commas, null and undefined elements giving
      empty text, and every plain object reads `[object Object]`. */
  function JsString(j: Json, numText: real -> string): (s: string)
    ensures j.JStr? ==> s == j.s
    ensures j.JArr? && j.items == [] ==> s == ""
    decreases j
  {
    match j
    case JNull => "null"
    case JUndefined => "undefined"
    case JBool(b) => if b then "true" else "false"
    case JNum(n) => NumberText(n, numText)
    case JStr(t) => t
    case JArr(items) =>
      Join(seq(|items|, i requires 0 <= i < |items| =>
        if Nullish(items[i]) then "" else JsString(items[i], numText)), ",")
    case JObj(_) => "[object Object]"
  }

  /** `s.trim()`. */
  function Trim(s: string): (r: string)
    ensures |r| <= |s|
    ensures r == "" <==> IsBlank(s)
    ensures r != "" ==> !IsJsWhitespace(r[0]) && !IsJsWhitespace(r[|r| - 1])
  {
    var a := RunEnd(s, 0, IsJsWhitespace);
    if a == |s| then "" else s[a..|s| - TrailingBlank(s)]
  }

  /** Text without leading or trailing white space is its own trim. */
  lemma TrimUnpadded(s: string)
    requires s != [] && !IsJsWhitespace(s[0]) && !IsJsWhitespace(s[|s| - 1])
    ensures Trim(s) == s
  {
    assert RunEnd(s, 0, IsJsWhitespace) == 0;
    assert TrailingBlank(s) == 0;
  }

  /** The number of white-space characters at the end of `s`. */
  function TrailingBlank(s: string): (n: nat)
    ensures n <= |s|
    ensures forall k :: |s| - n <= k < |s| ==> IsJsWhitespace(s[k])
    ensures n < |s| ==> !IsJsWhitespace(s[|s| - n - 1])
  {
    if s == [] || !IsJsWhitespace(s[|s| - 1]) then 0 else TrailingBlank(s[..|s| - 1]) + 1
  }

  /** White space appended after text that ends in a non-white-space character is
      exactly what `TrailingBlank` counts. */
  lemma {:induction false} TrailingBlankAppend(x: string, post: string)
    requires x != [] && !IsJsWhitespace(x[|x| - 1])
    requires forall k :: 0 <= k < |post| ==> IsJsWhitespace(post[k])
    ensures TrailingBlank(x + post) == |post|
    decreases |post|
  {
    if post == [] {
      assert x + post == x;
    } else {
      var p0 := post[..|post| - 1];
      assert (x + post)[..|x + post| - 1] == x + p0;
      assert (x + post)[|x + post| - 1] == post[|post| - 1];
      TrailingBlankAppend(x, p0);
    }
  }

  /** `trim()` removes any white space around text that starts and ends with other
      characters. */
  lemma TrimPadded(pre: string, s: string, post: string)
    requires s != [] && !IsJsWhitespace(s[0]) && !IsJsWhitespace(s[|s| - 1])
    requires forall k :: 0 <= k < |pre| ==> IsJsWhitespace(pre[k])
    requires forall k :: 0 <= k < |post| ==> IsJsWhitespace(post[k])
    ensures Trim(pre + s + post) == s
  {
    var p := pre + s + post;
    assert p == pre + (s + post);
    assert (s + post)[|s| - 1] == s[|s| - 1];
    TrailingBlankAppend(pre + s, post);
    assert (pre + s)[|pre + s| - 1] == s[|s| - 1];
    RunEndUnique(p, 0, |pre|, IsJsWhitespace);
    assert p[|pre|..|p| - |post|] == s;
  }
}
