/** The condition language of `EngineService.evalCond` (api/src/engine/engine.service.ts):
    a string `path = literal`, matched with the regular expression
    `^\s*([a-zA-Z0-9_.]+)\s*=\s*(.+)\s*$`, whose dotted path is resolved in a JSON
    context and compared with the typed literal by `===`. */
module Conditions {
  import opened Wrappers
  import opened Text
  import opened Json

  /** The class `[a-zA-Z0-9_.]` of the path group. */
  predicate IsPathChar(c: char)
  {
    ('a' <= c <= 'z') || ('A' <= c <= 'Z') || IsDigit(c) || c == '_' || c == '.'
  }

  /** Positions in a condition: the path is `cond[pathStart..pathEnd]`, the `=` sits at
      `eq` and the right-hand side is `cond[rightStart..rightEnd]`. */
  datatype Span = Span(pathStart: nat, pathEnd: nat, eq: nat, rightStart: nat, rightEnd: nat)

  /** `cond[..eq + 1]` can be read as the part of the regular expression up to `=`:
      white space, the non-empty path `cond[a..b]`, white space and `=` at `eq`. */
  predicate IsPathSplit(cond: string, a: nat, b: nat, eq: nat)
  {
    && a < b <= eq < |cond|
    && (forall k :: 0 <= k < a ==> IsJsWhitespace(cond[k]))
    && (forall k :: a <= k < b ==> IsPathChar(cond[k]))
    && (forall k :: b <= k < eq ==> IsJsWhitespace(cond[k]))
    && cond[eq] == '='
  }

  /** `sp` is one way the regular expression can match `cond`: white space, a non-empty
      path, white space, `=`, white space, a non-empty run without line terminators
      (what `(.+)` can take) and white space up to the end. */
  predicate IsSplit(cond: string, sp: Span)
  {
    IsPathSplit(cond, sp.pathStart, sp.pathEnd, sp.eq) && IsRightSplit(cond, sp.eq + 1, sp.rightStart, sp.rightEnd)
  }

  /** The last position in `s[lo..hi]` that is not a line terminator. */
  function LastNonTerminator(s: string, lo: nat, hi: nat): (r: Option<nat>)
    requires lo <= hi <= |s|
    ensures r.Some? ==> lo <= r.value < hi && NotLineTerminator(s[r.value])
    ensures r.Some? ==> forall k :: r.value < k < hi ==> IsLineTerminator(s[k])
    ensures r.None? ==> forall k :: lo <= k < hi ==> IsLineTerminator(s[k])
    decreases hi - lo
  {
    if lo == hi then None
    else if NotLineTerminator(s[hi - 1]) then Some(hi - 1)
    else LastNonTerminator(s, lo, hi - 1)
  }

  /** `cond[from..]` can be read as white space, a non-empty run without line
      terminators `cond[d..e]` (what `(.+)` can take) and white space to the end. */
  predicate IsRightSplit(cond: string, from: nat, d: nat, e: nat)
  {
    && from <= d < e <= |cond|
    && (forall k :: from <= k < d ==> IsJsWhitespace(cond[k]))
    && (forall k :: d <= k < e ==> NotLineTerminator(cond[k]))
    && (forall k :: e <= k < |cond| ==> IsJsWhitespace(cond[k]))
  }

  /** The part of the match after `=`, as the backtracking engine finds it: `\s*` first
      takes all white space and `(.+)` runs to the first line terminator, which only
      white space may follow; when nothing but white space follows, the engine backs off
      to the last character that is not a line terminator. */
  function MatchRight(cond: string, from: nat): (r: Option<(nat, nat)>)
    requires from <= |cond|
    ensures r.Some? ==> IsRightSplit(cond, from, r.value.0, r.value.1)
  {
    var k := RunEnd(cond, from, IsJsWhitespace);
    if k < |cond| then
      var p := RunEnd(cond, k, NotLineTerminator);
      if RunEnd(cond, p, IsJsWhitespace) == |cond| then
        NonWhitespaceIsNoTerminator(cond[k]);
        Some((k, p))
      else None
    else
      match LastNonTerminator(cond, from, |cond|)
      case None => None
      case Some(d) =>
        assert forall i | d + 1 <= i < |cond| :: IsJsWhitespace(cond[i]) by {
          forall i | d + 1 <= i < |cond| ensures IsJsWhitespace(cond[i]) {
            TerminatorIsWhitespace(cond[i]);
          }
        }
        Some((d, d + 1))
  }

  /** The part of the match before the right-hand side: the path is the maximal run
      after the leading white space, and white space and `=` must follow it. Gives the
      start and end of the path and the position of `=`. */
  function MatchPath(cond: string): (r: Option<(nat, nat, nat)>)
    ensures r.Some? ==> IsPathSplit(cond, r.value.0, r.value.1, r.value.2)
  {
    var a := RunEnd(cond, 0, IsJsWhitespace);
    var b := RunEnd(cond, a, IsPathChar);
    if b == a then None
    else
      var c := RunEnd(cond, b, IsJsWhitespace);
      if c == |cond| || cond[c] != '=' then None else Some((a, b, c))
  }

  /** The whole match; whatever it finds is a match of the regular expression. */
  function MatchCond(cond: string): (r: Option<Span>)
    ensures r.Some? ==> IsSplit(cond, r.value)
  {
    var p := MatchPath(cond);
    if p.None? || p.value.2 + 1 > |cond| then None
    else
      var q := MatchRight(cond, p.value.2 + 1);
      if q.None? then None else Some(Span(p.value.0, p.value.1, p.value.2, q.value.0, q.value.1))
  }

  lemma TerminatorIsWhitespace(c: char)
    requires IsLineTerminator(c)
    ensures IsJsWhitespace(c)
  {
  }

  lemma PathCharIsNotWhitespace(c: char)
    requires IsPathChar(c)
    ensures !IsJsWhitespace(c)
  {
  }

  lemma WhitespaceIsNotPathChar(c: char)
    requires IsJsWhitespace(c)
    ensures !IsPathChar(c)
  {
  }

  lemma NonWhitespaceIsNoTerminator(c: char)
    requires !IsJsWhitespace(c)
    ensures NotLineTerminator(c)
  {
  }

  /** Any reading of the right-hand side is found, or one the engine prefers: more
      white space before it, or as much and a longer run. */
  lemma MatchRightComplete(cond: string, from: nat, d: nat, e: nat) returns (d2: nat, e2: nat)
    requires IsRightSplit(cond, from, d, e)
    ensures MatchRight(cond, from) == Some((d2, e2))
    ensures d < d2 || (d == d2 && e <= e2)
  {
    RunEndAtLeast(cond, from, d, IsJsWhitespace);
    var k := RunEnd(cond, from, IsJsWhitespace);
    if k < |cond| {
      var p := RunEnd(cond, k, NotLineTerminator);
      assert p < |cond| ==> p >= e;
      RunEndUnique(cond, p, |cond|, IsJsWhitespace);
      if k == d {
        RunEndAtLeast(cond, k, e, NotLineTerminator);
      }
    } else {
      var r := LastNonTerminator(cond, from, |cond|);
      assert NotLineTerminator(cond[d]);
      assert d <= r.value;
      assert d + 1 < e ==> NotLineTerminator(cond[d + 1]);
    }
    d2, e2 := MatchRight(cond, from).value.0, MatchRight(cond, from).value.1;
  }

  /** Any reading up to `=` is the one `MatchPath` finds: the path cannot be shorter or
      longer, since white space and path characters are disjoint. */
  lemma MatchPathComplete(cond: string, a: nat, b: nat, eq: nat)
    requires IsPathSplit(cond, a, b, eq)
    ensures MatchPath(cond) == Some((a, b, eq))
  {
    PathCharIsNotWhitespace(cond[a]);
    RunEndUnique(cond, 0, a, IsJsWhitespace);
    if b < eq {
      WhitespaceIsNotPathChar(cond[b]);
    }
    RunEndUnique(cond, a, b, IsPathChar);
    RunEndUnique(cond, b, eq, IsJsWhitespace);
  }

  /** The whole match is assembled from its two parts. */
  lemma MatchCondOf(cond: string, sp: Span)
    requires MatchPath(cond) == Some((sp.pathStart, sp.pathEnd, sp.eq)) && sp.eq < |cond|
    requires MatchRight(cond, sp.eq + 1) == Some((sp.rightStart, sp.rightEnd))
    ensures MatchCond(cond) == Some(sp)
  {
  }

  /** `m` is the match the engine prefers over the reading `sp`: the same path and `=`,
      and more white space before the right-hand side, or as much and a longer run. */
  predicate Prefers(m: Span, sp: Span)
  {
    && m.pathStart == sp.pathStart && m.pathEnd == sp.pathEnd && m.eq == sp.eq
    && (sp.rightStart < m.rightStart || (sp.rightStart == m.rightStart && sp.rightEnd <= m.rightEnd))
  }

  /** Whenever the regular expression can match, `MatchCond` finds a match, with the same
      path and `=`, and with the priority the engine gives: the most white space before
      the right-hand side, then the longest right-hand side. */
  lemma MatchComplete(cond: string, sp: Span)
    requires IsSplit(cond, sp)
    ensures MatchCond(cond).Some? && Prefers(MatchCond(cond).value, sp)
  {
    MatchPathComplete(cond, sp.pathStart, sp.pathEnd, sp.eq);
    var d, e := MatchRightComplete(cond, sp.eq + 1, sp.rightStart, sp.rightEnd);
    MatchCondOf(cond, Span(sp.pathStart, sp.pathEnd, sp.eq, d, e));
  }

  /** The two groups of the match: the path and the raw right-hand side. */
  function ParseCond(cond: string): (r: Option<(string, string)>)
    ensures r.Some? ==> |r.value.0| > 0 && |r.value.1| > 0
  {
    match MatchCond(cond)
    case None => None
    case Some(sp) =>
      Some((cond[sp.pathStart..sp.pathEnd], cond[sp.rightStart..sp.rightEnd]))
  }

  /** The groups exist exactly when the condition is shaped `path = value`. */
  lemma ParseCondShape(cond: string)
    ensures ParseCond(cond).Some? <==> exists sp :: IsSplit(cond, sp)
  {
    if exists sp :: IsSplit(cond, sp) {
      var sp :| IsSplit(cond, sp);
      MatchComplete(cond, sp);
    } else if MatchCond(cond).Some? {
    }
  }

  /** `^\d+(\.\d+)?$`: digits, optionally followed by a dot and more digits. */
  predicate IsNumeral(s: string)
  {
    var i := RunEnd(s, 0, IsDigit);
    i > 0 && (i == |s| || (s[i] == '.' && i + 1 < |s| && AllDigits(s[i + 1..])))
  }

  function Pow10(n: nat): (p: nat)
    ensures p >= 1
  {
    if n == 0 then 1 else 10 * Pow10(n - 1)
  }

  /** `Number(s)` of a numeral, exactly. */
  function NumeralValue(s: string): real
    requires IsNumeral(s)
  {
    var i := RunEnd(s, 0, IsDigit);
    var whole := DigitsValue(s[..i]) as real;
    if i == |s| then whole
    else whole + DigitsValue(s[i + 1..]) as real / Pow10(|s| - i - 1) as real
  }

  /** `^"(.*)"$`: wrapped in double quotes, nothing in between that `.` refuses. */
  predicate IsQuoted(s: string)
  {
    |s| >= 2 && s[0] == '"' && s[|s| - 1] == '"'
    && forall k :: 1 <= k < |s| - 1 ==> NotLineTerminator(s[k])
  }

  /** The typed right-hand side: a number for a numeral, the inner text of a quoted
      string, and the raw text otherwise. */
  function TypeLiteral(raw: string): (r: Json)
    ensures r.JNum? || r.JStr?
    ensures r.JNum? <==> IsNumeral(raw)
  {
    if IsNumeral(raw) then JNum(NumeralValue(raw))
    else if IsQuoted(raw) then JStr(raw[1..|raw| - 1])
    else JStr(raw)
  }

  /** A numeral written for a natural number types back to that number. */
  lemma NumeralRoundTrip(n: nat)
    ensures TypeLiteral(NatToDecimal(n)) == JNum(n as real)
  {
    var s := NatToDecimal(n);
    RunEndUnique(s, 0, |s|, IsDigit);
    DecimalRoundTrip(n);
    assert s[..|s|] == s;
  }

  /** A quoted text types back to the text between the quotes. */
  lemma QuotedRoundTrip(t: string)
    requires forall k :: 0 <= k < |t| ==> NotLineTerminator(t[k])
    ensures TypeLiteral("\"" + t + "\"") == JStr(t)
  {
    var s := "\"" + t + "\"";
    RunEndUnique(s, 0, 0, IsDigit);
    assert s[1..|s| - 1] == t;
  }

  /** Trailing spaces stay part of the literal, so a numeral followed by a space is text. */
  lemma TrailingSpaceIsText(n: nat)
    ensures TypeLiteral(NatToDecimal(n) + " ") == JStr(NatToDecimal(n) + " ")
  {
    var d := NatToDecimal(n);
    var s := d + " ";
    RunEndUnique(s, 0, |d|, IsDigit);
  }

  /** One step of `path.split('.').reduce((a, k) => a == null ? a : a[k], ctx)`. */
  function Step(a: Json, k: string): Json
  {
    if Nullish(a) then a else Member(a, k)
  }

  /** The value a list of keys reaches from `ctx`, key by key. */
  function Resolve(ctx: Json, keys: seq<string>): Json
    decreases |keys|
  {
    if keys == [] then ctx else Resolve(Step(ctx, keys[0]), keys[1..])
  }

  /** Null and undefined absorb every further key. */
  lemma {:induction false} ResolveNullish(a: Json, keys: seq<string>)
    requires Nullish(a)
    ensures Resolve(a, keys) == a
    decreases |keys|
  {
    if keys != [] {
      ResolveNullish(Step(a, keys[0]), keys[1..]);
    }
  }

  /** Resolving in two stages is resolving the whole path (the reduce is a left fold). */
  lemma {:induction false} ResolveAppend(ctx: Json, first: seq<string>, rest: seq<string>)
    ensures Resolve(ctx, first + rest) == Resolve(Resolve(ctx, first), rest)
    decreases |first|
  {
    if first == [] {
      assert first + rest == rest;
    } else {
      assert (first + rest)[0] == first[0];
      assert (first + rest)[1..] == first[1..] + rest;
      ResolveAppend(Step(ctx, first[0]), first[1..], rest);
    }
  }

  /** The walk stops at the first null or undefined: the keys after it do not matter. */
  lemma ResolveStops(ctx: Json, keys: seq<string>, i: nat)
    requires i <= |keys|
    requires Nullish(Resolve(ctx, keys[..i]))
    ensures Resolve(ctx, keys) == Resolve(ctx, keys[..i])
  {
    assert keys == keys[..i] + keys[i..];
    ResolveAppend(ctx, keys[..i], keys[i..]);
    ResolveNullish(Resolve(ctx, keys[..i]), keys[i..]);
  }

  /** `x === y` for the values a condition can compare. An object is never identical
      to a literal, which is always a number or a string. */
  predicate StrictEquals(x: Json, y: Json)
  {
    match (x, y)
    case (JNull, JNull) => true
    case (JUndefined, JUndefined) => true
    case (JBool(a), JBool(b)) => a == b
    case (JNum(a), JNum(b)) => a == b
    case (JStr(a), JStr(b)) => a == b
    case _ => false
  }

  /** `evalCond(cond, ctx)`. */
  function EvalCond(cond: string, ctx: Json): (r: bool)
    ensures r ==> ParseCond(cond).Some?
    ensures r ==> var v := Resolve(ctx, Split(ParseCond(cond).value.0, '.'));
                  v == TypeLiteral(ParseCond(cond).value.1) && (v.JNum? || v.JStr?)
    ensures r <==> ParseCond(cond).Some?
                   && Resolve(ctx, Split(ParseCond(cond).value.0, '.')) == TypeLiteral(ParseCond(cond).value.1)
  {
    match ParseCond(cond)
    case None => false
    case Some((path, right)) => StrictEquals(Resolve(ctx, Split(path, '.')), TypeLiteral(right))
  }

  /** An empty condition, or one that is not shaped `path = value`, is false in every context. */
  lemma EvalCondUnshaped(cond: string, ctx: Json)
    requires forall sp :: !IsSplit(cond, sp)
    ensures !EvalCond(cond, ctx)
  {
    ParseCondShape(cond);
  }

  /** `key = raw` splits into the key and the whole of `raw`. */
  lemma SimpleParse(key: string, raw: string)
    requires |key| > 0 && forall k :: 0 <= k < |key| ==> IsPathChar(key[k])
    requires |raw| > 0 && !IsJsWhitespace(raw[0])
    requires forall k :: 0 <= k < |raw| ==> NotLineTerminator(raw[k])
    ensures ParseCond(key + " = " + raw) == Some((key, raw))
  {
    var cond := key + " = " + raw;
    var sp := Span(0, |key|, |key| + 1, |key| + 3, |cond|);
    assert IsSplit(cond, sp);
    MatchComplete(cond, sp);
    var m := MatchCond(cond).value;
    assert m.rightStart <= sp.rightStart by {
      assert !IsJsWhitespace(cond[sp.rightStart]);
    }
    assert cond[sp.pathStart..sp.pathEnd] == key;
    assert cond[sp.rightStart..sp.rightEnd] == raw;
  }

  /** A simple condition `key = raw` holds in an object context exactly when the object
      has the key and its value is `===` to the typed literal. */
  lemma SimpleCondition(key: string, raw: string, fields: map<string, Json>)
    requires |key| > 0 && forall k :: 0 <= k < |key| ==> IsPathChar(key[k]) && key[k] != '.'
    requires |raw| > 0 && !IsJsWhitespace(raw[0])
    requires forall k :: 0 <= k < |raw| ==> NotLineTerminator(raw[k])
    ensures EvalCond(key + " = " + raw, JObj(fields))
        <==> key in fields && StrictEquals(fields[key], TypeLiteral(raw))
  {
    SimpleParse(key, raw);
    SplitWithoutSeparator(key, '.');
    assert Resolve(JObj(fields), [key]) == Member(JObj(fields), key);
  }

  /** So `count = 3` holds exactly when `count` is the number 3 ... */
  lemma NumberCondition(key: string, n: nat, fields: map<string, Json>)
    requires |key| > 0 && forall k :: 0 <= k < |key| ==> IsPathChar(key[k]) && key[k] != '.'
    ensures EvalCond(key + " = " + NatToDecimal(n), JObj(fields))
        <==> key in fields && fields[key] == JNum(n as real)
  {
    SimpleCondition(key, NatToDecimal(n), fields);
    NumeralRoundTrip(n);
  }

  /** ... while `count = 3 ` (trailing space) holds only for the text "3 ". */
  lemma TrailingSpaceCondition(key: string, n: nat, fields: map<string, Json>)
    requires |key| > 0 && forall k :: 0 <= k < |key| ==> IsPathChar(key[k]) && key[k] != '.'
    ensures EvalCond(key + " = " + (NatToDecimal(n) + " "), JObj(fields))
        <==> key in fields && fields[key] == JStr(NatToDecimal(n) + " ")
  {
    var raw := NatToDecimal(n) + " ";
    DecimalSpaceHasNoTerminator(n);
    SimpleCondition(key, raw, fields);
    TrailingSpaceIsText(n);
    assert key in fields ==> (StrictEquals(fields[key], JStr(raw)) <==> fields[key] == JStr(raw));
  }

  lemma DecimalSpaceHasNoTerminator(n: nat)
    ensures var raw := NatToDecimal(n) + " ";
            |raw| > 0 && !IsJsWhitespace(raw[0]) && forall k :: 0 <= k < |raw| ==> NotLineTerminator(raw[k])
  {
    var d := NatToDecimal(n);
    var raw := d + " ";
    assert raw[0] == d[0];
    forall k | 0 <= k < |raw| ensures NotLineTerminator(raw[k]) {
      if k < |d| { assert raw[k] == d[k]; }
    }
  }

  /** And `name = "x"` compares with the text between the quotes. */
  lemma QuotedCondition(key: string, t: string, fields: map<string, Json>)
    requires |key| > 0 && forall k :: 0 <= k < |key| ==> IsPathChar(key[k]) && key[k] != '.'
    requires forall k :: 0 <= k < |t| ==> NotLineTerminator(t[k])
    ensures EvalCond(key + " = " + ("\"" + t + "\""), JObj(fields))
        <==> key in fields && fields[key] == JStr(t)
  {
    SimpleCondition(key, "\"" + t + "\"", fields);
    QuotedRoundTrip(t);
  }
}
