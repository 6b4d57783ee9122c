/**
 * The fragment of JavaScript value semantics the application relies on:
 * request values, truthiness, `Number(...)`, `toLowerCase`, `startsWith`,
 * `replace` and `split`. Parsing and format checks that belong to libraries
 * are parameters collected in `Formats`.
 */
module Js {

  /** A JavaScript number. Infinities and IEEE rounding are not modelled. */
  datatype Num = NaN | Finite(x: real)

  /** A value found in a JSON body, a query string or a header. Arrays and objects collapse to `Obj`. */
  datatype Value = Undefined | Null | Bool(b: bool) | Number(n: Num) | Str(s: string) | Obj

  /** JavaScript truthiness: `undefined`, `null`, `false`, `0`, `NaN` and `""` are falsy. */
  predicate Truthy(v: Value) {
    match v
    case Undefined => false
    case Null => false
    case Bool(b) => b
    case Number(n) => n.Finite? && n.x != 0.0
    case Str(s) => s != ""
    case Obj => true
  }

  /** `v === undefined || v === null`, the values `??` replaces. */
  predicate Nullish(v: Value) {
    v.Undefined? || v.Null?
  }

  /** The opaque library primitives: `Number(text)` and the validator.js format checks. */
  datatype Formats = Formats(
    parseNumber: string -> Num,
    isNumeric: string -> bool,
    isEmail: string -> bool,
    isUUID: string -> bool,
    isISO8601: string -> bool)

  /** `Number(v)`: the empty string is 0, other text is parsed by the opaque parser. */
  function ToNumber(v: Value, fmt: Formats): (r: Num)
    ensures v.Number? ==> r == v.n
    ensures v.Undefined? || v.Obj? ==> r.NaN?
    ensures v.Null? || v == Str("") ==> r == Finite(0.0)
  {
    match v
    case Undefined => NaN
    case Null => Finite(0.0)
    case Bool(b) => Finite(if b then 1.0 else 0.0)
    case Number(n) => n
    case Str(s) => if s == "" then Finite(0.0) else fmt.parseNumber(s)
    case Obj => NaN
  }

  /** `toLowerCase` on one character; only ASCII letters are folded. */
  function LowerChar(c: char): char {
    if 'A' <= c <= 'Z' then (c as int + 32) as char else c
  }

  function ToLowerCase(s: string): (r: string)
    ensures |r| == |s|
    ensures forall i :: 0 <= i < |s| ==> r[i] == LowerChar(s[i])
    ensures forall i :: 0 <= i < |r| ==> !('A' <= r[i] <= 'Z')
  {
    seq(|s|, i requires 0 <= i < |s| => LowerChar(s[i]))
  }

  /** Lower-casing twice is lower-casing once. */
  lemma LowerCaseIdempotent(s: string)
    ensures ToLowerCase(ToLowerCase(s)) == ToLowerCase(s)
  {
    var once := ToLowerCase(s);
    forall i | 0 <= i < |s|
      ensures ToLowerCase(once)[i] == once[i]
    {
      assert !('A' <= once[i] <= 'Z');
    }
  }

  /** A character outside the Basic Multilingual Plane, which JavaScript stores as two UTF-16 code units. */
  predicate Astral(c: char) {
    c as int > 0xFFFF
  }

  predicate NoAstral(s: string) {
    forall i :: 0 <= i < |s| ==> !Astral(s[i])
  }

  /** `s.length`: the number of UTF-16 code units, so an astral character counts twice. */
  function Utf16Length(s: string): (n: nat)
    ensures |s| <= n <= 2 * |s|
    ensures n == |s| <==> NoAstral(s)
  {
    if s == [] then 0
    else
      var n := (if Astral(s[0]) then 2 else 1) + Utf16Length(s[1..]);
      assert NoAstral(s) <==> !Astral(s[0]) && NoAstral(s[1..]) by {
        assert forall i :: 1 <= i < |s| ==> s[i] == s[1..][i - 1];
      }
      n
  }

  predicate StartsWith(s: string, prefix: string) {
    |prefix| <= |s| && s[..|prefix|] == prefix
  }

  predicate MatchAt(s: string, pat: string, j: int) {
    0 <= j && j + |pat| <= |s| && s[j..j + |pat|] == pat
  }

  /** `s.indexOf(pat, k)`: the first position at or after `k` where `pat` occurs, or -1. */
  function IndexOf(s: string, pat: string, k: nat): (r: int)
    requires k <= |s|
    ensures r == -1 || (k <= r && MatchAt(s, pat, r))
    ensures r == -1 ==> forall j :: k <= j ==> !MatchAt(s, pat, j)
    ensures r != -1 ==> forall j :: k <= j < r ==> !MatchAt(s, pat, j)
    decreases |s| - k
  {
    if k + |pat| > |s| then -1
    else if s[k..k + |pat|] == pat then k
    else IndexOf(s, pat, k + 1)
  }

  /** `s.replace(pat, rep)` with a string pattern: only the first occurrence is replaced. */
  function ReplaceFirst(s: string, pat: string, rep: string): (r: string)
    ensures (forall j :: !MatchAt(s, pat, j)) ==> r == s
  {
    var i := IndexOf(s, pat, 0);
    if i == -1 then s else s[..i] + rep + s[i + |pat|..]
  }

  /** Removing a prefix with `replace` yields the rest of the text. */
  lemma ReplacePrefix(s: string, prefix: string)
    requires StartsWith(s, prefix)
    ensures ReplaceFirst(s, prefix, "") == s[|prefix|..]
  {
    assert MatchAt(s, prefix, 0);
    assert IndexOf(s, prefix, 0) == 0;
  }

  /** `s.replace(/from/g, to)` for a one-character pattern. */
  function ReplaceAllChar(s: string, from: char, to: char): (r: string)
    ensures |r| == |s|
    ensures forall i :: 0 <= i < |s| ==> r[i] == (if s[i] == from then to else s[i])
  {
    seq(|s|, i requires 0 <= i < |s| => if s[i] == from then to else s[i])
  }

  /** `s.split(d)` for a one-character separator: one more part than separators, none containing it. */
  function Split(s: string, d: char): (parts: seq<string>)
    ensures |parts| == multiset(s)[d] + 1
    ensures forall k :: 0 <= k < |parts| ==> d !in parts[k]
  {
    if s == [] then [""]
    else
      var rest := Split(s[1..], d);
      assert s == [s[0]] + s[1..];
      if s[0] == d then [""] + rest
      else [[s[0]] + rest[0]] + rest[1..]
  }

  /** `parts.join(d)`. */
  function Join(parts: seq<string>, d: char): string {
    if |parts| <= 1 then (if parts == [] then "" else parts[0])
    else parts[0] + [d] + Join(parts[1..], d)
  }

  /** Joining after an empty first part puts a separator in front. */
  lemma JoinEmptyHead(rest: seq<string>, d: char)
    requires |rest| >= 1
    ensures Join([""] + rest, d) == [d] + Join(rest, d)
  {
    assert ([""] + rest)[1..] == rest;
  }

  /** Joining after extending the first part by one character extends the text by it. */
  lemma JoinExtendHead(c: char, rest: seq<string>, d: char)
    requires |rest| >= 1
    ensures Join([[c] + rest[0]] + rest[1..], d) == [c] + Join(rest, d)
  {
    var parts := [[c] + rest[0]] + rest[1..];
    if |rest| > 1 {
      assert parts[1..] == rest[1..];
    }
  }

  /** Splitting and joining again gives back the original text. */
  lemma {:induction false} SplitJoin(s: string, d: char)
    ensures Join(Split(s, d), d) == s
  {
    if s != [] {
      var rest := Split(s[1..], d);
      SplitJoin(s[1..], d);
      assert s == [s[0]] + s[1..];
      if s[0] == d {
        assert Split(s, d) == [""] + rest;
        JoinEmptyHead(rest, d);
      } else {
        assert Split(s, d) == [[s[0]] + rest[0]] + rest[1..];
        JoinExtendHead(s[0], rest, d);
      }
    }
  }
}
