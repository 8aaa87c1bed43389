/** The few JavaScript value semantics the site's logic relies on:
    truthiness and `||` defaults, `Array.prototype.slice` with non-negative
    bounds, `String.prototype.trim`, and `split("/")` followed by `pop()`. */
module Js {

  /** `undefined` / `null` versus a present value. */
  datatype Option<+T> = None | Some(value: T)

  /** A string is truthy when it is present and not "". */
  predicate Truthy(o: Option<string>) {
    o.Some? && o.value != ""
  }

  /** A number is truthy when it is present and not 0. */
  predicate TruthyNum(o: Option<int>) {
    o.Some? && o.value != 0
  }

  /** `a || b` on two optional strings. */
  function Or(a: Option<string>, b: Option<string>): Option<string> {
    if Truthy(a) then a else b
  }

  /** `a || d` where `d` is a string literal. */
  function OrElse(a: Option<string>, d: string): string {
    if Truthy(a) then a.value else d
  }

  /** `a || b || d` on optional numbers ending in a numeric literal. */
  function OrElseNum(a: Option<int>, b: Option<int>, d: int): int {
    if TruthyNum(a) then a.value else if TruthyNum(b) then b.value else d
  }

  /** `Array.isArray(x) ? x : []` (and `x || []`), where None stands for a non-array. */
  function ArrayOrEmpty<T>(o: Option<seq<T>>): seq<T> {
    if o.Some? then o.value else []
  }

  function Min(a: int, b: int): int {
    if a <= b then a else b
  }

  /** `s.slice(start, end)` for non-negative bounds: both are clamped to the length. */
  function Slice<T>(s: seq<T>, start: nat, end: nat): (r: seq<T>)
    ensures |r| == if start < Min(end, |s|) then Min(end, |s|) - start else 0
    ensures forall i :: 0 <= i < |r| ==> r[i] == s[start + i]
  {
    var hi := Min(end, |s|);
    if start < hi then s[start..hi] else []
  }

  // ---------------------------------------------------------------------
  // String.prototype.trim

  /** ECMAScript WhiteSpace and LineTerminator code points. */
  predicate IsSpace(c: char) {
    var k := c as int;
    k == 0x09 || k == 0x0A || k == 0x0B || k == 0x0C || k == 0x0D || k == 0x20 ||
    k == 0xA0 || k == 0x1680 || (0x2000 <= k <= 0x200A) || k == 0x2028 ||
    k == 0x2029 || k == 0x202F || k == 0x205F || k == 0x3000 || k == 0xFEFF
  }

  /** `trimStart()`: drops the white space the string starts with. */
  function TrimStart(s: string): string {
    if s != [] && IsSpace(s[0]) then TrimStart(s[1..]) else s
  }

  /** `trimEnd()`: drops the white space the string ends with. */
  function TrimEnd(s: string): string {
    if s != [] && IsSpace(s[|s| - 1]) then TrimEnd(s[..|s| - 1]) else s
  }

  /** `s.trim()`. */
  function Trim(s: string): string {
    TrimEnd(TrimStart(s))
  }

  /** What `TrimStart` keeps: a suffix of `s` that does not start with white
      space, everything dropped before it being white space. */
  lemma {:induction false} TrimStartSpec(s: string)
    ensures var r := TrimStart(s);
            |r| <= |s| && r == s[|s| - |r|..] &&
            (r == [] || !IsSpace(r[0])) &&
            forall k :: 0 <= k < |s| - |r| ==> IsSpace(s[k])
  {
    if s != [] && IsSpace(s[0]) {
      var t, r := s[1..], TrimStart(s);
      TrimStartSpec(t);
      assert r == TrimStart(t);
      assert r == s[|s| - |r|..] by {
        assert t[|t| - |r|..] == s[|s| - |r|..];
      }
      forall k | 0 <= k < |s| - |r|
        ensures IsSpace(s[k])
      {
        if k > 0 {
          assert s[k] == t[k - 1];
        }
      }
    }
  }

  /** What `TrimEnd` keeps: a prefix of `s` that does not end with white
      space, everything dropped after it being white space. */
  lemma {:induction false} TrimEndSpec(s: string)
    ensures var r := TrimEnd(s);
            |r| <= |s| && r == s[..|r|] &&
            (r == [] || !IsSpace(r[|r| - 1])) &&
            forall k :: |r| <= k < |s| ==> IsSpace(s[k])
  {
    if s != [] && IsSpace(s[|s| - 1]) {
      var t, r := s[..|s| - 1], TrimEnd(s);
      TrimEndSpec(t);
      assert r == TrimEnd(t);
      assert r == s[..|r|] by {
        assert t[..|r|] == s[..|r|];
      }
      forall k | |r| <= k < |s|
        ensures IsSpace(s[k])
      {
        if k < |s| - 1 {
          assert s[k] == t[k];
        }
      }
    }
  }

  /** How many white-space characters `s` starts with. */
  function LeadingSpaces(s: string): nat {
    TrimStartSpec(s);
    |s| - |TrimStart(s)|
  }

  /** What `trim()` keeps: the contiguous part of `s` starting after its
      leading white space, which neither starts nor ends with white space,
      every character of `s` outside it being white space. */
  lemma TrimSpec(s: string)
    ensures var r, d := Trim(s), LeadingSpaces(s);
            d + |r| <= |s| && r == s[d..d + |r|] &&
            (r == [] || (!IsSpace(r[0]) && !IsSpace(r[|r| - 1]))) &&
            forall k :: 0 <= k < |s| && !(d <= k < d + |r|) ==> IsSpace(s[k])
  {
    var t := TrimStart(s);
    TrimStartSpec(s);
    TrimEndSpec(t);
  }

  /** A character that is not white space lies inside the trimmed part. */
  lemma NonSpaceSurvivesTrim(s: string, k: nat)
    requires k < |s| && !IsSpace(s[k])
    ensures LeadingSpaces(s) <= k < LeadingSpaces(s) + |Trim(s)|
  {
    TrimSpec(s);
  }

  /** Trimming keeps exactly the non-space characters of the string's content:
      any character that is not white space occurs in `Trim(s)` iff it occurs in `s`. */
  lemma TrimKeepsNonSpace(s: string, c: char)
    requires !IsSpace(c)
    ensures c in Trim(s) <==> c in s
  {
    if c in s {
      NonSpaceInTrim(s, c);
    }
    if c in Trim(s) {
      TrimmedCharInSource(s, c);
    }
  }

  lemma NonSpaceInTrim(s: string, c: char)
    requires !IsSpace(c) && c in s
    ensures c in Trim(s)
  {
    var r, d := Trim(s), LeadingSpaces(s);
    var k :| 0 <= k < |s| && s[k] == c;
    NonSpaceSurvivesTrim(s, k);
    TrimSpec(s);
    assert r[k - d] == s[k];
  }

  lemma TrimmedCharInSource(s: string, c: char)
    requires c in Trim(s)
    ensures c in s
  {
    var r, d := Trim(s), LeadingSpaces(s);
    TrimSpec(s);
    var k :| 0 <= k < |r| && r[k] == c;
    assert s[d + k] == r[k];
  }

  /** A string with no white space at either end is its own trim. */
  lemma TrimOfTrimmed(s: string)
    requires s == [] || (!IsSpace(s[0]) && !IsSpace(s[|s| - 1]))
    ensures Trim(s) == s
  {
    assert TrimStart(s) == s;
    assert TrimEnd(s) == s;
  }

  /** Trimming twice is trimming once. */
  lemma TrimIdempotent(s: string)
    ensures Trim(Trim(s)) == Trim(s)
  {
    TrimSpec(s);
    TrimOfTrimmed(Trim(s));
  }

  // ---------------------------------------------------------------------
  // s.split("/") and its inverse

  /** `s.split("/")`: the pieces between slashes, at least one, none holding a slash. */
  function Split(s: string): (r: seq<string>)
    ensures |r| >= 1
    ensures forall i :: 0 <= i < |r| ==> '/' !in r[i]
  {
    if s == [] then [[]]
    else
      var rest := Split(s[1..]);
      if s[0] == '/' then [[]] + rest
      else [[s[0]] + rest[0]] + rest[1..]
  }

  /** `parts.join("/")`. */
  function Join(parts: seq<string>): string
    requires |parts| >= 1
  {
    if |parts| == 1 then parts[0] else parts[0] + "/" + Join(parts[1..])
  }

  /** `xs.pop()` on a non-empty array: its last element. */
  function Last<T>(xs: seq<T>): T
    requires |xs| >= 1
  {
    xs[|xs| - 1]
  }

  /** Splitting on "/" loses nothing: joining the pieces back gives the string. */
  lemma {:induction false} JoinSplit(s: string)
    ensures Join(Split(s)) == s
  {
    if s != [] {
      var rest := Split(s[1..]);
      JoinSplit(s[1..]);
      if s[0] == '/' {
        assert Split(s) == [[]] + rest;
        assert Join(Split(s)) == [] + "/" + Join(rest);
      } else {
        var parts := Split(s);
        assert parts == [[s[0]] + rest[0]] + rest[1..];
        if |rest| == 1 {
          assert Join(parts) == [s[0]] + rest[0];
        } else {
          assert parts[1..] == rest[1..];
          assert Join(parts) == [s[0]] + rest[0] + "/" + Join(rest[1..]);
          assert Join(rest) == rest[0] + "/" + Join(rest[1..]);
        }
        assert [s[0]] + s[1..] == s;
      }
    }
  }

  /** A join ends with its last piece, and when there are several pieces a slash
      stands right before it. */
  lemma {:induction false} JoinEndsWithLast(parts: seq<string>)
    requires |parts| >= 1
    ensures var j, l := Join(parts), Last(parts);
            |l| <= |j| && j[|j| - |l|..] == l &&
            (|parts| > 1 ==> |l| < |j| && j[|j| - |l| - 1] == '/')
  {
    if |parts| > 1 {
      JoinEndsWithLast(parts[1..]);
      assert Last(parts[1..]) == Last(parts);
      var j, t, l := Join(parts), Join(parts[1..]), Last(parts);
      assert j == parts[0] + "/" + t;
      if |parts| == 2 {
        assert t == l;
      }
      assert j[|j| - |t|..] == t;
      assert j[|j| - |l|..] == t[|t| - |l|..];
    }
  }

  /** `s.split("/").pop()`: the text after the last slash, or all of `s` when it has none. */
  function AfterLastSlash(s: string): string {
    Last(Split(s))
  }

  /** The piece `split("/").pop()` returns is the string's final slash-free segment:
      it holds no slash, `s` ends with it, and the character before it, if any, is a slash. */
  lemma AfterLastSlashIsFinalSegment(s: string)
    ensures var seg := AfterLastSlash(s);
            '/' !in seg && |seg| <= |s| && s[|s| - |seg|..] == seg &&
            (|seg| < |s| ==> s[|s| - |seg| - 1] == '/')
  {
    var parts := Split(s);
    JoinSplit(s);
    JoinEndsWithLast(parts);
  }
}
