/** The parts of `java.lang.String` (and of `Objects.hash`) that the server
    relies on, with Java's own semantics: three different notions of
    whitespace, `trim`, the two `split` forms (with and without a limit) and
    the 32-bit string hash. Strings are sequences of Unicode scalar values. */
module JavaText {

  type Int32 = x: int | -0x8000_0000 <= x < 0x8000_0000

  // ---------------------------------------------------------------------
  // Character classes

  /** `Character.isWhitespace`: the space, line and paragraph separators
      except the non-breaking ones, plus U+0009..U+000D and U+001C..U+001F. */
  predicate IsWhitespace(c: char) {
    var n := c as int;
    (0x09 <= n <= 0x0D) || (0x1C <= n <= 0x20) || n == 0x1680
    || (0x2000 <= n <= 0x2006) || (0x2008 <= n <= 0x200A)
    || n == 0x2028 || n == 0x2029 || n == 0x205F || n == 0x3000
  }

  /** `String.isBlank`: the string is empty or holds only whitespace. */
  predicate IsBlank(s: string) {
    forall i :: 0 <= i < |s| ==> IsWhitespace(s[i])
  }

  /** The characters `String.trim` strips: every code point up to U+0020. */
  predicate IsTrimmable(c: char) {
    c as int <= 0x20
  }

  /** `\s` of `java.util.regex` (no UNICODE_CHARACTER_CLASS flag). */
  predicate IsRegexSpace(c: char) {
    c == ' ' || 0x09 <= c as int <= 0x0D
  }

  predicate HasRegexSpace(s: string) {
    exists i :: 0 <= i < |s| && IsRegexSpace(s[i])
  }

  /** No character of `s` is one that `trim` would strip. */
  predicate Untrimmable(s: string) {
    forall i :: 0 <= i < |s| ==> !IsTrimmable(s[i])
  }

  // ---------------------------------------------------------------------
  // trim

  function TrimStart(s: string): (r: string)
    ensures r == [] || !IsTrimmable(r[0])
    ensures |r| <= |s| && r == s[|s| - |r|..]
    ensures forall i :: 0 <= i < |s| - |r| ==> IsTrimmable(s[i])
  {
    if s != [] && IsTrimmable(s[0]) then TrimStart(s[1..]) else s
  }

  function TrimEnd(s: string): (r: string)
    ensures r == [] || !IsTrimmable(r[|r| - 1])
    ensures |r| <= |s| && r == s[..|r|]
    ensures forall i :: |r| <= i < |s| ==> IsTrimmable(s[i])
    ensures s != [] && !IsTrimmable(s[0]) ==> r != [] && r[0] == s[0]
  {
    if s != [] && IsTrimmable(s[|s| - 1]) then TrimEnd(s[..|s| - 1]) else s
  }

  /** `String.trim`: drops every leading and trailing code point <= U+0020. */
  function Trim(s: string): (r: string)
    ensures r == [] || (!IsTrimmable(r[0]) && !IsTrimmable(r[|r| - 1]))
  {
    TrimEnd(TrimStart(s))
  }

  /** `trim` keeps one slice of the line and drops only trimmable code
      points before and after it. */
  lemma {:induction false} TrimSlice(s: string)
    ensures var n, r := |s| - |TrimStart(s)|, Trim(s);
      && n + |r| <= |s| && r == s[n..n + |r|]
      && (forall i :: 0 <= i < n ==> IsTrimmable(s[i]))
      && (forall i :: n + |r| <= i < |s| ==> IsTrimmable(s[i]))
  {
    var t := TrimStart(s);
    assert Trim(s) == TrimEnd(t);
    SliceOfSlice(s, t, TrimEnd(t));
  }

  /** Dropping trimmable code points from the front of `s` to give `t`, then
      from the back of `t` to give `r`, leaves a slice of `s`. */
  lemma SliceOfSlice(s: string, t: string, r: string)
    requires |t| <= |s| && t == s[|s| - |t|..]
    requires forall i :: 0 <= i < |s| - |t| ==> IsTrimmable(s[i])
    requires |r| <= |t| && r == t[..|r|]
    requires forall i :: |r| <= i < |t| ==> IsTrimmable(t[i])
    ensures var n := |s| - |t|;
      && n + |r| <= |s| && r == s[n..n + |r|]
      && (forall i :: 0 <= i < n ==> IsTrimmable(s[i]))
      && (forall i :: n + |r| <= i < |s| ==> IsTrimmable(s[i]))
  {
    var n := |s| - |t|;
    forall i | n + |r| <= i < |s| ensures IsTrimmable(s[i]) {
      assert t[i - n] == s[i];
    }
  }

  lemma TrimKeeps(s: string)
    requires s != [] && !IsTrimmable(s[0]) && !IsTrimmable(s[|s| - 1])
    ensures Trim(s) == s
  {
  }

  // ---------------------------------------------------------------------
  // split on a single character

  function IndexOf(s: string, d: char): (i: nat)
    requires d in s
    ensures i < |s| && s[i] == d && d !in s[..i]
  {
    if s[0] == d then 0 else 1 + IndexOf(s[1..], d)
  }

  /** Every piece between occurrences of `d`, empty ones included:
      k occurrences give k + 1 pieces. */
  function Pieces(s: string, d: char): (r: seq<string>)
    ensures |r| >= 1
  {
    if s == [] then [[]]
    else
      var rest := Pieces(s[1..], d);
      if s[0] == d then [[]] + rest else [[s[0]] + rest[0]] + rest[1..]
  }

  /** The clean-up step of `split` with limit 0: trailing empty strings go. */
  function DropTrailingEmpty(r: seq<string>): (t: seq<string>)
    ensures |t| <= |r| && t == r[..|t|]
    ensures r != [] && r[|r| - 1] != [] ==> t == r
  {
    if r != [] && r[|r| - 1] == [] then DropTrailingEmpty(r[..|r| - 1]) else r
  }

  /** `s.split(d)` for a one-character delimiter that is not a regex
      metacharacter: with no occurrence the result is `[s]` itself
      (so `"".split(d)` is `[""]`), otherwise all pieces less the
      trailing empty ones. */
  function Split(s: string, d: char): seq<string> {
    if d !in s then [s] else DropTrailingEmpty(Pieces(s, d))
  }

  /** `s.split(d, limit)` for `limit >= 1`: at most `limit` pieces, the last
      one being the unsplit remainder; empty pieces are kept. */
  function SplitLimit(s: string, d: char, limit: nat): (r: seq<string>)
    requires limit >= 1
    ensures 1 <= |r| <= limit
    decreases limit
  {
    if limit == 1 || d !in s then [s]
    else
      var i := IndexOf(s, d);
      [s[..i]] + SplitLimit(s[i + 1..], d, limit - 1)
  }

  /** `String.join` with a one-character separator. */
  function Join(parts: seq<string>, d: char): string {
    if parts == [] then []
    else if |parts| == 1 then parts[0]
    else parts[0] + [d] + Join(parts[1..], d)
  }

  lemma {:induction false} PiecesOfFree(a: string, d: char)
    requires d !in a
    ensures Pieces(a, d) == [a]
  {
    if a != [] {
      assert d !in a[1..];
      PiecesOfFree(a[1..], d);
      assert [a[0]] + a[1..] == a;
    }
  }

  lemma {:induction false} PiecesOfJoined(a: string, b: string, d: char)
    requires d !in a
    ensures Pieces(a + [d] + b, d) == [a] + Pieces(b, d)
  {
    if a == [] {
      assert (a + [d] + b)[1..] == b;
    } else {
      assert (a + [d] + b)[1..] == a[1..] + [d] + b;
      PiecesOfJoined(a[1..], b, d);
      assert [a[0]] + a[1..] == a;
    }
  }

  lemma {:induction false} PiecesOfJoin(parts: seq<string>, d: char)
    requires parts != []
    requires forall i :: 0 <= i < |parts| ==> d !in parts[i]
    ensures Pieces(Join(parts, d), d) == parts
  {
    if |parts| == 1 {
      PiecesOfFree(parts[0], d);
    } else {
      PiecesOfJoin(parts[1..], d);
      PiecesOfJoined(parts[0], Join(parts[1..], d), d);
    }
  }

  lemma {:induction false} JoinHasSeparator(parts: seq<string>, d: char)
    requires |parts| >= 2
    ensures d in Join(parts, d)
  {
    assert Join(parts, d)[|parts[0]|] == d;
  }

  lemma {:induction false} JoinFree(parts: seq<string>, d: char, e: char)
    requires d != e
    requires forall i :: 0 <= i < |parts| ==> e !in parts[i]
    ensures e !in Join(parts, d)
  {
    if |parts| >= 2 {
      JoinFree(parts[1..], d, e);
    }
  }

  /** Splitting a join gives the parts back, provided no part holds the
      separator and, when there are several, the last one is not empty
      (Java would drop it). */
  lemma SplitOfJoin(parts: seq<string>, d: char)
    requires parts != []
    requires forall i :: 0 <= i < |parts| ==> d !in parts[i]
    requires |parts| >= 2 ==> parts[|parts| - 1] != []
    ensures Split(Join(parts, d), d) == parts
  {
    if |parts| >= 2 {
      JoinHasSeparator(parts, d);
      PiecesOfJoin(parts, d);
    }
  }

  lemma IndexOfAt(s: string, d: char, k: nat)
    requires k < |s| && s[k] == d && d !in s[..k]
    ensures IndexOf(s, d) == k
  {
  }

  /** With limit 3, only the first two occurrences split: the third field is
      the whole remainder, separators and all. */
  lemma SplitLimitThree(a: string, b: string, c: string, d: char)
    requires d !in a && d !in b
    ensures SplitLimit(a + [d] + b + [d] + c, d, 3) == [a, b, c]
  {
    var s := a + [d] + b + [d] + c;
    assert s[..|a|] == a;
    IndexOfAt(s, d, |a|);
    var t := s[|a| + 1..];
    assert t == b + [d] + c;
    assert t[..|b|] == b;
    IndexOfAt(t, d, |b|);
    assert t[|b| + 1..] == c;
  }

  // ---------------------------------------------------------------------
  // split on the regex "\s+"

  function SkipSpaces(s: string): (r: string)
    ensures |r| <= |s| && r == s[|s| - |r|..]
    ensures r == [] || !IsRegexSpace(r[0])
    ensures forall i :: 0 <= i < |s| - |r| ==> IsRegexSpace(s[i])
  {
    if s != [] && IsRegexSpace(s[0]) then SkipSpaces(s[1..]) else s
  }

  /** The pieces between maximal runs of `\s`, as `Pattern.split` finds them
      before its clean-up: a leading run gives a leading empty piece and a
      trailing run a trailing one. */
  function SpacePieces(s: string): (r: seq<string>)
    ensures |r| >= 1
    decreases |s|
  {
    if s == [] then [[]]
    else if IsRegexSpace(s[0]) then [[]] + SpacePieces(SkipSpaces(s))
    else
      var rest := SpacePieces(s[1..]);
      [[s[0]] + rest[0]] + rest[1..]
  }

  /** `s.split("\\s+")`: with no match the result is `[s]` itself, otherwise
      the pieces less the trailing empty ones. */
  function RegexSplit(s: string): (r: seq<string>)
    ensures s != [] && !IsRegexSpace(s[|s| - 1]) ==> |r| >= 1
  {
    if !HasRegexSpace(s) then [s]
    else
      SpacePiecesShape(s);
      DropTrailingEmpty(SpacePieces(s))
  }

  predicate SpaceFree(w: string) {
    forall i :: 0 <= i < |w| ==> !IsRegexSpace(w[i])
  }

  /** The shape of the raw pieces of `s`: none holds a space, only the first
      and the last can be empty and they are exactly when `s` starts or ends
      with a space, and there is one piece exactly when `s` has no space. */
  predicate Shaped(s: string, r: seq<string>) {
    && r != []
    && (forall i :: 0 <= i < |r| ==> SpaceFree(r[i]))
    && (forall i :: 0 < i < |r| - 1 ==> r[i] != [])
    && (r[0] == [] <==> s == [] || IsRegexSpace(s[0]))
    && (r[|r| - 1] == [] <==> s == [] || IsRegexSpace(s[|s| - 1]))
    && (|r| == 1 <==> !HasRegexSpace(s))
  }

  lemma {:induction false} SpacePiecesShape(s: string)
    ensures Shaped(s, SpacePieces(s))
    decreases |s|
  {
    if s == [] {
    } else if IsRegexSpace(s[0]) {
      var t := SkipSpaces(s);
      SpacePiecesShape(t);
      ShapeAfterSpaces(s, t, SpacePieces(t));
    } else {
      var rest := SpacePieces(s[1..]);
      SpacePiecesShape(s[1..]);
      ShapeAfterChar(s, rest);
    }
  }

  lemma ShapeAfterSpaces(s: string, t: string, rt: seq<string>)
    requires s != [] && IsRegexSpace(s[0])
    requires |t| < |s| && t == s[|s| - |t|..] && (t == [] || !IsRegexSpace(t[0]))
    requires forall i :: 0 <= i < |s| - |t| ==> IsRegexSpace(s[i])
    requires Shaped(t, rt)
    ensures Shaped(s, [[]] + rt)
  {
    var r := [[]] + rt;
    assert HasRegexSpace(s);
    if t != [] {
      assert t[|t| - 1] == s[|s| - 1];
    } else {
      assert IsRegexSpace(s[|s| - 1]);
    }
    forall i | 0 <= i < |r| ensures SpaceFree(r[i]) {
      if i > 0 {
        assert r[i] == rt[i - 1];
      }
    }
    forall i | 0 < i < |r| - 1 ensures r[i] != [] {
      assert r[i] == rt[i - 1];
    }
  }

  lemma ShapeAfterChar(s: string, rest: seq<string>)
    requires s != [] && !IsRegexSpace(s[0])
    requires Shaped(s[1..], rest)
    ensures Shaped(s, [[s[0]] + rest[0]] + rest[1..])
  {
    var r := [[s[0]] + rest[0]] + rest[1..];
    forall i | 0 <= i < |r| ensures SpaceFree(r[i]) {
      if i == 0 {
        assert SpaceFree(rest[0]);
      } else {
        assert r[i] == rest[i];
      }
    }
    forall i | 0 < i < |r| - 1 ensures r[i] != [] {
      assert r[i] == rest[i];
    }
    if |rest| == 1 {
      forall k | 0 <= k < |s| ensures !IsRegexSpace(s[k]) {
        if k > 0 {
          assert s[k] == s[1..][k - 1];
        }
      }
      assert s[1..] == [] || s[|s| - 1] == s[1..][|s[1..]| - 1];
    } else {
      var k :| 0 <= k < |s[1..]| && IsRegexSpace(s[1..][k]);
      assert IsRegexSpace(s[k + 1]);
      assert s[|s| - 1] == s[1..][|s[1..]| - 1];
    }
  }

  /** Every maximal run of `\s` replaced by one space: the independent
      description of what splitting and re-joining with spaces gives. */
  function Collapse(s: string): string
    decreases |s|
  {
    if s == [] then []
    else if IsRegexSpace(s[0]) then " " + Collapse(SkipSpaces(s))
    else [s[0]] + Collapse(s[1..])
  }

  lemma JoinCons(c: char, r: seq<string>, d: char)
    requires r != []
    ensures Join([[c] + r[0]] + r[1..], d) == [c] + Join(r, d)
  {
    var p := [[c] + r[0]] + r[1..];
    if |r| >= 2 {
      assert p[1..] == r[1..];
    }
  }

  /** Joining the pieces with single spaces is collapsing the runs. */
  lemma {:induction false} JoinSpacePieces(s: string)
    ensures Join(SpacePieces(s), ' ') == Collapse(s)
    decreases |s|
  {
    if s == [] {
    } else if IsRegexSpace(s[0]) {
      var t := SkipSpaces(s);
      JoinSpacePieces(t);
      var r := SpacePieces(t);
      assert SpacePieces(s) == [[]] + r;
      assert ([[]] + r)[1..] == r;
    } else {
      JoinSpacePieces(s[1..]);
      JoinCons(s[0], SpacePieces(s[1..]), ' ');
    }
  }

  lemma {:induction false} SpacePiecesOfFree(a: string)
    requires SpaceFree(a)
    ensures SpacePieces(a) == [a]
  {
    if a != [] {
      SpacePiecesOfFree(a[1..]);
      assert [a[0]] + a[1..] == a;
    }
  }

  lemma {:induction false} SpacePiecesOfJoined(a: string, b: string)
    requires SpaceFree(a) && a != []
    requires b != [] && !IsRegexSpace(b[0])
    ensures SpacePieces(a + " " + b) == [a] + SpacePieces(b)
  {
    var s := a + " " + b;
    if |a| == 1 {
      assert s[1..] == " " + b;
      assert (" " + b)[1..] == b;
      assert SkipSpaces(" " + b) == b;
      assert SpacePieces(" " + b) == [[]] + SpacePieces(b);
      assert [a[0]] + [] == a;
    } else {
      assert s[1..] == a[1..] + " " + b;
      SpacePiecesOfJoined(a[1..], b);
      assert [a[0]] + a[1..] == a;
    }
  }

  /** Splitting on `\s+` undoes joining non-empty, space-free words with
      single spaces. */
  lemma {:induction false} SpacePiecesOfJoin(ws: seq<string>)
    requires ws != []
    requires forall i :: 0 <= i < |ws| ==> ws[i] != [] && SpaceFree(ws[i])
    ensures SpacePieces(Join(ws, ' ')) == ws
  {
    if |ws| == 1 {
      SpacePiecesOfFree(ws[0]);
    } else {
      SpacePiecesOfJoin(ws[1..]);
      var rest := Join(ws[1..], ' ');
      assert rest != [] && rest[0] == ws[1][0] by {
        if |ws[1..]| >= 2 {
          assert rest == ws[1] + [' '] + Join(ws[2..], ' ');
          assert ws[1..][1..] == ws[2..];
        }
      }
      SpacePiecesOfJoined(ws[0], rest);
    }
  }

  // ---------------------------------------------------------------------
  // numbers and hashes

  function Digit(n: nat): char
    requires n < 10
  {
    "0123456789"[n]
  }

  /** `%d` of a non-negative number. */
  function NatToString(n: nat): (s: string)
    ensures s != [] && forall i :: 0 <= i < |s| ==> '0' <= s[i] <= '9'
  {
    if n < 10 then [Digit(n)] else NatToString(n / 10) + [Digit(n % 10)]
  }

  /** Two's-complement wrap-around of Java `int` arithmetic. */
  function ToInt32(x: int): Int32 {
    (x + 0x8000_0000) % 0x1_0000_0000 - 0x8000_0000
  }

  /** The UTF-16 code units of a string, the units `String.hashCode` sums. */
  function Utf16(s: string): seq<int> {
    if s == [] then []
    else
      var n := s[0] as int;
      (if n < 0x1_0000 then [n]
       else [0xD800 + (n - 0x1_0000) / 0x400, 0xDC00 + (n - 0x1_0000) % 0x400])
      + Utf16(s[1..])
  }

  /** `h = 31 * h + unit` over the units, in 32-bit arithmetic. */
  function UnitsHash(units: seq<int>): Int32 {
    if units == [] then 0
    else ToInt32(31 * UnitsHash(units[..|units| - 1]) + units[|units| - 1])
  }

  /** `String.hashCode`. */
  function StringHash(s: string): Int32 {
    UnitsHash(Utf16(s))
  }

  /** `Objects.hash(x)` for one non-null string: `31 * 1 + x.hashCode()`. */
  function ObjectsHash(s: string): Int32 {
    ToInt32(31 + StringHash(s))
  }

  function HexDigit(n: nat): char
    requires n < 16
  {
    "0123456789abcdef"[n]
  }

  /** `Integer.toHexString` of a non-negative value: lower case, no leading
      zeros. */
  function HexString(n: nat): (s: string)
    ensures s != []
  {
    if n < 16 then [HexDigit(n)] else HexString(n / 16) + [HexDigit(n % 16)]
  }

  /** The two's-complement value of an `int` read as unsigned, as
      `Integer.toHexString` does. */
  function Unsigned(x: Int32): nat {
    if x < 0 then x + 0x1_0000_0000 else x
  }
}
