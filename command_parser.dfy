/** Turning a request line into a `Command`: a blank line is the empty
    command; otherwise the trimmed line is split on runs of `\s`, the first
    token being the name and the rest the arguments. */
module CommandParser {
  import opened JavaText
  import opened Commands

  function Parse(input: string): (c: Command)
    ensures IsBlank(input) ==> c == Empty()
  {
    if IsBlank(input) then Empty()
    else
      var tokens := RegexSplit(Trim(input));
      Command(tokens[0], tokens[1..])
  }

  /** Every token of a parsed line, name first. */
  function Tokens(c: Command): seq<string> {
    [c.name] + c.arguments
  }

  lemma RegexSpaceTrimmable(c: char)
    requires IsRegexSpace(c)
    ensures IsTrimmable(c) && IsWhitespace(c)
  {
  }

  lemma CollapseOfFree(s: string)
    requires SpaceFree(s)
    ensures Collapse(s) == s
  {
  }

  /** A non-blank line that trims to something: the tokens are non-empty, hold
      no `\s` character, and joined by single spaces they give the trimmed
      line with each run of `\s` collapsed to one space. So the tokens are the
      words of the trimmed line, in order. */
  lemma ParseTokens(input: string)
    requires !IsBlank(input) && Trim(input) != []
    ensures var ts := Tokens(Parse(input));
      && (forall i :: 0 <= i < |ts| ==> ts[i] != [] && SpaceFree(ts[i]))
      && Join(ts, ' ') == Collapse(Trim(input))
  {
    var t := Trim(input);
    var ts := RegexSplit(t);
    assert !IsRegexSpace(t[0]) && !IsRegexSpace(t[|t| - 1]);
    RegexSplitWords(t);
    assert Parse(input) == Command(ts[0], ts[1..]);
    assert Tokens(Parse(input)) == ts by {
      assert [ts[0]] + ts[1..] == ts;
    }
  }

  /** The `\s+` split of a line that neither starts nor ends with `\s`. */
  lemma RegexSplitWords(t: string)
    requires t != [] && !IsRegexSpace(t[0]) && !IsRegexSpace(t[|t| - 1])
    ensures var ts := RegexSplit(t);
      && (forall i :: 0 <= i < |ts| ==> ts[i] != [] && SpaceFree(ts[i]))
      && Join(ts, ' ') == Collapse(t)
  {
    if !HasRegexSpace(t) {
      assert RegexSplit(t) == [t];
      assert SpaceFree(t);
      CollapseOfFree(t);
    } else {
      SpacePiecesShape(t);
      var r := SpacePieces(t);
      assert r[|r| - 1] != [];
      assert RegexSplit(t) == r;
      JoinSpacePieces(t);
    }
  }

  /** A line whose trimmed form is one word parses to that word alone. */
  lemma ParseSingleWord(input: string)
    requires !IsBlank(input) && Trim(input) != [] && !HasRegexSpace(Trim(input))
    ensures Parse(input) == Command(Trim(input), [])
  {
  }

  /** A line that is not blank but trims to nothing (it holds only control
      characters among U+0000..U+0020 that are not whitespace, plus
      whitespace) parses to a command equal to the empty one. */
  lemma ParseTrimsToNothing(input: string)
    requires Trim(input) == []
    ensures Parse(input) == Empty()
  {
  }

  // ---------------------------------------------------------------------
  // padding with \s around a line changes nothing

  predicate AllRegexSpace(p: string) {
    forall i :: 0 <= i < |p| ==> IsRegexSpace(p[i])
  }

  lemma {:induction false} TrimStartPadded(p: string, s: string)
    requires AllRegexSpace(p)
    ensures TrimStart(p + s) == TrimStart(s)
  {
    if p != [] {
      RegexSpaceTrimmable(p[0]);
      assert (p + s)[1..] == p[1..] + s;
      TrimStartPadded(p[1..], s);
    } else {
      assert p + s == s;
    }
  }

  lemma {:induction false} TrimEndPadded(s: string, q: string)
    requires AllRegexSpace(q)
    ensures TrimEnd(s + q) == TrimEnd(s)
  {
    if q != [] {
      RegexSpaceTrimmable(q[|q| - 1]);
      assert (s + q)[..|s + q| - 1] == s + q[..|q| - 1];
      TrimEndPadded(s, q[..|q| - 1]);
    } else {
      assert s + q == s;
    }
  }

  lemma {:induction false} TrimStartThenPad(s: string, q: string)
    requires AllRegexSpace(q)
    ensures TrimStart(s) == [] ==> TrimStart(s + q) == []
    ensures TrimStart(s) != [] ==> TrimStart(s + q) == TrimStart(s) + q
  {
    if s == [] {
      assert s + q == q;
      TrimStartPadded(q, []);
      assert q + [] == q;
    } else if IsTrimmable(s[0]) {
      assert (s + q)[1..] == s[1..] + q;
      TrimStartThenPad(s[1..], q);
    }
  }

  lemma BlankPadded(p: string, s: string, q: string)
    requires AllRegexSpace(p) && AllRegexSpace(q)
    ensures IsBlank(p + s + q) <==> IsBlank(s)
  {
    var x := p + s + q;
    if IsBlank(s) {
      forall i | 0 <= i < |x| ensures IsWhitespace(x[i]) {
        if i < |p| {
          RegexSpaceTrimmable(p[i]);
        } else if i < |p| + |s| {
          assert x[i] == s[i - |p|];
        } else {
          RegexSpaceTrimmable(q[i - |p| - |s|]);
        }
      }
    }
    if IsBlank(x) {
      forall i | 0 <= i < |s| ensures IsWhitespace(s[i]) {
        assert s[i] == x[i + |p|];
      }
    }
  }

  /** Leading and trailing `\s` are ignored. */
  lemma ParsePadded(p: string, s: string, q: string)
    requires AllRegexSpace(p) && AllRegexSpace(q)
    ensures Parse(p + s + q) == Parse(s)
  {
    BlankPadded(p, s, q);
    assert p + s + q == p + (s + q);
    TrimStartPadded(p, s + q);
    TrimStartThenPad(s, q);
    if TrimStart(s) != [] {
      TrimEndPadded(TrimStart(s), q);
    }
    assert Trim(p + s + q) == Trim(s);
  }

  // ---------------------------------------------------------------------
  // the round trip

  lemma {:induction false} JoinEnds(ws: seq<string>, d: char)
    requires ws != [] && forall i :: 0 <= i < |ws| ==> ws[i] != []
    ensures var j := Join(ws, d);
      j != [] && j[0] == ws[0][0] && j[|j| - 1] == ws[|ws| - 1][|ws[|ws| - 1]| - 1]
  {
    if |ws| >= 2 {
      JoinEnds(ws[1..], d);
    }
  }

  /** Non-empty words without `\s`, joined by single spaces, split back
      into those words. */
  lemma RegexSplitOfJoin(ws: seq<string>)
    requires ws != []
    requires forall i :: 0 <= i < |ws| ==> ws[i] != [] && SpaceFree(ws[i])
    ensures RegexSplit(Join(ws, ' ')) == ws
  {
    var j := Join(ws, ' ');
    if |ws| >= 2 {
      SpacePiecesOfJoin(ws);
      JoinHasSeparator(ws, ' ');
      assert IsRegexSpace(' ');
      assert HasRegexSpace(j);
      assert RegexSplit(j) == DropTrailingEmpty(SpacePieces(j));
      assert ws[|ws| - 1] != [];
    } else {
      assert j == ws[0];
      assert SpaceFree(j);
      assert !HasRegexSpace(j);
    }
  }

  /** Non-empty words without `\s`, joined by single spaces, parse back to
      the first word as the name and the others as the arguments, provided
      the line neither starts nor ends with a character `trim` or `isBlank`
      would discard. */
  lemma ParseOfJoin(ws: seq<string>)
    requires ws != []
    requires forall i :: 0 <= i < |ws| ==> ws[i] != [] && SpaceFree(ws[i])
    requires !IsTrimmable(ws[0][0]) && !IsWhitespace(ws[0][0])
    requires !IsTrimmable(ws[|ws| - 1][|ws[|ws| - 1]| - 1])
    ensures Parse(Join(ws, ' ')) == Command(ws[0], ws[1..])
  {
    var j := Join(ws, ' ');
    JoinEnds(ws, ' ');
    assert !IsBlank(j) by {
      assert !IsWhitespace(j[0]);
    }
    TrimKeeps(j);
    RegexSplitOfJoin(ws);
    assert Parse(j) == Command(RegexSplit(j)[0], RegexSplit(j)[1..]);
  }
}
