/** Python's str.splitlines, on text whose lines were each ended by a line feed. */
module TextLines {

  /** The characters str.splitlines cuts at. */
  predicate IsBreak(c: char) {
    || '\U{A}' <= c <= '\U{D}'
    || '\U{1C}' <= c <= '\U{1E}'
    || c == '\U{85}' || c == '\U{2028}' || c == '\U{2029}'
  }

  predicate NoBreak(s: string) { forall i :: 0 <= i < |s| ==> !IsBreak(s[i]) }

  /** The text before the first break. */
  function FirstLine(s: string): (r: string)
    ensures |r| <= |s| && r == s[..|r|] && NoBreak(r)
    ensures |r| < |s| ==> IsBreak(s[|r|])
  {
    if s == "" || IsBreak(s[0]) then "" else [s[0]] + FirstLine(s[1..])
  }

  /** Where the next line begins: behind the break, or behind a carriage return and line feed. */
  function Behind(s: string, at: nat): (next: nat)
    requires at < |s|
    ensures at < next <= |s|
  {
    if s[at] == '\r' && at + 1 < |s| && s[at + 1] == '\n' then at + 2 else at + 1
  }

  function SplitLines(s: string): seq<string>
    decreases |s|
  {
    var first := FirstLine(s);
    if |first| == |s| then (if s == "" then [] else [s])
    else [first] + SplitLines(s[Behind(s, |first|)..])
  }

  /** A line, its line feed and what follows. */
  function Feed(line: string, rest: string): string { line + ("\n" + rest) }

  /** What one line of text with its line feed is split into. */
  function Pieces(line: string): seq<string> { SplitLines(Feed(line, "")) }

  function AllPieces(lines: seq<string>): seq<string> {
    if lines == [] then [] else Pieces(lines[0]) + AllPieces(lines[1..])
  }

  /** Lines, each with its line feed. */
  function Ended(lines: seq<string>): string {
    if lines == [] then "" else Feed(lines[0], Ended(lines[1..]))
  }

  lemma {:induction false} FirstLineOf(r: string, rest: string)
    requires NoBreak(r) && (rest == "" || IsBreak(rest[0]))
    ensures FirstLine(r + rest) == r
  {
    if r == "" {
      assert r + rest == rest;
    } else {
      assert (r + rest)[1..] == r[1..] + rest;
      FirstLineOf(r[1..], rest);
    }
  }

  lemma SplitWhole(line: string, rest: string)
    requires NoBreak(line)
    ensures SplitLines(Feed(line, rest)) == [line] + SplitLines(rest)
  {
    var s := Feed(line, rest);
    FirstLineOf(line, "\n" + rest);
    assert s[|line|] == '\n';
    assert s[|line| + 1..] == rest;
  }

  /** Where the second piece of a line with a break inside begins. */
  function Cut(line: string): nat
    requires |FirstLine(line)| < |line|
  {
    Behind(Feed(line, ""), |FirstLine(line)|)
  }

  lemma DropFeed(line: string, rest: string, cut: nat)
    requires cut <= |line| + 1
    ensures cut <= |Feed(line, rest)|
    ensures Feed(line, rest)[cut..] == if cut <= |line| then Feed(line[cut..], rest) else rest
  {}

  lemma {:induction false} FirstOfFeed(line: string, rest: string)
    requires |FirstLine(line)| < |line|
    ensures FirstLine(Feed(line, rest)) == FirstLine(line)
  {
    assert Feed(line, rest)[0] == line[0];
    if !IsBreak(line[0]) {
      DropFeed(line, rest, 1);
      hide Feed;
      FirstOfFeed(line[1..], rest);
    }
  }

  lemma BehindInFeed(line: string, rest: string, at: nat)
    requires at < |line|
    ensures at < |Feed(line, rest)| && at < |Feed(line, "")|
    ensures Behind(Feed(line, rest), at) == Behind(Feed(line, ""), at) <= |line| + 1
  {}

  /** A text that breaks inside its first line is cut there, whatever follows the line. */
  lemma SplitInside(line: string, rest: string)
    requires |FirstLine(line)| < |line|
    ensures 0 < Cut(line) <= |line| + 1
    ensures SplitLines(Feed(line, rest)) ==
      [FirstLine(line)] + SplitLines(if Cut(line) <= |line| then Feed(line[Cut(line)..], rest) else rest)
  {
    hide FirstLine; hide Feed; hide Behind;
    FirstOfFeed(line, rest);
    BehindInFeed(line, rest, |FirstLine(line)|);
    DropFeed(line, rest, Cut(line));
  }

  lemma SplitEmpty()
    ensures SplitLines("") == []
  {}

  lemma Regroup(r: string, x: seq<string>, y: seq<string>)
    ensures [r] + (x + y) == ([r] + x) + y
    ensures [] + y == y && [r] + [] == [r]
  {}

  /** A line feed always ends what comes before it. */
  lemma {:induction false} SplitAtFeed(line: string, rest: string)
    ensures SplitLines(Feed(line, rest)) == Pieces(line) + SplitLines(rest)
    decreases |line|
  {
    var r := FirstLine(line);
    hide SplitLines; hide Cut; hide NoBreak; hide FirstLine; hide Feed;
    SplitEmpty();
    BreakInside(line);
    if |r| == |line| {
      SplitWhole(line, rest);
      SplitWhole(line, "");
      Regroup(line, [], SplitLines(rest));
    } else {
      SplitInside(line, rest);
      SplitInside(line, "");
      if Cut(line) <= |line| {
        SplitAtFeed(line[Cut(line)..], rest);
        Regroup(r, Pieces(line[Cut(line)..]), SplitLines(rest));
      } else {
        Regroup(r, [], SplitLines(rest));
      }
    }
  }

  /** No piece holds a break. */
  lemma {:induction false} PiecesHaveNoBreak(s: string)
    ensures forall i :: 0 <= i < |SplitLines(s)| ==> NoBreak(SplitLines(s)[i])
    decreases |s|
  {
    var r := FirstLine(s);
    if |r| < |s| {
      PiecesHaveNoBreak(s[Behind(s, |r|)..]);
    }
    hide NoBreak;
  }

  /** The first piece of a line is its text before the first break, and a line without a break is its only piece. */
  lemma PiecesOfLine(line: string)
    ensures |Pieces(line)| >= 1 && Pieces(line)[0] == FirstLine(line)
    ensures Pieces(line) == [line] <==> NoBreak(line)
    ensures forall i :: 0 <= i < |Pieces(line)| ==> NoBreak(Pieces(line)[i])
  {
    var r := FirstLine(line);
    PiecesHaveNoBreak(Feed(line, ""));
    BreakInside(line);
    SplitEmpty();
    hide SplitLines; hide Cut; hide NoBreak; hide FirstLine; hide Feed;
    if |r| < |line| {
      SplitInside(line, "");
    } else {
      SplitWhole(line, "");
      Regroup(line, [], []);
    }
  }

  lemma BreakInside(line: string)
    ensures |FirstLine(line)| < |line| <==> !NoBreak(line)
  {
    var r := FirstLine(line);
    if |r| < |line| {
      assert IsBreak(line[|r|]);
    }
  }

  /** Splitting the ended lines splits each of them. */
  lemma {:induction false} SplitOfEnded(lines: seq<string>)
    ensures SplitLines(Ended(lines)) == AllPieces(lines)
  {
    hide SplitLines; hide Feed;
    if lines == [] {
      SplitEmpty();
    } else {
      SplitOfEnded(lines[1..]);
      SplitAtFeed(lines[0], Ended(lines[1..]));
    }
  }

  /** Splitting gives the lines back exactly when none of them holds a break. */
  lemma SplitRecovers(lines: seq<string>)
    ensures SplitLines(Ended(lines)) == lines <==> forall i :: 0 <= i < |lines| ==> NoBreak(lines[i])
  {
    hide NoBreak; hide SplitLines;
    SplitOfEnded(lines);
    PiecesHaveNoBreak(Ended(lines));
    if forall i :: 0 <= i < |lines| ==> NoBreak(lines[i]) {
      WholePieces(lines);
    }
  }

  lemma {:induction false} WholePieces(lines: seq<string>)
    requires forall i :: 0 <= i < |lines| ==> NoBreak(lines[i])
    ensures AllPieces(lines) == lines
  {
    hide NoBreak; hide Pieces;
    if lines != [] {
      PiecesOfLine(lines[0]);
      WholePieces(lines[1..]);
    }
  }

  lemma {:induction false} PiecesAppend(a: seq<string>, b: seq<string>)
    ensures AllPieces(a + b) == AllPieces(a) + AllPieces(b)
  {
    hide Pieces;
    if a == [] {
      assert a + b == b;
    } else {
      assert (a + b)[1..] == a[1..] + b;
      PiecesAppend(a[1..], b);
    }
  }

  lemma PiecesOfOne(line: string)
    ensures AllPieces([line]) == Pieces(line)
  {
    hide Pieces;
    assert [line][1..] == [];
    assert Pieces(line) + [] == Pieces(line);
  }

  /** A line with one break inside, no carriage return, is two pieces. */
  lemma PiecesOfTwo(a: string, c: char, b: string)
    requires NoBreak(a) && NoBreak(b) && IsBreak(c) && c != '\r'
    ensures Pieces(a + ([c] + b)) == [a, b]
  {
    var line := a + ([c] + b);
    FirstLineOf(a, [c] + b);
    assert Cut(line) == |a| + 1;
    assert line[|a| + 1..] == b;
    hide SplitLines; hide NoBreak; hide FirstLine; hide Feed; hide Cut;
    SplitInside(line, "");
    PiecesOfLine(b);
    SplitEmpty();
  }

  // ---------------------------------------------------------------- the breaks

  /** By code point: the line feed and its kin, three separators, next line, and the two of Unicode. */
  lemma BreakExactly(c: char)
    ensures IsBreak(c) <==> c as int in {10, 11, 12, 13, 28, 29, 30, 133, 8232, 8233}
  {}

  /** What ends a line: one break, or a carriage return and a line feed together. */
  predicate IsEnding(ending: string, rest: string) {
    || ending == "\r\n"
    || (|ending| == 1 && IsBreak(ending[0]) && !(ending == "\r" && rest != "" && rest[0] == '\n'))
  }

  /** A line before its ending is a piece, the ending none, and the rest is split for itself. */
  lemma SplitsAtEndings(line: string, ending: string, rest: string)
    requires NoBreak(line) && IsEnding(ending, rest)
    ensures SplitLines(line + (ending + rest)) == [line] + SplitLines(rest)
  {
    var s := line + (ending + rest);
    FirstLineOf(line, ending + rest);
    assert s[|line|] == ending[0];
    assert s[|line|..] == ending + rest;
    assert s[|line| + |ending|..] == rest;
    if |ending| == 1 {
      assert |line| + 1 < |s| ==> s[|line| + 1] == rest[0];
    } else {
      assert s[|line| + 1] == '\n';
    }
    assert Behind(s, |line|) == |line| + |ending|;
    hide IsBreak;
  }

  /** A text without an ending is its own last piece, unless it is empty. */
  lemma SplitsAtTheEnd(line: string)
    requires NoBreak(line)
    ensures SplitLines(line) == if line == "" then [] else [line]
  {
    FirstLineOf(line, "");
    assert line + "" == line;
    hide IsBreak;
  }
}
