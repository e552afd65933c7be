/**
 The diff scanner of the review service (appserver/review.py:183-244): a line counter
 streamed over a unified diff, compared with the line numbers of the new files.
 */
module DiffScan {
  import opened Wrappers
  import opened Text
  import opened TextLines

  datatype Severity = P0 | P1 | P2 | Info

  /** The pattern checks on an added line; only what they say matters here. */
  type Classifier = string -> Option<Severity>

  /** A marker shows its line without the white space around it, cut to 400 characters. */
  datatype Finding = FileChanged(file: string) | Marker(severity: Severity, file: string, line: int, text: string)

  const SHOWN_LENGTH := 400

  function Shown(text: string): string {
    var stripped := Strip(text);
    if |stripped| <= SHOWN_LENGTH then stripped else stripped[..SHOWN_LENGTH]
  }

  /** What is shown is the stripped text, or its first 400 characters. */
  lemma ShownExactly(text: string)
    ensures Shown(text) <= Strip(text)
    ensures |Shown(text)| == if |Strip(text)| < 400 then |Strip(text)| else 400
  {
    hide Strip;
  }

  // ---------------------------------------------------------------- the scanner

  /** What follows the first " b/" of a line. */
  function AfterB(s: string): Option<string> {
    if |s| < 3 then None
    else if s[..3] == " b/" then Some(s[3..])
    else AfterB(s[1..])
  }

  function FileName(raw: string): string {
    match AfterB(raw) case Some(name) => name case None => raw
  }

  function DigitRun(s: string): (run: string)
    ensures |run| <= |s| && run == s[..|run|]
    ensures forall i :: 0 <= i < |run| ==> IsDigit(run[i])
  {
    if s == "" || !IsDigit(s[0]) then "" else [s[0]] + DigitRun(s[1..])
  }

  /** A run of digits and what follows it. */
  function Digits(s: string): Option<(nat, string)> {
    var run := DigitRun(s);
    if run == "" then None else Some((Value(run), s[|run|..]))
  }

  function NewStart(s: string): Option<nat> {
    if !StartsWith(s, " +") then None
    else match Digits(s[2..]) case Some((n, _)) => Some(n) case None => None
  }

  /** What follows an optional comma and count. */
  function SkipCount(s: string): Option<string> {
    if !StartsWith(s, ",") then Some(s)
    else match Digits(s[1..]) case Some((_, rest)) => Some(rest) case None => None
  }

  /** The new-file start of a hunk header "@@ -a,b +c". */
  function ParseHeader(raw: string): Option<nat> {
    if !StartsWith(raw, "@@ -") then None
    else match Digits(raw[4..])
      case None => None
      case Some((_, rest)) => match SkipCount(rest) case Some(rest') => NewStart(rest') case None => None
  }

  datatype State = State(file: string, line: int, seen: set<string>, found: seq<Finding>)

  const START := State("", 0, {}, [])

  function Max(a: int, b: int): int { if a > b then a else b }

  function Flag(classify: Classifier, s: State, text: string): seq<Finding> {
    match classify(text) case Some(severity) => [Marker(severity, s.file, s.line, Shown(text))] case None => []
  }

  predicate IsFile(raw: string) { StartsWith(raw, "diff --git ") }

  predicate IsAdd(raw: string) { StartsWith(raw, "+") && !StartsWith(raw, "+++") }

  function ScanLine(classify: Classifier, s: State, raw: string): State {
    if IsFile(raw) then
      var file := FileName(raw);
      if file != "" && file !in s.seen then State(file, 0, s.seen + {file}, s.found + [FileChanged(file)])
      else s.(file := file, line := 0)
    else if ParseHeader(raw).Some? then s.(line := ParseHeader(raw).value - 1)
    else if IsAdd(raw) then
      var s' := s.(line := Max(s.line + 1, 1));
      s'.(found := s.found + Flag(classify, s', raw[1..]))
    else if StartsWith(raw, " ") then s.(line := s.line + 1)
    else s
  }

  function ScanAll(classify: Classifier, s: State, lines: seq<string>): State
    decreases |lines|
  {
    if lines == [] then s else ScanAll(classify, ScanLine(classify, s, lines[0]), lines[1..])
  }

  /** The loop of the service. */
  method FindingsFromDiff(classify: Classifier, diff: string) returns (findings: seq<Finding>)
    ensures findings == ScanAll(classify, START, SplitLines(diff)).found
  {
    var lines := SplitLines(diff);
    var file: string, line: int := "", 0;
    var seen: set<string> := {};
    findings := [];
    for i := 0 to |lines|
      invariant ScanAll(classify, State(file, line, seen, findings), lines[i..]) == ScanAll(classify, START, lines)
    {
      ghost var before := State(file, line, seen, findings);
      file, line, seen, findings := TakeLine(classify, file, line, seen, findings, lines[i]);
      assert lines[i..][1..] == lines[i + 1..];
      hide ScanLine;
    }
  }

  /** The body of the loop: one line of the diff. */
  method TakeLine(classify: Classifier, file: string, line: int, seen: set<string>, findings: seq<Finding>,
                  raw: string)
    returns (file': string, line': int, seen': set<string>, findings': seq<Finding>)
    ensures State(file', line', seen', findings') == ScanLine(classify, State(file, line, seen, findings), raw)
  {
    hide FileName; hide ParseHeader; hide Shown;
    file', line', seen', findings' := file, line, seen, findings;
    if StartsWith(raw, "diff --git ") {
      file', line' := FileName(raw), 0;
      if file' != "" && file' !in seen {
        seen', findings' := seen + {file'}, findings + [FileChanged(file')];
      }
      return;
    }
    var header := ParseHeader(raw);
    if header.Some? {
      var start: int := header.value;
      line' := start - 1;
    } else if StartsWith(raw, "+") && !StartsWith(raw, "+++") {
      line' := Max(line + 1, 1);
      var severity := classify(raw[1..]);
      if severity.Some? {
        findings' := findings + [Marker(severity.value, file, line', Shown(raw[1..]))];
      }
    } else if StartsWith(raw, " ") {
      line' := line + 1;
    }
  }

  // ---------------------------------------------------------------- a diff and its text

  datatype Line = Context(text: string) | Added(text: string) | Removed(text: string) | NoNewline

  datatype Hunk =
    Hunk(oldStart: nat, oldCount: nat, newStart: nat, newCount: nat, heading: string, lines: seq<Line>)

  /** meta holds the lines between the file header and the first hunk. */
  datatype FileDiff = FileDiff(oldName: string, newName: string, meta: seq<string>, hunks: seq<Hunk>)

  function LineText(l: Line): string {
    match l
    case Context(text) => " " + text
    case Added(text) => "+" + text
    case Removed(text) => "-" + text
    case NoNewline => "\\ No newline at end of file"
  }

  /** A count of one is left out. */
  function CountText(n: nat): string { if n == 1 then "" else "," + Decimal(n) }

  function HeaderNumbers(h: Hunk): string {
    "@@ -" + Decimal(h.oldStart) + CountText(h.oldCount) + " +" + Decimal(h.newStart) + CountText(h.newCount) + " @@"
  }

  function HeaderText(h: Hunk): string { HeaderNumbers(h) + h.heading }

  function FileText(f: FileDiff): string { "diff --git a/" + f.oldName + " b/" + f.newName }

  function LinesText(lines: seq<Line>): seq<string> {
    seq(|lines|, i requires 0 <= i < |lines| => LineText(lines[i]))
  }

  function HunksText(hunks: seq<Hunk>): seq<string> {
    if hunks == [] then [] else [HeaderText(hunks[0])] + LinesText(hunks[0].lines) + HunksText(hunks[1..])
  }

  function DiffText(files: seq<FileDiff>): seq<string> {
    if files == [] then [] else [FileText(files[0])] + files[0].meta + HunksText(files[0].hunks) + DiffText(files[1..])
  }

  // ---------------------------------------------------------------- the line numbers of the new file

  predicate InNew(l: Line) { l.Context? || l.Added? }

  /** Lines of the new file among some lines of a hunk. */
  function Kept(lines: seq<Line>): nat {
    if lines == [] then 0 else Kept(lines[..|lines| - 1]) + (if InNew(lines[|lines| - 1]) then 1 else 0)
  }

  function NewTexts(lines: seq<Line>): (texts: seq<string>)
    ensures |texts| == Kept(lines)
  {
    if lines == [] then []
    else
      var last := lines[|lines| - 1];
      NewTexts(lines[..|lines| - 1]) + (if InNew(last) then [last.text] else [])
  }

  function TrueLine(h: Hunk, i: nat): nat
    requires i < |h.lines|
  {
    h.newStart + Kept(h.lines[..i])
  }

  /** The hunk's context and added lines stand in the new file from its start line on. */
  predicate Fits(h: Hunk, newFile: seq<string>) {
    && h.newStart >= 1
    && h.newStart - 1 + Kept(h.lines) <= |newFile|
    && newFile[h.newStart - 1..h.newStart - 1 + Kept(h.lines)] == NewTexts(h.lines)
  }

  /** TrueLine is the 1-based index of a line's text in the new file. */
  lemma {:induction false} TrueLineIndexes(h: Hunk, newFile: seq<string>, i: nat)
    requires Fits(h, newFile) && i < |h.lines| && InNew(h.lines[i])
    ensures 1 <= TrueLine(h, i) <= |newFile| && newFile[TrueLine(h, i) - 1] == h.lines[i].text
  {
    TextAt(h.lines, i);
    var at := Kept(h.lines[..i]);
    assert newFile[h.newStart - 1..h.newStart - 1 + Kept(h.lines)][at] == newFile[h.newStart - 1 + at];
  }

  lemma {:induction false} TextAt(lines: seq<Line>, i: nat)
    requires i < |lines| && InNew(lines[i])
    ensures Kept(lines[..i]) < Kept(lines) && NewTexts(lines)[Kept(lines[..i])] == lines[i].text
  {
    var k := |lines| - 1;
    if i < k {
      TextAt(lines[..k], i);
      assert lines[..k][..i] == lines[..i];
    } else {
      assert lines[..k] == lines[..i];
    }
  }


  // ---------------------------------------------------------------- reading the text back

  lemma {:induction false} DigitRunStops(digits: string, rest: string)
    requires forall i :: 0 <= i < |digits| ==> IsDigit(digits[i])
    requires rest == "" || !IsDigit(rest[0])
    ensures DigitRun(digits + rest) == digits
  {
    if digits == "" {
      assert digits + rest == rest;
    } else {
      assert (digits + rest)[1..] == digits[1..] + rest;
      DigitRunStops(digits[1..], rest);
    }
  }

  lemma DigitsOf(n: nat, rest: string)
    requires rest == "" || !IsDigit(rest[0])
    ensures Digits(Decimal(n) + rest) == Some((n, rest))
  {
    DigitRunStops(Decimal(n), rest);
    ValueOfDecimal(n);
    assert (Decimal(n) + rest)[|Decimal(n)|..] == rest;
  }

  lemma Begins(prefix: string, rest: string)
    ensures StartsWith(prefix + rest, prefix) && (prefix + rest)[|prefix|..] == rest
  {
    assert (prefix + rest)[..|prefix|] == prefix;
  }

  lemma NewStartOf(n: nat, tail: string)
    requires tail == "" || !IsDigit(tail[0])
    ensures NewStart(" +" + (Decimal(n) + tail)) == Some(n)
  {
    Begins(" +", Decimal(n) + tail);
    DigitsOf(n, tail);
    hide Digits; hide StartsWith; hide Decimal;
  }

  lemma OtherFirst(raw: string, prefix: string)
    requires prefix != "" && (raw == "" || raw[0] != prefix[0])
    ensures !StartsWith(raw, prefix)
  {
    if |prefix| <= |raw| {
      assert raw[..|prefix|][0] == raw[0];
    }
  }

  lemma CountSkipped(count: nat, rest: string)
    requires rest != "" && rest[0] == ' '
    ensures SkipCount(CountText(count) + rest) == Some(rest)
  {
    hide Decimal; hide Digits; hide StartsWith;
    if count == 1 {
      assert CountText(count) + rest == rest;
      OtherFirst(rest, ",");
    } else {
      assert CountText(count) + rest == "," + (Decimal(count) + rest);
      Begins(",", Decimal(count) + rest);
      DigitsOf(count, rest);
    }
  }

  lemma HeaderParts(h: Hunk, tail: string, rest: string, counted: string)
    requires tail == CountText(h.newCount) + (" @@" + h.heading)
    requires rest == " +" + (Decimal(h.newStart) + tail)
    requires counted == CountText(h.oldCount) + rest
    ensures HeaderText(h) == "@@ -" + (Decimal(h.oldStart) + counted)
  {
    hide Decimal; hide CountText;
  }

  /** A hunk header is read back, with or without the counts. */
  lemma HeaderParses(h: Hunk)
    ensures ParseHeader(HeaderText(h)) == Some(h.newStart)
  {
    var tail := CountText(h.newCount) + (" @@" + h.heading);
    var rest := " +" + (Decimal(h.newStart) + tail);
    var counted := CountText(h.oldCount) + rest;
    HeaderParts(h, tail, rest, counted);
    assert tail[0] == ',' || tail[0] == ' ';
    assert counted[0] == ',' || counted[0] == ' ';
    hide Digits; hide Decimal; hide StartsWith; hide CountText; hide HeaderText; hide SkipCount; hide NewStart;
    NewStartOf(h.newStart, tail);
    CountSkipped(h.oldCount, rest);
    DigitsOf(h.oldStart, counted);
    Begins("@@ -", Decimal(h.oldStart) + counted);
  }

  lemma {:induction false} AfterBSkips(p: string, rest: string)
    requires forall i :: 0 <= i < |p| && p[i] == ' ' ==> i + 1 < |p| && p[i + 1] != 'b'
    ensures AfterB(p + rest) == AfterB(rest)
  {
    if p == "" {
      assert p + rest == rest;
    } else {
      var s := p + rest;
      assert s[1..] == p[1..] + rest;
      if |s| >= 3 && s[0] == ' ' {
        assert s[1] == p[1];
        assert s[..3][1] != 'b';
      } else if |s| >= 3 {
        assert s[..3][0] != ' ';
      }
      AfterBSkips(p[1..], rest);
      assert |s| < 3 ==> AfterB(rest) == None;
    }
  }

  lemma {:induction false} AfterBOf(old': string, name: string)
    ensures AfterB(old').None? ==> AfterB(old' + (" b/" + name)) == Some(name)
    ensures AfterB(old').Some? ==> AfterB(old' + (" b/" + name)) == Some(AfterB(old').value + (" b/" + name))
  {
    var s := old' + (" b/" + name);
    if old' == "" {
      assert s == " b/" + name;
      assert s[..3] == " b/" && s[3..] == name;
    } else {
      assert s[1..] == old'[1..] + (" b/" + name);
      if |old'| >= 3 {
        assert s[..3] == old'[..3];
        assert s[3..] == old'[3..] + (" b/" + name);
      } else {
        assert s[..3][|old'|] == ' ';
      }
      AfterBOf(old'[1..], name);
    }
  }

  /** The scanner names the new file exactly when the old name does not itself contain " b/". */
  lemma NameIsRead(f: FileDiff)
    ensures FileName(FileText(f)) == f.newName <==> AfterB(f.oldName).None?
  {
    var rest := f.oldName + (" b/" + f.newName);
    assert FileText(f) == "diff --git a/" + rest;
    AfterBSkips("diff --git a/", rest);
    AfterBOf(f.oldName, f.newName);
  }

  // ---------------------------------------------------------------- one piece of a split line

  /** The line counter after a piece. */
  function Tick(line: int, raw: string): int {
    if IsFile(raw) then 0
    else if ParseHeader(raw).Some? then ParseHeader(raw).value - 1
    else if IsAdd(raw) then Max(line + 1, 1)
    else if StartsWith(raw, " ") then line + 1
    else line
  }

  function After(line: int, pieces: seq<string>): int
    decreases |pieces|
  {
    if pieces == [] then line else After(Tick(line, pieces[0]), pieces[1..])
  }

  /** A piece that is read as an added line and flagged. */
  predicate Speaks(classify: Classifier, raw: string) { IsAdd(raw) && classify(raw[1..]).Some? }

  /** The marker a piece makes the scanner report when the counter stands at line. */
  function Hit(classify: Classifier, file: string, line: int, raw: string): seq<Finding> {
    if Speaks(classify, raw) then [Marker(classify(raw[1..]).value, file, Max(line + 1, 1), Shown(raw[1..]))] else []
  }

  function Hits(classify: Classifier, file: string, line: int, pieces: seq<string>): seq<Finding>
    decreases |pieces|
  {
    if pieces == [] then []
    else Hit(classify, file, line, pieces[0]) + Hits(classify, file, Tick(line, pieces[0]), pieces[1..])
  }

  function Moved(s: State, line: int, more: seq<Finding>): State { State(s.file, line, s.seen, s.found + more) }

  lemma MovedTwice(s: State, line: int, more: seq<Finding>, line': int, more': seq<Finding>)
    ensures Moved(Moved(s, line, more), line', more') == Moved(s, line', more + more')
    ensures Moved(s, s.line, []) == s
  {
    assert s.found + more + more' == s.found + (more + more');
    assert s.found + [] == s.found;
  }

  lemma {:induction false} ScanTwice(classify: Classifier, s: State, a: seq<string>, b: seq<string>)
    ensures ScanAll(classify, s, a + b) == ScanAll(classify, ScanAll(classify, s, a), b)
    decreases |a|
  {
    hide ScanLine;
    if a == [] {
      assert a + b == b;
    } else {
      assert (a + b)[1..] == a[1..] + b;
      ScanTwice(classify, ScanLine(classify, s, a[0]), a[1..], b);
    }
  }

  lemma ScanOne(classify: Classifier, s: State, raw: string)
    ensures ScanAll(classify, s, [raw]) == ScanLine(classify, s, raw)
  {
    assert [raw][1..] == [];
    hide ScanLine;
  }

  lemma AddIsNoHeader(raw: string)
    requires IsAdd(raw)
    ensures ParseHeader(raw).None? && !IsFile(raw)
  {
    assert raw[..1] == "+";
    OtherFirst(raw, "@@ -");
    OtherFirst(raw, "diff --git ");
    hide StartsWith;
  }

  /** A piece that is read as a file header names the file it stands in. */
  predicate OwnHeader(file: string, raw: string) { IsFile(raw) ==> FileName(raw) == file }

  predicate OwnHeaders(file: string, pieces: seq<string>) {
    forall i :: 0 <= i < |pieces| ==> OwnHeader(file, pieces[i])
  }

  lemma ScanPiece(classify: Classifier, s: State, raw: string)
    requires s.file in s.seen && OwnHeader(s.file, raw)
    ensures ScanLine(classify, s, raw) == Moved(s, Tick(s.line, raw), Hit(classify, s.file, s.line, raw))
  {
    if IsAdd(raw) {
      AddIsNoHeader(raw);
    }
    MovedTwice(s, 0, [], 0, []);
    assert s.found + [] == s.found;
    hide ParseHeader; hide FileName; hide StartsWith; hide Shown;
  }

  /** Between two headers of different files the scanner only counts and reports. */
  lemma {:induction false} ScanPieces(classify: Classifier, s: State, pieces: seq<string>)
    requires s.file in s.seen && OwnHeaders(s.file, pieces)
    ensures ScanAll(classify, s, pieces) ==
      Moved(s, After(s.line, pieces), Hits(classify, s.file, s.line, pieces))
    decreases |pieces|
  {
    hide ScanLine; hide OwnHeader; hide Tick; hide Hit;
    MovedTwice(s, 0, [], 0, []);
    if pieces != [] {
      var raw := pieces[0];
      ScanPiece(classify, s, raw);
      var line, more := Tick(s.line, raw), Hit(classify, s.file, s.line, raw);
      ScanPieces(classify, Moved(s, line, more), pieces[1..]);
      MovedTwice(s, line, more, After(line, pieces[1..]), Hits(classify, s.file, line, pieces[1..]));
    }
  }

  lemma {:induction false} AfterConcat(line: int, a: seq<string>, b: seq<string>)
    ensures After(line, a + b) == After(After(line, a), b)
    decreases |a|
  {
    hide Tick;
    if a == [] {
      assert a + b == b;
    } else {
      assert (a + b)[1..] == a[1..] + b;
      AfterConcat(Tick(line, a[0]), a[1..], b);
    }
  }

  lemma {:induction false} HitsConcat(classify: Classifier, file: string, line: int, a: seq<string>, b: seq<string>)
    ensures Hits(classify, file, line, a + b) ==
      Hits(classify, file, line, a) + Hits(classify, file, After(line, a), b)
    decreases |a|
  {
    hide Tick; hide Hit;
    if a == [] {
      assert a + b == b;
    } else {
      assert (a + b)[1..] == a[1..] + b;
      HitsConcat(classify, file, Tick(line, a[0]), a[1..], b);
    }
  }

  predicate Silent(classify: Classifier, pieces: seq<string>) {
    forall i :: 0 <= i < |pieces| ==> !Speaks(classify, pieces[i])
  }

  lemma {:induction false} SilentHasNoHits(classify: Classifier, file: string, line: int, pieces: seq<string>)
    ensures Hits(classify, file, line, pieces) == [] <==> Silent(classify, pieces)
    decreases |pieces|
  {
    hide Speaks; hide Tick;
    if pieces != [] {
      SilentHasNoHits(classify, file, Tick(line, pieces[0]), pieces[1..]);
      assert Silent(classify, pieces) <==> !Speaks(classify, pieces[0]) && Silent(classify, pieces[1..]);
    }
  }

  // ---------------------------------------------------------------- what the scanner reports

  /** An added line the scanner takes for a file header. */
  predicate LooksLikeHeader(l: Line) { l.Added? && StartsWith(l.text, "++") }

  function Flagged(classify: Classifier, l: Line): Option<Severity> {
    if l.Added? then classify(l.text) else None
  }

  /** The pieces of a hunk before its line i, those of its header first. */
  function Before(h: Hunk, i: nat): seq<string>
    requires i <= |h.lines|
  {
    if i == 0 then Pieces(HeaderText(h)) else Before(h, i - 1) + Pieces(LineText(h.lines[i - 1]))
  }

  /** The scanner's counter before line i of a hunk. */
  function CountAt(h: Hunk, i: nat): int
    requires i <= |h.lines|
  {
    After(0, Before(h, i))
  }

  /** What the scanner reports on line i of a hunk. */
  function ReportAt(classify: Classifier, file: string, h: Hunk, i: nat): seq<Finding>
    requires i < |h.lines|
  {
    Hits(classify, file, CountAt(h, i), Pieces(LineText(h.lines[i])))
  }

  /** The findings of a hunk's header and first n lines, as the scanner reports them and as they should be. */
  function Reported(classify: Classifier, file: string, h: Hunk, n: nat): seq<Finding>
    requires n <= |h.lines|
  {
    if n == 0 then Hits(classify, file, 0, Pieces(HeaderText(h)))
    else Reported(classify, file, h, n - 1) + ReportAt(classify, file, h, n - 1)
  }

  function RightAt(classify: Classifier, file: string, h: Hunk, i: nat): seq<Finding>
    requires i < |h.lines|
  {
    match Flagged(classify, h.lines[i])
    case Some(severity) => [Marker(severity, file, TrueLine(h, i), Shown(h.lines[i].text))]
    case None => []
  }

  function Right(classify: Classifier, file: string, h: Hunk, n: nat): seq<Finding>
    requires n <= |h.lines|
  {
    if n == 0 then [] else Right(classify, file, h, n - 1) + RightAt(classify, file, h, n - 1)
  }

  /** The marker shows the line of the new file it names, with that line's severity. */
  predicate Quotes(classify: Classifier, file: string, newFile: seq<string>, m: Finding) {
    && m.Marker? && m.file == file && 1 <= m.line <= |newFile|
    && m.text == Shown(newFile[m.line - 1]) && classify(newFile[m.line - 1]) == Some(m.severity)
  }

  lemma RightQuotes(classify: Classifier, file: string, h: Hunk, newFile: seq<string>, i: nat)
    requires Fits(h, newFile) && i < |h.lines|
    ensures forall m :: m in RightAt(classify, file, h, i) ==> Quotes(classify, file, newFile, m)
  {
    hide Fits; hide Kept; hide TrueLine; hide Shown; hide NewTexts;
    if Flagged(classify, h.lines[i]).Some? {
      TrueLineIndexes(h, newFile, i);
    }
  }

  /** Every right marker of a fitting hunk quotes the new file, and every flagged line has one. */
  lemma {:induction false} RightMarkers(classify: Classifier, file: string, h: Hunk, newFile: seq<string>, n: nat)
    requires Fits(h, newFile) && n <= |h.lines|
    ensures forall m :: m in Right(classify, file, h, n) ==> Quotes(classify, file, newFile, m)
    ensures forall i :: 0 <= i < n && Flagged(classify, h.lines[i]).Some? ==>
      Marker(Flagged(classify, h.lines[i]).value, file, TrueLine(h, i), Shown(h.lines[i].text))
        in Right(classify, file, h, n)
  {
    hide Fits; hide Kept; hide TrueLine; hide Shown; hide Quotes;
    if n > 0 {
      RightMarkers(classify, file, h, newFile, n - 1);
      RightQuotes(classify, file, h, newFile, n - 1);
    }
  }

  function Changed(name: string, seen: set<string>): seq<Finding> { if name in seen then [] else [FileChanged(name)] }

  function HunkFindings(classify: Classifier, file: string, hunks: seq<Hunk>, right: bool): seq<Finding> {
    if hunks == [] then []
    else
      var h := hunks[0];
      (if right then Right(classify, file, h, |h.lines|) else Reported(classify, file, h, |h.lines|))
        + HunkFindings(classify, file, hunks[1..], right)
  }

  /** A diff's findings, one "changed" per new name and then its markers; right asks for the true line numbers. */
  function DiffFindings(classify: Classifier, files: seq<FileDiff>, seen: set<string>, right: bool): seq<Finding> {
    if files == [] then []
    else
      var name := files[0].newName;
      Changed(name, seen) + HunkFindings(classify, name, files[0].hunks, right)
        + DiffFindings(classify, files[1..], seen + {name}, right)
  }

  // ---------------------------------------------------------------- the scanner on a diff

  /** No piece of a hunk is read as the header of another file. */
  predicate HunkOwn(file: string, h: Hunk) {
    && OwnHeaders(file, Pieces(HeaderText(h)))
    && forall i :: 0 <= i < |h.lines| ==> OwnHeaders(file, Pieces(LineText(h.lines[i])))
  }

  predicate OwnHeadersOnly(files: seq<FileDiff>) {
    forall i, j :: 0 <= i < |files| && 0 <= j < |files[i].hunks| ==> HunkOwn(files[i].newName, files[i].hunks[j])
  }

  /** The new file of a hunk that starts at line zero is empty. */
  predicate HunkOk(h: Hunk) { h.newStart == 0 ==> forall i :: 0 <= i < |h.lines| ==> !InNew(h.lines[i]) }

  /** A line between the file header and the first hunk is neither a header nor an added line. */
  predicate MetaOk(raw: string) { NoBreak(raw) && !IsFile(raw) && ParseHeader(raw).None? && !IsAdd(raw) }

  predicate FileOk(f: FileDiff) {
    && f.newName != "" && AfterB(f.oldName).None?
    && NoBreak(f.oldName) && NoBreak(f.newName)
    && (forall i :: 0 <= i < |f.meta| ==> MetaOk(f.meta[i]))
    && (forall i :: 0 <= i < |f.hunks| ==> HunkOk(f.hunks[i]))
  }

  lemma FirstLineAppend(a: string, b: string)
    requires NoBreak(a)
    ensures FirstLine(a + b) == a + FirstLine(b)
  {
    var r := FirstLine(b);
    assert a + b == (a + r) + b[|r|..];
    FirstLineOf(a + r, b[|r|..]);
  }

  lemma {:induction false} DigitsHaveNoBreak(s: string)
    requires forall i :: 0 <= i < |s| ==> IsDigit(s[i])
    ensures NoBreak(s)
  {
    forall i | 0 <= i < |s| ensures !IsBreak(s[i]) {
      assert IsDigit(s[i]);
    }
  }

  lemma BothNoBreak(a: string, b: string)
    ensures NoBreak(a + b) <==> NoBreak(a) && NoBreak(b)
  {
    assert forall i :: 0 <= i < |a| ==> (a + b)[i] == a[i];
    assert forall i :: 0 <= i < |b| ==> (a + b)[|a| + i] == b[i];
    hide IsBreak;
  }

  lemma HeaderMarks()
    ensures NoBreak("@@ -") && NoBreak(" +") && NoBreak(" @@") && NoBreak("diff --git a/") && NoBreak(" b/")
  {}

  lemma NumbersHaveNoBreak(h: Hunk)
    ensures NoBreak(HeaderNumbers(h))
  {
    var a, b := "@@ -" + Decimal(h.oldStart), "@@ -" + Decimal(h.oldStart) + CountText(h.oldCount);
    var c := b + " +" + Decimal(h.newStart);
    HeaderMarks();
    DigitsHaveNoBreak(Decimal(h.oldStart));
    DigitsHaveNoBreak(Decimal(h.newStart));
    CountHasNoBreak(h.oldCount);
    CountHasNoBreak(h.newCount);
    hide NoBreak; hide Decimal; hide CountText;
    BothNoBreak("@@ -", Decimal(h.oldStart));
    BothNoBreak(a, CountText(h.oldCount));
    BothNoBreak(b, " +");
    BothNoBreak(b + " +", Decimal(h.newStart));
    BothNoBreak(c, CountText(h.newCount));
    BothNoBreak(c + CountText(h.newCount), " @@");
  }

  /** A break in the heading leaves a shorter header behind. */
  lemma FirstOfHeader(h: Hunk)
    ensures FirstLine(HeaderText(h)) == HeaderText(h.(heading := FirstLine(h.heading)))
  {
    NumbersHaveNoBreak(h);
    FirstLineAppend(HeaderNumbers(h), h.heading);
  }

  lemma FileTextHasNoBreak(f: FileDiff)
    requires NoBreak(f.oldName) && NoBreak(f.newName)
    ensures NoBreak(FileText(f))
  {
    HeaderMarks();
    hide NoBreak;
    BothNoBreak("diff --git a/", f.oldName);
    BothNoBreak("diff --git a/" + f.oldName, " b/");
    BothNoBreak("diff --git a/" + f.oldName + " b/", f.newName);
  }

  lemma CountHasNoBreak(n: nat)
    ensures NoBreak(CountText(n))
  {
    if n != 1 {
      DigitsHaveNoBreak(Decimal(n));
      BothNoBreak(",", Decimal(n));
      hide Decimal;
    }
  }

  /** Whatever stood in the counter, a hunk header sets it. */
  lemma HeaderResets(classify: Classifier, file: string, line: int, h: Hunk)
    ensures Pieces(HeaderText(h)) != [] && ParseHeader(Pieces(HeaderText(h))[0]) == Some(h.newStart)
    ensures !IsAdd(Pieces(HeaderText(h))[0]) && !IsFile(Pieces(HeaderText(h))[0])
    ensures After(line, Pieces(HeaderText(h))) == CountAt(h, 0)
    ensures Hits(classify, file, line, Pieces(HeaderText(h))) == Reported(classify, file, h, 0)
  {
    var short := h.(heading := FirstLine(h.heading));
    PiecesOfLine(HeaderText(h));
    FirstOfHeader(h);
    HeaderParses(short);
    assert HeaderText(short)[0] == '@';
    OtherFirst(HeaderText(short), "+");
    OtherFirst(HeaderText(short), "diff --git ");
    hide ParseHeader; hide HeaderText; hide Pieces; hide FirstLine; hide StartsWith;
  }

  lemma LinesTextGrows(lines: seq<Line>, n: nat)
    requires 0 < n <= |lines|
    ensures LinesText(lines[..n]) == LinesText(lines[..n - 1]) + [LineText(lines[n - 1])]
  {
    hide LineText;
  }

  lemma NoLines(h: Hunk)
    ensures [HeaderText(h)] + LinesText(h.lines[..0]) == [HeaderText(h)]
  {
    hide HeaderText; hide LineText;
  }

  /** The header and first n lines of a hunk. */
  lemma {:induction false} ScanHunkTo(classify: Classifier, s: State, h: Hunk, n: nat)
    requires s.file in s.seen && HunkOwn(s.file, h) && n <= |h.lines|
    ensures ScanAll(classify, s, AllPieces([HeaderText(h)] + LinesText(h.lines[..n]))) ==
      Moved(s, CountAt(h, n), Reported(classify, s.file, h, n))
  {
    hide Pieces; hide HeaderText; hide LineText; hide ScanAll; hide OwnHeaders; hide After; hide Hits; hide LinesText;
    if n == 0 {
      NoLines(h);
      PiecesOfOne(HeaderText(h));
      ScanPieces(classify, s, Pieces(HeaderText(h)));
      HeaderResets(classify, s.file, s.line, h);
    } else {
      var text, last := [HeaderText(h)] + LinesText(h.lines[..n - 1]), LineText(h.lines[n - 1]);
      LinesTextGrows(h.lines, n);
      assert [HeaderText(h)] + LinesText(h.lines[..n]) == text + [last];
      PiecesAppend(text, [last]);
      PiecesOfOne(last);
      ScanTwice(classify, s, AllPieces(text), Pieces(last));
      ScanHunkTo(classify, s, h, n - 1);
      var line, found := CountAt(h, n - 1), Reported(classify, s.file, h, n - 1);
      assert OwnHeaders(s.file, Pieces(last));
      AfterConcat(0, Before(h, n - 1), Pieces(last));
      ScanPieces(classify, Moved(s, line, found), Pieces(last));
      MovedTwice(s, line, found, CountAt(h, n), ReportAt(classify, s.file, h, n - 1));
    }
  }

  lemma ScanHunk(classify: Classifier, s: State, h: Hunk)
    requires s.file in s.seen && HunkOwn(s.file, h)
    ensures ScanAll(classify, s, AllPieces([HeaderText(h)] + LinesText(h.lines))) ==
      Moved(s, CountAt(h, |h.lines|), Reported(classify, s.file, h, |h.lines|))
  {
    assert h.lines[..|h.lines|] == h.lines;
    ScanHunkTo(classify, s, h, |h.lines|);
    hide *;
  }

  predicate HunksOwn(file: string, hunks: seq<Hunk>) {
    forall i :: 0 <= i < |hunks| ==> HunkOwn(file, hunks[i])
  }

  lemma {:induction false} ScanHunks(classify: Classifier, s: State, hunks: seq<Hunk>) returns (line: int)
    requires s.file in s.seen && HunksOwn(s.file, hunks)
    ensures ScanAll(classify, s, AllPieces(HunksText(hunks))) ==
      Moved(s, line, HunkFindings(classify, s.file, hunks, false))
    decreases |hunks|
  {
    hide HunkOwn; hide HeaderText; hide LinesText; hide Reported; hide CountAt; hide Pieces;
    if hunks == [] {
      line := s.line;
      MovedTwice(s, 0, [], 0, []);
    } else {
      var h := hunks[0];
      var first := [HeaderText(h)] + LinesText(h.lines);
      PiecesAppend(first, HunksText(hunks[1..]));
      ScanTwice(classify, s, AllPieces(first), AllPieces(HunksText(hunks[1..])));
      ScanHunk(classify, s, h);
      var mid, some := CountAt(h, |h.lines|), Reported(classify, s.file, h, |h.lines|);
      line := ScanHunks(classify, Moved(s, mid, some), hunks[1..]);
      MovedTwice(s, mid, some, line, HunkFindings(classify, s.file, hunks[1..], false));
      hide ScanAll; hide AllPieces;
    }
  }

  lemma {:induction false} ScanMeta(classify: Classifier, s: State, meta: seq<string>) returns (line: int)
    requires s.file in s.seen && forall i :: 0 <= i < |meta| ==> MetaOk(meta[i])
    ensures ScanAll(classify, s, AllPieces(meta)) == Moved(s, line, [])
  {
    assert forall i :: 0 <= i < |meta| ==> NoBreak(meta[i]);
    WholePieces(meta);
    assert OwnHeaders(s.file, meta) && Silent(classify, meta);
    hide MetaOk; hide NoBreak; hide ScanAll; hide Hits; hide After; hide AllPieces; hide OwnHeaders; hide Silent;
    ScanPieces(classify, s, meta);
    SilentHasNoHits(classify, s.file, s.line, meta);
    line := After(s.line, meta);
  }

  lemma FileTextIsFile(f: FileDiff)
    ensures IsFile(FileText(f))
  {
    var rest := "a/" + f.oldName + " b/" + f.newName;
    Begins("diff --git ", rest);
    assert FileText(f) == "diff --git " + rest;
  }

  lemma ScanFileHeader(classify: Classifier, s: State, f: FileDiff)
    requires FileOk(f)
    ensures ScanAll(classify, s, Pieces(FileText(f))) ==
      State(f.newName, 0, s.seen + {f.newName}, s.found + Changed(f.newName, s.seen))
  {
    var raw := FileText(f);
    NameIsRead(f);
    FileTextHasNoBreak(f);
    FileTextIsFile(f);
    hide FileName; hide FileText; hide ParseHeader; hide Pieces; hide NoBreak; hide ScanAll; hide StartsWith;
    PiecesOfLine(raw);
    ScanOne(classify, s, raw);
    assert f.newName in s.seen ==> s.seen + {f.newName} == s.seen;
    assert s.found + [] == s.found;
  }

  lemma ScanFileBody(classify: Classifier, s: State, f: FileDiff) returns (line: int)
    requires FileOk(f) && s.file in s.seen && HunksOwn(s.file, f.hunks)
    ensures ScanAll(classify, s, AllPieces(f.meta + HunksText(f.hunks))) ==
      Moved(s, line, HunkFindings(classify, s.file, f.hunks, false))
  {
    var more := HunkFindings(classify, s.file, f.hunks, false);
    hide ScanAll; hide HunksText; hide HunkFindings; hide HunkOk; hide MetaOk; hide AfterB; hide AllPieces;
    hide HunksOwn;
    PiecesAppend(f.meta, HunksText(f.hunks));
    ScanTwice(classify, s, AllPieces(f.meta), AllPieces(HunksText(f.hunks)));
    var before := ScanMeta(classify, s, f.meta);
    line := ScanHunks(classify, Moved(s, before, []), f.hunks);
    MovedTwice(s, before, [], line, more);
    assert [] + more == more;
  }

  /** One file of a diff: its change, then the findings of its hunks. */
  lemma ScanFile(classify: Classifier, s: State, f: FileDiff) returns (line: int)
    requires FileOk(f) && HunksOwn(f.newName, f.hunks)
    ensures ScanAll(classify, s, AllPieces([FileText(f)] + (f.meta + HunksText(f.hunks)))) ==
      State(f.newName, line, s.seen + {f.newName},
            s.found + (Changed(f.newName, s.seen) + HunkFindings(classify, f.newName, f.hunks, false)))
  {
    hide ScanAll; hide FileText; hide HunksText; hide HunkFindings; hide FileOk; hide Changed; hide AllPieces;
    hide Pieces; hide HunksOwn;
    PiecesAppend([FileText(f)], f.meta + HunksText(f.hunks));
    PiecesOfOne(FileText(f));
    ScanFileHeader(classify, s, f);
    ScanTwice(classify, s, Pieces(FileText(f)), AllPieces(f.meta + HunksText(f.hunks)));
    var s1 := State(f.newName, 0, s.seen + {f.newName}, s.found + Changed(f.newName, s.seen));
    line := ScanFileBody(classify, s1, f);
    assert s.found + Changed(f.newName, s.seen) + HunkFindings(classify, f.newName, f.hunks, false)
        == s.found + (Changed(f.newName, s.seen) + HunkFindings(classify, f.newName, f.hunks, false));
  }

  predicate FilesOk(files: seq<FileDiff>) { forall i :: 0 <= i < |files| ==> FileOk(files[i]) }

  lemma OwnHeadersParts(files: seq<FileDiff>)
    requires files != []
    ensures FilesOk(files) <==> FileOk(files[0]) && FilesOk(files[1..])
    ensures OwnHeadersOnly(files) <==> HunksOwn(files[0].newName, files[0].hunks) && OwnHeadersOnly(files[1..])
  {
    hide FileOk; hide HunkOwn;
  }

  /** While no piece is read as the header of another file, the scanner reports what DiffFindings says, in order. */
  lemma {:induction false} ScanIsReported(classify: Classifier, s: State, files: seq<FileDiff>)
    requires FilesOk(files) && OwnHeadersOnly(files)
    ensures ScanAll(classify, s, AllPieces(DiffText(files))).found ==
      s.found + DiffFindings(classify, files, s.seen, false)
    decreases |files|
  {
    hide FileText; hide HunksText; hide HunkFindings; hide FilesOk; hide OwnHeadersOnly; hide Pieces; hide ScanLine;
    if files != [] {
      var f, rest := files[0], DiffText(files[1..]);
      OwnHeadersParts(files);
      var head := [FileText(f)] + (f.meta + HunksText(f.hunks));
      assert DiffText(files) == head + rest;
      PiecesAppend(head, rest);
      ScanTwice(classify, s, AllPieces(head), AllPieces(rest));
      var line := ScanFile(classify, s, f);
      ScanIsReported(classify, ScanAll(classify, s, AllPieces(head)), files[1..]);
      var own, later := Changed(f.newName, s.seen) + HunkFindings(classify, f.newName, f.hunks, false),
                        DiffFindings(classify, files[1..], s.seen + {f.newName}, false);
      assert DiffFindings(classify, files, s.seen, false) == own + later;
      assert s.found + own + later == s.found + (own + later);
      hide ScanAll; hide DiffText; hide DiffFindings; hide AllPieces;
    }
  }

  // ---------------------------------------------------------------- what is read as a header

  predicate Number(s: string) { s != "" && forall i :: 0 <= i < |s| ==> IsDigit(s[i]) }

  predicate NoDigitNext(rest: string) { rest == "" || !IsDigit(rest[0]) }

  lemma NumberRead(digits: string, rest: string)
    requires Number(digits) && NoDigitNext(rest)
    ensures Digits(digits + rest) == Some((Value(digits), rest))
  {
    DigitRunStops(digits, rest);
    assert (digits + rest)[|digits|..] == rest;
    hide Value;
  }

  lemma NumberFound(s: string) returns (digits: string, rest: string)
    requires Digits(s).Some?
    ensures s == digits + rest && Number(digits) && NoDigitNext(rest)
    ensures Digits(s) == Some((Value(digits), rest))
  {
    digits, rest := DigitRun(s), s[|DigitRun(s)|..];
    RunStops(s);
    hide DigitRun; hide Value;
  }

  lemma {:induction false} RunStops(s: string)
    ensures |DigitRun(s)| < |s| ==> !IsDigit(s[|DigitRun(s)|])
  {
    if s != "" && IsDigit(s[0]) {
      RunStops(s[1..]);
    }
  }

  /** An old start, perhaps a count, and what must follow them. */
  function OldPart(from: string, count: string, rest: string): string {
    "@@ -" + (from + (count + rest))
  }

  predicate Count(count: string) { count == "" || (count[0] == ',' && Number(count[1..])) }

  /** The text begins like a hunk header with this new start, and no digit follows that. */
  predicate BeginsHunk(raw: string, from: string, count: string, start: string, rest: string) {
    && Number(from) && Count(count) && Number(start) && NoDigitNext(rest)
    && raw == OldPart(from, count, " +" + (start + rest))
  }

  lemma CountRead(count: string, rest: string)
    requires Count(count) && rest != "" && rest[0] == ' '
    ensures SkipCount(count + rest) == Some(rest)
  {
    if count == "" {
      assert count + rest == rest;
    } else {
      NumberRead(count[1..], rest);
      assert count + rest == "," + (count[1..] + rest);
      Begins(",", count[1..] + rest);
    }
    hide Digits; hide Number;
  }

  lemma HeaderRead(raw: string, from: string, count: string, start: string, rest: string)
    requires BeginsHunk(raw, from, count, start, rest)
    ensures ParseHeader(raw) == Some(Value(start))
  {
    var plus := " +" + (start + rest);
    hide Digits; hide Number; hide Value; hide StartsWith;
    Begins("@@ -", from + (count + plus));
    Begins(" +", start + rest);
    NumberRead(start, rest);
    CountRead(count, plus);
    assert count != "" ==> (count + plus)[0] == ',';
    assert count == "" ==> count + plus == plus;
    NumberRead(from, count + plus);
    hide SkipCount;
  }

  lemma HeaderFound(raw: string) returns (from: string, count: string, start: string, rest: string)
    requires ParseHeader(raw).Some?
    ensures BeginsHunk(raw, from, count, start, rest) && ParseHeader(raw) == Some(Value(start))
  {
    hide Digits; hide Value; hide Number;
    var after: string;
    from, after := NumberFound(raw[4..]);
    assert raw == "@@ -" + (from + after);
    var plus: string;
    if StartsWith(after, ",") {
      var digits;
      digits, plus := NumberFound(after[1..]);
      count := "," + digits;
      assert after == "," + (digits + plus) == count + plus;
      assert count[1..] == digits;
    } else {
      count, plus := "", after;
      assert after == count + plus;
    }
    start, rest := NumberFound(plus[2..]);
    assert plus == " +" + (start + rest);
  }

  /**
   A text is read as a hunk header exactly when it begins with "@@ -", a number, perhaps a
   comma and a count, and " +" and a number; that whole number is the new start.
   */
  lemma HeaderExactly(raw: string, n: nat)
    ensures ParseHeader(raw) == Some(n) <==>
      exists from: string, count: string, start: string, rest: string ::
        BeginsHunk(raw, from, count, start, rest) && Value(start) == n
  {
    hide ParseHeader; hide Value; hide OldPart; hide Count;
    if ParseHeader(raw) == Some(n) {
      var from, count, start, rest := HeaderFound(raw);
    }
    if exists from: string, count: string, start: string, rest: string ::
      BeginsHunk(raw, from, count, start, rest) && Value(start) == n
    {
      var from: string, count: string, start: string, rest: string :|
        BeginsHunk(raw, from, count, start, rest) && Value(start) == n;
      HeaderRead(raw, from, count, start, rest);
    }
  }

  /** A space, a b and a slash in a row. */
  predicate BAt(s: string, i: int) { 0 <= i && i + 3 <= |s| && s[i..i + 3] == " b/" }

  /** A file's name is what follows the first of them. */
  lemma {:induction false} FirstB(s: string) returns (i: int)
    ensures AfterB(s).Some? ==> BAt(s, i) && AfterB(s) == Some(s[i + 3..]) && forall j :: 0 <= j < i ==> !BAt(s, j)
    ensures AfterB(s).None? ==> forall j :: !BAt(s, j)
  {
    i := 0;
    if |s| >= 3 && s[..3] != " b/" {
      var k := FirstB(s[1..]);
      i := k + 1;
      forall j: int | 0 <= j ensures BAt(s, j + 1) <==> BAt(s[1..], j) {
        if j + 4 <= |s| {
          assert s[1..][j..j + 3] == s[j + 1..j + 4];
        }
      }
      assert !BAt(s, 0);
      forall j: int | BAt(s, j) ensures BAt(s[1..], j - 1) {
        assert BAt(s, (j - 1) + 1);
      }
    }
  }

  /** A file header names what follows its first " b/", or itself; a new name that is not empty is reported. */
  lemma FileHeaderExactly(classify: Classifier, s: State, raw: string)
    requires IsFile(raw)
    ensures var t := ScanLine(classify, s, raw);
      && t.file == FileName(raw) && t.line == 0
      && t.found == (if t.file == "" || t.file in s.seen then s.found else s.found + [FileChanged(t.file)])
      && t.seen == (if t.file == "" then s.seen else s.seen + {t.file})
  {
    hide FileName;
  }
}
