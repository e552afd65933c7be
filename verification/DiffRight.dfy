/**
 When the findings of the diff scanner are right: nothing missing, nothing invented, every line
 number the index of its line in the new file.
 */
module DiffRight {
  import opened DiffScan
  import opened Text
  import opened TextLines
  import opened Wrappers

  // ---------------------------------------------------------------- the line a text gives

  /** Pieces after which the scanner counts anew: hunk headers, and headers of the file. */
  predicate Restarts(raw: string) { IsFile(raw) || ParseHeader(raw).Some? }

  function StartOf(raw: string): nat
    requires Restarts(raw)
  {
    if IsFile(raw) then 1 else ParseHeader(raw).value
  }

  /** Pieces that stand for a line of the new file. */
  predicate Counts(raw: string) { !Restarts(raw) && (IsAdd(raw) || StartsWith(raw, " ")) }

  /** The start line of the last header. */
  function LastStart(pieces: seq<string>): nat {
    if pieces == [] then 1
    else
      var k := |pieces| - 1;
      if Restarts(pieces[k]) then StartOf(pieces[k]) else LastStart(pieces[..k])
  }

  /** The pieces after the last header that stand for a line of the new file. */
  function CountedSince(pieces: seq<string>): seq<string> {
    if pieces == [] then []
    else
      var k := |pieces| - 1;
      if Restarts(pieces[k]) then []
      else CountedSince(pieces[..k]) + (if Counts(pieces[k]) then [pieces[k]] else [])
  }

  /** A start of zero is taken for one when an added line comes first. */
  predicate StartsLate(pieces: seq<string>) {
    LastStart(pieces) == 0 && (CountedSince(pieces) == [] || IsAdd(CountedSince(pieces)[0]))
  }

  /** The line number an added line has after these pieces: the start of the last header plus the lines since. */
  function NextLine(pieces: seq<string>): nat {
    LastStart(pieces) + |CountedSince(pieces)| + (if StartsLate(pieces) then 1 else 0)
  }

  lemma CounterStep(line: int, a: seq<string>, raw: string)
    ensures After(line, a + [raw]) == Tick(After(line, a), raw)
    ensures LastStart(a + [raw]) == if Restarts(raw) then StartOf(raw) else LastStart(a)
    ensures CountedSince(a + [raw]) ==
      if Restarts(raw) then [] else CountedSince(a) + (if Counts(raw) then [raw] else [])
  {
    hide Restarts; hide Counts; hide StartOf; hide Tick;
    AfterConcat(line, a, [raw]);
    AfterOne(After(line, a), raw);
    assert (a + [raw])[..|a|] == a;
  }

  lemma AfterOne(line: int, raw: string)
    ensures After(line, [raw]) == Tick(line, raw)
  {
    hide Tick;
    var none: seq<string> := [raw][1..];
    assert none == [];
  }

  /** The counter behind a header with this start and the counted pieces since. */
  function Level(start: nat, counted: seq<string>): int {
    start - 1 + |counted| + (if start == 0 && counted != [] && IsAdd(counted[0]) then 1 else 0)
  }

  lemma LevelTicks(start: nat, counted: seq<string>, raw: string)
    ensures Restarts(raw) ==> Tick(Level(start, counted), raw) == Level(StartOf(raw), [])
    ensures !Restarts(raw) && Counts(raw) ==> Tick(Level(start, counted), raw) == Level(start, counted + [raw])
    ensures !Restarts(raw) && !Counts(raw) ==> Tick(Level(start, counted), raw) == Level(start, counted)
  {
    hide ParseHeader;
    assert counted != [] ==> (counted + [raw])[0] == counted[0];
  }

  /** The scanner's counter is that level: one short of the next line, or minus one. */
  lemma {:induction false} CounterIs(pieces: seq<string>)
    ensures After(0, pieces) == Level(LastStart(pieces), CountedSince(pieces))
  {
    hide After; hide IsFile; hide IsAdd; hide ParseHeader; hide StartsWith; hide Level; hide Counts; hide Restarts;
    if pieces == [] {
      NothingYet();
    } else {
      hide LastStart; hide CountedSince; hide Tick;
      var a, raw := pieces[..|pieces| - 1], pieces[|pieces| - 1];
      CounterIs(a);
      CounterStep(0, a, raw);
      assert pieces == a + [raw];
      LevelTicks(LastStart(a), CountedSince(a), raw);
      assert CountedSince(a) + [] == CountedSince(a);
    }
  }

  lemma NothingYet()
    ensures After(0, []) == 0 && Level(1, []) == 0
  {}

  /** What the scanner gives the next added line. */
  lemma NextLineIs(pieces: seq<string>)
    ensures Max(After(0, pieces) + 1, 1) == NextLine(pieces)
  {
    hide After; hide LastStart; hide CountedSince; hide IsAdd;
    CounterIs(pieces);
  }

  // ---------------------------------------------------------------- when a line is read

  /** Of the pieces just this one is read as an added line and flagged. */
  predicate Only(classify: Classifier, pieces: seq<string>, k: nat) {
    k < |pieces| && forall i :: 0 <= i < |pieces| ==> (Speaks(classify, pieces[i]) <==> i == k)
  }

  /** Piece k speaks for line i, with the line's severity, shown text and line number. */
  predicate ReadAs(classify: Classifier, h: Hunk, i: nat, k: nat)
    requires i < |h.lines| && h.lines[i].Added?
  {
    var text, pieces := h.lines[i].text, Pieces(LineText(h.lines[i]));
    && Only(classify, pieces, k)
    && classify(pieces[k][1..]) == classify(text) && Shown(pieces[k][1..]) == Shown(text)
    && NextLine(Before(h, i) + pieces[..k]) == TrueLine(h, i)
  }

  /** A flagged line must be read as itself, and no piece of any other line may speak. */
  predicate LineRead(classify: Classifier, h: Hunk, i: nat)
    requires i < |h.lines|
  {
    var pieces := Pieces(LineText(h.lines[i]));
    if Flagged(classify, h.lines[i]).Some? then exists k :: 0 <= k < |pieces| && ReadAs(classify, h, i, k)
    else Silent(classify, pieces)
  }

  predicate HunkRead(classify: Classifier, file: string, h: Hunk) {
    && HunkOwn(file, h)
    && Silent(classify, Pieces(HeaderText(h)))
    && forall i :: 0 <= i < |h.lines| ==> LineRead(classify, h, i)
  }

  predicate DiffRead(classify: Classifier, files: seq<FileDiff>) {
    forall i, j :: 0 <= i < |files| && 0 <= j < |files[i].hunks| ==>
      HunkRead(classify, files[i].newName, files[i].hunks[j])
  }

  /** One speaking piece gives one marker. */
  lemma OnlyHits(classify: Classifier, file: string, line: int, pieces: seq<string>, k: nat)
    requires Only(classify, pieces, k)
    ensures Hits(classify, file, line, pieces) == Hit(classify, file, After(line, pieces[..k]), pieces[k])
  {
    var a, b := pieces[..k], pieces[k + 1..];
    assert pieces == a + ([pieces[k]] + b);
    assert Silent(classify, a) && Silent(classify, b);
    hide Silent; hide Speaks; hide Only; hide Hit;
    HitsConcat(classify, file, line, a, [pieces[k]] + b);
    SilentHasNoHits(classify, file, line, a);
    HitsFirst(classify, file, After(line, a), pieces[k], b);
    SilentHasNoHits(classify, file, Tick(After(line, a), pieces[k]), b);
    hide Hits; hide After;
  }

  lemma HitsFirst(classify: Classifier, file: string, line: int, raw: string, b: seq<string>)
    ensures Hits(classify, file, line, [raw] + b) ==
      Hit(classify, file, line, raw) + Hits(classify, file, Tick(line, raw), b)
  {
    assert ([raw] + b)[1..] == b;
    hide Hit; hide Tick;
  }

  lemma {:induction false} OneHit(classify: Classifier, file: string, line: int, pieces: seq<string>)
    returns (k: nat)
    requires |Hits(classify, file, line, pieces)| == 1
    ensures Only(classify, pieces, k)
    decreases |pieces|
  {
    var rest, next := pieces[1..], Tick(line, pieces[0]);
    hide Tick;
    SilentHasNoHits(classify, file, next, rest);
    if Speaks(classify, pieces[0]) {
      k := 0;
      assert Silent(classify, rest);
    } else {
      var j := OneHit(classify, file, next, rest);
      k := j + 1;
    }
    hide Speaks; hide Hits;
    assert forall i :: 0 < i < |pieces| ==> pieces[i] == rest[i - 1];
  }

  /** At most one piece speaks. */
  predicate OneVoice(classify: Classifier, pieces: seq<string>) {
    forall i, j :: 0 <= i < j < |pieces| ==> !(Speaks(classify, pieces[i]) && Speaks(classify, pieces[j]))
  }

  lemma {:induction false} OneVoiceHits(classify: Classifier, file: string, line: int, pieces: seq<string>)
    requires OneVoice(classify, pieces)
    ensures |Hits(classify, file, line, pieces)| <= 1
    decreases |pieces|
  {
    if pieces != [] {
      var rest, next := pieces[1..], Tick(line, pieces[0]);
      hide Tick;
      assert forall i :: 0 <= i < |rest| ==> rest[i] == pieces[i + 1];
      SilentHasNoHits(classify, file, next, rest);
      if Speaks(classify, pieces[0]) {
        assert Silent(classify, rest);
      }
      OneVoiceHits(classify, file, next, rest);
      hide Speaks;
    }
  }

  lemma NextLineInside(h: Hunk, i: nat, pieces: seq<string>)
    requires i <= |h.lines|
    ensures Max(After(CountAt(h, i), pieces) + 1, 1) == NextLine(Before(h, i) + pieces)
  {
    hide After; hide Before; hide NextLine;
    NextLineIs(Before(h, i) + pieces);
    AfterConcat(0, Before(h, i), pieces);
  }

  lemma ReadAsReports(classify: Classifier, file: string, h: Hunk, i: nat, k: nat)
    requires i < |h.lines| && Flagged(classify, h.lines[i]).Some?
    requires Only(classify, Pieces(LineText(h.lines[i])), k)
    ensures ReportAt(classify, file, h, i) == RightAt(classify, file, h, i) <==> ReadAs(classify, h, i, k)
  {
    hide Pieces; hide LineText; hide CountAt; hide TrueLine; hide Shown; hide NextLine; hide Before; hide After;
    var pieces := Pieces(LineText(h.lines[i]));
    OnlyHits(classify, file, CountAt(h, i), pieces, k);
    NextLineInside(h, i, pieces[..k]);
    hide Hits;
  }

  /** A line's report is right exactly when the line is read. */
  lemma LineReadExactly(classify: Classifier, file: string, h: Hunk, i: nat)
    requires i < |h.lines|
    ensures ReportAt(classify, file, h, i) == RightAt(classify, file, h, i) <==> LineRead(classify, h, i)
  {
    var pieces := Pieces(LineText(h.lines[i]));
    hide Pieces; hide LineText; hide CountAt; hide TrueLine; hide Shown; hide Silent;
    SilentHasNoHits(classify, file, CountAt(h, i), pieces);
    if Flagged(classify, h.lines[i]).Some? {
      hide Hits; hide Only;
      if |ReportAt(classify, file, h, i)| == 1 {
        var k := OneHit(classify, file, CountAt(h, i), pieces);
        ReadAsReports(classify, file, h, i, k);
        if k' :| 0 <= k' < |pieces| && ReadAs(classify, h, i, k') {
          ReadAsReports(classify, file, h, i, k');
        }
      } else if k :| 0 <= k < |pieces| && ReadAs(classify, h, i, k) {
        ReadAsReports(classify, file, h, i, k);
      }
      hide ReadAs; hide Flagged;
    } else {
      hide Hits;
    }
  }

  // ---------------------------------------------------------------- when the findings are right

  /** No piece speaks out of turn. */
  predicate LineNoExtra(classify: Classifier, l: Line) {
    var pieces := Pieces(LineText(l));
    OneVoice(classify, pieces) && (Flagged(classify, l).None? ==> Silent(classify, pieces))
  }

  /** Some piece of a flagged line speaks. */
  predicate LineHeard(classify: Classifier, l: Line) {
    Flagged(classify, l).Some? ==> !Silent(classify, Pieces(LineText(l)))
  }

  predicate NothingExtra(classify: Classifier, h: Hunk) {
    && Silent(classify, Pieces(HeaderText(h)))
    && forall i :: 0 <= i < |h.lines| ==> LineNoExtra(classify, h.lines[i])
  }

  predicate AllHeard(classify: Classifier, h: Hunk) {
    forall i :: 0 <= i < |h.lines| ==> LineHeard(classify, h.lines[i])
  }

  /** No finding is invented. */
  predicate DiffNoExtra(classify: Classifier, files: seq<FileDiff>) {
    forall i, j :: 0 <= i < |files| && 0 <= j < |files[i].hunks| ==> NothingExtra(classify, files[i].hunks[j])
  }

  /** No flagged line goes unheard. */
  predicate DiffHeard(classify: Classifier, files: seq<FileDiff>) {
    forall i, j :: 0 <= i < |files| && 0 <= j < |files[i].hunks| ==> AllHeard(classify, files[i].hunks[j])
  }

  /**
   Reported findings against right ones, for a stretch of a diff that is read or not.  When
   the stretch has none too few, or none too many, they agree only if it is read.
   */
  predicate Tallies(reported: seq<Finding>, right: seq<Finding>, enough: bool, few: bool, read: bool) {
    && (read ==> reported == right)
    && (enough ==> |right| <= |reported|)
    && (few ==> |reported| <= |right|)
    && ((enough || few) && reported == right ==> read)
  }

  lemma SameParts(a: seq<Finding>, b: seq<Finding>, a': seq<Finding>, b': seq<Finding>)
    requires (|a'| <= |a| && |b'| <= |b|) || (|a| <= |a'| && |b| <= |b'|)
    ensures a + b == a' + b' <==> a == a' && b == b'
  {
    if a + b == a' + b' {
      assert |a + b| == |a' + b'|;
      assert (a + b)[..|a|] == a && (a' + b')[..|a'|] == a';
      assert (a + b)[|a|..] == b && (a' + b')[|a'|..] == b';
    }
  }

  lemma TalliesJoin(a: seq<Finding>, a': seq<Finding>, e: bool, f: bool, r: bool,
                    b: seq<Finding>, b': seq<Finding>, e': bool, f': bool, r': bool)
    requires Tallies(a, a', e, f, r) && Tallies(b, b', e', f', r')
    ensures Tallies(a + b, a' + b', e && e', f && f', r && r')
  {
    if (e && e') || (f && f') {
      SameParts(a, b, a', b');
    }
  }

  lemma LineTallies(classify: Classifier, file: string, h: Hunk, i: nat)
    requires i < |h.lines|
    ensures Tallies(ReportAt(classify, file, h, i), RightAt(classify, file, h, i), LineHeard(classify, h.lines[i]),
                    LineNoExtra(classify, h.lines[i]), LineRead(classify, h, i))
  {
    hide Hits; hide Pieces; hide LineText; hide CountAt; hide TrueLine; hide Shown; hide LineRead; hide OneVoice;
    hide Silent;
    var pieces := Pieces(LineText(h.lines[i]));
    LineReadExactly(classify, file, h, i);
    SilentHasNoHits(classify, file, CountAt(h, i), pieces);
    if OneVoice(classify, pieces) {
      OneVoiceHits(classify, file, CountAt(h, i), pieces);
    }
    hide Flagged;
  }

  /** The header and first n lines of a hunk. */
  lemma {:induction false} HunkTallies(classify: Classifier, file: string, h: Hunk, n: nat)
    requires n <= |h.lines|
    ensures Tallies(Reported(classify, file, h, n), Right(classify, file, h, n),
                    forall i :: 0 <= i < n ==> LineHeard(classify, h.lines[i]),
                    && Silent(classify, Pieces(HeaderText(h)))
                    && forall i :: 0 <= i < n ==> LineNoExtra(classify, h.lines[i]),
                    && Silent(classify, Pieces(HeaderText(h)))
                    && forall i :: 0 <= i < n ==> LineRead(classify, h, i))
  {
    hide Silent; hide LineRead; hide ReportAt; hide RightAt; hide Pieces; hide HeaderText; hide LineHeard;
    hide LineNoExtra;
    if n == 0 {
      SilentHasNoHits(classify, file, 0, Pieces(HeaderText(h)));
      hide Hits;
    } else {
      hide Tallies;
      var silent := Silent(classify, Pieces(HeaderText(h)));
      HunkTallies(classify, file, h, n - 1);
      LineTallies(classify, file, h, n - 1);
      TalliesJoin(Reported(classify, file, h, n - 1), Right(classify, file, h, n - 1),
                  forall i :: 0 <= i < n - 1 ==> LineHeard(classify, h.lines[i]),
                  silent && forall i :: 0 <= i < n - 1 ==> LineNoExtra(classify, h.lines[i]),
                  silent && forall i :: 0 <= i < n - 1 ==> LineRead(classify, h, i),
                  ReportAt(classify, file, h, n - 1), RightAt(classify, file, h, n - 1),
                  LineHeard(classify, h.lines[n - 1]), LineNoExtra(classify, h.lines[n - 1]),
                  LineRead(classify, h, n - 1));
    }
  }

  predicate HunksRead(classify: Classifier, file: string, hunks: seq<Hunk>) {
    forall i :: 0 <= i < |hunks| ==> HunkRead(classify, file, hunks[i])
  }

  lemma WholeHunkTallies(classify: Classifier, file: string, h: Hunk)
    requires HunkOwn(file, h)
    ensures Tallies(Reported(classify, file, h, |h.lines|), Right(classify, file, h, |h.lines|),
                    AllHeard(classify, h), NothingExtra(classify, h), HunkRead(classify, file, h))
  {
    HunkTallies(classify, file, h, |h.lines|);
    hide Tallies; hide HunkOwn; hide Silent; hide LineRead; hide LineHeard; hide LineNoExtra; hide Reported; hide Right;
  }

  lemma {:induction false} HunksTally(classify: Classifier, file: string, hunks: seq<Hunk>)
    requires HunksOwn(file, hunks)
    ensures Tallies(HunkFindings(classify, file, hunks, false), HunkFindings(classify, file, hunks, true),
                    forall i :: 0 <= i < |hunks| ==> AllHeard(classify, hunks[i]),
                    forall i :: 0 <= i < |hunks| ==> NothingExtra(classify, hunks[i]),
                    HunksRead(classify, file, hunks))
  {
    hide HunkOwn; hide AllHeard; hide NothingExtra; hide HunkRead; hide Reported; hide Right;
    if hunks != [] {
      hide Tallies;
      var h, rest := hunks[0], hunks[1..];
      WholeHunkTallies(classify, file, h);
      HunksTally(classify, file, rest);
      assert forall i :: 0 < i < |hunks| ==> hunks[i] == rest[i - 1];
      TalliesJoin(Reported(classify, file, h, |h.lines|), Right(classify, file, h, |h.lines|),
                  AllHeard(classify, h), NothingExtra(classify, h), HunkRead(classify, file, h),
                  HunkFindings(classify, file, rest, false), HunkFindings(classify, file, rest, true),
                  forall i :: 0 <= i < |rest| ==> AllHeard(classify, rest[i]),
                  forall i :: 0 <= i < |rest| ==> NothingExtra(classify, rest[i]), HunksRead(classify, file, rest));
    }
  }

  lemma DiffParts(classify: Classifier, files: seq<FileDiff>)
    requires files != []
    ensures DiffRead(classify, files) <==>
      HunksRead(classify, files[0].newName, files[0].hunks) && DiffRead(classify, files[1..])
    ensures DiffNoExtra(classify, files) <==>
      && (forall j :: 0 <= j < |files[0].hunks| ==> NothingExtra(classify, files[0].hunks[j]))
      && DiffNoExtra(classify, files[1..])
    ensures DiffHeard(classify, files) <==>
      && (forall j :: 0 <= j < |files[0].hunks| ==> AllHeard(classify, files[0].hunks[j]))
      && DiffHeard(classify, files[1..])
  {
    hide HunkRead; hide NothingExtra; hide AllHeard;
  }

  lemma {:induction false} DiffTallies(classify: Classifier, files: seq<FileDiff>, seen: set<string>)
    requires OwnHeadersOnly(files)
    ensures Tallies(DiffFindings(classify, files, seen, false), DiffFindings(classify, files, seen, true),
                    DiffHeard(classify, files), DiffNoExtra(classify, files), DiffRead(classify, files))
    decreases |files|
  {
    hide HunkFindings; hide HunksRead; hide OwnHeadersOnly; hide NothingExtra; hide AllHeard;
    if files != [] {
      hide DiffRead; hide DiffHeard; hide DiffNoExtra;
      var name, hunks, rest := files[0].newName, files[0].hunks, files[1..];
      OwnHeadersParts(files);
      DiffParts(classify, files);
      var changed := Changed(name, seen);
      assert Tallies(changed, changed, true, true, true);
      hide Tallies;
      HunksTally(classify, name, hunks);
      DiffTallies(classify, rest, seen + {name});
      var some, all := HunkFindings(classify, name, hunks, false), HunkFindings(classify, name, hunks, true);
      var heard := forall j :: 0 <= j < |hunks| ==> AllHeard(classify, hunks[j]);
      var few := forall j :: 0 <= j < |hunks| ==> NothingExtra(classify, hunks[j]);
      TalliesJoin(changed, changed, true, true, true, some, all, heard, few, HunksRead(classify, name, hunks));
      TalliesJoin(changed + some, changed + all, heard, few, HunksRead(classify, name, hunks),
                  DiffFindings(classify, rest, seen + {name}, false),
                  DiffFindings(classify, rest, seen + {name}, true),
                  DiffHeard(classify, rest), DiffNoExtra(classify, rest), DiffRead(classify, rest));
      hide DiffFindings;
    }
  }

  /** The text git prints for a diff. */
  function Printed(files: seq<FileDiff>): string { Ended(DiffText(files)) }

  function Found(classify: Classifier, files: seq<FileDiff>): seq<Finding> {
    ScanAll(classify, START, SplitLines(Printed(files))).found
  }

  /** One "changed" per file, and for every flagged added line its severity, shown text and true line number. */
  function RightFindings(classify: Classifier, files: seq<FileDiff>): seq<Finding> {
    DiffFindings(classify, files, {}, true)
  }

  /**
   The streaming counter over the split text refines indexing into the new files.  Line by
   line the scanner reports what is right exactly when the line is read.  So on every
   well-formed diff whose lines are read the findings are the right ones, none missing, none
   invented, every line number true; and if nothing is invented, or nothing goes unheard,
   they are right only then.
   */
  lemma ScanIsRight(classify: Classifier, files: seq<FileDiff>)
    requires FilesOk(files)
    ensures DiffRead(classify, files) ==> Found(classify, files) == RightFindings(classify, files)
    ensures OwnHeadersOnly(files) && (DiffNoExtra(classify, files) || DiffHeard(classify, files)) ==>
      (Found(classify, files) == RightFindings(classify, files) <==> DiffRead(classify, files))
  {
    assert DiffRead(classify, files) ==> OwnHeadersOnly(files) by { hide HunkOwn; hide Silent; hide LineRead; }
    hide DiffFindings; hide DiffRead; hide FilesOk; hide OwnHeadersOnly; hide DiffHeard; hide DiffNoExtra; hide Found;
    if OwnHeadersOnly(files) {
      FoundIsReported(classify, files);
      DiffTallies(classify, files, {});
    }
  }

  lemma FoundIsReported(classify: Classifier, files: seq<FileDiff>)
    requires FilesOk(files) && OwnHeadersOnly(files)
    ensures Found(classify, files) == DiffFindings(classify, files, {}, false)
  {
    SplitOfEnded(DiffText(files));
    hide DiffFindings; hide ScanAll; hide DiffText; hide FilesOk; hide OwnHeadersOnly; hide AllPieces; hide SplitLines;
    ScanIsReported(classify, START, files);
    assert [] + DiffFindings(classify, files, {}, false) == DiffFindings(classify, files, {}, false);
  }

  // ---------------------------------------------------------------- a piece that reads as a file header

  predicate Announces(s: State) { forall x :: x in s.seen ==> FileChanged(x) in s.found }

  lemma AnnouncesOn(classify: Classifier, s: State, raw: string)
    requires Announces(s)
    ensures Announces(ScanLine(classify, s, raw))
    ensures forall m :: m in s.found ==> m in ScanLine(classify, s, raw).found
    ensures IsFile(raw) && FileName(raw) != "" ==> FileChanged(FileName(raw)) in ScanLine(classify, s, raw).found
  {
    hide IsFile; hide IsAdd; hide FileName; hide ParseHeader; hide StartsWith;
  }

  /** Every line that is read as a file header has its file reported as changed. */
  lemma {:induction false} HeadersAnnounce(classify: Classifier, s: State, lines: seq<string>, i: nat)
    requires Announces(s) && i <= |lines|
    ensures forall m :: m in s.found ==> m in ScanAll(classify, s, lines).found
    ensures i < |lines| && IsFile(lines[i]) && FileName(lines[i]) != "" ==>
      FileChanged(FileName(lines[i])) in ScanAll(classify, s, lines).found
    decreases |lines|
  {
    hide IsFile; hide FileName; hide ScanLine;
    if lines != [] {
      AnnouncesOn(classify, s, lines[0]);
      HeadersAnnounce(classify, ScanLine(classify, s, lines[0]), lines[1..], if i == 0 then 0 else i - 1);
      hide Announces;
    }
  }

  lemma {:induction false} MarkersOnly(classify: Classifier, file: string, h: Hunk, n: nat)
    requires n <= |h.lines|
    ensures forall m :: m in Right(classify, file, h, n) ==> m.Marker?
  {
    hide TrueLine; hide Shown;
    if n > 0 {
      MarkersOnly(classify, file, h, n - 1);
      assert forall m :: m in RightAt(classify, file, h, n - 1) ==> m.Marker?;
      hide RightAt;
    }
  }

  lemma {:induction false} HunksOnlyMark(classify: Classifier, file: string, hunks: seq<Hunk>)
    ensures forall m :: m in HunkFindings(classify, file, hunks, true) ==> m.Marker?
  {
    hide Right; hide Reported;
    if hunks != [] {
      MarkersOnly(classify, file, hunks[0], |hunks[0].lines|);
      HunksOnlyMark(classify, file, hunks[1..]);
    }
  }

  predicate IsName(files: seq<FileDiff>, name: string) { exists i :: 0 <= i < |files| && files[i].newName == name }

  lemma {:induction false} ChangedNames(classify: Classifier, files: seq<FileDiff>, seen: set<string>, name: string)
    requires FileChanged(name) in DiffFindings(classify, files, seen, true)
    ensures IsName(files, name)
    decreases |files|
  {
    hide HunkFindings;
    var f, rest := files[0], files[1..];
    HunksOnlyMark(classify, f.newName, f.hunks);
    if FileChanged(name) in DiffFindings(classify, rest, seen + {f.newName}, true) {
      ChangedNames(classify, rest, seen + {f.newName}, name);
      var i :| 0 <= i < |rest| && rest[i].newName == name;
      assert files[i + 1].newName == name;
    } else {
      assert files[0].newName == name;
    }
  }

  /** A piece that reads as the header of a file the diff does not hold makes the findings wrong. */
  lemma ForeignHeader(classify: Classifier, files: seq<FileDiff>, i: nat)
    requires i < |SplitLines(Printed(files))| && IsFile(SplitLines(Printed(files))[i])
    requires var name := FileName(SplitLines(Printed(files))[i]); name != "" && !IsName(files, name)
    ensures Found(classify, files) != RightFindings(classify, files)
  {
    var lines := SplitLines(Printed(files));
    HeadersAnnounce(classify, START, lines, i);
    hide SplitLines; hide DiffText; hide ScanAll; hide FileName; hide IsFile; hide DiffFindings; hide IsName;
    if FileChanged(FileName(lines[i])) in DiffFindings(classify, files, {}, true) {
      ChangedNames(classify, files, {}, FileName(lines[i]));
    }
  }

  // ---------------------------------------------------------------- diffs whose lines hold no break

  /** Lines the scanner counts. */
  function Counted(lines: seq<Line>): nat {
    if lines == [] then 0
    else
      var last := lines[|lines| - 1];
      Counted(lines[..|lines| - 1]) + (if InNew(last) && !LooksLikeHeader(last) then 1 else 0)
  }

  /** No added line that begins with two plus signs stands at or before a flagged one. */
  predicate Undisturbed(classify: Classifier, lines: seq<Line>) {
    forall i, j :: 0 <= j <= i < |lines| && Flagged(classify, lines[i]).Some? ==> !LooksLikeHeader(lines[j])
  }

  lemma {:induction false} CountedAtMostKept(lines: seq<Line>)
    ensures Counted(lines) <= Kept(lines)
    ensures Counted(lines) == Kept(lines) <==> forall j :: 0 <= j < |lines| ==> !LooksLikeHeader(lines[j])
  {
    if lines != [] {
      CountedAtMostKept(lines[..|lines| - 1]);
    }
  }

  predicate Unbroken(h: Hunk) {
    NoBreak(h.heading) && forall i :: 0 <= i < |h.lines| ==> NoBreak(LineText(h.lines[i]))
  }

  lemma HeaderUnbroken(h: Hunk)
    requires NoBreak(h.heading)
    ensures Pieces(HeaderText(h)) == [HeaderText(h)]
  {
    NumbersHaveNoBreak(h);
    BothNoBreak(HeaderNumbers(h), h.heading);
    PiecesOfLine(HeaderText(h));
    hide NoBreak; hide Pieces; hide HeaderNumbers;
  }

  lemma NotAFile(raw: string)
    requires raw != "" && raw[0] != 'd'
    ensures !IsFile(raw)
  {
    OtherFirst(raw, "diff --git ");
    hide StartsWith;
  }

  lemma HeaderIsNoFile(file: string, h: Hunk)
    requires NoBreak(h.heading)
    ensures OwnHeaders(file, Pieces(HeaderText(h)))
  {
    HeaderUnbroken(h);
    assert HeaderText(h)[0] == '@';
    NotAFile(HeaderText(h));
    hide Pieces; hide NoBreak; hide HeaderText; hide IsFile;
  }

  lemma PlusPlus(text: string)
    ensures StartsWith("+" + text, "+") && ("+" + text)[1..] == text
    ensures StartsWith("+" + text, "+++") <==> StartsWith(text, "++")
  {
    var raw := "+" + text;
    if |raw| >= 3 {
      assert raw[..3] == "+" + text[..2];
      assert "+++" == "+" + "++";
      assert ("+" + text[..2])[1..] == text[..2];
      assert "+++"[1..] == "++";
    }
  }

  /** What the scanner takes from one whole line of a hunk. */
  lemma WholeTick(line: int, l: Line)
    requires NoBreak(LineText(l))
    ensures Pieces(LineText(l)) == [LineText(l)] && !IsFile(LineText(l))
    ensures After(line, Pieces(LineText(l))) ==
      if l.Context? then line + 1 else if InNew(l) && !LooksLikeHeader(l) then Max(line + 1, 1) else line
    ensures !l.Added? ==> !IsAdd(LineText(l))
  {
    var raw := LineText(l);
    PiecesOfLine(raw);
    NotAFile(raw);
    OtherFirst(raw, "@@ -");
    var pieces: seq<string> := [raw];
    assert pieces[1..] == [];
    hide NoBreak; hide Pieces; hide IsFile;
    assert raw[..1] == [raw[0]];
    match l
    case Added(text) => { PlusPlus(text); hide StartsWith; }
    case Context(text) => { assert raw[..1] == " "; }
    case Removed(text) => {}
    case NoNewline => {}
  }

  lemma CountedGrows(lines: seq<Line>, i: nat)
    requires 0 < i <= |lines|
    ensures Counted(lines[..i]) ==
      Counted(lines[..i - 1]) + (if InNew(lines[i - 1]) && !LooksLikeHeader(lines[i - 1]) then 1 else 0)
  {
    assert lines[..i][..i - 1] == lines[..i - 1];
    hide LooksLikeHeader; hide InNew;
  }

  lemma HeaderCounts(h: Hunk)
    requires NoBreak(h.heading)
    ensures CountAt(h, 0) == h.newStart - 1
  {
    assert HeaderText(h)[0] == '@';
    hide ParseHeader; hide HeaderText; hide IsAdd; hide Pieces; hide NoBreak; hide StartsWith; hide After;
    hide IsFile;
    NotAFile(HeaderText(h));
    HeaderUnbroken(h);
    HeaderParses(h);
    AfterOne(0, HeaderText(h));
  }

  /** Before any line of a hunk without breaks the counter stands at the lines it counted. */
  lemma {:induction false} CountsWhole(h: Hunk, i: nat)
    requires Unbroken(h) && HunkOk(h) && i <= |h.lines|
    ensures CountAt(h, i) == h.newStart - 1 + Counted(h.lines[..i])
  {
    hide NoBreak; hide Pieces; hide LineText; hide StartsWith;
    if i == 0 {
      HeaderCounts(h);
      assert h.lines[..0] == [];
      hide CountAt;
    } else {
      CountsWhole(h, i - 1);
      WholeTick(CountAt(h, i - 1), h.lines[i - 1]);
      AfterConcat(0, Before(h, i - 1), Pieces(LineText(h.lines[i - 1])));
      CountedGrows(h.lines, i);
      hide Counted; hide After;
      assert InNew(h.lines[i - 1]) ==> h.newStart >= 1;
    }
  }

  lemma PrefixOf(lines: seq<Line>, i: nat)
    requires i <= |lines|
    ensures Counted(lines[..i]) <= Kept(lines[..i])
    ensures Counted(lines[..i]) == Kept(lines[..i]) <==> forall j :: 0 <= j < i ==> !LooksLikeHeader(lines[j])
  {
    CountedAtMostKept(lines[..i]);
    hide Counted; hide Kept; hide LooksLikeHeader;
    assert forall j :: 0 <= j < i ==> lines[..i][j] == lines[j];
  }

  /** The number an added line gets is true exactly when no header-like line comes before it. */
  lemma CountTrue(h: Hunk, i: nat)
    requires Unbroken(h) && HunkOk(h) && i < |h.lines| && h.lines[i].Added?
    ensures NextLine(Before(h, i)) == TrueLine(h, i) <==> forall j :: 0 <= j < i ==> !LooksLikeHeader(h.lines[j])
  {
    hide Unbroken; hide After; hide Before; hide Counted; hide Kept; hide LooksLikeHeader; hide NextLine;
    NextLineIs(Before(h, i));
    CountsWhole(h, i);
    PrefixOf(h.lines, i);
    assert InNew(h.lines[i]);
    hide HunkOk;
  }

  lemma UnbrokenText(h: Hunk, i: nat)
    requires Unbroken(h) && i < |h.lines|
    ensures NoBreak(LineText(h.lines[i])) && Pieces(LineText(h.lines[i])) == [LineText(h.lines[i])]
    ensures !IsFile(LineText(h.lines[i]))
  {
    assert NoBreak(LineText(h.lines[i]));
    WholeTick(0, h.lines[i]);
    hide NoBreak; hide Pieces; hide IsFile; hide After;
  }

  /** A whole line speaks when it is flagged and no look-alike of a header. */
  lemma WholeSpeaks(classify: Classifier, l: Line)
    requires NoBreak(LineText(l))
    ensures Speaks(classify, LineText(l)) <==> Flagged(classify, l).Some? && !LooksLikeHeader(l)
    ensures l.Added? ==> LineText(l)[1..] == l.text
  {
    hide NoBreak; hide Pieces; hide StartsWith; hide After; hide IsFile;
    WholeTick(0, l);
    if l.Added? {
      PlusPlus(l.text);
    }
  }

  lemma OnePiece(classify: Classifier, raw: string)
    ensures Only(classify, [raw], 0) <==> Speaks(classify, raw)
    ensures Silent(classify, [raw]) <==> !Speaks(classify, raw)
    ensures OneVoice(classify, [raw])
  {
    hide Speaks;
    assert [raw][0] == raw;
  }

  lemma ReadAsOnePiece(classify: Classifier, h: Hunk, i: nat, raw: string)
    requires i < |h.lines| && Flagged(classify, h.lines[i]).Some? && Pieces(LineText(h.lines[i])) == [raw]
    ensures LineRead(classify, h, i) <==> ReadAs(classify, h, i, 0)
  {
    hide ReadAs; hide Pieces; hide LineText; hide Flagged;
  }

  lemma WholeReadAs(classify: Classifier, h: Hunk, i: nat)
    requires i < |h.lines| && h.lines[i].Added?
    requires var raw := LineText(h.lines[i]);
      Pieces(raw) == [raw] && raw[1..] == h.lines[i].text
    ensures ReadAs(classify, h, i, 0) <==>
      Speaks(classify, LineText(h.lines[i])) && NextLine(Before(h, i)) == TrueLine(h, i)
  {
    hide Pieces; hide Before; hide TrueLine; hide Shown; hide LineText; hide Speaks; hide NextLine; hide Only;
    var raw := LineText(h.lines[i]);
    OnePiece(classify, raw);
    assert Before(h, i) + [raw][..0] == Before(h, i);
  }

  lemma UnbrokenLineRead(classify: Classifier, h: Hunk, i: nat)
    requires Unbroken(h) && HunkOk(h) && i < |h.lines|
    ensures LineNoExtra(classify, h.lines[i])
    ensures LineRead(classify, h, i) <==>
      (Flagged(classify, h.lines[i]).Some? ==> forall j :: 0 <= j <= i ==> !LooksLikeHeader(h.lines[j]))
  {
    var l := h.lines[i];
    hide Unbroken; hide NoBreak; hide Pieces; hide Before; hide TrueLine; hide IsFile; hide HunkOk; hide ReadAs;
    hide LooksLikeHeader; hide LineText; hide Speaks; hide NextLine; hide Silent; hide OneVoice;
    UnbrokenText(h, i);
    WholeSpeaks(classify, l);
    OnePiece(classify, LineText(l));
    if Flagged(classify, l).Some? {
      CountTrue(h, i);
      ReadAsOnePiece(classify, h, i, LineText(l));
      WholeReadAs(classify, h, i);
      hide LineRead;
    }
  }

  lemma UnbrokenHunk(classify: Classifier, file: string, h: Hunk)
    requires Unbroken(h) && HunkOk(h)
    ensures HunkOwn(file, h) && NothingExtra(classify, h)
    ensures HunkRead(classify, file, h) <==> Undisturbed(classify, h.lines)
  {
    HeaderUnbroken(h);
    HeaderIsNoFile(file, h);
    assert HeaderText(h)[0] == '@';
    OtherFirst(HeaderText(h), "+");
    hide NoBreak; hide Pieces; hide LineRead; hide Flagged; hide LooksLikeHeader; hide StartsWith; hide LineNoExtra;
    forall i | 0 <= i < |h.lines|
      ensures OwnHeaders(file, Pieces(LineText(h.lines[i]))) && LineNoExtra(classify, h.lines[i])
      ensures LineRead(classify, h, i) <==>
        (Flagged(classify, h.lines[i]).Some? ==> forall j :: 0 <= j <= i ==> !LooksLikeHeader(h.lines[j]))
    {
      UnbrokenText(h, i);
      UnbrokenLineRead(classify, h, i);
    }
    hide Unbroken; hide HunkOk; hide IsFile; hide IsAdd; hide HeaderText; hide LineText;
  }

  predicate AllUnbroken(files: seq<FileDiff>) {
    forall i, j :: 0 <= i < |files| && 0 <= j < |files[i].hunks| ==> Unbroken(files[i].hunks[j])
  }

  predicate DiffUndisturbed(classify: Classifier, files: seq<FileDiff>) {
    forall i, j :: 0 <= i < |files| && 0 <= j < |files[i].hunks| ==> Undisturbed(classify, files[i].hunks[j].lines)
  }

  /**
   On diffs whose lines hold no break the findings are right exactly when no hunk has an added
   line beginning with two plus signs at or before a flagged line.
   */
  lemma UnbrokenScanIsRight(classify: Classifier, files: seq<FileDiff>)
    requires FilesOk(files) && AllUnbroken(files)
    ensures Found(classify, files) == RightFindings(classify, files) <==> DiffUndisturbed(classify, files)
  {
    hide Unbroken; hide Undisturbed; hide HunkRead; hide HunkOwn; hide Found; hide RightFindings; hide HunkOk;
    hide MetaOk; hide NoBreak; hide AfterB; hide NothingExtra;
    forall i, j | 0 <= i < |files| && 0 <= j < |files[i].hunks|
      ensures HunkOwn(files[i].newName, files[i].hunks[j]) && NothingExtra(classify, files[i].hunks[j])
      ensures HunkRead(classify, files[i].newName, files[i].hunks[j]) <==>
        Undisturbed(classify, files[i].hunks[j].lines)
    {
      assert FileOk(files[i]);
      UnbrokenHunk(classify, files[i].newName, files[i].hunks[j]);
    }
    ScanIsRight(classify, files);
    hide FilesOk; hide AllUnbroken;
  }

  // ---------------------------------------------------------------- diffs that are misread

  /** A marker no piece can give: the text it shows holds a break. */
  predicate Unreportable(m: Finding) { m.Marker? && !NoBreak(m.text) }

  predicate Reportable(found: seq<Finding>) { forall m :: m in found ==> !Unreportable(m) }

  lemma ShownHasNoBreak(text: string)
    requires NoBreak(text)
    ensures NoBreak(Shown(text))
  {
    hide IsBreak;
  }

  lemma AddReports(raw: string)
    requires IsAdd(raw) && NoBreak(raw)
    ensures NoBreak(Shown(raw[1..]))
  {
    assert NoBreak(raw[1..]);
    ShownHasNoBreak(raw[1..]);
    hide NoBreak; hide Shown;
  }

  lemma PieceReports(classify: Classifier, s: State, raw: string)
    requires NoBreak(raw) && Reportable(s.found)
    ensures Reportable(ScanLine(classify, s, raw).found)
  {
    if IsAdd(raw) {
      AddReports(raw);
    }
    hide NoBreak; hide StartsWith; hide FileName; hide ParseHeader; hide Shown; hide IsFile;
  }

  predicate NoBreakIn(pieces: seq<string>) { forall i :: 0 <= i < |pieces| ==> NoBreak(pieces[i]) }

  lemma {:induction false} ScanReports(classify: Classifier, s: State, pieces: seq<string>)
    requires NoBreakIn(pieces) && Reportable(s.found)
    ensures Reportable(ScanAll(classify, s, pieces).found)
    decreases |pieces|
  {
    hide Unreportable; hide NoBreak; hide ScanLine;
    if pieces != [] {
      PieceReports(classify, s, pieces[0]);
      ScanReports(classify, ScanLine(classify, s, pieces[0]), pieces[1..]);
    }
  }

  lemma {:induction false} HunkHolds(classify: Classifier, file: string, hunks: seq<Hunk>, j: nat, k: nat)
    requires j < |hunks| && k < |hunks[j].lines|
    ensures forall m :: m in RightAt(classify, file, hunks[j], k) ==> m in HunkFindings(classify, file, hunks, true)
  {
    hide RightAt; hide Reported;
    if j == 0 {
      RightHolds(classify, file, hunks[0], |hunks[0].lines|, k);
    } else {
      HunkHolds(classify, file, hunks[1..], j - 1, k);
    }
    hide Right;
  }

  lemma {:induction false} RightHolds(classify: Classifier, file: string, h: Hunk, n: nat, k: nat)
    requires k < n <= |h.lines|
    ensures forall m :: m in RightAt(classify, file, h, k) ==> m in Right(classify, file, h, n)
  {
    hide RightAt;
    if k < n - 1 {
      RightHolds(classify, file, h, n - 1, k);
    }
  }

  lemma {:induction false} DiffHolds(classify: Classifier, files: seq<FileDiff>, seen: set<string>,
                                     i: nat, j: nat, k: nat)
    requires i < |files| && j < |files[i].hunks| && k < |files[i].hunks[j].lines|
    ensures forall m :: m in RightAt(classify, files[i].newName, files[i].hunks[j], k) ==>
      m in DiffFindings(classify, files, seen, true)
    decreases |files|
  {
    hide RightAt; hide HunkFindings;
    if i == 0 {
      HunkHolds(classify, files[0].newName, files[0].hunks, j, k);
    } else {
      DiffHolds(classify, files[1..], seen + {files[0].newName}, i - 1, j, k);
    }
  }

  /** In any diff whatever, a flagged line that would show a break has a right marker the scanner never reports. */
  lemma BrokenIsMissed(classify: Classifier, files: seq<FileDiff>, i: nat, j: nat, k: nat)
    requires i < |files| && j < |files[i].hunks| && k < |files[i].hunks[j].lines|
    requires var l := files[i].hunks[j].lines[k];
      Flagged(classify, l).Some? && !NoBreak(Shown(l.text))
    ensures |RightAt(classify, files[i].newName, files[i].hunks[j], k)| == 1
    ensures var m := RightAt(classify, files[i].newName, files[i].hunks[j], k)[0];
      m in RightFindings(classify, files) && m !in Found(classify, files)
  {
    hide NoBreak; hide ScanAll; hide SplitLines; hide DiffFindings; hide LooksLikeHeader; hide TrueLine; hide Shown;
    DiffHolds(classify, files, {}, i, j, k);
    PiecesHaveNoBreak(Printed(files));
    ScanReports(classify, START, SplitLines(Printed(files)));
    var m := RightAt(classify, files[i].newName, files[i].hunks[j], k)[0];
    assert Unreportable(m);
    hide RightAt; hide Unreportable;
  }

  function HunkOf(lines: seq<Line>): Hunk { Hunk(1, 0, 1, |lines|, "", lines) }

  function OneHunk(lines: seq<Line>): seq<FileDiff> { [FileDiff("f", "f", [], [HunkOf(lines)])] }

  lemma OneHunkOk(lines: seq<Line>)
    ensures FilesOk(OneHunk(lines))
  {
    hide Decimal;
  }

  lemma OneHunkIs(classify: Classifier, lines: seq<Line>)
    ensures OwnHeadersOnly(OneHunk(lines)) <==> HunkOwn("f", HunkOf(lines))
    ensures DiffRead(classify, OneHunk(lines)) <==> HunkRead(classify, "f", HunkOf(lines))
    ensures DiffNoExtra(classify, OneHunk(lines)) <==> NothingExtra(classify, HunkOf(lines))
  {
    hide HunkOwn; hide HunkRead; hide NothingExtra; hide HunkOf;
    var f := OneHunk(lines)[0];
    assert f.newName == "f" && f.hunks[0] == HunkOf(lines);
  }

  /** With nothing invented, the one hunk decides. */
  lemma OneHunkDecides(classify: Classifier, lines: seq<Line>)
    requires HunkOwn("f", HunkOf(lines)) && NothingExtra(classify, HunkOf(lines))
    ensures FilesOk(OneHunk(lines)) && OwnHeadersOnly(OneHunk(lines))
    ensures Found(classify, OneHunk(lines)) == RightFindings(classify, OneHunk(lines)) <==>
      HunkRead(classify, "f", HunkOf(lines))
  {
    hide Found; hide RightFindings; hide FilesOk; hide DiffRead; hide DiffNoExtra; hide OwnHeadersOnly; hide HunkOwn;
    hide HunkRead; hide NothingExtra; hide DiffHeard; hide OneHunk; hide HunkOf;
    OneHunkOk(lines);
    OneHunkIs(classify, lines);
    ScanIsRight(classify, OneHunk(lines));
  }

  // A hunk is read whatever silent lines follow its last flagged line.

  lemma {:induction false} BeforePrefix(h: Hunk, h': Hunk, i: nat)
    requires i <= |h'.lines| <= |h.lines| && h' == h.(lines := h.lines[..|h'.lines|])
    ensures Before(h', i) == Before(h, i)
  {
    hide Pieces; hide LineText;
    if i > 0 {
      BeforePrefix(h, h', i - 1);
    }
  }

  lemma ReadAsPrefix(classify: Classifier, h: Hunk, h': Hunk, i: nat, k: nat)
    requires i < |h'.lines| <= |h.lines| && h' == h.(lines := h.lines[..|h'.lines|]) && h.lines[i].Added?
    ensures ReadAs(classify, h', i, k) <==> ReadAs(classify, h, i, k)
  {
    hide Pieces; hide LineText; hide Before; hide NextLine; hide Shown; hide Only; hide Kept;
    BeforePrefix(h, h', i);
    assert h'.lines[..i] == h.lines[..i];
  }

  lemma LineReadPrefix(classify: Classifier, h: Hunk, h': Hunk, i: nat)
    requires i < |h'.lines| <= |h.lines| && h' == h.(lines := h.lines[..|h'.lines|])
    ensures LineRead(classify, h', i) <==> LineRead(classify, h, i)
  {
    hide Pieces; hide LineText; hide ReadAs; hide Silent;
    if h.lines[i].Added? {
      forall k: nat ensures ReadAs(classify, h', i, k) <==> ReadAs(classify, h, i, k) {
        ReadAsPrefix(classify, h, h', i, k);
      }
    }
  }

  /**
   When nothing is flagged from line n on, what stands there does no harm as long as it is
   silent: not even a piece that is read as the header of the file and restarts the count.
   */
  lemma SilentTailIsHarmless(classify: Classifier, file: string, h: Hunk, n: nat)
    requires n <= |h.lines| && HunkOwn(file, h) && HunkOk(h)
    requires var h' := h.(lines := h.lines[..n]); Unbroken(h') && Undisturbed(classify, h'.lines)
    requires forall i :: n <= i < |h.lines| ==> LineNoExtra(classify, h.lines[i])
    requires forall i :: n <= i < |h.lines| ==> Flagged(classify, h.lines[i]).None?
    ensures HunkRead(classify, file, h)
  {
    var h' := h.(lines := h.lines[..n]);
    UnbrokenHunk(classify, file, h');
    assert HeaderText(h') == HeaderText(h);
    hide Unbroken; hide Undisturbed; hide HunkOwn; hide Silent; hide HeaderText; hide LineText; hide Pieces;
    hide OneVoice;
    forall i | 0 <= i < |h.lines| ensures LineRead(classify, h, i) {
      hide NothingExtra;
      if i < n {
        LineReadPrefix(classify, h, h', i);
      } else {
        assert LineNoExtra(classify, h.lines[i]);
      }
      hide ReadAs;
    }
    hide LineRead;
  }

  lemma CutInTwo(l: Line, a: string, c: char, b: string)
    requires LineText(l) == a + ([c] + b) && NoBreak(a) && NoBreak(b) && IsBreak(c) && c != '\r'
    ensures Pieces(LineText(l)) == [a, b]
  {
    hide Pieces; hide NoBreak; hide LineText;
    PiecesOfTwo(a, c, b);
  }

  /** The header of a hunk that starts at line one, and the counter behind it. */
  lemma FirstHeader(classify: Classifier, h: Hunk)
    requires h.newStart == 1 && NoBreak(h.heading)
    ensures Before(h, 0) == [HeaderText(h)] && CountAt(h, 0) == 0 && NextLine(Before(h, 0)) == 1
    ensures Silent(classify, Pieces(HeaderText(h))) && OwnHeaders("f", Pieces(HeaderText(h)))
    ensures h.lines != [] ==> TrueLine(h, 0) == 1
  {
    hide NoBreak; hide Pieces; hide HeaderText; hide After; hide NextLine; hide OwnHeaders; hide IsAdd;
    HeaderUnbroken(h);
    HeaderIsNoFile("f", h);
    HeaderCounts(h);
    NextLineIs(Before(h, 0));
    HeaderIsSilent(h);
    if h.lines != [] {
      FirstTrueLine(h);
    }
    hide TrueLine;
  }

  lemma FirstTrueLine(h: Hunk)
    requires h.newStart == 1 && h.lines != []
    ensures TrueLine(h, 0) == 1
  {
    assert h.lines[..0] == [];
  }

  lemma HeaderIsSilent(h: Hunk)
    ensures !IsAdd(HeaderText(h))
  {
    assert HeaderText(h)[0] == '@';
    hide HeaderText; hide StartsWith;
    OtherFirst(HeaderText(h), "+");
  }

  /** A flagged line cut in two is read exactly when its first piece is flagged and shown like the line. */
  lemma CutLineRead(classify: Classifier, text: string, a: string, b: string)
    requires classify(text).Some? && Pieces(LineText(Added(text))) == ["+" + a, b]
    requires !IsAdd(b) && !IsFile(b) && !StartsWith(a, "++")
    ensures FilesOk(OneHunk([Added(text)]))
    ensures Found(classify, OneHunk([Added(text)])) == RightFindings(classify, OneHunk([Added(text)])) <==>
      classify(a) == classify(text) && Shown(a) == Shown(text)
    ensures RightFindings(classify, OneHunk([Added(text)])) ==
      [FileChanged("f"), Marker(classify(text).value, "f", 1, Shown(text))]
  {
    var h := HunkOf([Added(text)]);
    FirstHeader(classify, h) by { assert NoBreak(""); }
    hide Found; hide RightFindings; hide FilesOk; hide OwnHeadersOnly; hide HunkOwn; hide HunkRead; hide NothingExtra;
    hide OneHunk; hide Pieces; hide LineText; hide IsAdd; hide IsFile; hide StartsWith; hide Shown; hide Before;
    hide NextLine; hide Silent; hide OwnHeaders; hide HeaderText;
    CutLineParts(classify, h, text, a, b);
    OneHunkDecides(classify, [Added(text)]);
    LoneRight(classify, text);
  }

  lemma LoneRight(classify: Classifier, text: string)
    requires classify(text).Some?
    ensures RightFindings(classify, OneHunk([Added(text)])) ==
      [FileChanged("f"), Marker(classify(text).value, "f", 1, Shown(text))]
  {
    var h := HunkOf([Added(text)]);
    var m := Marker(classify(text).value, "f", 1, Shown(text));
    assert h.lines[..0] == [] && TrueLine(h, 0) == 1;
    hide Shown; hide TrueLine;
    assert RightAt(classify, "f", h, 0) == [m];
    hide RightAt;
    assert Right(classify, "f", h, 0) == [] && [] + [m] == [m];
    assert Right(classify, "f", h, 1) == [m];
    hide Right;
    OneHunkFindings(classify, [Added(text)], true);
  }

  lemma OneHunkFindings(classify: Classifier, lines: seq<Line>, right: bool)
    ensures var h := HunkOf(lines);
      DiffFindings(classify, OneHunk(lines), {}, right) ==
      [FileChanged("f")] + if right then Right(classify, "f", h, |lines|) else Reported(classify, "f", h, |lines|)
  {
    hide Right; hide Reported;
    var files, h := OneHunk(lines), HunkOf(lines);
    var found := if right then Right(classify, "f", h, |lines|) else Reported(classify, "f", h, |lines|);
    assert files[1..] == [] && files[0].hunks[1..] == [];
    assert HunkFindings(classify, "f", files[0].hunks, right) == found + [] == found;
    assert DiffFindings(classify, files[1..], {"f"}, right) == [];
    assert Changed("f", {}) == [FileChanged("f")];
  }

  lemma FirstOfTwo(classify: Classifier, x: string, y: string)
    requires !Speaks(classify, y)
    ensures Only(classify, [x, y], 0) <==> Speaks(classify, x)
    ensures !Only(classify, [x, y], 1) && OneVoice(classify, [x, y])
  {
    hide Speaks;
    assert [x, y][0] == x && [x, y][1] == y;
  }

  lemma CutLineParts(classify: Classifier, h: Hunk, text: string, a: string, b: string)
    requires h.lines == [Added(text)] && classify(text).Some? && Pieces(LineText(Added(text))) == ["+" + a, b]
    requires !IsAdd(b) && !IsFile(b) && !StartsWith(a, "++")
    requires NextLine(Before(h, 0)) == 1 && TrueLine(h, 0) == 1
    requires Silent(classify, Pieces(HeaderText(h))) && OwnHeaders("f", Pieces(HeaderText(h)))
    ensures HunkOwn("f", h) && NothingExtra(classify, h)
    ensures HunkRead(classify, "f", h) <==> classify(a) == classify(text) && Shown(a) == Shown(text)
  {
    PlusPlus(a);
    hide Pieces; hide HeaderText; hide LineText; hide NextLine; hide TrueLine; hide Shown; hide Before; hide IsFile;
    hide StartsWith; hide FileName; hide Silent; hide LineRead; hide OneVoice; hide Only; hide ReadAs;
    NotAFile("+" + a);
    CutOwn(["+" + a, b]);
    FirstOfTwo(classify, "+" + a, b);
    CutReadAs(classify, h, "+" + a, b);
  }

  lemma CutOwn(pieces: seq<string>)
    requires |pieces| == 2 && !IsFile(pieces[0]) && !IsFile(pieces[1])
    ensures OwnHeaders("f", pieces)
  {
    hide IsFile;
  }

  lemma CutReadAs(classify: Classifier, h: Hunk, x: string, y: string)
    requires |h.lines| == 1 && Flagged(classify, h.lines[0]).Some? && Pieces(LineText(h.lines[0])) == [x, y]
    requires IsAdd(x) && !Speaks(classify, y)
    requires NextLine(Before(h, 0)) == 1 && TrueLine(h, 0) == 1
    ensures LineRead(classify, h, 0) <==>
      classify(x[1..]) == classify(h.lines[0].text) && Shown(x[1..]) == Shown(h.lines[0].text)
  {
    hide Pieces; hide LineText; hide NextLine; hide TrueLine; hide Shown; hide Before; hide IsAdd; hide StartsWith;
    FirstOfTwo(classify, x, y);
    assert [x, y][..0] == [] && Before(h, 0) + [] == Before(h, 0);
    hide Only;
    assert [x, y][0] == x;
    assert LineRead(classify, h, 0) <==> ReadAs(classify, h, 0, 0) || ReadAs(classify, h, 0, 1);
  }

  /** A form feed before a flagged text cuts it off from its plus sign, and the marker is missing. */
  lemma FormFeedHidesMarker(classify: Classifier)
    requires classify("\U{C}# TODO").Some?
    ensures var files, marker := OneHunk([Added("\U{C}# TODO")]),
                                 Marker(classify("\U{C}# TODO").value, "f", 1, "# TODO");
      && FilesOk(files) && RightFindings(classify, files) == [FileChanged("f"), marker]
      && Found(classify, files) != RightFindings(classify, files)
  {
    var text, b := "\U{C}# TODO", "# TODO";
    StripsFormFeed();
    CutTexts();
    hide Found; hide RightFindings; hide FilesOk; hide OneHunk; hide LineText; hide Shown; hide Pieces;
    CutLineRead(classify, text, "", b);
  }

  /** One after it is white space at the end, and does no harm. */
  lemma TrailingFormFeedIsRead(classify: Classifier)
    requires classify("# TODO\U{C}").Some? && classify("# TODO") == classify("# TODO\U{C}")
    ensures var files, marker := OneHunk([Added("# TODO\U{C}")]),
                                 Marker(classify("# TODO\U{C}").value, "f", 1, "# TODO");
      FilesOk(files) && Found(classify, files) == RightFindings(classify, files) == [FileChanged("f"), marker]
  {
    StripsFormFeed();
    CutTexts();
    hide Found; hide RightFindings; hide FilesOk; hide OneHunk; hide LineText; hide Shown; hide Pieces;
    CutLineRead(classify, "# TODO\U{C}", "# TODO", "");
  }

  lemma StripsFormFeed()
    ensures Shown("") == "" && Shown("# TODO") == Shown("# TODO\U{C}") == Shown("\U{C}# TODO") == "# TODO"
  {
    hide Shown; hide IsSpace;
    FormFeedTexts();
    assert "# TODO"[0] == '#' && "# TODO"[5] == 'O';
    SpaceChars();
    ShownStripsOne('\U{C}', "# TODO");
  }

  lemma FormFeedTexts()
    ensures ['\U{C}'] + "# TODO" == "\U{C}# TODO" && "# TODO" + ['\U{C}'] == "# TODO\U{C}"
  {}

  lemma SpaceChars()
    ensures IsSpace('\U{C}') && !IsSpace('#') && !IsSpace('O')
  {}

  lemma ShownStripsOne(c: char, s: string)
    requires 0 < |s| <= SHOWN_LENGTH && IsSpace(c) && !IsSpace(s[0]) && !IsSpace(s[|s| - 1])
    ensures Shown("") == "" && Shown(s) == Shown([c] + s) == Shown(s + [c]) == s
  {
    hide IsSpace;
    assert ([c] + s)[1..] == s && (s + [c])[..|s|] == s;
  }

  lemma CutTexts()
    ensures Pieces(LineText(Added("\U{C}# TODO"))) == ["+" + "", "# TODO"]
    ensures Pieces(LineText(Added("# TODO\U{C}"))) == ["+" + "# TODO", ""]
    ensures !IsAdd("# TODO") && !IsFile("# TODO") && !IsAdd("") && !IsFile("")
    ensures !StartsWith("", "++") && !StartsWith("# TODO", "++")
  {
    var t := "# TODO";
    OtherFirst(t, "+");
    OtherFirst(t, "++");
    NotAFile(t);
    assert "+" + "" == "+" && NoBreak("+") && NoBreak("+" + t) && NoBreak(t) && NoBreak("");
    assert LineText(Added("\U{C}# TODO")) == "+" + (['\U{C}'] + t);
    assert LineText(Added("# TODO\U{C}")) == ("+" + t) + (['\U{C}'] + "");
    hide Pieces; hide LineText; hide NoBreak; hide StartsWith;
    CutInTwo(Added("\U{C}# TODO"), "+", '\U{C}', t);
    CutInTwo(Added("# TODO\U{C}"), "+" + t, '\U{C}', "");
  }

  lemma KeptOne(l: Line)
    ensures Kept([l]) == if InNew(l) then 1 else 0
  {
    assert [l][..0] == [];
  }

  /** A context line and an added line behind it. */
  lemma PairOf(classify: Classifier, lines: seq<Line>)
    requires |lines| == 2 && lines[0].Context?
    ensures var h := HunkOf(lines);
      && h.newStart == 1 && h.lines == lines && CountAt(h, 0) == 0 && TrueLine(h, 1) == 2
      && Silent(classify, Pieces(HeaderText(h))) && OwnHeaders("f", Pieces(HeaderText(h)))
  {
    var h := HunkOf(lines);
    assert NoBreak(h.heading);
    assert h.lines[..1] == [lines[0]];
    KeptOne(lines[0]);
    hide NoBreak; hide Kept; hide Before; hide After; hide Pieces; hide HeaderText; hide Silent; hide OwnHeaders;
    hide NextLine;
    FirstHeader(classify, h);
  }

  /** A flagged line behind a context line that is not counted as one line. */
  lemma ShiftedLine(classify: Classifier, lines: seq<Line>)
    requires |lines| == 2 && lines[0].Context? && Flagged(classify, lines[1]).Some? && NoBreak(LineText(lines[1]))
    requires Silent(classify, Pieces(LineText(lines[0]))) && OwnHeaders("f", Pieces(LineText(lines[0])))
    requires Max(After(0, Pieces(LineText(lines[0]))) + 1, 1) != 2
    ensures FilesOk(OneHunk(lines)) && OwnHeadersOnly(OneHunk(lines))
    ensures Found(classify, OneHunk(lines)) != RightFindings(classify, OneHunk(lines))
  {
    hide *;
    PairOf(classify, lines);
    ShiftedHunk(classify, HunkOf(lines));
    OneHunkDecides(classify, lines);
  }

  lemma ShiftedHunk(classify: Classifier, h: Hunk)
    requires |h.lines| == 2 && h.lines[0].Context? && h.newStart == 1
    requires Silent(classify, Pieces(HeaderText(h))) && OwnHeaders("f", Pieces(HeaderText(h))) && CountAt(h, 0) == 0
    requires var p := Pieces(LineText(h.lines[0]));
      Silent(classify, p) && OwnHeaders("f", p) && Max(After(0, p) + 1, 1) != 2
    requires Flagged(classify, h.lines[1]).Some? && NoBreak(LineText(h.lines[1])) && TrueLine(h, 1) == 2
    ensures HunkOwn("f", h) && NothingExtra(classify, h) && !HunkRead(classify, "f", h)
  {
    hide Pieces; hide HeaderText; hide LineText; hide NoBreak; hide After; hide IsFile; hide Speaks; hide NextLine;
    hide Before; hide Shown; hide FileName;
    var raw := LineText(h.lines[1]);
    WholeTick(0, h.lines[1]);
    WholeSpeaks(classify, h.lines[1]);
    OnePiece(classify, raw);
    NextLineInside(h, 0, Pieces(LineText(h.lines[0])));
    assert Before(h, 1) == Before(h, 0) + Pieces(LineText(h.lines[0])) by { BeforeNext(h, 0); }
    hide TrueLine;
    ReadAsOnePiece(classify, h, 1, raw);
    WholeReadAs(classify, h, 1);
    hide Only; hide ReadAs; hide LineRead; hide Silent;
  }

  lemma BeforeNext(h: Hunk, i: nat)
    requires i < |h.lines|
    ensures Before(h, i + 1) == Before(h, i) + Pieces(LineText(h.lines[i]))
  {
    hide Pieces; hide LineText;
  }

  lemma AfterTwo(line: int, a: string, b: string)
    ensures After(line, [a, b]) == Tick(Tick(line, a), b)
  {
    hide Tick;
    assert [a, b][1..] == [b];
    AfterOne(Tick(line, a), b);
  }

  lemma SpaceTicks(line: int, raw: string)
    requires raw != "" && raw[0] == ' '
    ensures Tick(line, raw) == line + 1 && !IsAdd(raw) && !IsFile(raw)
  {
    NotAFile(raw);
    OtherFirst(raw, "@@ -");
    OtherFirst(raw, "+");
    assert raw[..1] == " ";
    hide ParseHeader;
  }

  /** A context line cut in two pieces that both begin with a space is counted twice. */
  lemma FormFeedShiftsLine(classify: Classifier)
    requires classify("TODO").Some?
    ensures var files := OneHunk([Context("a\U{C} b"), Added("TODO")]);
      FilesOk(files) && OwnHeadersOnly(files) && Found(classify, files) != RightFindings(classify, files)
  {
    var l := Context("a\U{C} b");
    assert LineText(l) == " a" + (['\U{C}'] + " b");
    assert NoBreak(" a") && NoBreak(" b");
    TodoIsWhole();
    hide Pieces; hide LineText; hide NoBreak; hide After; hide Tick; hide IsFile; hide IsAdd; hide FileName;
    hide Found; hide RightFindings; hide OneHunk; hide FilesOk; hide OwnHeadersOnly;
    CutInTwo(l, " a", '\U{C}', " b");
    SpaceTicks(0, " a");
    SpaceTicks(1, " b");
    AfterTwo(0, " a", " b");
    ShiftedLine(classify, [l, Added("TODO")]);
  }

  /** The header of the one file. */
  function OwnHeaderText(): string { FileText(FileDiff("f", "f", [], [])) }

  lemma OwnHeaderPiece()
    ensures IsFile(OwnHeaderText()) && FileName(OwnHeaderText()) == "f" && !IsAdd(OwnHeaderText())
    ensures NoBreak(OwnHeaderText())
  {
    var f := FileDiff("f", "f", [], []);
    assert AfterB("f").None? && NoBreak("f");
    assert FileText(f)[0] == 'd';
    hide FileText; hide FileName; hide IsFile; hide NoBreak; hide StartsWith;
    NameIsRead(f);
    FileTextIsFile(f);
    FileTextHasNoBreak(f);
    OtherFirst(OwnHeaderText(), "+");
  }

  lemma OwnHeaderLine(classify: Classifier)
    ensures var l := Context("z\U{C}" + OwnHeaderText());
      && After(0, Pieces(LineText(l))) == 0
      && Silent(classify, Pieces(LineText(l))) && OwnHeaders("f", Pieces(LineText(l)))
  {
    var header := OwnHeaderText();
    assert NoBreak(" z") by { assert |" z"| == 2; }
    assert "z\U{C}" == "z" + ['\U{C}'];
    ContextText('\U{C}', header);
    OwnHeaderPiece();
    hide LineText; hide Pieces; hide NoBreak; hide IsAdd; hide FileName; hide IsFile; hide After; hide OwnHeaders;
    hide Silent; hide OwnHeaderText;
    CutInTwo(Context("z\U{C}" + header), " z", '\U{C}', header);
    SpaceTicks(0, " z");
    AfterTwo(0, " z", header);
    QuietPair(classify, " z", header);
  }

  lemma ContextText(c: char, rest: string)
    ensures LineText(Context(("z" + [c]) + rest)) == " z" + ([c] + rest)
  {}

  lemma QuietPair(classify: Classifier, x: string, y: string)
    requires !IsAdd(x) && !IsAdd(y) && !IsFile(x) && FileName(y) == "f"
    ensures Silent(classify, [x, y]) && OwnHeaders("f", [x, y])
  {
    hide IsAdd; hide IsFile; hide FileName;
    assert [x, y][0] == x && [x, y][1] == y;
  }

  /** A piece that is read as the header of its own file restarts the count, and a later marker names the wrong line. */
  lemma OwnHeaderShiftsLine(classify: Classifier)
    requires classify("TODO").Some?
    ensures var files := OneHunk([Context("z\U{C}" + OwnHeaderText()), Added("TODO")]);
      FilesOk(files) && OwnHeadersOnly(files) && Found(classify, files) != RightFindings(classify, files)
  {
    var l := Context("z\U{C}" + OwnHeaderText());
    OwnHeaderLine(classify);
    TodoIsWhole();
    hide Pieces; hide LineText; hide NoBreak; hide After; hide OwnHeaders; hide Silent; hide IsAdd; hide IsFile;
    hide Found; hide RightFindings; hide OneHunk; hide FilesOk; hide OwnHeadersOnly; hide OwnHeaderText;
    ShiftedLine(classify, [l, Added("TODO")]);
  }

  lemma TodoIsWhole()
    ensures NoBreak(LineText(Added("TODO")))
  {}

  /** An added line of three plus signs is not counted, and the marker after it names the line before its own. */
  lemma PlusPlusShiftsLine(classify: Classifier)
    requires classify("TODO").Some?
    ensures var files := OneHunk([Added("++x"), Added("TODO")]);
      FilesOk(files) && OwnHeadersOnly(files) && Found(classify, files) != RightFindings(classify, files)
  {
    var lines := [Added("++x"), Added("TODO")];
    assert LooksLikeHeader(lines[0]) && Flagged(classify, lines[1]).Some?;
    assert !Undisturbed(classify, lines);
    assert Unbroken(HunkOf(lines)) && HunkOk(HunkOf(lines));
    hide FilesOk; hide Found; hide RightFindings; hide Undisturbed; hide Unbroken; hide LooksLikeHeader; hide HunkOk;
    hide HunkOwn; hide NothingExtra; hide HunkRead;
    UnbrokenHunk(classify, "f", HunkOf(lines));
    OneHunkDecides(classify, lines);
  }

  /**
   Beyond that the findings can be right by accident: a piece of a context line is reported
   at the very line, and with the text, that a flagged line behind it loses.
   */
  lemma TwoWrongsAgree(classify: Classifier)
    requires classify("\U{C}# TODO").Some? && classify("# TODO") == classify("\U{C}# TODO") && classify("").None?
    ensures var files := OneHunk([Context("a\U{C}+# TODO"), Added("\U{C}# TODO")]);
      && FilesOk(files) && OwnHeadersOnly(files) && !DiffRead(classify, files)
      && Found(classify, files) == RightFindings(classify, files)
  {
    var l, text := Context("a\U{C}+# TODO"), "\U{C}# TODO";
    AccidentLines(classify);
    StripsFormFeed();
    hide LineText; hide Shown; hide Pieces; hide FilesOk; hide OwnHeadersOnly; hide DiffRead; hide Found;
    hide RightFindings; hide OneHunk; hide Speaks; hide After; hide Silent; hide OwnHeaders;
    Accident(classify, l, text, " a", "+" + "# TODO");
  }

  lemma AccidentLines(classify: Classifier)
    requires classify("# TODO").Some? && classify("").None?
    ensures Pieces(LineText(Context("a\U{C}+# TODO"))) == [" a", "+" + "# TODO"]
    ensures Silent(classify, Pieces(LineText(Added("\U{C}# TODO"))))
    ensures !Speaks(classify, " a") && Speaks(classify, "+" + "# TODO") && After(0, [" a"]) == 1
    ensures ("+" + "# TODO")[1..] == "# TODO"
    ensures OwnHeaders("f", Pieces(LineText(Context("a\U{C}+# TODO"))))
    ensures OwnHeaders("f", Pieces(LineText(Added("\U{C}# TODO"))))
  {
    var l, t := Context("a\U{C}+# TODO"), "# TODO";
    assert LineText(l) == " a" + (['\U{C}'] + ("+" + t));
    assert NoBreak(" a") && NoBreak("+" + t);
    PlusPlus(t);
    CutTexts();
    SilentCut(classify);
    hide Pieces; hide LineText; hide NoBreak; hide StartsWith; hide After; hide IsFile;
    CutInTwo(l, " a", '\U{C}', "+" + t);
    SpaceTicks(0, " a");
    AfterOne(0, " a");
    NotAFile("+" + t);
    NotAFile("+" + "");
    CutOwn([" a", "+" + t]);
    CutOwn(["+" + "", t]);
  }

  lemma SilentCut(classify: Classifier)
    requires classify("").None?
    ensures Silent(classify, ["+" + "", "# TODO"])
  {
    OtherFirst("# TODO", "+");
    assert ("+" + "")[1..] == "";
    hide StartsWith;
  }

  /** A piece p of a context line that shows what the flagged line behind it should. */
  lemma Accident(classify: Classifier, l: Line, text: string, a: string, p: string)
    requires l.Context? && Pieces(LineText(l)) == [a, p] && OwnHeaders("f", Pieces(LineText(l)))
    requires !Speaks(classify, a) && Speaks(classify, p) && After(0, [a]) == 1
    requires Silent(classify, Pieces(LineText(Added(text)))) && OwnHeaders("f", Pieces(LineText(Added(text))))
    requires classify(text).Some? && classify(p[1..]) == classify(text) && Shown(p[1..]) == Shown(text)
    ensures var files := OneHunk([l, Added(text)]);
      && FilesOk(files) && OwnHeadersOnly(files) && !DiffRead(classify, files)
      && Found(classify, files) == RightFindings(classify, files)
  {
    var lines := [l, Added(text)];
    var h := HunkOf(lines);
    PairOf(classify, lines);
    hide HunkOf; hide Found; hide RightFindings; hide HunkOwn; hide HunkRead;
    hide LineText; hide Shown; hide Pieces; hide FilesOk; hide OwnHeadersOnly; hide DiffRead; hide OneHunk;
    hide Speaks; hide After; hide Silent; hide OwnHeaders; hide HeaderText; hide TrueLine; hide Kept; hide CountAt;
    AccidentHunk(classify, h, a, p);
    AccidentFindings(classify, h, a, p);
    hide LineRead; hide Reported; hide Right; hide DiffFindings;
    OneHunkOk(lines);
    OneHunkIs(classify, lines);
    FoundIsReported(classify, OneHunk(lines));
    OneHunkFindings(classify, lines, false);
    OneHunkFindings(classify, lines, true);
    RightIs(classify, OneHunk(lines));
  }

  lemma RightIs(classify: Classifier, files: seq<FileDiff>)
    ensures RightFindings(classify, files) == DiffFindings(classify, files, {}, true)
  {
    hide DiffFindings;
  }

  lemma AccidentHunk(classify: Classifier, h: Hunk, a: string, p: string)
    requires |h.lines| == 2 && h.lines[0].Context? && OwnHeaders("f", Pieces(HeaderText(h)))
    requires Pieces(LineText(h.lines[0])) == [a, p] && OwnHeaders("f", Pieces(LineText(h.lines[0])))
    requires Speaks(classify, p) && OwnHeaders("f", Pieces(LineText(h.lines[1])))
    ensures HunkOwn("f", h) && !HunkRead(classify, "f", h)
  {
    hide Pieces; hide LineText; hide HeaderText; hide Speaks; hide OwnHeaders;
    assert [a, p][1] == p;
    assert !LineRead(classify, h, 0);
  }

  lemma AccidentFindings(classify: Classifier, h: Hunk, a: string, p: string)
    requires |h.lines| == 2 && h.lines[0].Context? && Silent(classify, Pieces(HeaderText(h))) && CountAt(h, 0) == 0
    requires Pieces(LineText(h.lines[0])) == [a, p] && !Speaks(classify, a) && Speaks(classify, p)
    requires After(0, [a]) == 1 && TrueLine(h, 1) == 2
    requires Silent(classify, Pieces(LineText(h.lines[1]))) && Flagged(classify, h.lines[1]).Some?
    requires classify(p[1..]) == classify(h.lines[1].text) && Shown(p[1..]) == Shown(h.lines[1].text)
    ensures Reported(classify, "f", h, 2) == Right(classify, "f", h, 2)
  {
    hide Pieces; hide LineText; hide HeaderText; hide After; hide Shown; hide TrueLine; hide CountAt; hide Silent;
    var m := Marker(classify(p[1..]).value, "f", 2, Shown(p[1..]));
    assert Only(classify, [a, p], 1) && [a, p][..1] == [a] by { hide Speaks; }
    OnlyHits(classify, "f", 0, [a, p], 1);
    assert ReportAt(classify, "f", h, 0) == [m];
    SilentHasNoHits(classify, "f", CountAt(h, 1), Pieces(LineText(h.lines[1])));
    SilentHasNoHits(classify, "f", 0, Pieces(HeaderText(h)));
    hide Hits; hide Speaks; hide Only;
    assert ReportAt(classify, "f", h, 1) == [];
    assert RightAt(classify, "f", h, 0) == [] && RightAt(classify, "f", h, 1) == [m];
    hide ReportAt; hide RightAt;
    assert Reported(classify, "f", h, 1) == [] + [m] == [m];
    assert Reported(classify, "f", h, 2) == [m] + [] == [m];
    assert Right(classify, "f", h, 1) == [] + [] == [];
    assert Right(classify, "f", h, 2) == [] + [m] == [m];
  }
}
