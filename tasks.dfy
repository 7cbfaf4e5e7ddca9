/**
 * `TaskScanner` and `WorkflowAnalyzer._generate_recommendations`.
 *
 * The scanner finds descriptions of manual work with the four cue patterns of `Cues`,
 * in a file, in every document of a directory tree, in a web page or in literal text.
 * The filesystem, the URL test and the fetched pages are parameters of the model.
 */
module Tasks {
  import opened Wrappers
  import opened Strings
  import opened Paths
  import opened Cues

  // ---------------------------------------------------------------- the extractor

  /** `[f(m) for m in ms if f(m)]`. */
  function NonEmptyImages(ms: seq<string>, f: string -> string): seq<string> {
    if ms == [] then []
    else
      var y := f(ms[|ms| - 1]);
      NonEmptyImages(ms[..|ms| - 1], f) + (if y == [] then [] else [y])
  }

  /** An image is kept exactly when it is not empty. */
  lemma {:induction false} NonEmptyImagesMembers(ms: seq<string>, f: string -> string, x: string)
    ensures x in NonEmptyImages(ms, f) <==> x != [] && exists k :: 0 <= k < |ms| && f(ms[k]) == x
  {
    if x in NonEmptyImages(ms, f) {
      KeptImageHasSource(ms, f, x);
    } else if x != [] {
      forall k | 0 <= k < |ms| ensures f(ms[k]) != x {
        if f(ms[k]) == x {
          NonEmptyImageKept(ms, f, k);
        }
      }
    }
  }

  lemma {:induction false} KeptImageHasSource(ms: seq<string>, f: string -> string, x: string)
    requires x in NonEmptyImages(ms, f)
    ensures x != [] && exists k :: 0 <= k < |ms| && f(ms[k]) == x
    decreases |ms|
  {
    var init := ms[..|ms| - 1];
    if x in NonEmptyImages(init, f) {
      KeptImageHasSource(init, f, x);
      var k :| 0 <= k < |init| && f(init[k]) == x;
      assert ms[k] == init[k];
    } else {
      assert f(ms[|ms| - 1]) == x;
    }
  }

  lemma {:induction false} NonEmptyImageKept(ms: seq<string>, f: string -> string, k: nat)
    requires k < |ms| && f(ms[k]) != []
    ensures f(ms[k]) in NonEmptyImages(ms, f)
    decreases |ms|
  {
    var init := ms[..|ms| - 1];
    if k < |init| {
      NonEmptyImageKept(init, f, k);
      assert ms[k] == init[k];
    }
  }

  /** `[m.strip() for m in matches if m.strip()]`: what is kept is non-empty, stripped, and free of stop characters when the matches are. */
  function StrippedNonEmpty(matches: seq<string>): (kept: seq<string>)
    ensures forall x :: x in kept ==> x != [] && IsStripped(x)
    ensures (forall k :: 0 <= k < |matches| ==> NoStop(matches[k])) ==> forall x :: x in kept ==> NoStop(x)
  {
    StrippedEntries(matches);
    NonEmptyImages(matches, Strip)
  }

  lemma {:induction false} StrippedEntries(matches: seq<string>)
    ensures forall x :: x in NonEmptyImages(matches, Strip) ==> x != []
    ensures forall x :: x in NonEmptyImages(matches, Strip) ==> IsStripped(x)
    ensures (forall k :: 0 <= k < |matches| ==> NoStop(matches[k])) ==> forall x :: x in NonEmptyImages(matches, Strip) ==> NoStop(x)
  {
    forall x | x in NonEmptyImages(matches, Strip) ensures x != [] && IsStripped(x) && ((forall k :: 0 <= k < |matches| ==> NoStop(matches[k])) ==> NoStop(x)) {
      KeptImageHasSource(matches, Strip, x);
      var k :| 0 <= k < |matches| && Strip(matches[k]) == x;
      StripCharacterised(matches[k]);
      StripKeepsNoStop(matches[k]);
    }
  }

  /** What stripping leaves of a capture holds no character the capture did not. */
  lemma StripKeepsNoStop(s: string)
    ensures NoStop(s) ==> NoStop(Strip(s))
  {
    if NoStop(s) {
      StripIsInfix(s);
      var i, j :| 0 <= i <= j <= |s| && Strip(s) == s[i..j];
      forall k | 0 <= k < |Strip(s)| ensures !IsStop(Strip(s)[k]) {
        assert Strip(s)[k] == s[i + k];
      }
    }
  }

  /** The `tasks` list after the first `n` patterns, before duplicates are removed. */
  function CollectedUpTo(text: string, n: nat): (found: seq<string>)
    requires n <= |Rules|
    ensures forall x :: x in found ==> x != [] && IsStripped(x) && NoStop(x)
  {
    if n == 0 then []
    else
      CollectedUpTo(text, n - 1) + StrippedNonEmpty(FindAll(Rules[n - 1], text, 0))
  }

  predicate NoDuplicates(s: seq<string>) {
    forall i, j :: 0 <= i < j < |s| ==> s[i] != s[j]
  }

  /**
   * `list(set(s))`: each distinct element once. Python leaves the order unspecified; here
   * it is the order of first occurrence, and nothing proved below depends on it.
   */
  function Dedup(s: seq<string>): (r: seq<string>)
    ensures NoDuplicates(r)
    ensures forall x :: x in r <==> x in s
    ensures |r| <= |s|
  {
    if s == [] then []
    else
      var init := s[..|s| - 1];
      var last := s[|s| - 1];
      assert s == init + [last];
      var d := Dedup(init);
      if last in d then d else d + [last]
  }

  /** `_extract_tasks_from_text(text)`. */
  function Extracted(text: string): seq<string> {
    Dedup(CollectedUpTo(text, |Rules|))
  }

  /** `_extract_tasks_from_text`: every pattern's captures, stripped, empty ones dropped, then deduplicated. */
  method ExtractTasks(text: string) returns (tasks: seq<string>)
    ensures tasks == Extracted(text)
    ensures NoDuplicates(tasks)
    ensures forall x :: x in tasks ==> x != [] && Strip(x) == x && '.' !in x && '\n' !in x
  {
    var found: seq<string> := [];
    for i := 0 to |Rules|
      invariant found == CollectedUpTo(text, i)
    {
      var matches := FindAll(Rules[i], text, 0);
      found := found + StrippedNonEmpty(matches);
    }
    tasks := Dedup(found);
    ExtractedEntries(text);
  }

  /** Every extracted task is non-empty, its own strip, and free of `.` and line feeds. */
  lemma ExtractedEntries(text: string)
    ensures forall x :: x in Extracted(text) ==> x != [] && Strip(x) == x && '.' !in x && '\n' !in x
  {
    var found := CollectedUpTo(text, |Rules|);
    forall x | x in Extracted(text)
      ensures x != [] && Strip(x) == x && '.' !in x && '\n' !in x
    {
      StripCharacterised(x);
    }
  }

  /** Every task found by the first `n` patterns is still there after all four. */
  lemma CollectedGrows(text: string, n: nat)
    requires n <= |Rules|
    ensures forall x :: x in CollectedUpTo(text, n) ==> x in CollectedUpTo(text, |Rules|)
  {
    var m := n;
    while m < |Rules|
      invariant n <= m <= |Rules|
      invariant forall x :: x in CollectedUpTo(text, n) ==> x in CollectedUpTo(text, m)
    {
      m := m + 1;
    }
  }

  /**
   * A text in which none of `manual`, `human` and `repetitive` occurs, in any case, yields
   * no task: every pattern needs one of these words.
   */
  lemma NoCueNoTasks(text: string)
    requires !Occurs(text, "manual") && !Occurs(text, "human") && !Occurs(text, "repetitive")
    ensures Extracted(text) == []
  {
    var n := 0;
    while n < |Rules|
      invariant n <= |Rules|
      invariant CollectedUpTo(text, n) == []
    {
      FindAllNeedsLit(Rules[n], text, 0, Anchor(n));
      n := n + 1;
    }
  }

  // ---------------------------------------------------------------- the sentence of the unit test

  /** `text` begins with `Currently done manually: data entry process.` */
  predicate OpensWithDataEntry(text: string) {
    && |text| >= 44
    && text[..9] == "Currently" && text[9..15] == " done " && text[15..23] == "manually"
    && text[23..25] == ": " && text[25..35] == "data entry" && text[35..43] == " process" && text[43] == '.'
  }

  lemma OpeningWords(t: string)
    requires OpensWithDataEntry(t)
    ensures WordAt(t, 0, "currently") && WordAt(t, 10, "done")
    ensures WordAt(t, 15, "manual") && WordAt(t, 21, "ly")
    ensures t[9] == ' ' && t[10] == 'd' && t[14] == ' ' && t[15] == 'm'
  {
    forall k | 0 <= k < 9 ensures FoldsTo(t[k], "currently"[k]) {
      assert t[k] == t[..9][k];
    }
    forall k | 0 <= k < 4 ensures FoldsTo(t[10 + k], "done"[k]) {
      assert t[10 + k] == t[9..15][k + 1];
    }
    forall k | 0 <= k < 6 ensures FoldsTo(t[15 + k], "manual"[k]) {
      assert t[15 + k] == t[15..23][k];
    }
    forall k | 0 <= k < 2 ensures FoldsTo(t[21 + k], "ly"[k]) {
      assert t[21 + k] == t[15..23][k + 6];
    }
    assert t[9] == t[9..15][0] && t[10] == t[9..15][1] && t[14] == t[9..15][5];
    assert t[15] == t[15..23][0];
  }

  /** After `manually`, the tail takes `: ` and captures up to the full stop. */
  lemma OpeningTail(t: string)
    requires OpensWithDataEntry(t)
    ensures Tail(t, 23) == Some(Capture(25, 43))
  {
    assert t[23] == t[23..25][0] && t[24] == t[23..25][1];
    assert t[25] == t[25..35][0];
    assert RunEnd(t, 23, IsColonOrSpace) == 25 by {
      assert RunEnd(t, 25, IsColonOrSpace) == 25;
      assert RunEnd(t, 24, IsColonOrSpace) == 25;
    }
    assert LastCaptureStart(t, 23, 25) == Some(25);
    assert RunEnd(t, 25, NotStop) == 43 by {
      forall k | 25 <= k < 43 ensures NotStop(t[k]) {
        if k < 35 {
          assert t[k] == t[25..35][k - 25];
        } else {
          assert t[k] == t[35..43][k - 35];
        }
      }
    }
  }

  lemma OpeningFromManual(t: string)
    requires OpensWithDataEntry(t)
    ensures MatchSeq([Spaces, Lit("manual"), OptLit("ly")], t, 14) == Some(Capture(25, 43))
  {
    OpeningWords(t);
    OpeningTail(t);
    assert MatchSeq([OptLit("ly")], t, 21) == Some(Capture(25, 43));
    assert MatchSeq([Lit("manual"), OptLit("ly")], t, 15) == Some(Capture(25, 43));
    assert RunEnd(t, 14, IsSpace) == 15;
    assert TrySpaces([Lit("manual"), OptLit("ly")], t, 14, 15) == Some(Capture(25, 43));
  }

  lemma OpeningFromDone(t: string)
    requires OpensWithDataEntry(t)
    ensures MatchSeq([Spaces, OneOf(["done", "performed"]), Spaces, Lit("manual"), OptLit("ly")], t, 9)
         == Some(Capture(25, 43))
  {
    OpeningFromManual(t);
    OpeningWords(t);
    var rest := [Spaces, Lit("manual"), OptLit("ly")];
    assert TryWords(rest, t, 10, ["done", "performed"]) == Some(Capture(25, 43));
    assert MatchSeq([OneOf(["done", "performed"])] + rest, t, 10) == Some(Capture(25, 43));
    assert RunEnd(t, 9, IsSpace) == 10;
    assert TrySpaces([OneOf(["done", "performed"])] + rest, t, 9, 10) == Some(Capture(25, 43));
  }

  /** The second pattern matches at the start of such a text. */
  lemma OpeningMatch(t: string)
    requires OpensWithDataEntry(t)
    ensures MatchSeq(CurrentlyManual, t, 0) == Some(Capture(25, 43))
  {
    OpeningFromDone(t);
    OpeningWords(t);
    var toks := CurrentlyManual;
    assert toks[0] == Lit("currently");
    assert toks[1..] == [Spaces, OneOf(["done", "performed"]), Spaces, Lit("manual"), OptLit("ly")];
  }

  /** What that match captures: `data entry process`, already stripped. */
  lemma OpeningCapture(t: string)
    requires OpensWithDataEntry(t)
    ensures t[25..43] == "data entry process"
    ensures Strip(t[25..43]) == t[25..43]
  {
    var x := t[25..43];
    assert x == t[25..35] + t[35..43];
    assert "data entry" + " process" == "data entry process";
    assert IsStripped(x) by {
      assert x[0] == t[25..35][0];
      assert x[17] == t[35..43][7];
    }
    StripCharacterised(x);
  }

  /** Hence the second pattern's first capture is `data entry process`. */
  lemma OpeningFindAll(t: string)
    requires OpensWithDataEntry(t)
    ensures t[25..43] in StrippedNonEmpty(FindAll(Rules[1], t, 0))
  {
    assert Rules[1] == CurrentlyManual;
    OpeningMatch(t);
    var x := t[25..43];
    var found := FindAll(CurrentlyManual, t, 0);
    assert found == [x] + FindAll(CurrentlyManual, t, 43);
    assert Strip(found[0]) == x && x != [] by {
      OpeningCapture(t);
    }
    NonEmptyImageKept(found, Strip, 0);

  }

  /**
   * Whatever follows it, a text that opens with `Currently done manually: data entry process.`
   * yields the task `data entry process`.
   */
  lemma DataEntryExtracted(t: string)
    requires OpensWithDataEntry(t)
    ensures "data entry process" in Extracted(t)
  {
    OpeningFindAll(t);
    OpeningCapture(t);
    assert "data entry process" in CollectedUpTo(t, 2);
    CollectedGrows(t, 2);
  }

  /** The sentence of the scanner's unit test opens that way. */
  lemma UnitTestSentenceOpening(rest: string)
    ensures OpensWithDataEntry("Currently done manually: " + "data entry process." + rest)
  {
    var a := "Currently done manually: ";
    var b := "data entry process.";
    var t := a + b + rest;
    assert t[..25] == a && t[25..44] == b;
    assert t[..9] == a[..9] && t[9..15] == a[9..15] && t[15..23] == a[15..23] && t[23..25] == a[23..25];
    assert t[25..35] == b[..10] && t[35..43] == b[10..18] && t[43] == b[18];
  }

  /** `"data entry" in "data entry process".lower()`. */
  lemma DataEntryLowered()
    ensures Contains(Lower("data entry process"), "data entry")
  {
    var x := "data entry process";
    assert StartsWith(Lower(x), "data entry") by {
      forall k | 0 <= k < 10 ensures Lower(x)[k] == "data entry"[k] {
        assert k == 0 || k == 1 || k == 2 || k == 3 || k == 4 || k == 5 || k == 6 || k == 7 || k == 8 || k == 9;
      }
    }
  }

  /** `text[p..]` begins with `Manual task: report generation.` */
  predicate ReportStepAt(text: string, p: nat) {
    && |text| >= p + 31
    && text[p..p + 6] == "Manual" && text[p + 6..p + 13] == " task: "
    && text[p + 13..p + 30] == "report generation" && text[p + 30] == '.'
  }

  lemma ReportStepWords(t: string, p: nat)
    requires ReportStepAt(t, p)
    ensures WordAt(t, p, "manual") && !WordAt(t, p + 6, "ly")
    ensures t[p + 6] == ' ' && !IsSpace(t[p + 7])
    ensures !WordAt(t, p + 7, "process") && WordAt(t, p + 7, "task")
  {
    forall k | 0 <= k < 6 ensures FoldsTo(t[p + k], "manual"[k]) {
      assert t[p + k] == t[p..p + 6][k];
    }
    forall k | 0 <= k < 4 ensures FoldsTo(t[p + 7 + k], "task"[k]) {
      assert t[p + 7 + k] == t[p + 6..p + 13][k + 1];
    }
    assert t[p + 6] == t[p + 6..p + 13][0] && t[p + 7] == t[p + 6..p + 13][1];
    assert !FoldsTo(t[p + 6], "ly"[0]);
    assert !FoldsTo(t[p + 7], "process"[0]);
  }

  /** After `task`, the tail takes `: ` and captures up to the full stop. */
  lemma ReportStepTail(t: string, p: nat)
    requires ReportStepAt(t, p)
    ensures Tail(t, p + 11) == Some(Capture(p + 13, p + 30))
  {
    assert t[p + 11] == t[p + 6..p + 13][5] && t[p + 12] == t[p + 6..p + 13][6];
    assert t[p + 13] == t[p + 13..p + 30][0];
    assert RunEnd(t, p + 11, IsColonOrSpace) == p + 13 by {
      assert RunEnd(t, p + 13, IsColonOrSpace) == p + 13;
      assert RunEnd(t, p + 12, IsColonOrSpace) == p + 13;
    }
    assert LastCaptureStart(t, p + 11, p + 13) == Some(p + 13);
    assert RunEnd(t, p + 13, NotStop) == p + 30 by {
      forall k | p + 13 <= k < p + 30 ensures NotStop(t[k]) {
        assert t[k] == t[p + 13..p + 30][k - p - 13];
      }
    }
  }

  /** The first pattern matches at such a position, capturing `report generation`. */
  lemma ReportStepMatch(t: string, p: nat)
    requires ReportStepAt(t, p)
    ensures MatchSeq(ManualStep, t, p) == Some(Capture(p + 13, p + 30))
  {
    ReportStepWords(t, p);
    ReportStepTail(t, p);
    var words := ["process", "task", "step", "procedure"];
    assert words[0] == "process" && words[1..][0] == "task";
    assert TryWords([], t, p + 7, words[1..]) == Some(Capture(p + 13, p + 30));
    assert TryWords([], t, p + 7, words) == Some(Capture(p + 13, p + 30));
    assert [OneOf(words)][1..] == [];
    assert MatchSeq([OneOf(words)], t, p + 7) == Some(Capture(p + 13, p + 30));
    assert RunEnd(t, p + 6, IsSpace) == p + 7;
    assert TrySpaces([OneOf(words)], t, p + 6, p + 7) == Some(Capture(p + 13, p + 30));
    assert MatchSeq([Spaces, OneOf(words)], t, p + 6) == Some(Capture(p + 13, p + 30));
    assert MatchSeq([OptLit("ly"), Spaces, OneOf(words)], t, p + 6) == Some(Capture(p + 13, p + 30));
    assert ManualStep[1..] == [OptLit("ly"), Spaces, OneOf(words)];
  }

  /**
   * When the first pattern matches nowhere before `p` and `Manual task: report generation.`
   * stands at `p`, the text yields the task `report generation`.
   */
  lemma ReportExtracted(t: string, p: nat)
    requires ReportStepAt(t, p)
    requires forall q :: 0 <= q < p ==> MatchSeq(ManualStep, t, q).None?
    ensures "report generation" in Extracted(t)
  {
    assert Rules[0] == ManualStep;
    FindAllSkip(ManualStep, t, 0, p);
    ReportStepMatch(t, p);
    var x := t[p + 13..p + 30];
    var found := FindAll(ManualStep, t, 0);
    assert found == [x] + FindAll(ManualStep, t, p + 30);
    assert Strip(x) == x by {
      assert x[0] == 'r' && x[16] == 'n';
      StripCharacterised(x);
    }
    NonEmptyImageKept(found, Strip, 0);
    assert CollectedUpTo(t, 1) == StrippedNonEmpty(found);
    CollectedGrows(t, 1);
  }

  /**
   * In a text opening `Currently done manually: data entry process. `, the first pattern
   * matches at no position up to the space after the full stop: `manual` stands only at 15,
   * and there `manually` is followed by `:`, not by whitespace.
   */
  lemma NoManualStepInOpening(t: string)
    requires OpensWithDataEntry(t) && |t| > 44 && t[44] == ' '
    ensures forall q :: 0 <= q < 45 ==> MatchSeq(ManualStep, t, q).None?
  {
    OpeningWords(t);
    forall q | 0 <= q < 45 ensures MatchSeq(ManualStep, t, q).None? {
      if q == 15 {
        ManuallyThenColon(t);
      } else {
        NoLetterM(t, q);
        assert !WordAt(t, q, "manual") by {
          assert !FoldsTo(t[q], "manual"[0]);
        }
      }
    }
  }

  /** At 15 the first pattern finds `manually` but then `:` where it needs whitespace. */
  lemma ManuallyThenColon(t: string)
    requires OpensWithDataEntry(t)
    ensures MatchSeq(ManualStep, t, 15).None?
  {
    OpeningWords(t);
    var rest := [Spaces, OneOf(["process", "task", "step", "procedure"])];
    assert t[21] == t[15..23][6] && t[23] == t[23..25][0];
    assert RunEnd(t, 23, IsSpace) == 23;
    assert MatchSeq(rest, t, 23).None?;
    assert RunEnd(t, 21, IsSpace) == 21;
    assert MatchSeq(rest, t, 21).None?;
    assert ManualStep[1..] == [OptLit("ly")] + rest;
  }

  /** The opening holds no `m` or `M` but the one starting `manually`. */
  lemma NoLetterM(t: string, q: nat)
    requires OpensWithDataEntry(t) && |t| > 44 && t[44] == ' '
    requires q < 45 && q != 15
    ensures t[q] != 'm' && t[q] != 'M'
  {
    if q < 9 {
      assert t[q] in t[..9];
    } else if q < 15 {
      assert t[q] in t[9..15];
    } else if q < 23 {
      assert t[q] == t[15..23][q - 15];
      assert t[q] in "manually"[1..];
    } else if q < 25 {
      assert t[q] in t[23..25];
    } else if q < 35 {
      assert t[q] in t[25..35];
    } else if q < 43 {
      assert t[q] in t[35..43];
    }
  }

  /** The sentence of the scanner's unit test has `Manual task: report generation.` at 45. */
  lemma UnitTestSentenceReport(t: string)
    requires t == "Currently done manually: " + "data entry process." + " Manual task: report generation."
    ensures |t| > 44 && t[44] == ' ' && ReportStepAt(t, 45)
  {
    var opening := "Currently done manually: " + "data entry process.";
    var word, cue, task := "Manual", " task: ", "report generation";
    assert " Manual task: report generation." == " " + word + cue + task + ".";
    assert t == opening + " " + word + cue + task + ".";
    assert |opening| == 44;
    assert t[45..51] == word && t[51..58] == cue && t[58..75] == task;
  }

  /** `"report generation" in "report generation".lower()`. */
  lemma ReportLowered()
    ensures Contains(Lower("report generation"), "report generation")
  {
    var x := "report generation";
    assert Lower(x) == x by {
      forall k | 0 <= k < 17 ensures Lower(x)[k] == x[k] {
        assert k < 6 || k == 6 || 7 <= k < 12 || 12 <= k < 17;
      }
    }
  }

  /**
   * The sentence of the scanner's unit test: the result is non-empty, one task, lower-cased,
   * contains `data entry`, and another contains `report generation`.
   */
  lemma UnitTestSentence()
    ensures var tasks := Extracted("Currently done manually: " + "data entry process." + " Manual task: report generation.");
            && |tasks| > 0
            && (exists x :: x in tasks && Contains(Lower(x), "data entry"))
            && (exists x :: x in tasks && Contains(Lower(x), "report generation"))
  {
    var rest := " Manual task: report generation.";
    var t := "Currently done manually: " + "data entry process." + rest;
    UnitTestSentenceOpening(rest);
    DataEntryExtracted(t);
    DataEntryLowered();
    UnitTestSentenceReport(t);
    NoManualStepInOpening(t);
    ReportExtracted(t, 45);
    ReportLowered();
  }

  // ---------------------------------------------------------------- files and directories

  /** What `read_text` gives: the decoded text, or an error the scanner catches. */
  datatype ReadResult = Contents(text: string) | ReadFailure

  /** An existing path: a file, or a directory with what `rglob("*")` lists below it. */
  datatype Entry = File(read: ReadResult) | Directory(walk: seq<string>)

  /** The paths that exist, and what is there. */
  type FileSystem = map<string, Entry>

  predicate IsFile(fs: FileSystem, path: string) {
    path in fs && fs[path].File?
  }

  /** The suffixes a directory scan looks at, compared exactly. */
  const DocumentSuffixes: seq<string> := [".md", ".txt", ".doc", ".pdf"]

  predicate IsDocument(fs: FileSystem, path: string) {
    IsFile(fs, path) && Suffix(path) in DocumentSuffixes
  }

  const PdfNote: string := "Review PDF documentation: "

  /** `_analyze_file(path)`. */
  function AnalyzedFile(fs: FileSystem, path: string): seq<string> {
    if Suffix(path) == ".pdf" then [PdfNote + FileName(path)]
    else if IsFile(fs, path) && fs[path].read.Contents? then Extracted(fs[path].read.text)
    else []
  }

  /**
   * `_analyze_file`: a PDF is only noted, by name; any other file is read and its tasks
   * extracted; a file that cannot be read contributes nothing.
   */
  method AnalyzeFile(fs: FileSystem, path: string) returns (tasks: seq<string>)
    ensures tasks == AnalyzedFile(fs, path)
  {
    tasks := [];
    var suffix := Suffix(path);
    if suffix == ".pdf" {
      tasks := tasks + [PdfNote + FileName(path)];
    } else {
      var entry := if IsFile(fs, path) then Some(fs[path].read) else None;
      if entry.Some? && entry.value.Contents? {
        var found := ExtractTasks(entry.value.text);
        tasks := tasks + found;
      }
    }
  }

  /** A PDF is never read: whatever the file holds, it yields one note naming the file. */
  lemma PdfNotRead(fs: FileSystem, fs': FileSystem, path: string)
    requires Suffix(path) == ".pdf"
    ensures AnalyzedFile(fs, path) == AnalyzedFile(fs', path) == [PdfNote + FileName(path)]
  {
  }

  /** The name in that note is the file's own, which ends in `.pdf` after at least one character. */
  lemma PdfNoteNamesFile(path: string)
    requires Suffix(path) == ".pdf"
    ensures |FileName(path)| > 4 && FileName(path)[|FileName(path)| - 4..] == ".pdf"
    ensures '/' !in FileName(path)
  {
    var name := FileName(path);
    var ext := NameSuffix(name);
    assert ext == ".pdf";
    assert |ext| == 4;
  }

  /** Any other file that cannot be read yields nothing. */
  lemma UnreadableNoTasks(fs: FileSystem, path: string)
    requires Suffix(path) != ".pdf" && IsFile(fs, path) && fs[path].read.ReadFailure?
    ensures AnalyzedFile(fs, path) == []
  {
  }

  /** What one path listed in a directory contributes: its analysis if it is a document, else nothing. */
  function DocumentTasks(fs: FileSystem, path: string): seq<string> {
    if IsDocument(fs, path) then AnalyzedFile(fs, path) else []
  }

  /** `parts(p)` for each `p` of `ps`, one after the other. */
  function Joined(ps: seq<string>, parts: string -> seq<string>): seq<string> {
    if ps == [] then [] else Joined(ps[..|ps| - 1], parts) + parts(ps[|ps| - 1])
  }

  /** The tasks of the documents among `walk`, file after file, in order. */
  function DirectoryTasks(fs: FileSystem, walk: seq<string>): seq<string> {
    Joined(walk, p => DocumentTasks(fs, p))
  }

  /** `_scan_filesystem(path)`. */
  function FilesystemTasks(fs: FileSystem, path: string): seq<string> {
    if IsFile(fs, path) then AnalyzedFile(fs, path)
    else if path in fs then DirectoryTasks(fs, fs[path].walk)
    else []
  }

  /**
   * `_scan_filesystem`: a file is analysed whatever its suffix; in a directory, each listed
   * document is analysed and the results are appended one after the other.
   */
  method ScanFilesystem(fs: FileSystem, path: string) returns (tasks: seq<string>)
    ensures tasks == FilesystemTasks(fs, path)
  {
    tasks := [];
    if IsFile(fs, path) {
      var found := AnalyzeFile(fs, path);
      tasks := tasks + found;
    } else if path in fs {
      var walk := fs[path].walk;
      for i := 0 to |walk|
        invariant tasks == DirectoryTasks(fs, walk[..i])
      {
        assert walk[..i + 1][..i] == walk[..i];
        if IsDocument(fs, walk[i]) {
          var found := AnalyzeFile(fs, walk[i]);
          tasks := tasks + found;
        }
      }
      assert walk[..|walk|] == walk;
    }
  }

  lemma {:induction false} JoinedAppend(a: seq<string>, b: seq<string>, parts: string -> seq<string>)
    ensures Joined(a + b, parts) == Joined(a, parts) + Joined(b, parts)
    decreases |b|
  {
    if b == [] {
      assert a + b == a;
    } else {
      var init := b[..|b| - 1];
      assert (a + b)[..|a + b| - 1] == a + init;
      assert (a + b)[|a + b| - 1] == b[|b| - 1];
      JoinedAppend(a, init, parts);
    }
  }

  lemma {:induction false} JoinedMembers(ps: seq<string>, parts: string -> seq<string>, x: string)
    ensures x in Joined(ps, parts) <==> exists i :: 0 <= i < |ps| && x in parts(ps[i])
    decreases |ps|
  {
    if ps != [] {
      var init := ps[..|ps| - 1];
      JoinedMembers(init, parts, x);
      if x in Joined(ps, parts) {
        if x in Joined(init, parts) {
          var i :| 0 <= i < |init| && x in parts(init[i]);
          assert ps[i] == init[i];
        } else {
          assert x in parts(ps[|ps| - 1]);
        }
      } else {
        forall i | 0 <= i < |ps| ensures x !in parts(ps[i]) {
          if i < |init| {
            assert ps[i] == init[i];
          } else {
            assert i == |ps| - 1;
          }
        }
      }
    }
  }

  /** Scanning two listings one after the other is scanning them joined: nothing is deduplicated across files. */
  lemma DirectoryTasksAppend(fs: FileSystem, a: seq<string>, b: seq<string>)
    ensures DirectoryTasks(fs, a + b) == DirectoryTasks(fs, a) + DirectoryTasks(fs, b)
  {
    JoinedAppend(a, b, p => DocumentTasks(fs, p));
  }

  /** A directory scan reports a task exactly when some listed document yields it. */
  lemma DirectoryTasksMembers(fs: FileSystem, walk: seq<string>, x: string)
    ensures x in DirectoryTasks(fs, walk) <==>
            exists i :: 0 <= i < |walk| && IsDocument(fs, walk[i]) && x in AnalyzedFile(fs, walk[i])
  {
    JoinedMembers(walk, p => DocumentTasks(fs, p), x);
  }

  /** A listing without any `.md`, `.txt`, `.doc` or `.pdf` file yields nothing. */
  lemma NoDocumentsNoTasks(fs: FileSystem, walk: seq<string>)
    requires forall i :: 0 <= i < |walk| ==> !IsDocument(fs, walk[i])
    ensures DirectoryTasks(fs, walk) == []
  {
    if DirectoryTasks(fs, walk) != [] {
      DirectoryTasksMembers(fs, walk, DirectoryTasks(fs, walk)[0]);
    }
  }

  // ---------------------------------------------------------------- web pages and dispatch

  /**
   * `_scan_webpage(url)`, given the text of the pages that can be fetched; a URL without
   * one stands for a request or parse error, which yields no task.
   */
  method ScanWebpage(pages: map<string, string>, url: string) returns (tasks: seq<string>)
    ensures url in pages ==> tasks == Extracted(pages[url])
    ensures url !in pages ==> tasks == []
  {
    if url in pages {
      tasks := ExtractTasks(pages[url]);
    } else {
      tasks := [];
    }
  }

  /** `_parse_text_description(text)`: the text itself is searched for tasks. */
  method ParseTextDescription(text: string) returns (tasks: seq<string>)
    ensures tasks == Extracted(text)
  {
    tasks := ExtractTasks(text);
  }

  /**
   * `scan(target)`: an existing path is scanned on disk, even when it also reads as a URL;
   * otherwise a URL is fetched; anything else is read as a description of the work.
   */
  method Scan(fs: FileSystem, isUrl: string -> bool, pages: map<string, string>, target: string)
    returns (tasks: seq<string>)
    ensures target in fs ==> tasks == FilesystemTasks(fs, target)
    ensures target !in fs && isUrl(target) && target in pages ==> tasks == Extracted(pages[target])
    ensures target !in fs && isUrl(target) && target !in pages ==> tasks == []
    ensures target !in fs && !isUrl(target) ==> tasks == Extracted(target)
  {
    if target in fs {
      tasks := ScanFilesystem(fs, target);
    } else if isUrl(target) {
      tasks := ScanWebpage(pages, target);
    } else {
      tasks := ParseTextDescription(target);
    }
  }

  // ---------------------------------------------------------------- recommendations

  /** The keyword table of `_generate_recommendations`, in the order it is consulted. */
  const KeywordAdvice: seq<(string, string)> := [
    ("email", "Implement automated email processing with AI classification"),
    ("data entry", "Use OCR and data validation for automated data entry"),
    ("report", "Generate reports automatically from data sources"),
    ("approval", "Create automated approval workflows with conditional logic")
  ]

  /** What is recommended when no keyword occurs. */
  const GeneralAdvice: seq<string> := [
    "Implement API integrations to reduce manual data transfer",
    "Use AI for document processing and data extraction",
    "Create automated notification systems",
    "Build dashboard for monitoring automated processes"
  ]

  /** The advice of every table row whose keyword occurs in `lowered`, in table order. */
  function SpecificAdvice(lowered: string, table: seq<(string, string)>): (advice: seq<string>)
    ensures |advice| <= |table|
    ensures forall x :: x in advice <==> exists i :: 0 <= i < |table| && table[i].1 == x && Contains(lowered, table[i].0)
  {
    if table == [] then []
    else
      var init := table[..|table| - 1];
      var last := table[|table| - 1];
      assert forall i :: 0 <= i < |init| ==> init[i] == table[i];
      SpecificAdvice(lowered, init) + (if Contains(lowered, last.0) then [last.1] else [])
  }

  /** `_generate_recommendations(content)`. */
  function Recommendations(content: string): seq<string> {
    var specific := SpecificAdvice(Lower(content), KeywordAdvice);
    if specific == [] then GeneralAdvice else specific
  }

  /**
   * `_generate_recommendations`: one piece of advice per keyword found in the lower-cased
   * content, in table order; the general advice when there is none.
   */
  method GenerateRecommendations(content: string) returns (recommendations: seq<string>)
    ensures recommendations == Recommendations(content)
  {
    var lowered := Lower(content);
    recommendations := [];
    if Contains(lowered, "email") {
      recommendations := recommendations + ["Implement automated email processing with AI classification"];
    }
    if Contains(lowered, "data entry") {
      recommendations := recommendations + ["Use OCR and data validation for automated data entry"];
    }
    if Contains(lowered, "report") {
      recommendations := recommendations + ["Generate reports automatically from data sources"];
    }
    if Contains(lowered, "approval") {
      recommendations := recommendations + ["Create automated approval workflows with conditional logic"];
    }
    if recommendations == [] {
      recommendations := GeneralAdvice;
    }
    AdviceTable(Lower(content));
  }

  /**
   * There are one to four recommendations; each keyword's advice is among them exactly
   * when the keyword occurs in the lower-cased content; with no keyword, the four general
   * ones are given.
   */
  lemma RecommendationsShape(content: string)
    ensures 1 <= |Recommendations(content)| <= 4
    ensures forall i :: 0 <= i < |KeywordAdvice| ==>
              (KeywordAdvice[i].1 in Recommendations(content) <==> Contains(Lower(content), KeywordAdvice[i].0))
    ensures (forall i :: 0 <= i < |KeywordAdvice| ==> !Contains(Lower(content), KeywordAdvice[i].0)) ==>
              Recommendations(content) == GeneralAdvice
  {
    var specific := SpecificAdvice(Lower(content), KeywordAdvice);
    AdviceTable(Lower(content));
    AdviceDistinct();
    if specific != [] {
      assert specific[0] in specific;
    }
  }

  /** The four pieces of keyword advice differ from each other and from the general advice. */
  lemma AdviceDistinct()
    ensures forall i, j :: 0 <= i < j < |KeywordAdvice| ==> KeywordAdvice[i].1 != KeywordAdvice[j].1
    ensures forall i :: 0 <= i < |KeywordAdvice| ==> KeywordAdvice[i].1 !in GeneralAdvice
  {
  }

  /** The table unfolded: which advice the four keywords give, in the order the method appends it. */
  lemma AdviceTable(lowered: string)
    ensures SpecificAdvice(lowered, KeywordAdvice) ==
              []
            + (if Contains(lowered, "email") then ["Implement automated email processing with AI classification"] else [])
            + (if Contains(lowered, "data entry") then ["Use OCR and data validation for automated data entry"] else [])
            + (if Contains(lowered, "report") then ["Generate reports automatically from data sources"] else [])
            + (if Contains(lowered, "approval") then ["Create automated approval workflows with conditional logic"] else [])
  {
    var t := KeywordAdvice;
    assert t[0] == ("email", "Implement automated email processing with AI classification");
    assert t[1] == ("data entry", "Use OCR and data validation for automated data entry");
    assert t[2] == ("report", "Generate reports automatically from data sources");
    assert t[3] == ("approval", "Create automated approval workflows with conditional logic");
    assert t[..1][..0] == [] && t[..2][..1] == t[..1] && t[..3][..2] == t[..2] && t[..4][..3] == t[..3];
    assert SpecificAdvice(lowered, t[..1]) == [] + (if Contains(lowered, t[0].0) then [t[0].1] else []);
    assert SpecificAdvice(lowered, t[..2]) == SpecificAdvice(lowered, t[..1]) + (if Contains(lowered, t[1].0) then [t[1].1] else []);
    assert SpecificAdvice(lowered, t[..3]) == SpecificAdvice(lowered, t[..2]) + (if Contains(lowered, t[2].0) then [t[2].1] else []);
    assert t[..4] == t;
  }
}
