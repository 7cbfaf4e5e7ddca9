/**
 * The four cue patterns of the task extractor and `re.findall` over them.
 *
 * Each pattern is a short sequence of tokens (a word, an optional word, a run of
 * whitespace, a choice of words) followed by the tail every pattern shares,
 * `[:\s]*([^.\n]+)`, whose one group is the capture. The whole pattern is matched
 * case-insensitively. Quantifiers are greedy and alternatives are tried left to right;
 * when what follows fails, the matcher gives back characters in the order Python's
 * backtracking engine does, so the capture is the one `re.findall` reports.
 */
module Cues {
  import opened Wrappers
  import opened Strings

  datatype Token =
    | Lit(word: string)          // a word, e.g. `manual`
    | OptLit(word: string)       // `(?:word)?`, greedy
    | Spaces                     // `\s+`, greedy
    | OneOf(words: seq<string>)  // `(?:w1|w2|...)`, tried in order

  /** A match whose group spans `text[start..end]`; the match itself also ends at `end`. */
  datatype Capture = Capture(start: nat, end: nat)

  /** `manual(?:ly)?\s+(?:process|task|step|procedure)` */
  const ManualStep: seq<Token> :=
    [Lit("manual"), OptLit("ly"), Spaces, OneOf(["process", "task", "step", "procedure"])]

  /** `currently\s+(?:done|performed)\s+manual(?:ly)?` */
  const CurrentlyManual: seq<Token> :=
    [Lit("currently"), Spaces, OneOf(["done", "performed"]), Spaces, Lit("manual"), OptLit("ly")]

  /** `human\s+(?:intervention|input|action)` */
  const HumanAction: seq<Token> :=
    [Lit("human"), Spaces, OneOf(["intervention", "input", "action"])]

  /** `repetitive\s+task` */
  const RepetitiveTask: seq<Token> :=
    [Lit("repetitive"), Spaces, Lit("task")]

  /** The patterns in the order the extractor applies them. */
  const Rules: seq<seq<Token>> := [ManualStep, CurrentlyManual, HumanAction, RepetitiveTask]

  // ---------------------------------------------------------------- characters

  /**
   * Whether text character `c` matches the lower-case pattern letter `l` under IGNORECASE:
   * either case of the ASCII letter, and the non-ASCII characters Python's engine folds
   * onto `i` (U+0130, U+0131), `s` (U+017F) and `k` (U+212A).
   */
  predicate FoldsTo(c: char, l: char) {
    || c == l
    || ('a' <= l <= 'z' && c as int == l as int - 32)
    || (l == 'i' && (c == '\U{130}' || c == '\U{131}'))
    || (l == 's' && c == '\U{17F}')
    || (l == 'k' && c == '\U{212A}')
  }

  /** The word `w` stands at `text[pos..]`, letters compared case-insensitively. */
  predicate WordAt(text: string, pos: nat, w: string) {
    pos + |w| <= |text| && forall k :: 0 <= k < |w| ==> FoldsTo(text[pos + k], w[k])
  }

  /** The word `w` occurs somewhere in `text`, case-insensitively. */
  ghost predicate Occurs(text: string, w: string) {
    exists q: nat :: WordAt(text, q, w)
  }

  /** The characters `[^.\n]` refuses: they end a capture. */
  predicate IsStop(c: char) {
    c == '.' || c == '\n'
  }

  predicate NotStop(c: char) {
    !IsStop(c)
  }

  predicate IsColonOrSpace(c: char) {
    c == ':' || IsSpace(c)
  }

  predicate NoStop(s: string) {
    forall k :: 0 <= k < |s| ==> !IsStop(s[k])
  }

  /** Where the run of characters satisfying `keep` that starts at `i` ends. */
  function RunEnd(text: string, i: nat, keep: char -> bool): (j: nat)
    requires i <= |text|
    ensures i <= j <= |text|
    ensures forall k :: i <= k < j ==> keep(text[k])
    ensures j < |text| ==> !keep(text[j])
    decreases |text| - i
  {
    if i == |text| || !keep(text[i]) then i else RunEnd(text, i + 1, keep)
  }

  // ---------------------------------------------------------------- matching

  /**
   * Where `([^.\n]+)` can start once `[:\s]*` has taken `text[lo..j]`: the engine tries `j`
   * first and then gives back one character at a time, down to `lo`.
   */
  function LastCaptureStart(text: string, lo: nat, j: nat): (r: Option<nat>)
    requires lo <= j <= |text|
    ensures r.Some? ==> lo <= r.value <= j && r.value < |text| && !IsStop(text[r.value])
    ensures r.Some? ==> forall k :: r.value < k <= j && k < |text| ==> IsStop(text[k])
    ensures r.None? ==> forall k :: lo <= k <= j && k < |text| ==> IsStop(text[k])
    decreases j
  {
    if j < |text| && !IsStop(text[j]) then Some(j)
    else if j == lo then None
    else LastCaptureStart(text, lo, j - 1)
  }

  /** The shared tail `[:\s]*([^.\n]+)` matched from `pos`. */
  function Tail(text: string, pos: nat): (r: Option<Capture>)
    requires pos <= |text|
    ensures r.Some? ==> pos <= r.value.start < r.value.end <= |text|
    ensures r.Some? ==> forall k :: r.value.start <= k < r.value.end ==> !IsStop(text[k])
    ensures r.Some? ==> r.value.end == |text| || IsStop(text[r.value.end])
  {
    var q := RunEnd(text, pos, IsColonOrSpace);
    match LastCaptureStart(text, pos, q)
    case None => None
    case Some(j) => Some(Capture(j, RunEnd(text, j, NotStop)))
  }

  /** The tokens `toks`, then the tail, matched from `pos`: the capture the engine reports. */
  function MatchSeq(toks: seq<Token>, text: string, pos: nat): (r: Option<Capture>)
    requires pos <= |text|
    ensures r.Some? ==> pos <= r.value.start < r.value.end <= |text|
    ensures r.Some? ==> forall k :: r.value.start <= k < r.value.end ==> !IsStop(text[k])
    decreases |toks|, 0, 0
  {
    if toks == [] then Tail(text, pos)
    else
      match toks[0]
      case Lit(w) =>
        if WordAt(text, pos, w) then MatchSeq(toks[1..], text, pos + |w|) else None
      case OptLit(w) =>
        var taken := if WordAt(text, pos, w) then MatchSeq(toks[1..], text, pos + |w|) else None;
        if taken.Some? then taken else MatchSeq(toks[1..], text, pos)
      case Spaces =>
        TrySpaces(toks[1..], text, pos, RunEnd(text, pos, IsSpace))
      case OneOf(ws) =>
        TryWords(toks[1..], text, pos, ws)
  }

  /** `\s+` having taken `text[pos..j]`, then `rest`: on failure one space is given back. */
  function TrySpaces(rest: seq<Token>, text: string, pos: nat, j: nat): (r: Option<Capture>)
    requires pos <= j <= |text|
    ensures r.Some? ==> pos <= r.value.start < r.value.end <= |text|
    ensures r.Some? ==> forall k :: r.value.start <= k < r.value.end ==> !IsStop(text[k])
    decreases |rest|, 1, j
  {
    if j == pos then None
    else
      var here := MatchSeq(rest, text, j);
      if here.Some? then here else TrySpaces(rest, text, pos, j - 1)
  }

  /** `(?:w1|w2|...)` at `pos`, then `rest`: each word in turn. */
  function TryWords(rest: seq<Token>, text: string, pos: nat, ws: seq<string>): (r: Option<Capture>)
    requires pos <= |text|
    ensures r.Some? ==> pos <= r.value.start < r.value.end <= |text|
    ensures r.Some? ==> forall k :: r.value.start <= k < r.value.end ==> !IsStop(text[k])
    decreases |rest|, 1, |ws|
  {
    if ws == [] then None
    else
      var here := if WordAt(text, pos, ws[0]) then MatchSeq(rest, text, pos + |ws[0]|) else None;
      if here.Some? then here else TryWords(rest, text, pos, ws[1..])
  }

  /**
   * `re.findall(pattern, text[pos:])` for a pattern with one group: the engine tries each
   * position in turn, and after a match goes on from where the match ended.
   */
  function FindAll(toks: seq<Token>, text: string, pos: nat): (found: seq<string>)
    requires pos <= |text|
    ensures forall k :: 0 <= k < |found| ==> found[k] != [] && NoStop(found[k])
    decreases |text| - pos
  {
    match MatchSeq(toks, text, pos)
    case Some(c) => [text[c.start..c.end]] + FindAll(toks, text, c.end)
    case None => if pos == |text| then [] else FindAll(toks, text, pos + 1)
  }

  // ---------------------------------------------------------------- what a match needs

  /** A match of a pattern passes through every one of its words. */
  lemma {:induction false} MatchNeedsLit(toks: seq<Token>, text: string, pos: nat, w: string)
    requires pos <= |text| && Lit(w) in toks && MatchSeq(toks, text, pos).Some?
    ensures Occurs(text, w)
    decreases |toks|, 0, 0
  {
    assert toks == [toks[0]] + toks[1..];
    match toks[0]
    case Lit(v) =>
      if v == w {
        assert WordAt(text, pos, w);
      } else {
        MatchNeedsLit(toks[1..], text, pos + |v|, w);
      }
    case OptLit(v) =>
      if WordAt(text, pos, v) && MatchSeq(toks[1..], text, pos + |v|).Some? {
        MatchNeedsLit(toks[1..], text, pos + |v|, w);
      } else {
        MatchNeedsLit(toks[1..], text, pos, w);
      }
    case Spaces =>
      TrySpacesNeedsLit(toks[1..], text, pos, RunEnd(text, pos, IsSpace), w);
    case OneOf(ws) =>
      TryWordsNeedsLit(toks[1..], text, pos, ws, w);
  }

  lemma {:induction false} TrySpacesNeedsLit(rest: seq<Token>, text: string, pos: nat, j: nat, w: string)
    requires pos <= j <= |text| && Lit(w) in rest && TrySpaces(rest, text, pos, j).Some?
    ensures Occurs(text, w)
    decreases |rest|, 1, j
  {
    if MatchSeq(rest, text, j).Some? {
      MatchNeedsLit(rest, text, j, w);
    } else {
      TrySpacesNeedsLit(rest, text, pos, j - 1, w);
    }
  }

  lemma {:induction false} TryWordsNeedsLit(rest: seq<Token>, text: string, pos: nat, ws: seq<string>, w: string)
    requires pos <= |text| && Lit(w) in rest && TryWords(rest, text, pos, ws).Some?
    ensures Occurs(text, w)
    decreases |rest|, 1, |ws|
  {
    if WordAt(text, pos, ws[0]) && MatchSeq(rest, text, pos + |ws[0]|).Some? {
      MatchNeedsLit(rest, text, pos + |ws[0]|, w);
    } else {
      TryWordsNeedsLit(rest, text, pos, ws[1..], w);
    }
  }

  /** Positions where the pattern does not match are passed over: `findall` resumes at the first that does. */
  lemma {:induction false} FindAllSkip(toks: seq<Token>, text: string, a: nat, b: nat)
    requires a <= b <= |text|
    requires forall q :: a <= q < b ==> MatchSeq(toks, text, q).None?
    ensures FindAll(toks, text, a) == FindAll(toks, text, b)
    decreases b - a
  {
    if a < b {
      FindAllSkip(toks, text, a + 1, b);
    }
  }

  /** A pattern one of whose words does not occur in the text finds nothing in it. */
  lemma {:induction false} FindAllNeedsLit(toks: seq<Token>, text: string, pos: nat, w: string)
    requires pos <= |text| && Lit(w) in toks && !Occurs(text, w)
    ensures FindAll(toks, text, pos) == []
    decreases |text| - pos
  {
    if MatchSeq(toks, text, pos).Some? {
      MatchNeedsLit(toks, text, pos, w);
    } else if pos < |text| {
      FindAllNeedsLit(toks, text, pos + 1, w);
    }
  }

  /** The word each pattern cannot match without: `manual`, `manual`, `human`, `repetitive`. */
  function Anchor(k: nat): (w: string)
    requires k < |Rules|
    ensures Lit(w) in Rules[k]
    ensures w in ["manual", "human", "repetitive"]
  {
    if k <= 1 then
      assert Rules[1][4] == Lit("manual");
      "manual"
    else if k == 2 then "human" else "repetitive"
  }
}
