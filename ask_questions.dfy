/** The clarifying-questions helper of jc/ask_questions.py: the prompt built
    from workspace metadata, the parser that reads numbered questions out of
    a model reply, and the mock fallback of `generate_clarifying_questions`. */
module AskQuestions {
  import opened Wrappers
  import opened Text
  import LlmProvider
  import KeyLocker

  // ---------------------------------------------------------------------------
  // Lines
  // ---------------------------------------------------------------------------

  /** The characters `str.splitlines()` breaks at (`\r\n` counts as two
      breaks here, which only adds an empty piece). */
  predicate IsLineBreak(c: char) {
    c == '\n' || c == '\r' || c == '\U{0B}' || c == '\U{0C}' || ('\U{1C}' <= c <= '\U{1E}') ||
    c == '\U{85}' || c == '\U{2028}' || c == '\U{2029}'
  }

  predicate NoLineBreak(s: string) {
    forall i :: 0 <= i < |s| ==> !IsLineBreak(s[i])
  }

  /** The index of the first line break in `s`, or `|s|`. */
  function BreakAt(s: string): (n: nat)
    ensures n <= |s|
    ensures forall i :: 0 <= i < n ==> !IsLineBreak(s[i])
    ensures n < |s| ==> IsLineBreak(s[n])
  {
    if s == [] || IsLineBreak(s[0]) then 0 else 1 + BreakAt(s[1..])
  }

  /** The pieces between line breaks. They differ from `splitlines()` only by
      empty pieces, which the parser drops anyway. */
  function Pieces(s: string): (ps: seq<string>)
    ensures ps != []
    ensures forall p :: p in ps ==> |p| <= |s|
    decreases |s|
  {
    var n := BreakAt(s);
    if n == |s| then [s] else [s[..n]] + Pieces(s[n + 1..])
  }

  /** `[l.strip() for l in pieces if l.strip()]`. */
  function Kept(pieces: seq<string>): seq<string> {
    if pieces == [] then []
    else (if Strip(pieces[0]) != [] then [Strip(pieces[0])] else []) + Kept(pieces[1..])
  }

  /** The stripped, non-blank lines of a reply. */
  function CleanLines(text: string): seq<string> {
    Kept(Pieces(text))
  }

  /** A piece of text with nothing for `strip()` to remove, non-empty and on
      one line: the shape of every line the parser looks at. */
  predicate IsCleanLine(l: string) {
    l != [] && !IsSpace(l[0]) && !IsSpace(l[|l| - 1]) && NoLineBreak(l)
  }

  // ---------------------------------------------------------------------------
  // The parser
  // ---------------------------------------------------------------------------

  /** The length of the run of ASCII digits `s` starts with. */
  function DigitRun(s: string): (n: nat)
    ensures n <= |s|
    ensures forall i :: 0 <= i < n ==> IsDigit(s[i])
    ensures n < |s| ==> !IsDigit(s[n])
  {
    if s == [] || !IsDigit(s[0]) then 0 else 1 + DigitRun(s[1..])
  }

  /** The question a line carries under the pattern `^\d+[\.\)]\s*(.+)$`,
      stripped: digits, then '.' or ')', then a non-empty rest. On a line with
      no whitespace at its end the group is the rest without its leading
      whitespace, so stripping it gives the stripped rest. */
  function NumberedRest(l: string): Option<string> {
    var k := DigitRun(l);
    if k >= 1 && k + 1 < |l| && (l[k] == '.' || l[k] == ')') then Some(Strip(l[k + 1..])) else None
  }

  /** The first loop: the question of every numbered line, in order. */
  function Numbered(lines: seq<string>): seq<string> {
    if lines == [] then [] else AsSeq(NumberedRest(lines[0])) + Numbered(lines[1..])
  }

  function AsSeq(o: Option<string>): seq<string> {
    if o.Some? then [o.value] else []
  }

  /** One step of the numbered loop. */
  lemma NumberedCons(lines: seq<string>)
    requires lines != []
    ensures Numbered(lines) == AsSeq(NumberedRest(lines[0])) + Numbered(lines[1..])
  {
  }

  const MaxLineLength := 240
  const MaxFallback := 8
  const MaxQuestions := 10

  /** The lines the fallback accepts: those shorter than 240 characters. */
  function Short(lines: seq<string>): seq<string> {
    if lines == [] then []
    else (if |lines[0]| < MaxLineLength then [lines[0]] else []) + Short(lines[1..])
  }

  /** `parse_questions_from_text`. */
  function Parse(text: string): seq<string> {
    if text == [] then []
    else
      var lines := CleanLines(text);
      var numbered := Numbered(lines);
      Prefix(if numbered != [] then numbered else Prefix(Short(lines), MaxFallback), MaxQuestions)
  }

  /** `parse_questions_from_text`: the loop over numbered lines, the fallback
      loop when it found none, then the cut at 10. */
  method ParseQuestionsFromText(text: string) returns (questions: seq<string>)
    ensures questions == Parse(text)
  {
    if text == [] {
      return [];
    }
    var lines := CleanLines(text);
    questions := CollectNumbered(lines);
    if questions == [] {
      questions := CollectShort(lines);
    }
    if |questions| > MaxQuestions {
      questions := questions[..MaxQuestions];
    }
  }

  /** The first loop: append the question of every numbered line. */
  method CollectNumbered(lines: seq<string>) returns (questions: seq<string>)
    ensures questions == Numbered(lines)
  {
    questions := [];
    var i := 0;
    while i < |lines|
      invariant 0 <= i <= |lines|
      invariant Numbered(lines) == questions + Numbered(lines[i..])
    {
      ghost var before := questions;
      var m := NumberedRest(lines[i]);
      if m.Some? {
        questions := questions + [m.value];
      }
      NumberedStep(lines, i, before, questions);
      i := i + 1;
    }
  }

  /** The invariant of the numbered loop carried over one line. */
  lemma NumberedStep(lines: seq<string>, i: nat, before: seq<string>, after: seq<string>)
    requires i < |lines| && Numbered(lines) == before + Numbered(lines[i..])
    requires after == before + AsSeq(NumberedRest(lines[i]))
    ensures Numbered(lines) == after + Numbered(lines[i + 1..])
  {
    NumberedAt(lines, i);
    AppendAssoc(before, AsSeq(NumberedRest(lines[i])), Numbered(lines[i + 1..]));
  }

  lemma AppendAssoc<T>(a: seq<T>, b: seq<T>, c: seq<T>)
    ensures a + (b + c) == a + b + c
  {
  }

  /** The numbered questions from line `i` on: line `i`'s, then the rest. */
  lemma NumberedAt(lines: seq<string>, i: nat)
    requires i < |lines|
    ensures Numbered(lines[i..]) == AsSeq(NumberedRest(lines[i])) + Numbered(lines[i + 1..])
  {
    var t := lines[i..];
    assert t[0] == lines[i];
    assert t[1..] == lines[i + 1..];
    NumberedCons(t);
  }

  /** The fallback loop: append every line shorter than 240 characters and
      stop once 8 are collected. */
  method CollectShort(lines: seq<string>) returns (questions: seq<string>)
    ensures questions == Prefix(Short(lines), MaxFallback)
  {
    questions := [];
    var i := 0;
    while i < |lines|
      invariant 0 <= i <= |lines|
      invariant Short(lines) == questions + Short(lines[i..])
      invariant |questions| < MaxFallback
    {
      assert lines[i..][1..] == lines[i + 1..];
      if |lines[i]| < MaxLineLength {
        questions := questions + [lines[i]];
      }
      i := i + 1;
      if |questions| >= MaxFallback {
        break;
      }
    }
  }

  // ---------------------------------------------------------------------------
  // What the parser promises
  // ---------------------------------------------------------------------------

  /** Every kept line is a clean line. */
  lemma {:induction false} KeptAreClean(pieces: seq<string>)
    requires forall i :: 0 <= i < |pieces| ==> NoLineBreak(pieces[i])
    ensures forall l :: l in Kept(pieces) ==> IsCleanLine(l)
  {
    if pieces != [] {
      KeptAreClean(pieces[1..]);
      var s := Strip(pieces[0]);
      if s != [] {
        StripShape(pieces[0]);
        assert NoLineBreak(s) by {
          forall i | 0 <= i < |s| ensures !IsLineBreak(s[i]) {
            assert s[i] == pieces[0][|pieces[0]| - |StripLeft(pieces[0])| + i];
          }
        }
      }
    }
  }

  /** Splitting leaves no line break in any piece. */
  lemma {:induction false} PiecesHaveNoBreak(s: string)
    ensures forall i :: 0 <= i < |Pieces(s)| ==> NoLineBreak(Pieces(s)[i])
    decreases |s|
  {
    var n := BreakAt(s);
    if n < |s| {
      PiecesHaveNoBreak(s[n + 1..]);
    }
  }

  /** The question of a clean numbered line is itself a clean line. */
  lemma NumberedRestIsClean(l: string)
    requires IsCleanLine(l) && NumberedRest(l).Some?
    ensures IsCleanLine(NumberedRest(l).value)
  {
    var k := DigitRun(l);
    var rest := l[k + 1..];
    assert rest[|rest| - 1] == l[|l| - 1];
    StripShape(rest);
    StripEmptyIffBlank(rest);
    var q := Strip(rest);
    forall i | 0 <= i < |q| ensures !IsLineBreak(q[i]) {
      assert q[i] == rest[|rest| - |StripLeft(rest)| + i];
    }
  }

  /** Every question of the numbered loop is a clean line. */
  lemma {:induction false} NumberedAreClean(lines: seq<string>)
    requires forall l :: l in lines ==> IsCleanLine(l)
    ensures forall q :: q in Numbered(lines) ==> IsCleanLine(q)
  {
    if lines != [] {
      NumberedAreClean(lines[1..]);
      if NumberedRest(lines[0]).Some? {
        NumberedRestIsClean(lines[0]);
      }
    }
  }

  /** The fallback keeps only lines shorter than 240 characters, taken from
      the lines it is given. */
  lemma {:induction false} ShortAreShort(lines: seq<string>)
    ensures forall q :: q in Short(lines) ==> q in lines && |q| < MaxLineLength
  {
    if lines != [] {
      ShortAreShort(lines[1..]);
    }
  }

  /** Empty text gives no questions; otherwise there are at most 10, each a
      non-empty line with no whitespace at its ends. When no line is numbered
      there are at most 8, each an input line shorter than 240 characters. */
  lemma ParsePromises(text: string)
    ensures var r := Parse(text);
            (text == [] ==> r == []) &&
            |r| <= MaxQuestions &&
            (forall q :: q in r ==> IsCleanLine(q)) &&
            (Numbered(CleanLines(text)) == [] ==>
               |r| <= MaxFallback && forall q :: q in r ==> q in CleanLines(text) && |q| < MaxLineLength)
  {
    if text != [] {
      var lines := CleanLines(text);
      PiecesHaveNoBreak(text);
      KeptAreClean(Pieces(text));
      NumberedAreClean(lines);
      ShortAreShort(lines);
      var r := Parse(text);
      var numbered := Numbered(lines);
      var fallback := Prefix(Short(lines), MaxFallback);
      forall q | q in r ensures IsCleanLine(q) && (numbered == [] ==> q in lines && |q| < MaxLineLength) {
        if numbered != [] {
          assert q in numbered;
        } else {
          assert q in fallback;
          assert q in Short(lines);
        }
      }
    }
  }

  /** A blank reply has no line to keep and yields no questions. */
  lemma {:induction false} BlankTextHasNoQuestions(text: string)
    requires IsBlank(text)
    ensures Parse(text) == []
  {
    if text != [] {
      CleanLinesEmptyIffBlank(text);
    }
  }

  /** A text has no kept line exactly when it is blank. */
  lemma {:induction false} CleanLinesEmptyIffBlank(s: string)
    ensures CleanLines(s) == [] <==> IsBlank(s)
    decreases |s|
  {
    var n := BreakAt(s);
    StripEmptyIffBlank(s[..n]);
    if n < |s| {
      CleanLinesEmptyIffBlank(s[n + 1..]);
      CleanLinesStep(s);
      BlankAround(s, n);
    } else {
      assert s[..n] == s;
      assert Pieces(s) == [s];
      assert [s][1..] == [];
      assert CleanLines(s) == (if Strip(s) != [] then [Strip(s)] else []) + Kept([]);
    }
  }

  /** The kept lines of a text with a line break: those of the first piece,
      then those after the break. */
  lemma CleanLinesStep(s: string)
    requires BreakAt(s) < |s|
    ensures var n := BreakAt(s);
            CleanLines(s) == (if Strip(s[..n]) != [] then [Strip(s[..n])] else []) + CleanLines(s[n + 1..])
  {
    var n := BreakAt(s);
    assert Pieces(s) == [s[..n]] + Pieces(s[n + 1..]);
    assert ([s[..n]] + Pieces(s[n + 1..]))[1..] == Pieces(s[n + 1..]);
  }

  /** A text is blank when the parts around a line break are. */
  lemma BlankAround(s: string, n: nat)
    requires n < |s| && IsLineBreak(s[n])
    ensures IsBlank(s) <==> IsBlank(s[..n]) && IsBlank(s[n + 1..])
  {
    if IsBlank(s[..n]) && IsBlank(s[n + 1..]) {
      forall i | 0 <= i < |s| ensures IsSpace(s[i]) {
        if i > n {
          assert s[i] == s[n + 1..][i - n - 1];
        } else if i < n {
          assert s[i] == s[..n][i];
        }
      }
    }
    if IsBlank(s) {
      assert forall i :: 0 <= i < n ==> s[..n][i] == s[i];
      var t := s[n + 1..];
      forall i | 0 <= i < |t| ensures IsSpace(t[i]) {
        assert t[i] == s[n + 1 + i];
      }
    }
  }

  /** No kept line is longer than the longest piece. */
  lemma {:induction false} KeptNoLonger(pieces: seq<string>, bound: nat)
    requires forall p :: p in pieces ==> |p| <= bound
    ensures forall l :: l in Kept(pieces) ==> |l| <= bound
  {
    if pieces != [] {
      StripShape(pieces[0]);
      KeptNoLonger(pieces[1..], bound);
    }
  }

  /** No question of the numbered loop is longer than its line. */
  lemma {:induction false} NumberedNoLonger(lines: seq<string>, bound: nat)
    requires forall l :: l in lines ==> |l| <= bound
    ensures forall q :: q in Numbered(lines) ==> |q| <= bound
  {
    if lines != [] {
      NumberedNoLonger(lines[1..], bound);
      var k := DigitRun(lines[0]);
      if NumberedRest(lines[0]).Some? {
        StripShape(lines[0][k + 1..]);
      }
    }
  }

  /** No question is longer than the reply it was read from. */
  lemma ParseNoLonger(text: string)
    ensures forall q :: q in Parse(text) ==> |q| <= |text|
  {
    if text != [] {
      var lines := CleanLines(text);
      KeptNoLonger(Pieces(text), |text|);
      NumberedNoLonger(lines, |text|);
      ShortAreShort(lines);
      var numbered := Numbered(lines);
      forall q | q in Parse(text) ensures |q| <= |text| {
        if numbered != [] {
          assert q in numbered;
        } else {
          assert q in Short(lines);
        }
      }
    }
  }

  /** A reply that is not blank and shorter than 240 characters always gives
      at least one question: its numbered lines, or else its first line. */
  lemma ShortReplyHasQuestions(text: string)
    requires !IsBlank(text) && |text| < MaxLineLength
    ensures Parse(text) != []
  {
    var lines := CleanLines(text);
    CleanLinesEmptyIffBlank(text);
    KeptNoLonger(Pieces(text), |text|);
    assert lines[0] in lines;
    assert Short(lines)[0] == lines[0];
  }

  // ---------------------------------------------------------------------------
  // Round trip: numbered questions come back out
  // ---------------------------------------------------------------------------

  /** The numbering the prompt asks for: "1. q1", "2. q2", ... from `start`. */
  function Enumerate(qs: seq<string>, start: nat): (ls: seq<string>)
    ensures |ls| == |qs|
  {
    if qs == [] then [] else [NatToString(start) + ". " + qs[0]] + Enumerate(qs[1..], start + 1)
  }

  /** A clean line has nothing to strip. */
  lemma StripClean(l: string)
    requires IsCleanLine(l)
    ensures Strip(l) == l
  {
    assert StripLeft(l) == l;
    assert StripRight(l) == l;
  }

  /** The digit run of "n. q" is the decimal rendering of n. */
  lemma {:induction false} DigitRunStopsAt(d: string, tail: string)
    requires forall i :: 0 <= i < |d| ==> IsDigit(d[i])
    requires tail != [] && !IsDigit(tail[0])
    ensures DigitRun(d + tail) == |d|
  {
    if d != [] {
      assert (d + tail)[1..] == d[1..] + tail;
      DigitRunStopsAt(d[1..], tail);
    }
  }

  /** A numbered line "n. q" is clean and carries q. */
  lemma EnumeratedLine(n: nat, q: string)
    requires IsCleanLine(q)
    ensures var l := NatToString(n) + ". " + q;
            IsCleanLine(l) && NumberedRest(l) == Some(q)
  {
    EnumeratedLineClean(NatToString(n), q);
    EnumeratedLineRest(NatToString(n), q);
  }

  /** Digits, ". " and a clean line make a clean line. */
  lemma EnumeratedLineClean(d: string, q: string)
    requires AllDigits(d) && IsCleanLine(q)
    ensures IsCleanLine(d + ". " + q)
  {
    var l := d + ". " + q;
    assert l[0] == d[0];
    assert l[|l| - 1] == q[|q| - 1];
    forall i | 0 <= i < |l| ensures !IsLineBreak(l[i]) {
      if i >= |d| + 2 {
        assert l[i] == q[i - |d| - 2];
      }
    }
  }

  /** The rest after the number of "d. q" strips to q. */
  lemma EnumeratedLineRest(d: string, q: string)
    requires AllDigits(d) && IsCleanLine(q)
    ensures NumberedRest(d + ". " + q) == Some(q)
  {
    var l := d + ". " + q;
    assert l == d + ("." + (" " + q));
    DigitRunStopsAt(d, "." + (" " + q));
    assert l[|d|] == '.';
    assert l[|d| + 1..] == " " + q;
    assert StripLeft(" " + q) == StripLeft(q);
    StripClean(q);
  }

  /** Every enumerated line is clean, and reading them back gives the questions. */
  lemma {:induction false} EnumeratedNumbered(qs: seq<string>, start: nat)
    requires forall q :: q in qs ==> IsCleanLine(q)
    ensures forall l :: l in Enumerate(qs, start) ==> IsCleanLine(l)
    ensures Numbered(Enumerate(qs, start)) == qs
  {
    if qs != [] {
      EnumeratedLine(start, qs[0]);
      EnumeratedNumbered(qs[1..], start + 1);
      assert Enumerate(qs, start)[1..] == Enumerate(qs[1..], start + 1);
    }
  }

  /** Clean lines are kept as they are. */
  lemma {:induction false} KeptClean(ls: seq<string>)
    requires forall l :: l in ls ==> IsCleanLine(l)
    ensures Kept(ls) == ls
  {
    if ls != [] {
      StripClean(ls[0]);
      KeptClean(ls[1..]);
    }
  }

  /** A line with no break followed by a break is split right there. */
  lemma {:induction false} BreakAtEnd(l: string, tail: string)
    requires NoLineBreak(l)
    requires tail == [] || IsLineBreak(tail[0])
    ensures BreakAt(l + tail) == |l|
  {
    if l != [] {
      assert (l + tail)[1..] == l[1..] + tail;
      BreakAtEnd(l[1..], tail);
    } else {
      assert l + tail == tail;
    }
  }

  /** Splitting lines joined with "\n" gives them back. */
  lemma {:induction false} PiecesOfJoin(ls: seq<string>)
    requires ls != [] && forall l :: l in ls ==> NoLineBreak(l)
    ensures Pieces(Join("\n", ls)) == ls
  {
    if |ls| == 1 {
      BreakAtEnd(ls[0], []);
      assert ls[0] + [] == ls[0];
    } else {
      var rest := Join("\n", ls[1..]);
      var s := Join("\n", ls);
      assert s == ls[0] + ("\n" + rest);
      BreakAtEnd(ls[0], "\n" + rest);
      assert s[..|ls[0]|] == ls[0];
      assert s[|ls[0]| + 1..] == rest;
      PiecesOfJoin(ls[1..]);
    }
  }

  /** A reply that numbers clean one-line questions "1. ", "2. ", ... parses
      back to those questions, cut at 10. */
  lemma NumberedReplyRoundTrip(qs: seq<string>)
    requires qs != [] && forall q :: q in qs ==> IsCleanLine(q)
    ensures Parse(Join("\n", Enumerate(qs, 1))) == Prefix(qs, MaxQuestions)
  {
    var ls := Enumerate(qs, 1);
    EnumeratedNumbered(qs, 1);
    forall l | l in ls ensures NoLineBreak(l) {
    }
    PiecesOfJoin(ls);
    KeptClean(ls);
  }

  // ---------------------------------------------------------------------------
  // The prompt
  // ---------------------------------------------------------------------------

  /** One `top_languages` entry rendered as "lang(count)". */
  datatype LangCount = LangCount(lang: string, count: nat)

  /** `top_languages`: a list of dicts, or of plain values rendered by `str`. */
  datatype Languages = Counted(entries: seq<LangCount>) | Named(names: seq<string>)

  /** The workspace metadata the prompt reads; an absent list is empty. */
  datatype Meta = Meta(workspaceId: Option<string>, readme: Option<string>, topFiles: seq<string>,
                       topLanguages: Languages, recentCommits: seq<string>)

  const ReadmeLimit := 1200
  const FileLimit := 10
  const LanguageLimit := 10
  const CommitLimit := 6

  /** The instruction closing the prompt: four adjacent literals, concatenated. */
  function Instruction(): string {
    Join("", seq(4, InstructionPart))
  }

  function InstructionPart(i: int): string {
    match i
    case 0 => "You are JC, a developer assistant. Based on the workspace metadata above, produce a prioritized"
    case 1 => " list of 6\U{2013}10 short, one-line clarifying questions that will unblock development fastest."
    case 2 => " Prefer questions about the project's primary goal, critical files, secrets/configs, deployment"
    case _ => " target, tests, and priorities. Number the questions (1., 2., ...). Be concise."
  }

  /** `readme[:1200]` of the stripped README (absent or None reads as ""). */
  function ReadmeSnippet(m: Meta): string {
    Prefix(Strip(if m.readme.Some? then m.readme.value else ""), ReadmeLimit)
  }

  function Bullets(files: seq<string>): (r: seq<string>)
    ensures |r| == |files|
  {
    if files == [] then [] else ["- " + files[0]] + Bullets(files[1..])
  }

  function FilesText(m: Meta): string {
    Join("\n", Bullets(Prefix(m.topFiles, FileLimit)))
  }

  function Rendered(entries: seq<LangCount>): (r: seq<string>)
    ensures |r| == |entries|
  {
    if entries == [] then []
    else [entries[0].lang + "(" + NatToString(entries[0].count) + ")"] + Rendered(entries[1..])
  }

  function LanguagesText(m: Meta): string {
    match m.topLanguages
    case Counted(entries) => Join(", ", Rendered(Prefix(entries, LanguageLimit)))
    case Named(names) => Join(", ", Prefix(names, LanguageLimit))
  }

  function CommitsText(m: Meta): string {
    Join("\n", Prefix(m.recentCommits, CommitLimit))
  }

  /** f"WorkspaceId: {meta.get('workspaceId')}". */
  function IdLine(m: Meta): string {
    "WorkspaceId: " + (if m.workspaceId.Some? then m.workspaceId.value else "None")
  }

  /** A section, present only when its text is non-empty. */
  function Section(heading: string, text: string): seq<string> {
    if text != [] then [heading + text] else []
  }

  /** The parts of `build_ask_questions_prompt`, in order: the header, the
      sections that are present, the instruction tail. */
  function PromptParts(m: Meta): seq<string> {
    Header(m) + Sections(m) + Tail()
  }

  function Header(m: Meta): seq<string> {
    ["Workspace metadata:", IdLine(m)]
  }

  function Sections(m: Meta): (r: seq<string>)
    ensures |r| <= 4
  {
    Section("README (snippet):\n", ReadmeSnippet(m)) +
    Section("Top files:\n", FilesText(m)) +
    Section("Top languages: ", LanguagesText(m)) +
    Section("Recent commits:\n", CommitsText(m))
  }

  function Tail(): seq<string> {
    ["", "Instruction:", Instruction()]
  }

  /** `build_ask_questions_prompt`. */
  function BuildPrompt(m: Meta): string {
    Join("\n\n", PromptParts(m))
  }

  /** The README snippet is at most 1200 characters from the start of the
      stripped README, and empty exactly when the README is absent or blank. */
  lemma ReadmeSnippetBounds(m: Meta)
    ensures var readme := if m.readme.Some? then m.readme.value else "";
            var s := ReadmeSnippet(m);
            |s| <= ReadmeLimit && s == Strip(readme)[..|s|] && (s == [] <==> IsBlank(readme))
  {
    StripEmptyIffBlank(if m.readme.Some? then m.readme.value else "");
  }

  /** A join with a non-empty separator is empty exactly when there is no
      part, or a single empty one. */
  lemma {:induction false} JoinEmpty(sep: string, parts: seq<string>)
    requires sep != []
    ensures Join(sep, parts) == [] <==> parts == [] || parts == [[]]
  {
    if |parts| > 1 {
      assert |Join(sep, parts)| >= |sep|;
    }
  }

  /** Which sections appear: the file list whenever there are files, counted
      languages whenever there are entries, and plain languages or commits
      unless they are absent or a single empty string. */
  lemma SectionsPresent(m: Meta)
    ensures FilesText(m) != [] <==> m.topFiles != []
    ensures m.topLanguages.Counted? ==> (LanguagesText(m) != [] <==> m.topLanguages.entries != [])
    ensures m.topLanguages.Named? ==>
              (LanguagesText(m) != [] <==> m.topLanguages.names != [] && m.topLanguages.names != [[]])
    ensures CommitsText(m) != [] <==> m.recentCommits != [] && m.recentCommits != [[]]
  {
    var bullets := Bullets(Prefix(m.topFiles, FileLimit));
    JoinEmpty("\n", bullets);
    if bullets != [] {
      assert bullets[0] != [];
    }
    match m.topLanguages
    case Counted(entries) =>
      var rs := Rendered(Prefix(entries, LanguageLimit));
      JoinEmpty(", ", rs);
      if rs != [] {
        assert rs[0] != [];
      }
    case Named(names) =>
      JoinEmpty(", ", Prefix(names, LanguageLimit));
      if |names| > 1 {
        assert |Prefix(names, LanguageLimit)| > 1;
      }
    JoinEmpty("\n", Prefix(m.recentCommits, CommitLimit));
    if |m.recentCommits| > 1 {
      assert |Prefix(m.recentCommits, CommitLimit)| > 1;
    }
  }

  /** The prompt has the two header lines, one part per non-empty section
      and the three lines of the instruction tail; with no README, files,
      languages or commits it is just the header and the tail. */
  lemma PromptShape(m: Meta)
    ensures var ps := PromptParts(m);
            5 <= |ps| <= 9 && ps[..2] == Header(m) && ps[|ps| - 3..] == Tail()
    ensures ReadmeSnippet(m) == [] && FilesText(m) == [] && LanguagesText(m) == [] && CommitsText(m) == [] ==>
              PromptParts(m) == Header(m) + Tail()
  {
    assert |Header(m)| == 2 && |Tail()| == 3;
    ThreeParts(Header(m), Sections(m), Tail());
  }

  /** The ends of a three-way concatenation. */
  lemma ThreeParts<T>(a: seq<T>, b: seq<T>, c: seq<T>)
    ensures (a + b + c)[..|a|] == a && (a + b + c)[|a| + |b|..] == c
    ensures b == [] ==> a + b + c == a + c
  {
  }

  /** Appending a section when its text is non-empty extends the sections
      collected so far by that section. */
  lemma SectionAppended(header: seq<string>, done: seq<string>, before: seq<string>,
                        heading: string, text: string, after: seq<string>)
    requires before == header + done
    requires after == if text != [] then before + [heading + text] else before
    ensures after == header + (done + Section(heading, text))
  {
  }

  /** `build_ask_questions_prompt`: the header, a part appended per non-empty
      text, the instruction tail extended, and the join. */
  method BuildAskQuestionsPrompt(m: Meta) returns (prompt: string)
    ensures prompt == BuildPrompt(m)
  {
    var readme := ReadmeSnippet(m);
    var files := FilesText(m);
    var langs := LanguagesText(m);
    var commits := CommitsText(m);
    var parts := Header(m);
    ghost var before := parts;
    if readme != [] {
      parts := parts + ["README (snippet):\n" + readme];
    }
    SectionAppended(Header(m), [], before, "README (snippet):\n", readme, parts);
    before := parts;
    if files != [] {
      parts := parts + ["Top files:\n" + files];
    }
    SectionAppended(Header(m), Section("README (snippet):\n", readme), before, "Top files:\n", files, parts);
    before := parts;
    if langs != [] {
      parts := parts + ["Top languages: " + langs];
    }
    SectionAppended(Header(m), Section("README (snippet):\n", readme) + Section("Top files:\n", files),
                    before, "Top languages: ", langs, parts);
    before := parts;
    if commits != [] {
      parts := parts + ["Recent commits:\n" + commits];
    }
    SectionAppended(Header(m), Section("README (snippet):\n", readme) + Section("Top files:\n", files) +
                    Section("Top languages: ", langs), before, "Recent commits:\n", commits, parts);
    parts := parts + Tail();
    prompt := Join("\n\n", parts);
  }

  /** The prompt reads the metadata only through the README snippet, the
      three joined lists and the workspace id. */
  lemma PromptDependsOnTexts(m: Meta, n: Meta)
    requires IdLine(m) == IdLine(n) && ReadmeSnippet(m) == ReadmeSnippet(n)
    requires FilesText(m) == FilesText(n) && LanguagesText(m) == LanguagesText(n) && CommitsText(m) == CommitsText(n)
    ensures BuildPrompt(m) == BuildPrompt(n)
  {
    assert Header(m) == Header(n);
    assert Sections(m) == Sections(n);
  }

  /** The metadata cut to what the prompt can show: 10 files, 10 languages,
      6 commits. */
  function Cut(m: Meta): Meta {
    m.(topFiles := Prefix(m.topFiles, FileLimit),
       topLanguages := match m.topLanguages
                       case Counted(es) => Counted(Prefix(es, LanguageLimit))
                       case Named(ns) => Named(Prefix(ns, LanguageLimit)),
       recentCommits := Prefix(m.recentCommits, CommitLimit))
  }

  /** Only the first 10 files, the first 10 languages and the first 6 commits
      reach the prompt. */
  lemma PromptIgnoresExtras(m: Meta)
    ensures BuildPrompt(Cut(m)) == BuildPrompt(m)
  {
    CutKeepsTexts(m);
    PromptDependsOnTexts(Cut(m), m);
  }

  /** Cutting the metadata changes none of the texts the prompt is made of. */
  lemma CutKeepsTexts(m: Meta)
    ensures IdLine(Cut(m)) == IdLine(m) && ReadmeSnippet(Cut(m)) == ReadmeSnippet(m)
    ensures FilesText(Cut(m)) == FilesText(m) && LanguagesText(Cut(m)) == LanguagesText(m)
    ensures CommitsText(Cut(m)) == CommitsText(m)
  {
    var cut := Cut(m);
    assert Prefix(cut.topFiles, FileLimit) == Prefix(m.topFiles, FileLimit);
    assert Prefix(cut.recentCommits, CommitLimit) == Prefix(m.recentCommits, CommitLimit);
    match m.topLanguages
    case Counted(es) =>
      assert Prefix(Prefix(es, LanguageLimit), LanguageLimit) == Prefix(es, LanguageLimit);
    case Named(ns) =>
      assert Prefix(Prefix(ns, LanguageLimit), LanguageLimit) == Prefix(ns, LanguageLimit);
  }

  // ---------------------------------------------------------------------------
  // generate_clarifying_questions
  // ---------------------------------------------------------------------------

  /** `mock_questions`: six fixed questions. */
  function MockQuestions(): seq<string> {
    seq(6, MockQuestion)
  }

  function MockQuestion(i: int): string {
    match i
    case 0 => "What's the primary goal for this project in one sentence?"
    case 1 => "Which files or directories should never be modified automatically?"
    case 2 => "Are there any required env vars or API keys needed to run the project locally?"
    case 3 => "Which deployment target do you prefer (Vercel, Replit, self-host)?"
    case 4 => "Are there unit or integration tests we should run automatically on each PR?"
    case _ => "What are the top three priorities you'd like JC to focus on first?"
  }

  /** `generate_clarifying_questions` as written. `provider` is the outcome
      of `LLMProvider()` (the constructor can raise); `call` itself never
      raises, since it turns every failure into the apology string. */
  function GenerateAsWritten<E>(provider: Result<LlmProvider.Provider, E>,
                                backend: LlmProvider.Route -> Option<string>): (r: seq<string>)
    ensures r != []
  {
    match provider
    case Err(_) => MockQuestions()
    case Ok(p) =>
      var questions := Parse(LlmProvider.Call(p, backend));
      if questions != [] then questions else MockQuestions()
  }

  /** When the instance has no key, or the backend fails, the function as
      written does not fall back to the mock list: the call answers with the
      apology, which the parser reads as a non-empty list of questions none
      longer than the apology itself. */
  lemma AsWrittenReturnsApology<E>(p: LlmProvider.Provider, backend: LlmProvider.Route -> Option<string>)
    requires !KeyLocker.Given(p.apiKey) || backend(LlmProvider.RouteOf(p.provider)).None?
    ensures LlmProvider.Call(p, backend) == LlmProvider.Apology
    ensures var r := GenerateAsWritten<E>(Ok(p), backend);
            r != [] && r != MockQuestions() && forall q :: q in r ==> |q| <= |LlmProvider.Apology|
  {
    ApologyIsShortText();
    ShortReplyAsWritten<E>(p, backend);
  }

  /** Whenever the call answers with a short non-blank text, the function as
      written returns the questions read from it, not the mock list. */
  lemma ShortReplyAsWritten<E>(p: LlmProvider.Provider, backend: LlmProvider.Route -> Option<string>)
    requires var reply := LlmProvider.Call(p, backend); !IsBlank(reply) && |reply| < |MockQuestions()[0]|
    ensures var reply := LlmProvider.Call(p, backend);
            var r := GenerateAsWritten<E>(Ok(p), backend);
            r == Parse(reply) && r != [] && r != MockQuestions() && forall q :: q in r ==> |q| <= |reply|
  {
    var reply := LlmProvider.Call(p, backend);
    ShortReplyIsNotMock(reply);
    AsWrittenParsesReply<E>(p, backend);
  }

  /** On a provider that was built, the function as written returns the
      questions read from the reply when there are any, the mock list
      otherwise. */
  lemma AsWrittenParsesReply<E>(p: LlmProvider.Provider, backend: LlmProvider.Route -> Option<string>)
    ensures var qs := Parse(LlmProvider.Call(p, backend));
            GenerateAsWritten<E>(Ok(p), backend) == if qs != [] then qs else MockQuestions()
  {
  }

  /** The apology is not blank and is shorter than the first mock question. */
  lemma ApologyIsShortText()
    ensures !IsBlank(LlmProvider.Apology) && |LlmProvider.Apology| < |MockQuestions()[0]|
  {
    LlmProvider.ApologyShape();
    assert !IsSpace(LlmProvider.Apology[48]);
  }

  /** A non-blank reply shorter than the first mock question parses to
      questions that are not the mock list. */
  lemma ShortReplyIsNotMock(text: string)
    requires !IsBlank(text) && |text| < |MockQuestions()[0]|
    ensures var r := Parse(text);
            r != [] && r != MockQuestions() && forall q :: q in r ==> |q| <= |text|
  {
    ShortReplyHasQuestions(text);
    ParseNoLonger(text);
  }

  /** What the call would report if it did not swallow its failures: `None`
      for a missing key or a failing backend. */
  function CallOutcome(p: LlmProvider.Provider, backend: LlmProvider.Route -> Option<string>): (r: Option<string>)
    ensures r.Some? ==> r.value == LlmProvider.Call(p, backend)
  {
    if !KeyLocker.Given(p.apiKey) then None
    else if backend(LlmProvider.RouteOf(p.provider)).None? then None
    else Some(LlmProvider.Call(p, backend))
  }

  /** `generate_clarifying_questions` as its documentation describes it: the
      mock list when there is no key, when the call fails, or when the reply
      has no questions. */
  function Generate<E>(provider: Result<LlmProvider.Provider, E>,
                       backend: LlmProvider.Route -> Option<string>): (r: seq<string>)
    ensures r != []
  {
    match provider
    case Err(_) => MockQuestions()
    case Ok(p) =>
      match CallOutcome(p, backend)
      case None => MockQuestions()
      case Some(reply) =>
        var questions := Parse(reply);
        if questions != [] then questions else MockQuestions()
  }

  /** The intended function returns the mock list exactly when the instance
      cannot be built, the call fails, or the reply has no questions, and
      otherwise the parsed reply; it agrees with the function as written
      whenever the call succeeds. */
  lemma GenerateFallsBackToMock<E>(provider: Result<LlmProvider.Provider, E>,
                                   backend: LlmProvider.Route -> Option<string>)
    ensures provider.Err? ==> Generate(provider, backend) == MockQuestions()
    ensures provider.Ok? && CallOutcome(provider.value, backend).None? ==> Generate(provider, backend) == MockQuestions()
    ensures provider.Ok? && CallOutcome(provider.value, backend).Some? ==>
              Generate(provider, backend) == GenerateAsWritten(provider, backend) &&
              var qs := Parse(CallOutcome(provider.value, backend).value);
              Generate(provider, backend) == (if qs != [] then qs else MockQuestions())
  {
    if provider.Ok? {
      var p := provider.value;
      match CallOutcome(p, backend)
      case None =>
      case Some(reply) =>
        assert reply == LlmProvider.Call(p, backend);
        var qs := Parse(reply);
        assert GenerateAsWritten(provider, backend) == (if qs != [] then qs else MockQuestions());
    }
  }

  /** Every question of the intended function is a clean line of at most 10,
      or one of the six mock questions. */
  lemma GenerateShape<E>(provider: Result<LlmProvider.Provider, E>, backend: LlmProvider.Route -> Option<string>)
    ensures var r := Generate(provider, backend);
            r == MockQuestions() || (|r| <= MaxQuestions && forall q :: q in r ==> IsCleanLine(q))
  {
    if provider.Ok? && CallOutcome(provider.value, backend).Some? {
      ParsePromises(CallOutcome(provider.value, backend).value);
    }
  }
}
