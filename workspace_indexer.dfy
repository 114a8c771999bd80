/** The workspace indexer of jc/workspace_indexer.py: a language guess per
    file and a summary of a workspace directory tree.

    The tree is given as a value, its directories' entries in the order
    the file system lists them. A file whose size cannot be read is
    skipped; a file whose text cannot be read has the text "". */
module WorkspaceIndexer {
  import opened Wrappers
  import opened Text
  import Sorting

  // ---------------------------------------------------------------------------
  // _guess_language
  // ---------------------------------------------------------------------------

  /** EXT_LANG_MAP. */
  function ExtLanguage(ext: string): Option<string> {
    if ext == ".py" then Some("Python")
    else if ext == ".ts" || ext == ".tsx" then Some("TypeScript")
    else if ext == ".js" || ext == ".jsx" then Some("JavaScript")
    else if ext == ".md" then Some("Markdown")
    else if ext == ".json" then Some("JSON")
    else if ext == ".html" then Some("HTML")
    else if ext == ".css" then Some("CSS")
    else if ext == ".java" then Some("Java")
    else if ext == ".rb" then Some("Ruby")
    else if ext == ".go" then Some("Go")
    else None
  }

  /** `Path(name).suffix` of a file name: from the last '.' on, unless that dot
      starts the name or ends it. */
  function FileSuffix(name: string): (r: string)
    ensures r == [] || (r[0] == '.' && |r| >= 2 && |r| < |name| && r == name[|name| - |r|..])
  {
    var i := LastIndexOf(name, '.');
    if 0 < i < |name| - 1 then name[i..] else ""
  }

  /** `_guess_language(filename, content)`. */
  function GuessLanguage(filename: string, content: Option<string>): (lang: string)
    ensures lang != []
  {
    var ext := Lower(FileSuffix(filename));
    if ExtLanguage(ext).Some? then ExtLanguage(ext).value
    else if content.Some? && content.value != [] && Contains(content.value, "import ") && Contains(content.value, " from ") then
      "TypeScript/JavaScript"
    else if content.Some? && content.value != [] && Contains(content.value, "def ") && Contains(content.value, "import ") then
      "Python"
    else "text"
  }

  /** A known extension, in any ASCII case, decides regardless of content;
      otherwise the JavaScript rule is tried before the Python one, and
      anything else is "text". */
  lemma GuessLanguageRules(filename: string, content: Option<string>)
    ensures var ext := Lower(FileSuffix(filename));
            var lang := GuessLanguage(filename, content);
            var text := if content.Some? then content.value else "";
            (ExtLanguage(ext).Some? ==> lang == ExtLanguage(ext).value) &&
            (ExtLanguage(ext).None? && Contains(text, "import ") && Contains(text, " from ") ==> lang == "TypeScript/JavaScript") &&
            (ExtLanguage(ext).None? && Contains(text, "def ") && Contains(text, "import ") && !Contains(text, " from ") ==>
               lang == "Python") &&
            (ExtLanguage(ext).None? && !(Contains(text, "import ") && (Contains(text, " from ") || Contains(text, "def "))) ==>
               lang == "text")
  {
    var text := if content.Some? then content.value else "";
    if text == [] {
      assert !Contains(text, "import ");
    }
  }

  // ---------------------------------------------------------------------------
  // The walk
  // ---------------------------------------------------------------------------

  /** A directory entry; `size` is None when `stat` fails. */
  datatype Entry =
    | FileEntry(name: string, size: Option<int>, text: string)
    | DirEntry(name: string, children: seq<Entry>)

  /** One record of the `files` list. */
  datatype FileInfo = FileInfo(path: string, size: int, lang: string, snippet: string)

  predicate Skipped(name: string) {
    name == ".git" || name == "node_modules"
  }

  /** The record of a readable file: the language is guessed from its first
      1000 characters, and the stored snippet is its first 800. */
  function Record(dir: string, name: string, size: int, text: string): (r: FileInfo)
    ensures |r.snippet| <= 800 && |r.snippet| <= |text| && r.snippet == text[..|r.snippet|]
  {
    FileInfo(dir + name, size, GuessLanguage(name, Some(Prefix(text, 1000))), Prefix(Prefix(text, 1000), 800))
  }

  /** `walk`: entries in order, directories depth first, skipping `.git`
      and `node_modules`; `dir` is the relative path of the directory with
      a trailing separator ("" at the top). */
  function Walk(entries: seq<Entry>, dir: string): (r: seq<FileInfo>)
    ensures forall f :: f in r ==> |f.snippet| <= 800
    decreases entries
  {
    if entries == [] then [] else WalkOne(entries[0], dir) + Walk(entries[1..], dir)
  }

  function WalkOne(e: Entry, dir: string): (r: seq<FileInfo>)
    ensures forall f :: f in r ==> |f.snippet| <= 800
    decreases e
  {
    match e
    case FileEntry(name, size, text) => if size.None? then [] else [Record(dir, name, size.value, text)]
    case DirEntry(name, children) => if Skipped(name) then [] else Walk(children, dir + name + "/")
  }

  lemma {:induction false} WalkAppend(a: seq<Entry>, b: seq<Entry>, dir: string)
    ensures Walk(a + b, dir) == Walk(a, dir) + Walk(b, dir)
  {
    if a == [] {
      assert a + b == b;
    } else {
      assert (a + b)[1..] == a[1..] + b;
      WalkAppend(a[1..], b, dir);
    }
  }

  /** A `.git` or `node_modules` directory contributes nothing, whatever it
      holds and wherever it sits among its siblings. */
  lemma SkippedDirectoryIgnored(a: seq<Entry>, b: seq<Entry>, name: string, children: seq<Entry>, dir: string)
    requires Skipped(name)
    ensures Walk(a + [DirEntry(name, children)] + b, dir) == Walk(a + b, dir)
  {
    var d := [DirEntry(name, children)];
    assert Walk(d, dir) == [] by {
      assert d[1..] == [];
    }
    WalkAppend(a + d, b, dir);
    WalkAppend(a, d, dir);
    WalkAppend(a, b, dir);
    assert Walk(a + d, dir) == Walk(a, dir);
  }

  // ---------------------------------------------------------------------------
  // Language counts
  // ---------------------------------------------------------------------------

  /** `f.get("lang") or "unknown"`. */
  function LangOf(f: FileInfo): string {
    if f.lang == [] then "unknown" else f.lang
  }

  function Occurrences(files: seq<FileInfo>, lang: string): nat {
    if files == [] then 0
    else Occurrences(files[..|files| - 1], lang) + (if LangOf(files[|files| - 1]) == lang then 1 else 0)
  }

  /** The `lang_count` dictionary: its keys in insertion order, and the counts. */
  datatype Tally = Tally(order: seq<string>, counts: map<string, nat>)

  function TallyOf(files: seq<FileInfo>): Tally {
    if files == [] then Tally([], map[])
    else
      var t := TallyOf(files[..|files| - 1]);
      var lang := LangOf(files[|files| - 1]);
      if lang in t.counts then Tally(t.order, t.counts[lang := t.counts[lang] + 1])
      else Tally(t.order + [lang], t.counts[lang := 1])
  }

  /** Every language of the files is a key, once, counted exactly. */
  lemma {:induction false} TallyCounts(files: seq<FileInfo>)
    ensures var t := TallyOf(files);
            Distinct(t.order) && (forall l :: l in t.order <==> l in t.counts) &&
            (forall l :: l in t.counts ==> t.counts[l] == Occurrences(files, l) && t.counts[l] > 0) &&
            (forall l :: l !in t.counts ==> Occurrences(files, l) == 0)
  {
    if files != [] {
      TallyCounts(files[..|files| - 1]);
    }
  }

  datatype LangCount = LangCount(lang: string, count: int)

  function NegCount(c: LangCount): int {
    -c.count
  }

  /** The dictionary's items in insertion order. */
  function Pairs(t: Tally): (r: seq<LangCount>)
    ensures |r| == |t.order|
    ensures forall i :: 0 <= i < |r| ==> r[i].lang == t.order[i] && r[i].count == CountIn(t, t.order[i])
  {
    seq(|t.order|, i requires 0 <= i < |t.order| => LangCount(t.order[i], CountIn(t, t.order[i])))
  }

  function CountIn(t: Tally, lang: string): nat {
    if lang in t.counts then t.counts[lang] else 0
  }

  /** `top_langs`: the counts sorted high to low (stably, so ties keep
      first-seen order), at most ten. */
  function TopLanguages(files: seq<FileInfo>): seq<LangCount> {
    Prefix(Sorting.SortBy(Pairs(TallyOf(files)), NegCount), 10)
  }

  /** An item of a sorted list outside its first `n` items counts no more
      than any of them. */
  lemma SortedPrefixDominates(sorted: seq<LangCount>, n: nat, p: LangCount)
    requires Sorting.SortedBy(sorted, NegCount) && n <= |sorted| && p in sorted && p !in sorted[..n]
    ensures forall e :: e in sorted[..n] ==> e.count >= p.count
  {
    var j :| 0 <= j < |sorted| && sorted[j] == p;
    forall e | e in sorted[..n]
      ensures e.count >= p.count
    {
      var i :| 0 <= i < n && sorted[..n][i] == e;
      assert NegCount(sorted[i]) <= NegCount(sorted[j]);
    }
  }

  lemma PrefixSorted(sorted: seq<LangCount>, n: nat)
    requires Sorting.SortedBy(sorted, NegCount) && n <= |sorted|
    ensures forall i, j :: 0 <= i < j < n ==> sorted[..n][i].count >= sorted[..n][j].count
  {
    forall i, j | 0 <= i < j < n
      ensures sorted[..n][i].count >= sorted[..n][j].count
    {
      assert NegCount(sorted[i]) <= NegCount(sorted[j]);
    }
  }

  /** The first items of a permutation of `pairs` are items of `pairs`. */
  lemma PrefixItemsFrom(sorted: seq<LangCount>, pairs: seq<LangCount>, n: nat)
    requires multiset(sorted) == multiset(pairs) && n <= |sorted|
    ensures forall e :: e in sorted[..n] ==> e in pairs
  {
    forall e | e in sorted[..n]
      ensures e in pairs
    {
      assert e in sorted;
      assert e in multiset(sorted);
    }
  }

  /** Each listed count is the number of files with that language. */
  lemma TopCountsExact(files: seq<FileInfo>)
    ensures forall e :: e in TopLanguages(files) ==> e.count == Occurrences(files, e.lang) && e.count > 0
  {
    TallyCounts(files);
    var t := TallyOf(files);
    var pairs := Pairs(t);
    var sorted := Sorting.SortBy(pairs, NegCount);
    var top := TopLanguages(files);
    assert top == sorted[..|top|];
    PrefixItemsFrom(sorted, pairs, |top|);
    forall e | e in top
      ensures e.count == Occurrences(files, e.lang) && e.count > 0
    {
      var k :| 0 <= k < |pairs| && pairs[k] == e;
      assert t.order[k] in t.order;
    }
  }

  /** A language with files that is not listed is not more frequent than
      any listed language. */
  lemma TopIsMostFrequent(files: seq<FileInfo>, l: string)
    requires Occurrences(files, l) > 0 && forall e :: e in TopLanguages(files) ==> e.lang != l
    ensures forall e :: e in TopLanguages(files) ==> e.count >= Occurrences(files, l)
  {
    TallyCounts(files);
    var t := TallyOf(files);
    var pairs := Pairs(t);
    var sorted := Sorting.SortBy(pairs, NegCount);
    var top := TopLanguages(files);
    assert top == sorted[..|top|];
    var k :| 0 <= k < |t.order| && t.order[k] == l;
    var p := pairs[k];
    assert p in multiset(sorted);
    SortedPrefixDominates(sorted, |top|, p);
  }

  /** At most ten entries, counts never increasing, each count the number of
      files with that language; a language left out is not more frequent
      than any language listed. */
  lemma TopLanguagesPromises(files: seq<FileInfo>)
    ensures var top := TopLanguages(files);
            |top| <= 10 &&
            (forall i, j :: 0 <= i < j < |top| ==> top[i].count >= top[j].count) &&
            (forall e :: e in top ==> e.count == Occurrences(files, e.lang) && e.count > 0) &&
            (forall l :: Occurrences(files, l) > 0 && (forall e :: e in top ==> e.lang != l) ==>
                          forall e :: e in top ==> e.count >= Occurrences(files, l))
  {
    TopCountsExact(files);
    var top := TopLanguages(files);
    var sorted := Sorting.SortBy(Pairs(TallyOf(files)), NegCount);
    assert top == sorted[..|top|];
    PrefixSorted(sorted, |top|);
    forall l | Occurrences(files, l) > 0 && (forall e :: e in top ==> e.lang != l)
      ensures forall e :: e in top ==> e.count >= Occurrences(files, l)
    {
      TopIsMostFrequent(files, l);
    }
  }

  /** The lang_count loop. */
  method CountLanguages(files: seq<FileInfo>) returns (t: Tally)
    ensures t == TallyOf(files)
  {
    t := Tally([], map[]);
    var i := 0;
    while i < |files|
      invariant 0 <= i <= |files|
      invariant t == TallyOf(files[..i])
    {
      assert files[..i + 1][..i] == files[..i];
      var lang := LangOf(files[i]);
      if lang in t.counts {
        t := t.(counts := t.counts[lang := t.counts[lang] + 1]);
      } else {
        t := Tally(t.order + [lang], t.counts[lang := 1]);
      }
      i := i + 1;
    }
    assert files[..i] == files;
  }

  // ---------------------------------------------------------------------------
  // index_workspace
  // ---------------------------------------------------------------------------

  datatype WorkspaceMeta = WorkspaceMeta(workspaceDir: string, fileCount: int, topLanguages: seq<LangCount>,
                                         files: seq<FileInfo>)

  const MaxListedFiles := 200

  /** `index_workspace`; `tree` is None when the directory does not exist. */
  function IndexSpec(workspaceDir: string, tree: Option<seq<Entry>>): WorkspaceMeta {
    if tree.None? then WorkspaceMeta(workspaceDir, 0, [], [])
    else
      var files := Walk(tree.value, "");
      WorkspaceMeta(workspaceDir, |files|, TopLanguages(files), Prefix(files, MaxListedFiles))
  }

  /** A missing workspace is empty; otherwise every collected file is
      counted while only the first 200 are listed, each with a snippet of at
      most 800 characters. */
  lemma IndexPromises(workspaceDir: string, tree: Option<seq<Entry>>)
    ensures var m := IndexSpec(workspaceDir, tree);
            (tree.None? ==> m.fileCount == 0 && m.topLanguages == [] && m.files == []) &&
            (tree.Some? ==> m.fileCount == |Walk(tree.value, "")| &&
                            m.files == Walk(tree.value, "")[..|m.files|] &&
                            |m.files| == (if m.fileCount < MaxListedFiles then m.fileCount else MaxListedFiles)) &&
            forall f :: f in m.files ==> |f.snippet| <= 800
  {
  }

  /** `index_workspace`, with its counting loop. */
  method IndexWorkspace(workspaceDir: string, tree: Option<seq<Entry>>) returns (m: WorkspaceMeta)
    ensures m == IndexSpec(workspaceDir, tree)
  {
    if tree.None? {
      return WorkspaceMeta(workspaceDir, 0, [], []);
    }
    var files := Walk(tree.value, "");
    var t := CountLanguages(files);
    var top := Prefix(Sorting.SortBy(Pairs(t), NegCount), 10);
    m := WorkspaceMeta(workspaceDir, |files|, top, Prefix(files, MaxListedFiles));
  }
}
