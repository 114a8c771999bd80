/** The searchable file index of jc/external_storage.py: searching it,
    finding AI models and project roots in it, and the keywords and
    description each indexed file carries.

    Paths use `/` as separator; `Path.parts` (which depends on the platform)
    is taken as an input where the source splits a path into its parts. */
module ExternalStorage {
  import opened Wrappers
  import opened Text

  /** One indexed file (FileMetadata). */
  datatype FileMetadata = FileMetadata(
    path: string,
    size: int,
    modified: string,
    fileType: string,
    drive: string,
    keywords: seq<string>,
    description: Option<string>)

  // ---------------------------------------------------------------------------
  // search_files
  // ---------------------------------------------------------------------------

  /** The `file_types` and `drives` filters; an empty list (or None) filters nothing. */
  predicate PassesFilters(m: FileMetadata, fileTypes: seq<string>, drives: seq<string>) {
    (fileTypes == [] || m.fileType in fileTypes) && (drives == [] || m.drive in drives)
  }

  /** The lower-cased query occurs in the lower-cased path, in a lower-cased
      keyword, or in the lower-cased description when there is a non-empty one. */
  predicate Matches(m: FileMetadata, queryLower: string) {
    Contains(Lower(m.path), queryLower) ||
    (exists k :: 0 <= k < |m.keywords| && Contains(Lower(m.keywords[k]), queryLower)) ||
    (m.description.Some? && m.description.value != [] && Contains(Lower(m.description.value), queryLower))
  }

  predicate Qualifies(m: FileMetadata, queryLower: string, fileTypes: seq<string>, drives: seq<string>) {
    PassesFilters(m, fileTypes, drives) && Matches(m, queryLower)
  }

  /** Every qualifying entry of `index`, in index order. */
  function AllMatches(index: seq<FileMetadata>, queryLower: string, fileTypes: seq<string>, drives: seq<string>)
    : (r: seq<FileMetadata>)
    ensures |r| <= |index|
  {
    if index == [] then []
    else
      var last := index[|index| - 1];
      AllMatches(index[..|index| - 1], queryLower, fileTypes, drives) +
      (if Qualifies(last, queryLower, fileTypes, drives) then [last] else [])
  }

  /** The matches are exactly the qualifying entries. */
  lemma {:induction false} AllMatchesMembers(index: seq<FileMetadata>, q: string, t: seq<string>, d: seq<string>)
    ensures forall m :: m in AllMatches(index, q, t, d) <==> m in index && Qualifies(m, q, t, d)
  {
    if index != [] {
      AllMatchesMembers(index[..|index| - 1], q, t, d);
      assert forall m :: m in index <==> m in index[..|index| - 1] || m == index[|index| - 1];
    }
  }

  /** One more entry of the index adds at most that entry to the matches. */
  lemma AllMatchesStep(index: seq<FileMetadata>, i: nat, q: string, t: seq<string>, d: seq<string>)
    requires i < |index|
    ensures AllMatches(index[..i + 1], q, t, d) ==
              AllMatches(index[..i], q, t, d) + (if Qualifies(index[i], q, t, d) then [index[i]] else [])
  {
    assert index[..i + 1][..i] == index[..i];
  }

  /** The result count at which the loop stops: the check follows the
      append, so a `limit` below 1 acts as 1. */
  function Cap(limit: int): nat {
    if limit >= 1 then limit else 1
  }

  /** `search_files`. */
  function Search(index: seq<FileMetadata>, query: string, fileTypes: seq<string>, drives: seq<string>, limit: int)
    : seq<FileMetadata>
  {
    Prefix(AllMatches(index, Lower(query), fileTypes, drives), Cap(limit))
  }

  lemma {:induction false} AllMatchesAppend(a: seq<FileMetadata>, b: seq<FileMetadata>, q: string, t: seq<string>, d: seq<string>)
    ensures AllMatches(a + b, q, t, d) == AllMatches(a, q, t, d) + AllMatches(b, q, t, d)
    decreases |b|
  {
    if b == [] {
      assert a + b == a;
    } else {
      assert (a + b)[..|a + b| - 1] == a + b[..|b| - 1];
      AllMatchesAppend(a, b[..|b| - 1], q, t, d);
    }
  }

  /** `a` is `b` with some entries dropped, order kept. */
  predicate Subsequence<T(==)>(a: seq<T>, b: seq<T>)
    decreases |b|
  {
    a == [] ||
    (b != [] &&
     ((a[|a| - 1] == b[|b| - 1] && Subsequence(a[..|a| - 1], b[..|b| - 1])) || Subsequence(a, b[..|b| - 1])))
  }

  lemma {:induction false} AllMatchesIsSubsequence(index: seq<FileMetadata>, q: string, t: seq<string>, d: seq<string>)
    ensures Subsequence(AllMatches(index, q, t, d), index)
  {
    if index != [] {
      AllMatchesIsSubsequence(index[..|index| - 1], q, t, d);
      var r := AllMatches(index, q, t, d);
      var rest := AllMatches(index[..|index| - 1], q, t, d);
      if r != rest {
        assert r[..|r| - 1] == rest;
      } else if rest != [] {
        SubsequenceExtend(rest, index[..|index| - 1], index[|index| - 1]);
        assert index[..|index| - 1] + [index[|index| - 1]] == index;
      }
    }
  }

  lemma SubsequenceExtend<T>(a: seq<T>, b: seq<T>, x: T)
    requires Subsequence(a, b)
    ensures Subsequence(a, b + [x])
  {
    assert (b + [x])[..|b + [x]| - 1] == b;
  }

  lemma {:induction false} SubsequencePrefix<T>(a: seq<T>, b: seq<T>, n: nat)
    requires Subsequence(a, b) && n <= |a|
    ensures Subsequence(a[..n], b)
    decreases |b|
  {
    if n == |a| {
      assert a[..n] == a;
    } else if n == 0 {
      assert a[..n] == [];
    } else {
      var b' := b[..|b| - 1];
      if a[|a| - 1] == b[|b| - 1] && Subsequence(a[..|a| - 1], b') {
        SubsequencePrefix(a[..|a| - 1], b', n);
        assert a[..|a| - 1][..n] == a[..n];
      } else {
        SubsequencePrefix(a, b', n);
      }
    }
  }

  /** The results are entries of the index in index order; each passes both
      filters and matches the query; there are at most `limit` of them; and
      they are the first qualifying entries. A `limit` below 1 still yields
      the first match. */
  lemma SearchPromises(index: seq<FileMetadata>, query: string, fileTypes: seq<string>, drives: seq<string>, limit: int)
    ensures var r := Search(index, query, fileTypes, drives, limit);
            var all := AllMatches(index, Lower(query), fileTypes, drives);
            Subsequence(r, index) &&
            (forall m :: m in r ==> PassesFilters(m, fileTypes, drives) && Matches(m, Lower(query))) &&
            (limit >= 1 ==> |r| <= limit) && (limit < 1 ==> |r| <= 1) &&
            r == all[..|r|] && (|r| < Cap(limit) ==> r == all) &&
            (limit < 1 && all != [] ==> r == [all[0]])
  {
    var all := AllMatches(index, Lower(query), fileTypes, drives);
    AllMatchesIsSubsequence(index, Lower(query), fileTypes, drives);
    AllMatchesMembers(index, Lower(query), fileTypes, drives);
    var r := Search(index, query, fileTypes, drives, limit);
    SubsequencePrefix(all, index, |r|);
    forall m | m in r
      ensures m in all
    {
      var k :| 0 <= k < |r| && r[k] == m;
      assert all[k] == m;
    }
  }

  /** Once the matches among the first `j` entries reach the cap, the rest
      of the index is not needed. */
  lemma SearchStopsEarly(index: seq<FileMetadata>, j: nat, q: string, t: seq<string>, d: seq<string>, limit: int)
    requires j <= |index| && |AllMatches(index[..j], q, t, d)| == Cap(limit)
    ensures Prefix(AllMatches(index, q, t, d), Cap(limit)) == AllMatches(index[..j], q, t, d)
  {
    assert index[..j] + index[j..] == index;
    AllMatchesAppend(index[..j], index[j..], q, t, d);
  }

  /** An empty query matches every entry, so only the filters decide. */
  lemma EmptyQueryMatchesAll(m: FileMetadata)
    ensures Matches(m, Lower(""))
  {
    EmptyContained(Lower(m.path));
  }

  /** The AI model extensions `find_ai_models` asks for. */
  const ModelTypes: seq<string> := [".gguf", ".safetensors", ".pt", ".pth", ".onnx"]

  /** `find_ai_models`: an empty query with the model extensions and the default limit 50. */
  function FindAiModels(index: seq<FileMetadata>): seq<FileMetadata> {
    Search(index, "", ModelTypes, [], 50)
  }

  /** The first 50 entries whose file type is a model extension, in index order. */
  lemma {:induction false} FindAiModelsAreFirstModels(index: seq<FileMetadata>)
    ensures var r := FindAiModels(index);
            |r| <= 50 && Subsequence(r, index) &&
            (forall m :: m in r ==> m.fileType in ModelTypes) &&
            (|r| < 50 ==> forall m :: m in index && m.fileType in ModelTypes ==> m in r)
  {
    SearchPromises(index, "", ModelTypes, [], 50);
    AllMatchesMembers(index, Lower(""), ModelTypes, []);
    forall m | m in index && m.fileType in ModelTypes
      ensures m in AllMatches(index, Lower(""), ModelTypes, [])
    {
      EmptyQueryMatchesAll(m);
    }
  }

  // ---------------------------------------------------------------------------
  // find_projects
  // ---------------------------------------------------------------------------

  /** `Path(p).name`: what follows the last separator. */
  function Name(path: string): string {
    path[LastIndexOf(path, '/') + 1..]
  }

  /** `str(Path(p).parent)`: what precedes the last separator; "." for a bare
      name and "/" for an entry of the root. */
  function Parent(path: string): string {
    var i := LastIndexOf(path, '/');
    if i < 0 then "." else if i == 0 then "/" else path[..i]
  }

  datatype ProjectKind = Python | Node | Git

  /** The project marker a file name is, if any. */
  function Marker(name: string): Option<ProjectKind> {
    if name == "pyproject.toml" || name == "setup.py" then Some(Python)
    else if name == "package.json" then Some(Node)
    else if name == ".git" then Some(Git)
    else None
  }

  /** The dictionary `find_projects` returns. */
  datatype Projects = Projects(python: seq<string>, node: seq<string>, git: seq<string>, other: seq<string>)

  /** The parent directories of the entries of `index` that are markers of
      `kind`, in index order. */
  function RootsOf(index: seq<FileMetadata>, kind: ProjectKind): (r: seq<string>)
    ensures |r| <= |index|
    ensures forall p :: p in r <==> exists m :: m in index && Marker(Name(m.path)) == Some(kind) && Parent(m.path) == p
  {
    if index == [] then []
    else
      var last := index[|index| - 1];
      var r := RootsOf(index[..|index| - 1], kind) + (if Marker(Name(last.path)) == Some(kind) then [Parent(last.path)] else []);
      assert forall m :: m in index <==> m in index[..|index| - 1] || m == last;
      r
  }

  /** `find_projects`: the three marker kinds, and an "other" bucket that
      nothing fills. */
  function ProjectsOf(index: seq<FileMetadata>): Projects {
    Projects(RootsOf(index, Python), RootsOf(index, Node), RootsOf(index, Git), [])
  }

  /** A directory is listed under a kind exactly when an indexed file named
      as that kind's marker sits in it; "other" stays empty. */
  lemma ProjectsListMarkerParents(index: seq<FileMetadata>, dir: string)
    ensures var ps := ProjectsOf(index);
            ps.other == [] &&
            (dir in ps.python <==>
               exists m :: m in index && (Name(m.path) == "pyproject.toml" || Name(m.path) == "setup.py") && Parent(m.path) == dir) &&
            (dir in ps.node <==> exists m :: m in index && Name(m.path) == "package.json" && Parent(m.path) == dir) &&
            (dir in ps.git <==> exists m :: m in index && Name(m.path) == ".git" && Parent(m.path) == dir)
  {
    forall m | m in index
      ensures Marker(Name(m.path)) == Some(Python) <==> Name(m.path) == "pyproject.toml" || Name(m.path) == "setup.py"
      ensures Marker(Name(m.path)) == Some(Node) <==> Name(m.path) == "package.json"
      ensures Marker(Name(m.path)) == Some(Git) <==> Name(m.path) == ".git"
    {
      MarkerNames(Name(m.path));
    }
  }

  lemma MarkerNames(name: string)
    ensures Marker(name) == Some(Python) <==> name == "pyproject.toml" || name == "setup.py"
    ensures Marker(name) == Some(Node) <==> name == "package.json"
    ensures Marker(name) == Some(Git) <==> name == ".git"
  {
  }

  // ---------------------------------------------------------------------------
  // _extract_keywords
  // ---------------------------------------------------------------------------

  /** `part.replace('-', ' ').replace('_', ' ').replace('.', ' ')`. */
  function Separated(part: string): string {
    ReplaceChar(ReplaceChar(ReplaceChar(part, '-', ' '), '_', ' '), '.', ' ')
  }

  /** `[w.lower() for w in words if len(w) > 2 and not w.isdigit()]`. */
  function KeptWords(words: seq<string>): (r: seq<string>)
    ensures |r| <= |words|
    ensures forall k :: k in r ==> exists w :: w in words && k == Lower(w) && |w| > 2 && !AllDigits(w)
    ensures forall w :: w in words && |w| > 2 && !AllDigits(w) ==> Lower(w) in r
  {
    if words == [] then []
    else
      var w := words[|words| - 1];
      var r := KeptWords(words[..|words| - 1]) + (if |w| > 2 && !AllDigits(w) then [Lower(w)] else []);
      assert forall x :: x in words[..|words| - 1] ==> x in words;
      r
  }

  /** The keywords of one path part. */
  function PartKeywords(part: string): seq<string> {
    KeptWords(Words(Separated(part)))
  }

  /** The keywords of a path given as its parts. */
  function Keywords(parts: seq<string>): seq<string> {
    if parts == [] then [] else Keywords(parts[..|parts| - 1]) + PartKeywords(parts[|parts| - 1])
  }

  /** What a keyword looks like: lower-case, longer than two characters, not
      all digits, and free of separators and whitespace. */
  predicate KeywordShape(k: string) {
    IsLower(k) && |k| > 2 && !AllDigits(k) &&
    forall i :: 0 <= i < |k| ==> k[i] != '-' && k[i] != '_' && k[i] != '.' && !IsSpace(k[i])
  }

  /** A kept word of a separated part, lower-cased, has the keyword shape. */
  lemma KeptWordShape(w: string)
    requires IsWord(w) && |w| > 2 && !AllDigits(w)
    requires forall i :: 0 <= i < |w| ==> w[i] != '-' && w[i] != '_' && w[i] != '.'
    ensures KeywordShape(Lower(w))
  {
    var k := Lower(w);
    LowerIsLower(w);
    assert forall i :: 0 <= i < |w| ==> (IsDigit(k[i]) <==> IsDigit(w[i]));
  }

  lemma PartKeywordsShape(part: string)
    ensures forall k :: k in PartKeywords(part) ==> KeywordShape(k)
  {
    var s := Separated(part);
    var words := Words(s);
    WordsAvoid(s, '-');
    WordsAvoid(s, '_');
    WordsAvoid(s, '.');
    forall k | k in PartKeywords(part)
      ensures KeywordShape(k)
    {
      var w :| w in words && k == Lower(w) && |w| > 2 && !AllDigits(w);
      KeptWordShape(w);
    }
  }

  lemma {:induction false} KeywordsShape(parts: seq<string>)
    ensures forall k :: k in Keywords(parts) ==> KeywordShape(k)
  {
    if parts != [] {
      KeywordsShape(parts[..|parts| - 1]);
      PartKeywordsShape(parts[|parts| - 1]);
    }
  }

  /** A word `_extract_keywords` keeps: longer than two characters, not all digits. */
  predicate Kept(w: string) {
    |w| > 2 && !AllDigits(w)
  }

  /** `w` is a word of the `i`-th part of a path, once separated. */
  predicate WordOfPart(parts: seq<string>, i: int, w: string) {
    0 <= i < |parts| && w in Words(Separated(parts[i]))
  }

  /** Every keyword is a kept word of some part, lower-cased. */
  lemma {:induction false} KeywordsSound(parts: seq<string>)
    ensures forall k :: k in Keywords(parts) ==> exists i, w :: WordOfPart(parts, i, w) && Kept(w) && k == Lower(w)
  {
    if parts != [] {
      var init := parts[..|parts| - 1];
      KeywordsSound(init);
      forall k | k in Keywords(parts)
        ensures exists i, w :: WordOfPart(parts, i, w) && Kept(w) && k == Lower(w)
      {
        if k in Keywords(init) {
          var i, w :| WordOfPart(init, i, w) && Kept(w) && k == Lower(w);
          assert WordOfPart(parts, i, w);
        } else {
          var w :| w in Words(Separated(parts[|parts| - 1])) && k == Lower(w) && |w| > 2 && !AllDigits(w);
          assert WordOfPart(parts, |parts| - 1, w);
        }
      }
    }
  }

  /** Every kept word of every part is a keyword, lower-cased. */
  lemma {:induction false} KeywordsComplete(parts: seq<string>)
    ensures forall i, w :: WordOfPart(parts, i, w) && Kept(w) ==> Lower(w) in Keywords(parts)
  {
    if parts != [] {
      var init := parts[..|parts| - 1];
      KeywordsComplete(init);
      forall i, w | WordOfPart(parts, i, w) && Kept(w)
        ensures Lower(w) in Keywords(parts)
      {
        if i < |parts| - 1 {
          assert WordOfPart(init, i, w);
        }
      }
    }
  }

  /** The keywords of a path are exactly the lower-cased words of its parts
      that are longer than two characters and not all digits. */
  lemma KeywordsExactly(parts: seq<string>, k: string)
    ensures k in Keywords(parts) <==> exists i, w :: WordOfPart(parts, i, w) && Kept(w) && k == Lower(w)
  {
    KeywordsSound(parts);
    KeywordsComplete(parts);
  }

  /** `_extract_keywords`: the loop over the parts, extending the list. */
  method ExtractKeywords(parts: seq<string>) returns (keywords: seq<string>)
    ensures keywords == Keywords(parts)
    ensures forall k :: k in keywords ==> KeywordShape(k)
  {
    keywords := [];
    var i := 0;
    while i < |parts|
      invariant 0 <= i <= |parts|
      invariant keywords == Keywords(parts[..i])
    {
      assert parts[..i + 1][..i] == parts[..i];
      keywords := keywords + PartKeywords(parts[i]);
      i := i + 1;
    }
    assert parts[..i] == parts;
    KeywordsShape(parts);
  }

  // ---------------------------------------------------------------------------
  // _generate_description
  // ---------------------------------------------------------------------------

  /** The phrases of a description, in their fixed order. */
  function DescriptionParts(parentName: string, categories: seq<string>): seq<string> {
    (if "ai_models" in categories then ["AI/ML model file"] else []) +
    (if "docs" in categories then ["Documentation"] else []) +
    (if "code" in categories then ["Source code"] else []) +
    (if "data" in categories then ["Data file"] else []) +
    (if parentName != [] && parentName != "." && parentName != ".." then ["in " + parentName] else [])
  }

  /** `_generate_description(path, categories)` for a file `name` whose parent
      directory is named `parentName`. */
  function GenerateDescription(name: string, parentName: string, categories: seq<string>): string {
    var parts := DescriptionParts(parentName, categories);
    if parts == [] then name else Join(" ", parts)
  }

  lemma {:induction false} JoinEnds(sep: string, parts: seq<string>)
    requires parts != []
    ensures var r := Join(sep, parts);
            |parts[0]| <= |r| && r[..|parts[0]|] == parts[0] &&
            |parts[|parts| - 1]| <= |r| && r[|r| - |parts[|parts| - 1]|..] == parts[|parts| - 1]
  {
    if |parts| > 1 {
      JoinEnds(sep, parts[1..]);
      var rest := Join(sep, parts[1..]);
      assert Join(sep, parts) == parts[0] + sep + rest;
      assert (parts[0] + sep + rest)[..|parts[0]|] == parts[0];
      assert parts[1..][|parts[1..]| - 1] == parts[|parts| - 1];
    }
  }

  /** The categories a description mentions, in the order it mentions them. */
  const CategoryOrder: seq<string> := ["ai_models", "docs", "code", "data"]

  /** The phrase a category contributes. */
  function Phrase(category: string): string {
    if category == "ai_models" then "AI/ML model file"
    else if category == "docs" then "Documentation"
    else if category == "code" then "Source code"
    else "Data file"
  }

  /** The phrases of the categories of `order` that are present, in that order. */
  function PhrasesOf(order: seq<string>, categories: seq<string>): seq<string> {
    if order == [] then []
    else (if order[0] in categories then [Phrase(order[0])] else []) + PhrasesOf(order[1..], categories)
  }

  /** The phrases of a description are those of the present categories, taken
      in the fixed order ai_models, docs, code, data, then "in <parent>" when
      the parent has a proper name. */
  lemma DescriptionOrder(parentName: string, categories: seq<string>)
    ensures DescriptionParts(parentName, categories) ==
              PhrasesOf(CategoryOrder, categories) +
              (if parentName != [] && parentName != "." && parentName != ".." then ["in " + parentName] else [])
  {
    var o := CategoryOrder;
    assert o[0] == "ai_models" && o[1..] == ["docs", "code", "data"];
    assert o[1..][0] == "docs" && o[1..][1..] == ["code", "data"];
    assert o[1..][1..][0] == "code" && o[1..][1..][1..] == ["data"];
    assert ["data"][0] == "data" && ["data"][1..] == [];
    var d := if "data" in categories then ["Data file"] else [];
    var c := if "code" in categories then ["Source code"] else [];
    var m := if "docs" in categories then ["Documentation"] else [];
    var a := if "ai_models" in categories then ["AI/ML model file"] else [];
    assert PhrasesOf(["data"], categories) == d + PhrasesOf([], categories);
    assert PhrasesOf(["code", "data"], categories) == c + d;
    assert PhrasesOf(["docs", "code", "data"], categories) == m + (c + d);
    assert PhrasesOf(o, categories) == a + (m + (c + d));
  }

  /** The description falls back to the file name exactly when no phrase
      applies; otherwise it opens with the first applicable phrase in the order
      ai_models, docs, code, data, and ends with "in <parent>" when the parent
      has a proper name. */
  lemma DescriptionShape(name: string, parentName: string, categories: seq<string>)
    ensures var r := GenerateDescription(name, parentName, categories);
            var parts := DescriptionParts(parentName, categories);
            var properParent := parentName != [] && parentName != "." && parentName != "..";
            (parts == [] <==> !properParent && "ai_models" !in categories && "docs" !in categories &&
                              "code" !in categories && "data" !in categories) &&
            (parts == [] ==> r == name) &&
            ("ai_models" in categories ==> r[..|"AI/ML model file"|] == "AI/ML model file") &&
            ("ai_models" !in categories && "docs" in categories ==> r[..|"Documentation"|] == "Documentation") &&
            ("ai_models" !in categories && "docs" !in categories && "code" in categories ==>
               r[..|"Source code"|] == "Source code") &&
            ("ai_models" !in categories && "docs" !in categories && "code" !in categories && "data" in categories ==>
               r[..|"Data file"|] == "Data file") &&
            (properParent ==> |r| >= 3 + |parentName| && r[|r| - 3 - |parentName|..] == "in " + parentName)
  {
    var parts := DescriptionParts(parentName, categories);
    if parts != [] {
      JoinEnds(" ", parts);
    }
  }

  // ---------------------------------------------------------------------------
  // The manager
  // ---------------------------------------------------------------------------

  /** ExternalStorageManager, reduced to the file index it searches. */
  class ExternalStorageManager {
    var fileIndex: seq<FileMetadata>

    /** The manager with the index `_load_index` read. */
    constructor(loaded: seq<FileMetadata>)
      ensures fileIndex == loaded
    {
      fileIndex := loaded;
    }

    /** `search_files`: the loop over the index with its early break. */
    method SearchFiles(query: string, fileTypes: seq<string>, drives: seq<string>, limit: int)
      returns (results: seq<FileMetadata>)
      ensures results == Search(fileIndex, query, fileTypes, drives, limit)
    {
      var queryLower := Lower(query);
      var index := fileIndex;
      results := [];
      var i := 0;
      while i < |index|
        invariant 0 <= i <= |index|
        invariant results == AllMatches(index[..i], queryLower, fileTypes, drives)
        invariant |results| < Cap(limit)
      {
        var m := index[i];
        AllMatchesStep(index, i, queryLower, fileTypes, drives);
        if Qualifies(m, queryLower, fileTypes, drives) {
          results := results + [m];
          if |results| >= limit {
            SearchStopsEarly(index, i + 1, queryLower, fileTypes, drives, limit);
            return;
          }
        }
        i := i + 1;
      }
      assert index[..i] == index;
    }

    /** `find_ai_models`. */
    method FindAiModelFiles() returns (models: seq<FileMetadata>)
      ensures models == FindAiModels(fileIndex)
    {
      models := SearchFiles("", ModelTypes, [], 50);
    }

    /** `find_projects`: one pass over the index appending parents. */
    method FindProjects() returns (projects: Projects)
      ensures projects == ProjectsOf(fileIndex)
    {
      var index := fileIndex;
      projects := Projects([], [], [], []);
      var i := 0;
      while i < |index|
        invariant 0 <= i <= |index|
        invariant projects == ProjectsOf(index[..i])
      {
        assert index[..i + 1][..i] == index[..i];
        var name := Name(index[i].path);
        if name == "pyproject.toml" || name == "setup.py" {
          projects := projects.(python := projects.python + [Parent(index[i].path)]);
        } else if name == "package.json" {
          projects := projects.(node := projects.node + [Parent(index[i].path)]);
        } else if name == ".git" {
          projects := projects.(git := projects.git + [Parent(index[i].path)]);
        }
        i := i + 1;
      }
      assert index[..i] == index;
    }
  }
}
