/**
 * The data-shaping step of the GitHub App's `analyzeRepository`
 * (server.js): tally the file tree's paths by extension, project the tally
 * onto the table of known languages, draw a quality score and attach the
 * fixed patterns and insights.  The tree arrives as the list of its paths
 * and `Math.random()` as the parameter `draw`.
 */
module RepoAnalysis {
  import opened Text

  // ---------------------------------------------------------------------------
  // Extensions and the tally
  // ---------------------------------------------------------------------------

  /** `file.path.split('.').pop()`: the last '.'-separated piece of the whole path. */
  function Extension(path: string): string
  {
    var pieces := Split(path, '.');
    pieces[|pieces| - 1]
  }

  /**
   * The extension is the text after the last '.' of the full path (so a
   * '.' in a directory name counts as well), and the whole path when it has
   * no '.'.
   */
  lemma ExtensionSpec(path: string)
    ensures var ext := Extension(path);
      && '.' !in ext
      && |ext| <= |path| && path[|path| - |ext|..] == ext
      && ('.' !in path ==> ext == path)
      && ('.' in path ==> |ext| < |path| && path[|path| - |ext| - 1] == '.')
  {
    SplitLast(path, '.');
  }

  /** The extension of every tree entry, in tree order. */
  function Exts(paths: seq<string>): seq<string>
  {
    seq(|paths|, i requires 0 <= i < |paths| => Extension(paths[i]))
  }

  /** Number of occurrences of `ext` in `exts`. */
  function CountIn(exts: seq<string>, ext: string): nat
  {
    if |exts| == 0 then 0
    else CountIn(exts[..|exts| - 1], ext) + (if exts[|exts| - 1] == ext then 1 else 0)
  }

  /**
   * The object `fileTypes` after counting `exts` one by one, each time
   * setting `fileTypes[ext] = (fileTypes[ext] || 0) + 1`.
   */
  function Tally(exts: seq<string>): map<string, nat>
  {
    if |exts| == 0 then map[]
    else
      var before := Tally(exts[..|exts| - 1]);
      var e := exts[|exts| - 1];
      before[e := (if e in before then before[e] else 0) + 1]
  }

  /** What `analysis.fileTypes` holds once every tree entry is counted. */
  function FileTypes(paths: seq<string>): map<string, nat>
  {
    Tally(Exts(paths))
  }

  /**
   * The order in which a JavaScript object lists keys inserted in the order
   * of `s`: each element once, at its first occurrence.
   */
  function FirstOccurrences(s: seq<string>): seq<string>
  {
    if |s| == 0 then []
    else
      var seen := FirstOccurrences(s[..|s| - 1]);
      if s[|s| - 1] in seen then seen else seen + [s[|s| - 1]]
  }

  predicate Distinct(s: seq<string>)
  {
    forall i, j :: 0 <= i < j < |s| ==> s[i] != s[j]
  }

  /** Sum of the counts of `keys` in `m` (a key that `m` lacks counts 0). */
  function SumOver(keys: seq<string>, m: map<string, nat>): nat
  {
    if |keys| == 0 then 0
    else SumOver(keys[..|keys| - 1], m) + (var k := keys[|keys| - 1]; if k in m then m[k] else 0)
  }

  /**
   * The `forEach` of server.js:94-97: count every entry's extension into
   * `fileTypes`; `keys` records the order in which the object gained its
   * keys.  The keys are the entries' extensions, each with the number of
   * entries that have it.
   */
  method TallyFileTypes(paths: seq<string>) returns (fileTypes: map<string, nat>, keys: seq<string>)
    ensures fileTypes == FileTypes(paths)
    ensures keys == FirstOccurrences(Exts(paths))
    ensures forall e :: e in fileTypes <==> e in Exts(paths)
    ensures forall e :: e in fileTypes ==> fileTypes[e] == CountIn(Exts(paths), e)
    ensures Distinct(keys) && forall e :: e in keys <==> e in fileTypes
    ensures InFirstOccurrenceOrder(keys, Exts(paths))
  {
    ghost var exts := Exts(paths);
    fileTypes := map[];
    keys := [];
    var i := 0;
    while i < |paths|
      invariant 0 <= i <= |paths|
      invariant fileTypes == Tally(exts[..i])
      invariant keys == FirstOccurrences(exts[..i])
      invariant forall e :: e in keys <==> e in fileTypes
    {
      var ext := Extension(paths[i]);
      ghost var counted := exts[..i];
      assert exts[..i + 1] == counted + [ext];
      assert (counted + [ext])[..i] == counted;
      if ext !in fileTypes {
        keys := keys + [ext];
      }
      fileTypes := fileTypes[ext := (if ext in fileTypes then fileTypes[ext] else 0) + 1];
      i := i + 1;
    }
    assert exts[..i] == exts;
    TallyCounts(exts);
    FirstOccurrencesMembers(exts);
    FirstOccurrencesOrder(exts);
  }

  /**
   * The tally's keys are exactly the extensions counted, and each key's
   * count is its number of occurrences, at least one.
   */
  lemma {:induction false} TallyCounts(exts: seq<string>)
    ensures forall e :: e in Tally(exts) <==> e in exts
    ensures forall e :: e in Tally(exts) ==> Tally(exts)[e] == CountIn(exts, e) >= 1
  {
    if |exts| > 0 {
      var prefix := exts[..|exts| - 1];
      TallyCounts(prefix);
      assert exts == prefix + [exts[|exts| - 1]];
      forall e | e in Tally(exts)
        ensures Tally(exts)[e] == CountIn(exts, e)
      {
        if e !in prefix {
          CountInZero(prefix, e);
        }
      }
    }
  }

  /** An extension that does not occur has count zero, and one that occurs is counted. */
  lemma {:induction false} CountInZero(exts: seq<string>, e: string)
    ensures e !in exts <==> CountIn(exts, e) == 0
  {
    if |exts| > 0 {
      var prefix := exts[..|exts| - 1];
      CountInZero(prefix, e);
      assert exts == prefix + [exts[|exts| - 1]];
    }
  }

  /** `FirstOccurrences` lists each element of `s` exactly once. */
  lemma {:induction false} FirstOccurrencesMembers(s: seq<string>)
    ensures Distinct(FirstOccurrences(s))
    ensures forall x :: x in FirstOccurrences(s) <==> x in s
  {
    if |s| > 0 {
      FirstOccurrencesMembers(s[..|s| - 1]);
      assert s == s[..|s| - 1] + [s[|s| - 1]];
    }
  }

  /** The index of the first occurrence of `x` in `s`. */
  function FirstIndex(s: seq<string>, x: string): (i: nat)
    requires x in s
    ensures i < |s| && s[i] == x && x !in s[..i]
  {
    var prefix := s[..|s| - 1];
    if x in prefix then
      var i := FirstIndex(prefix, x);
      assert s[..i] == prefix[..i];
      i
    else
      |s| - 1
  }

  /** A first occurrence in `s` stays the first one when `s` grows. */
  lemma FirstIndexExtend(s: seq<string>, e: string, x: string)
    requires x in s
    ensures FirstIndex(s + [e], x) == FirstIndex(s, x)
  {
    assert (s + [e])[..|s|] == s;
  }

  /**
   * `keys` lists elements of `s` in the order of their first occurrence
   * in `s`.
   */
  predicate InFirstOccurrenceOrder(keys: seq<string>, s: seq<string>)
  {
    && (forall k :: k in keys ==> k in s)
    && (forall i, j :: 0 <= i < j < |keys| ==> FirstIndex(s, keys[i]) < FirstIndex(s, keys[j]))
  }

  /**
   * The keys of the tally, as `Object.entries` walks them, come in the
   * order in which their extensions first occur among the tree entries.
   */
  lemma {:induction false} FirstOccurrencesOrder(s: seq<string>)
    ensures InFirstOccurrenceOrder(FirstOccurrences(s), s)
  {
    if |s| > 0 {
      var prefix := s[..|s| - 1];
      var e := s[|s| - 1];
      var seen := FirstOccurrences(prefix);
      FirstOccurrencesOrder(prefix);
      FirstOccurrencesMembers(prefix);
      assert s == prefix + [e];
      forall k | k in seen
        ensures FirstIndex(s, k) == FirstIndex(prefix, k)
      {
        FirstIndexExtend(prefix, e, k);
      }
      if e !in seen {
        assert FirstOccurrences(s) == seen + [e];
        assert FirstIndex(s, e) == |prefix|;
        forall i, j | 0 <= i < j < |seen + [e]|
          ensures FirstIndex(s, (seen + [e])[i]) < FirstIndex(s, (seen + [e])[j])
        {
          if j < |seen| {
            assert (seen + [e])[i] == seen[i] && (seen + [e])[j] == seen[j];
          } else {
            assert (seen + [e])[i] == seen[i];
          }
        }
      }
    }
  }

  /** The sum is unaffected by a key that is not summed over. */
  lemma {:induction false} SumOverFrame(keys: seq<string>, m: map<string, nat>, e: string, v: nat)
    requires e !in keys
    ensures SumOver(keys, m[e := v]) == SumOver(keys, m)
  {
    if |keys| > 0 {
      SumOverFrame(keys[..|keys| - 1], m, e, v);
    }
  }

  /** Bumping the count of a key that occurs once among the keys bumps the sum by one. */
  lemma {:induction false} SumOverBump(keys: seq<string>, m: map<string, nat>, e: string)
    requires Distinct(keys) && e in keys && e in m
    ensures SumOver(keys, m[e := m[e] + 1]) == SumOver(keys, m) + 1
  {
    var prefix := keys[..|keys| - 1];
    if keys[|keys| - 1] == e {
      assert e !in prefix;
      SumOverFrame(prefix, m, e, m[e] + 1);
    } else {
      assert e in prefix;
      SumOverBump(prefix, m, e);
    }
  }

  /** The tally's counts, summed in key order, add up to the number of extensions counted. */
  lemma {:induction false} TallySum(exts: seq<string>)
    ensures SumOver(FirstOccurrences(exts), Tally(exts)) == |exts|
  {
    if |exts| > 0 {
      var prefix := exts[..|exts| - 1];
      var e := exts[|exts| - 1];
      var keys := FirstOccurrences(prefix);
      var before := Tally(prefix);
      TallySum(prefix);
      assert e in keys <==> e in before by {
        TallyCounts(prefix);
        FirstOccurrencesMembers(prefix);
      }
      if e in keys {
        FirstOccurrencesMembers(prefix);
        assert Tally(exts) == before[e := before[e] + 1];
        SumOverBump(keys, before, e);
      } else {
        assert Tally(exts) == before[e := 1];
        assert FirstOccurrences(exts) == keys + [e];
        SumOverFrame(keys, before, e, 1);
        assert (keys + [e])[..|keys|] == keys;
      }
    }
  }

  /**
   * The tally's keys are exactly the entries' extensions, and each count is
   * at least one and is the number of entries with that extension.
   */
  lemma TallyKeys(paths: seq<string>)
    ensures forall e :: e in FileTypes(paths) <==> exists i :: 0 <= i < |paths| && Extension(paths[i]) == e
    ensures forall e :: e in FileTypes(paths) ==> FileTypes(paths)[e] == CountIn(Exts(paths), e) >= 1
  {
    var exts := Exts(paths);
    TallyCounts(exts);
    forall e | e in FileTypes(paths)
      ensures exists i :: 0 <= i < |paths| && Extension(paths[i]) == e
    {
      var i :| 0 <= i < |exts| && exts[i] == e;
      assert Extension(paths[i]) == e;
    }
    forall i | 0 <= i < |paths|
      ensures Extension(paths[i]) in FileTypes(paths)
    {
      assert exts[i] == Extension(paths[i]);
    }
  }

  // ---------------------------------------------------------------------------
  // Main languages
  // ---------------------------------------------------------------------------

  /** The `languageMap` of server.js:100-109. */
  const LanguageMap: map<string, string> := map[
    "js" := "JavaScript",
    "ts" := "TypeScript",
    "py" := "Python",
    "java" := "Java",
    "go" := "Go",
    "rs" := "Rust",
    "jsx" := "React",
    "tsx" := "React TypeScript"
  ]

  datatype Language = Language(name: string, files: nat)

  /** The entries for the mapped keys among `keys`, in the order of `keys`. */
  function MainLanguagesOf(keys: seq<string>, fileTypes: map<string, nat>): seq<Language>
    requires forall i :: 0 <= i < |keys| ==> keys[i] in fileTypes
  {
    if |keys| == 0 then []
    else
      var earlier := MainLanguagesOf(keys[..|keys| - 1], fileTypes);
      var k := keys[|keys| - 1];
      if k in LanguageMap then earlier + [Language(LanguageMap[k], fileTypes[k])] else earlier
  }

  /** The loop of server.js:111-118 over `Object.entries(analysis.fileTypes)`. */
  method CollectMainLanguages(fileTypes: map<string, nat>, keys: seq<string>) returns (languages: seq<Language>)
    requires forall i :: 0 <= i < |keys| ==> keys[i] in fileTypes
    ensures languages == MainLanguagesOf(keys, fileTypes)
  {
    languages := [];
    var i := 0;
    while i < |keys|
      invariant 0 <= i <= |keys|
      invariant languages == MainLanguagesOf(keys[..i], fileTypes)
    {
      assert keys[..i + 1][..i] == keys[..i];
      var ext := keys[i];
      if ext in LanguageMap {
        languages := languages + [Language(LanguageMap[ext], fileTypes[ext])];
      }
      i := i + 1;
    }
    assert keys[..i] == keys;
  }

  /** No two extensions of the table map to the same language name. */
  lemma LanguageMapInjective(a: string, b: string)
    requires a in LanguageMap && b in LanguageMap && a != b
    ensures LanguageMap[a] != LanguageMap[b]
  {
  }

  /** The table has at most eight entries (one per line of the literal). */
  lemma LanguageMapSize()
    ensures |LanguageMap.Keys| <= 8
  {
    var m: map<string, string> := map[];
    m := m["js" := "JavaScript"];
    assert |m.Keys| <= 1;
    m := m["ts" := "TypeScript"];
    assert |m.Keys| <= 2;
    m := m["py" := "Python"];
    assert |m.Keys| <= 3;
    m := m["java" := "Java"];
    assert |m.Keys| <= 4;
    m := m["go" := "Go"];
    assert |m.Keys| <= 5;
    m := m["rs" := "Rust"];
    assert |m.Keys| <= 6;
    m := m["jsx" := "React"];
    assert |m.Keys| <= 7;
    m := m["tsx" := "React TypeScript"];
    assert |m.Keys| <= 8;
    assert m == LanguageMap;
  }

  /** A list of distinct names drawn from a set is no longer than the set. */
  lemma {:induction false} DistinctBound(s: seq<string>, universe: set<string>)
    requires Distinct(s)
    requires forall i :: 0 <= i < |s| ==> s[i] in universe
    ensures |s| <= |universe|
  {
    if |s| > 0 {
      var x := s[|s| - 1];
      DistinctBound(s[..|s| - 1], universe - {x});
    }
  }

  /** The keys among `keys` that the language table maps, in order. */
  function MappedKeys(keys: seq<string>): seq<string>
  {
    if |keys| == 0 then []
    else MappedKeys(keys[..|keys| - 1]) + (if keys[|keys| - 1] in LanguageMap then [keys[|keys| - 1]] else [])
  }

  /** One language entry per mapped key; distinct keys give distinct mapped keys. */
  lemma {:induction false} MappedKeysCount(keys: seq<string>, fileTypes: map<string, nat>)
    requires Distinct(keys)
    requires forall i :: 0 <= i < |keys| ==> keys[i] in fileTypes
    ensures |MainLanguagesOf(keys, fileTypes)| == |MappedKeys(keys)|
    ensures Distinct(MappedKeys(keys))
    ensures forall i :: 0 <= i < |MappedKeys(keys)| ==> MappedKeys(keys)[i] in LanguageMap && MappedKeys(keys)[i] in keys
  {
    if |keys| > 0 {
      var prefix := keys[..|keys| - 1];
      MappedKeysCount(prefix, fileTypes);
      assert keys == prefix + [keys[|keys| - 1]];
    }
  }

  /** `l` is the language entry for key `k` of the tally. */
  predicate Describes(l: Language, k: string, fileTypes: map<string, nat>)
  {
    k in LanguageMap && k in fileTypes && l == Language(LanguageMap[k], fileTypes[k])
  }

  /** The mapped keys are keys of the list, each mapped by the table. */
  lemma {:induction false} MappedKeysIn(keys: seq<string>)
    ensures forall k :: k in MappedKeys(keys) ==> k in keys && k in LanguageMap
  {
    if |keys| > 0 {
      MappedKeysIn(keys[..|keys| - 1]);
      assert keys == keys[..|keys| - 1] + [keys[|keys| - 1]];
    }
  }

  /** Appending a key that first occurs after all the listed ones keeps the order. */
  lemma AppendInOrder(keys: seq<string>, x: string, s: seq<string>)
    requires InFirstOccurrenceOrder(keys, s) && x in s
    requires forall k :: k in keys ==> FirstIndex(s, k) < FirstIndex(s, x)
    ensures InFirstOccurrenceOrder(keys + [x], s)
  {
    var ks := keys + [x];
    forall a, b | 0 <= a < b < |ks|
      ensures FirstIndex(s, ks[a]) < FirstIndex(s, ks[b])
    {
      assert ks[a] == keys[a];
      if b < |keys| {
        assert ks[b] == keys[b];
      } else {
        assert keys[a] in keys;
      }
    }
  }

  /** The mapped keys before the last key first occur before it. */
  lemma MappedBeforeLast(keys: seq<string>, s: seq<string>)
    requires InFirstOccurrenceOrder(keys, s) && |keys| > 0
    ensures forall k :: k in MappedKeys(keys[..|keys| - 1]) ==> k in s && FirstIndex(s, k) < FirstIndex(s, keys[|keys| - 1])
  {
    var prefix := keys[..|keys| - 1];
    MappedKeysIn(prefix);
    forall k | k in MappedKeys(prefix)
      ensures k in s && FirstIndex(s, k) < FirstIndex(s, keys[|keys| - 1])
    {
      var m :| 0 <= m < |prefix| && prefix[m] == k;
      assert keys[m] == k;
    }
  }

  /** Keeping only the mapped keys keeps their first-occurrence order. */
  lemma {:induction false} MappedKeysOrder(keys: seq<string>, s: seq<string>)
    requires InFirstOccurrenceOrder(keys, s)
    ensures InFirstOccurrenceOrder(MappedKeys(keys), s)
  {
    if |keys| > 0 {
      var prefix := keys[..|keys| - 1];
      var last := keys[|keys| - 1];
      assert InFirstOccurrenceOrder(prefix, s) by {
        assert forall i :: 0 <= i < |prefix| ==> prefix[i] == keys[i];
      }
      MappedKeysOrder(prefix, s);
      if last in LanguageMap {
        assert MappedKeys(keys) == MappedKeys(prefix) + [last];
        MappedBeforeLast(keys, s);
        AppendInOrder(MappedKeys(prefix), last, s);
      } else {
        assert MappedKeys(keys) == MappedKeys(prefix);
      }
    }
  }

  /** Entry `j` of `mainLanguages` is the entry of mapped key `j`. */
  lemma {:induction false} MainLanguagesAt(keys: seq<string>, fileTypes: map<string, nat>)
    requires forall i :: 0 <= i < |keys| ==> keys[i] in fileTypes
    ensures |MainLanguagesOf(keys, fileTypes)| == |MappedKeys(keys)|
    ensures forall j :: 0 <= j < |MappedKeys(keys)| ==>
      Describes(MainLanguagesOf(keys, fileTypes)[j], MappedKeys(keys)[j], fileTypes)
  {
    if |keys| > 0 {
      var prefix := keys[..|keys| - 1];
      MainLanguagesAt(prefix, fileTypes);
      assert keys == prefix + [keys[|keys| - 1]];
    }
  }

  /** Every entry of `mainLanguages` describes a mapped key of the tally. */
  lemma {:induction false} MainLanguagesSound(keys: seq<string>, fileTypes: map<string, nat>, j: nat)
    requires forall i :: 0 <= i < |keys| ==> keys[i] in fileTypes
    requires j < |MainLanguagesOf(keys, fileTypes)|
    ensures exists k :: k in keys && Describes(MainLanguagesOf(keys, fileTypes)[j], k, fileTypes)
  {
    var prefix := keys[..|keys| - 1];
    var k := keys[|keys| - 1];
    var earlier := MainLanguagesOf(prefix, fileTypes);
    assert keys == prefix + [k];
    if j < |earlier| {
      MainLanguagesSound(prefix, fileTypes, j);
      var k' :| k' in prefix && Describes(earlier[j], k', fileTypes);
      assert k' in keys;
    } else {
      assert Describes(MainLanguagesOf(keys, fileTypes)[j], k, fileTypes);
    }
  }

  /** Every mapped key of the tally has its entry in `mainLanguages`. */
  lemma {:induction false} MainLanguagesComplete(keys: seq<string>, fileTypes: map<string, nat>, k: string)
    requires forall i :: 0 <= i < |keys| ==> keys[i] in fileTypes
    requires k in keys && k in LanguageMap
    ensures exists j :: 0 <= j < |MainLanguagesOf(keys, fileTypes)| && Describes(MainLanguagesOf(keys, fileTypes)[j], k, fileTypes)
  {
    var prefix := keys[..|keys| - 1];
    var last := keys[|keys| - 1];
    var earlier := MainLanguagesOf(prefix, fileTypes);
    var langs := MainLanguagesOf(keys, fileTypes);
    assert keys == prefix + [last];
    if k == last {
      assert Describes(langs[|langs| - 1], k, fileTypes);
    } else {
      assert k in prefix;
      MainLanguagesComplete(prefix, fileTypes, k);
      var j :| 0 <= j < |earlier| && Describes(earlier[j], k, fileTypes);
      assert langs[j] == earlier[j];
    }
  }

  /** Distinct keys give entries with distinct language names. */
  lemma {:induction false} MainLanguagesDistinctNames(keys: seq<string>, fileTypes: map<string, nat>)
    requires Distinct(keys)
    requires forall i :: 0 <= i < |keys| ==> keys[i] in fileTypes
    ensures forall i, j :: 0 <= i < j < |MainLanguagesOf(keys, fileTypes)| ==>
      MainLanguagesOf(keys, fileTypes)[i].name != MainLanguagesOf(keys, fileTypes)[j].name
  {
    if |keys| > 0 {
      var prefix := keys[..|keys| - 1];
      var k := keys[|keys| - 1];
      MainLanguagesDistinctNames(prefix, fileTypes);
      var earlier := MainLanguagesOf(prefix, fileTypes);
      assert keys == prefix + [k];
      if k in LanguageMap {
        forall j | 0 <= j < |earlier|
          ensures earlier[j].name != LanguageMap[k]
        {
          MainLanguagesSound(prefix, fileTypes, j);
          var k' :| k' in prefix && Describes(earlier[j], k', fileTypes);
          LanguageMapInjective(k', k);
        }
      }
    }
  }

  /** `mainLanguages` has at most as many entries as the language table. */
  lemma MainLanguagesBound(keys: seq<string>, fileTypes: map<string, nat>)
    requires Distinct(keys)
    requires forall i :: 0 <= i < |keys| ==> keys[i] in fileTypes
    ensures |MainLanguagesOf(keys, fileTypes)| <= 8
  {
    MappedKeysCount(keys, fileTypes);
    DistinctBound(MappedKeys(keys), LanguageMap.Keys);
    LanguageMapSize();
  }

  // ---------------------------------------------------------------------------
  // Score, patterns, insights and the whole analysis
  // ---------------------------------------------------------------------------

  /**
   * `Math.min(100, Math.floor(Math.random() * 40 + 60))` for the draw
   * `draw`; for a draw in [0, 1) it is an integer in [60, 99], so the `min`
   * never binds.
   */
  function QualityScore(draw: real): (score: int)
    ensures 0.0 <= draw < 1.0 ==> 60 <= score <= 99 && score == (draw * 40.0 + 60.0).Floor
  {
    var raw := (draw * 40.0 + 60.0).Floor;
    if raw < 100 then raw else 100
  }

  datatype Pattern = Pattern(name: string, confidence: real, description: string)

  /** The two hard-coded entries of server.js:132-143. */
  const FixedPatterns: seq<Pattern> := [
    Pattern("Modular Architecture", 0.85, "Code is well-organized into logical modules"),
    Pattern("Dependency Clustering", 0.72, "Strong coupling detected between certain components")
  ]

  /** The four insight lines of server.js:124-129, by the value each embeds. */
  datatype Insight =
    | FileCountInsight(totalFiles: nat)
    | LanguageCountInsight(languages: nat)
    | QualityInsight(score: int)
    | VisualizationAdvice

  function InsightText(i: Insight): string
  {
    match i
    case FileCountInsight(n) => "Repository contains " + NatToString(n) + " files across multiple languages"
    case LanguageCountInsight(n) => "Detected " + NatToString(n) + " primary programming languages"
    case QualityInsight(s) => "Code quality score: " + IntToString(s) + "/100"
    case VisualizationAdvice => "Recommended: Implement spatial visualization for better code understanding"
  }

  /** The `analysis` object that `analyzeRepository` returns. */
  datatype Analysis = Analysis(
    repository: string,
    totalFiles: nat,
    fileTypes: map<string, nat>,
    mainLanguages: seq<Language>,
    codeQualityScore: int,
    patterns: seq<Pattern>,
    insights: seq<Insight>)

  /** The analysis of the tree `paths` of repository `repo` with random draw `draw`. */
  function AnalysisOf(repo: string, paths: seq<string>, draw: real): Analysis
  {
    var fileTypes := FileTypes(paths);
    var keys := FirstOccurrences(Exts(paths));
    TallyCounts(Exts(paths));
    FirstOccurrencesMembers(Exts(paths));
    var languages := MainLanguagesOf(keys, fileTypes);
    var score := QualityScore(draw);
    Analysis(repo, |paths|, fileTypes, languages, score, FixedPatterns,
      [FileCountInsight(|paths|), LanguageCountInsight(|languages|), QualityInsight(score), VisualizationAdvice])
  }

  /** server.js:83-145, from the fetched tree on. */
  method AnalyzeRepository(repo: string, paths: seq<string>, draw: real) returns (analysis: Analysis)
    ensures analysis == AnalysisOf(repo, paths, draw)
  {
    var fileTypes, keys := TallyFileTypes(paths);
    var languages := CollectMainLanguages(fileTypes, keys);
    var score := QualityScore(draw);
    analysis := Analysis(
      repo, |paths|, fileTypes, languages, score, FixedPatterns,
      [FileCountInsight(|paths|), LanguageCountInsight(|languages|), QualityInsight(score), VisualizationAdvice]);
  }

  /**
   * The tally of the analysis: `totalFiles` is the number of entries; the
   * keys of `fileTypes`, in insertion order, are each entry's extension
   * once, each with a count of at least one, and the counts sum to
   * `totalFiles`.
   */
  lemma AnalysisTally(repo: string, paths: seq<string>, draw: real)
    ensures var a := AnalysisOf(repo, paths, draw); var keys := FirstOccurrences(Exts(paths));
      && a.totalFiles == |paths|
      && Distinct(keys)
      && (forall e :: e in a.fileTypes <==> e in keys)
      && SumOver(keys, a.fileTypes) == a.totalFiles
      && (forall e :: e in a.fileTypes ==> a.fileTypes[e] >= 1)
      && (forall e :: e in a.fileTypes <==> exists i :: 0 <= i < |paths| && Extension(paths[i]) == e)
  {
    TallySum(Exts(paths));
    TallyKeys(paths);
    TallyCounts(Exts(paths));
    FirstOccurrencesMembers(Exts(paths));
  }

  /**
   * The languages of the analysis: each entry names a mapped extension of
   * the tally with its count, each mapped extension has its entry, the
   * names are distinct, there are at most 8, and the second insight
   * reports how many there are.
   */
  lemma AnalysisLanguages(repo: string, paths: seq<string>, draw: real)
    ensures var a := AnalysisOf(repo, paths, draw);
      && (forall j :: 0 <= j < |a.mainLanguages| ==> exists k :: k in a.fileTypes && Describes(a.mainLanguages[j], k, a.fileTypes))
      && (forall k :: k in a.fileTypes && k in LanguageMap ==>
            exists j :: 0 <= j < |a.mainLanguages| && Describes(a.mainLanguages[j], k, a.fileTypes))
      && (forall i, j :: 0 <= i < j < |a.mainLanguages| ==> a.mainLanguages[i].name != a.mainLanguages[j].name)
      && |a.mainLanguages| <= 8
      && a.insights[1] == LanguageCountInsight(|a.mainLanguages|)
  {
    var exts := Exts(paths);
    var keys := FirstOccurrences(exts);
    var fileTypes := FileTypes(paths);
    TallyCounts(exts);
    FirstOccurrencesMembers(exts);
    forall j | 0 <= j < |MainLanguagesOf(keys, fileTypes)|
      ensures exists k :: k in fileTypes && Describes(MainLanguagesOf(keys, fileTypes)[j], k, fileTypes)
    {
      MainLanguagesSound(keys, fileTypes, j);
    }
    forall k | k in fileTypes && k in LanguageMap
      ensures exists j :: 0 <= j < |MainLanguagesOf(keys, fileTypes)| && Describes(MainLanguagesOf(keys, fileTypes)[j], k, fileTypes)
    {
      MainLanguagesComplete(keys, fileTypes, k);
    }
    MainLanguagesDistinctNames(keys, fileTypes);
    MainLanguagesBound(keys, fileTypes);
  }

  /**
   * The order of `mainLanguages`: entry `j` is the entry of the `j`-th
   * mapped extension, and the mapped extensions come in the order in
   * which they first occur among the tree entries.
   */
  lemma AnalysisLanguageOrder(repo: string, paths: seq<string>, draw: real)
    ensures var a := AnalysisOf(repo, paths, draw); var mapped := MappedKeys(FirstOccurrences(Exts(paths)));
      && |a.mainLanguages| == |mapped|
      && (forall j :: 0 <= j < |mapped| ==> Describes(a.mainLanguages[j], mapped[j], a.fileTypes))
      && InFirstOccurrenceOrder(mapped, Exts(paths))
  {
    var exts := Exts(paths);
    var keys := FirstOccurrences(exts);
    TallyCounts(exts);
    FirstOccurrencesMembers(exts);
    MainLanguagesAt(keys, FileTypes(paths));
    FirstOccurrencesOrder(exts);
    MappedKeysOrder(keys, exts);
  }

  /**
   * For a draw in [0, 1) the score lies in [60, 99]; there are always the
   * four insights, the first reporting the number of files and the third
   * the score, and the same two patterns.
   */
  lemma AnalysisScoreAndInsights(repo: string, paths: seq<string>, draw: real)
    requires 0.0 <= draw < 1.0
    ensures var a := AnalysisOf(repo, paths, draw);
      && 60 <= a.codeQualityScore <= 99
      && |a.insights| == 4
      && a.insights[0] == FileCountInsight(|paths|)
      && a.insights[2] == QualityInsight(a.codeQualityScore)
      && a.insights[3] == VisualizationAdvice
      && a.patterns == FixedPatterns
  {
  }
}
