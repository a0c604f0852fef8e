/**
 * The helpers of the Python `ConsciousnessAnalyzer`
 * (consciousness_analyzer.py): keyword scores, complexity, bracket nesting
 * depth, the weighted consciousness score, the detector lists, the
 * predictions, the metrics and the risk assessment.
 *
 * Python's `re` module is not modelled: every `re.search` and every
 * `len(re.findall(...))` is answered by an oracle `Re`, asked with the
 * pattern string the source uses.  Whether a pattern compiles is decided
 * here, by `BadGroupReference`, for the one pattern that holds a group
 * reference.
 */
module ConsciousnessAnalyzer {
  import opened Wrappers
  import opened Text
  import opened Numbers

  /**
   * The answers of Python's `re` for the text under analysis:
   * `search(pattern, text, ignoreCase)` is whether `re.search` finds a
   * match, `count(pattern, text, ignoreCase)` is `len(re.findall(...))`.
   */
  datatype Re = Re(search: (string, string, bool) -> bool, count: (string, string, bool) -> nat)

  // ---------------------------------------------------------------------------
  // Keyword scores
  // ---------------------------------------------------------------------------

  /** `min(1.0, m / k)`: the share of `k` matches found, saturating at 1. */
  function Saturate(m: nat, k: nat): (r: real)
    requires k > 0
    ensures 0.0 <= r <= 1.0
    ensures r == 1.0 <==> m >= k
  {
    var share := m as real / k as real;
    assert share * k as real == m as real;
    assert m >= k ==> share >= 1.0;
    Min(1.0, share)
  }

  /** More matches never give a lower score. */
  lemma SaturateMonotone(m1: nat, m2: nat, k: nat)
    requires k > 0 && m1 <= m2
    ensures Saturate(m1, k) <= Saturate(m2, k)
  {
    assert m1 as real / k as real <= m2 as real / k as real;
  }

  /** `sum(len(re.findall(p, code, re.IGNORECASE)) for p in patterns)` */
  function CountAll(re: Re, patterns: seq<string>, code: string): nat
  {
    if |patterns| == 0 then 0
    else CountAll(re, patterns[..|patterns| - 1], code) + re.count(patterns[|patterns| - 1], code, true)
  }

  const SelfReferencePatterns: seq<string> := [
    @"eval\s*\(", @"exec\s*\(", @"__dict__", @"setattr\s*\(", @"getattr\s*\(",
    @"reflection", @"introspection", @"meta", @"self\.__", @"dynamic\s+code"]

  const AutonomyPatterns: seq<string> := [
    @"if\s+.*:\s*decision", @"autonomous", @"independent", @"self\.decide", @"self\.choose",
    @"agent", @"autonomous\s+agent", @"decision\s+tree", @"policy", @"strategy\s+pattern"]

  const EmergencePatterns: seq<string> := [
    @"loop", @"recursion", @"feedback", @"cascade", @"chain\s+reaction",
    @"emergent", @"swarm", @"collective", @"self\s+organiz"]

  const AdaptationPatterns: seq<string> := [
    @"learn", @"adapt", @"evolve", @"train", @"optimize", @"gradient", @"neural", @"machine\s+learning"]

  /** `_detect_self_reference` (consciousness_analyzer.py:71-89). */
  function DetectSelfReference(re: Re, code: string): real
  {
    Saturate(CountAll(re, SelfReferencePatterns, code), 10)
  }

  /** `_detect_autonomy` (consciousness_analyzer.py:91-109). */
  function DetectAutonomy(re: Re, code: string): real
  {
    Saturate(CountAll(re, AutonomyPatterns, code), 8)
  }

  /** `_detect_emergence` (consciousness_analyzer.py:139-156). */
  function DetectEmergence(re: Re, code: string): real
  {
    Saturate(CountAll(re, EmergencePatterns, code), 7)
  }

  /** `_detect_adaptation` (consciousness_analyzer.py:158-174). */
  function DetectAdaptation(re: Re, code: string): real
  {
    Saturate(CountAll(re, AdaptationPatterns, code), 6)
  }

  /**
   * Each keyword score lies in [0, 1], is 1 exactly when its pattern list
   * matches at least 10, 8, 7 or 6 times, and grows with the match count.
   */
  lemma KeywordScores(re: Re, code: string)
    ensures 0.0 <= DetectSelfReference(re, code) <= 1.0
      && (DetectSelfReference(re, code) == 1.0 <==> CountAll(re, SelfReferencePatterns, code) >= 10)
    ensures 0.0 <= DetectAutonomy(re, code) <= 1.0
      && (DetectAutonomy(re, code) == 1.0 <==> CountAll(re, AutonomyPatterns, code) >= 8)
    ensures 0.0 <= DetectEmergence(re, code) <= 1.0
      && (DetectEmergence(re, code) == 1.0 <==> CountAll(re, EmergencePatterns, code) >= 7)
    ensures 0.0 <= DetectAdaptation(re, code) <= 1.0
      && (DetectAdaptation(re, code) == 1.0 <==> CountAll(re, AdaptationPatterns, code) >= 6)
  {
  }

  // ---------------------------------------------------------------------------
  // Nesting depth
  // ---------------------------------------------------------------------------

  predicate Opener(c: char)
  {
    c == '{' || c == '[' || c == '('
  }

  predicate Closer(c: char)
  {
    c == '}' || c == ']' || c == ')'
  }

  /** Openers minus closers in `s`, whatever their kinds. */
  function Depth(s: string): int
  {
    if |s| == 0 then 0
    else
      var c := s[|s| - 1];
      Depth(s[..|s| - 1]) + (if Opener(c) then 1 else if Closer(c) then -1 else 0)
  }

  /** The largest `Depth` over all prefixes of `s`, and at least 0. */
  function MaxDepth(s: string): nat
  {
    if |s| == 0 then 0
    else
      var earlier := MaxDepth(s[..|s| - 1]);
      if Depth(s) > earlier then Depth(s) else earlier
  }

  /**
   * `_calculate_nesting_depth` (consciousness_analyzer.py:123-137): the
   * running depth goes up at each opener and down at each closer, and the
   * maximum is updated at openers only.
   */
  method NestingDepth(code: string) returns (maxDepth: int)
    ensures maxDepth == MaxDepth(code)
  {
    maxDepth := 0;
    var currentDepth := 0;
    var i := 0;
    while i < |code|
      invariant 0 <= i <= |code|
      invariant currentDepth == Depth(code[..i])
      invariant maxDepth == MaxDepth(code[..i])
    {
      var c := code[i];
      assert code[..i + 1][..i] == code[..i];
      if c == '{' || c == '[' || c == '(' {
        currentDepth := currentDepth + 1;
        maxDepth := if maxDepth >= currentDepth then maxDepth else currentDepth;
      } else if c == '}' || c == ']' || c == ')' {
        currentDepth := currentDepth - 1;
        DepthBelowMax(code[..i]);
      } else {
        DepthBelowMax(code[..i]);
      }
      i := i + 1;
    }
    assert code[..i] == code;
  }

  /** The running depth never exceeds the maximum so far. */
  lemma DepthBelowMax(s: string)
    ensures Depth(s) <= MaxDepth(s)
  {
  }

  /**
   * `MaxDepth` is the maximum of the depth over all prefixes, floored at
   * 0: no prefix is deeper, and some prefix reaches it unless it is 0.
   */
  lemma {:induction false} MaxDepthIsMaximum(s: string)
    ensures forall i :: 0 <= i <= |s| ==> Depth(s[..i]) <= MaxDepth(s)
    ensures MaxDepth(s) == 0 || exists i :: 0 < i <= |s| && Depth(s[..i]) == MaxDepth(s)
  {
    if |s| > 0 {
      var prefix := s[..|s| - 1];
      MaxDepthIsMaximum(prefix);
      forall i | 0 <= i <= |s|
        ensures Depth(s[..i]) <= MaxDepth(s)
      {
        if i < |s| {
          assert s[..i] == prefix[..i];
        } else {
          assert s[..i] == s;
        }
      }
      if MaxDepth(s) != 0 {
        if Depth(s) > MaxDepth(prefix) {
          assert s[..|s|] == s;
        } else {
          var i :| 0 < i <= |prefix| && Depth(prefix[..i]) == MaxDepth(prefix);
          assert s[..i] == prefix[..i];
        }
      }
    }
  }

  /** Text without brackets, the empty string among it, has depth 0. */
  lemma {:induction false} NoBracketsNoDepth(s: string)
    requires forall i :: 0 <= i < |s| ==> !Opener(s[i]) && !Closer(s[i])
    ensures Depth(s) == 0 && MaxDepth(s) == 0
  {
    if |s| > 0 {
      NoBracketsNoDepth(s[..|s| - 1]);
    }
  }

  /**
   * Bracket kinds are not matched against each other: `(` then `]` is back
   * at depth 0; and closers in excess drive the depth below 0, so a later
   * opener does not raise the maximum.
   */
  lemma BracketKindsIgnored()
    ensures Depth("(]") == 0 && MaxDepth("(]") == 1
    ensures Depth("))(") == -1 && MaxDepth("))(") == 0
  {
    assert "(]"[..1] == "(";
    assert "))("[..2] == "))" && "))"[..1] == ")";
  }

  // ---------------------------------------------------------------------------
  // Complexity and the consciousness score
  // ---------------------------------------------------------------------------

  const FunctionPattern: string := @"def\s+\w+|function\s+\w+"
  const ClassPattern: string := @"class\s+\w+"

  /** `len(code.split('\n'))` */
  function LineCount(code: string): nat
  {
    |Split(code, '\n')|
  }

  /**
   * `_calculate_complexity` (consciousness_analyzer.py:111-121):
   * lines/1000 + functions/50 + classes/20 + depth/10, divided by 4 and
   * capped at 1.
   */
  function Complexity(re: Re, code: string): (r: real)
    ensures 0.0 <= r <= 1.0
  {
    var lines := LineCount(code) as real;
    var functions := re.count(FunctionPattern, code, false) as real;
    var classes := re.count(ClassPattern, code, false) as real;
    var nested := MaxDepth(code) as real;
    var complexity := lines / 1000.0 + functions / 50.0 + classes / 20.0 + nested / 10.0;
    Min(1.0, complexity / 4.0)
  }

  /** The weighted sum of the five factors before clamping. */
  function WeightedFactors(re: Re, code: string): real
  {
    DetectSelfReference(re, code) * 0.25 + DetectAutonomy(re, code) * 0.25
    + Complexity(re, code) * 0.20 + DetectEmergence(re, code) * 0.20
    + DetectAdaptation(re, code) * 0.10
  }

  /** `_calculate_consciousness_score` (consciousness_analyzer.py:56-69). */
  function ConsciousnessScore(re: Re, code: string): real
  {
    Min(1.0, Max(0.0, WeightedFactors(re, code)))
  }

  /**
   * The score lies in [0, 1]; since each factor lies in [0, 1] and the
   * weights sum to 1, the clamp never binds and the score is the weighted
   * sum itself.
   */
  lemma ScoreInRange(re: Re, code: string)
    ensures 0.0 <= WeightedFactors(re, code) <= 1.0
    ensures ConsciousnessScore(re, code) == WeightedFactors(re, code)
    ensures 0.0 <= ConsciousnessScore(re, code) <= 1.0
  {
    KeywordScores(re, code);
  }

  // ---------------------------------------------------------------------------
  // Detected patterns, and the pattern that does not compile
  // ---------------------------------------------------------------------------

  /**
   * `re.error` raised while compiling a pattern: a reference `\g` to a
   * group number `group` beyond the groups opened so far, at `position`.
   */
  datatype ReError = InvalidGroupReference(group: nat, position: nat)

  /**
   * The first back-reference `\1`..`\9` in `p`, scanning from index `i`
   * with `groups` capturing groups opened so far, that names a group not
   * yet opened; Python's `re` refuses to compile such a pattern.
   */
  function BadGroupReference(p: string, i: nat, groups: nat): Option<ReError>
    decreases |p| - i
  {
    if i >= |p| then None
    else if p[i] == '\\' && i + 1 < |p| then
      if '1' <= p[i + 1] <= '9' && p[i + 1] as int - '0' as int > groups then
        Some(InvalidGroupReference(p[i + 1] as int - '0' as int, i + 1))
      else BadGroupReference(p, i + 2, groups)
    else if p[i] == '(' && !(i + 1 < |p| && p[i + 1] == '?') then BadGroupReference(p, i + 1, groups + 1)
    else BadGroupReference(p, i + 1, groups)
  }

  /** The "Recursive Structures" pattern as consciousness_analyzer.py:192 writes it. */
  const RecursivePatternAsWritten: string := @"def\s+\w+.*:\s*.*\1"

  /** The same pattern with the function name captured, so that `\1` refers to it. */
  const RecursivePattern: string := @"def\s+(\w+).*:\s*.*\1"

  const SelfModifyingPattern: string := @"eval|exec|__dict__|setattr"
  const FeedbackPattern: string := @"feedback|loop|cycle|iterate"
  const DecisionPattern: string := @"if\s+.*:\s*.*else:"

  datatype PatternKind = SelfModifyingCode | RecursiveStructures | FeedbackLoops | ComplexDecisionMaking

  datatype DetectedPattern = DetectedPattern(kind: PatternKind, confidence: real)

  /**
   * `_detect_patterns` (consciousness_analyzer.py:176-218) with the
   * pattern `recursive` in place of the one on line 192: each of the four
   * patterns, in order, when its test holds; compiling `recursive` can
   * fail.
   */
  function DetectPatternsWith(re: Re, code: string, recursive: string): Result<seq<DetectedPattern>, ReError>
  {
    match BadGroupReference(recursive, 0, 0)
    case Some(e) => Err(e)
    case None =>
      Ok((if re.search(SelfModifyingPattern, code, false) then [DetectedPattern(SelfModifyingCode, 0.85)] else [])
         + (if re.count(recursive, code, false) > 0 then [DetectedPattern(RecursiveStructures, 0.72)] else [])
         + (if re.search(FeedbackPattern, code, true) then [DetectedPattern(FeedbackLoops, 0.68)] else [])
         + (if re.count(DecisionPattern, code, false) > 5 then [DetectedPattern(ComplexDecisionMaking, 0.75)] else []))
  }

  /** `_detect_patterns` as written. */
  function DetectPatternsAsWritten(re: Re, code: string): Result<seq<DetectedPattern>, ReError>
  {
    DetectPatternsWith(re, code, RecursivePatternAsWritten)
  }

  /** `_detect_patterns` with the corrected pattern. */
  function CorrectedPatterns(re: Re, code: string): Result<seq<DetectedPattern>, ReError>
  {
    DetectPatternsWith(re, code, RecursivePattern)
  }

  /**
   * `_detect_patterns` with the corrected pattern, appending each detected
   * pattern in turn; compiling the pattern is checked first.
   */
  method DetectPatterns(re: Re, code: string) returns (r: Result<seq<DetectedPattern>, ReError>)
    ensures r == CorrectedPatterns(re, code)
  {
    var compiled := BadGroupReference(RecursivePattern, 0, 0);
    if compiled.Some? {
      return Err(compiled.value);
    }
    var patterns: seq<DetectedPattern> := [];
    if re.search(SelfModifyingPattern, code, false) {
      patterns := [DetectedPattern(SelfModifyingCode, 0.85)];
    }
    if re.count(RecursivePattern, code, false) > 0 {
      patterns := patterns + [DetectedPattern(RecursiveStructures, 0.72)];
    }
    if re.search(FeedbackPattern, code, true) {
      patterns := patterns + [DetectedPattern(FeedbackLoops, 0.68)];
    }
    if re.count(DecisionPattern, code, false) > 5 {
      patterns := patterns + [DetectedPattern(ComplexDecisionMaking, 0.75)];
    }
    assert forall ps: seq<DetectedPattern> :: ps + [] == ps;
    r := Ok(patterns);
  }

  /**
   * As written, line 192 refers to group 1 in a pattern without groups:
   * compiling it fails at the digit, position 18, whatever the code.
   */
  lemma PatternsAsWrittenFail(re: Re, code: string)
    ensures BadGroupReference(RecursivePatternAsWritten, 0, 0) == Some(InvalidGroupReference(1, 18))
    ensures DetectPatternsAsWritten(re, code) == Err(InvalidGroupReference(1, 18))
  {
  }

  /** With the function name captured, `\1` refers to an open group: the pattern compiles. */
  lemma CorrectedPatternCompiles()
    ensures BadGroupReference(RecursivePattern, 0, 0) == None
  {
  }

  /** The entry `_detect_patterns` appends for kind `k`, with its fixed confidence. */
  function PatternEntry(k: PatternKind): DetectedPattern
  {
    match k
    case SelfModifyingCode => DetectedPattern(SelfModifyingCode, 0.85)
    case RecursiveStructures => DetectedPattern(RecursiveStructures, 0.72)
    case FeedbackLoops => DetectedPattern(FeedbackLoops, 0.68)
    case ComplexDecisionMaking => DetectedPattern(ComplexDecisionMaking, 0.75)
  }

  function PatternRank(k: PatternKind): nat
  {
    match k
    case SelfModifyingCode => 0
    case RecursiveStructures => 1
    case FeedbackLoops => 2
    case ComplexDecisionMaking => 3
  }

  /**
   * With the corrected pattern the detection succeeds; each kind appears
   * at most once, in the source's order, with its fixed confidence.
   */
  lemma DetectPatternsShape(re: Re, code: string)
    ensures CorrectedPatterns(re, code).Ok?
    ensures var ps := CorrectedPatterns(re, code).value;
      && |ps| <= 4
      && (forall i, j :: 0 <= i < j < |ps| ==> PatternRank(ps[i].kind) < PatternRank(ps[j].kind))
      && (forall j :: 0 <= j < |ps| ==> ps[j] == PatternEntry(ps[j].kind))
  {
    CorrectedPatternCompiles();
  }

  /**
   * Each kind's entry is reported exactly when its test holds (the
   * decision pattern needs more than 5 matches).
   */
  lemma DetectPatternsSpec(re: Re, code: string)
    ensures CorrectedPatterns(re, code).Ok?
    ensures var ps := CorrectedPatterns(re, code).value;
      && (PatternEntry(SelfModifyingCode) in ps <==> re.search(SelfModifyingPattern, code, false))
      && (PatternEntry(RecursiveStructures) in ps <==> re.count(RecursivePattern, code, false) > 0)
      && (PatternEntry(FeedbackLoops) in ps <==> re.search(FeedbackPattern, code, true))
      && (PatternEntry(ComplexDecisionMaking) in ps <==> re.count(DecisionPattern, code, false) > 5)
  {
    CorrectedPatternCompiles();
  }

  // ---------------------------------------------------------------------------
  // Behavioural loops
  // ---------------------------------------------------------------------------

  datatype LoopKind = NotificationLoop | EngagementLoop | RewardLoop | SocialLoop

  function LoopRank(k: LoopKind): nat
  {
    match k
    case NotificationLoop => 0
    case EngagementLoop => 1
    case RewardLoop => 2
    case SocialLoop => 3
  }

  datatype LoopType = LoopType(kind: LoopKind, pattern: string, description: string)

  /** `loop_types` (consciousness_analyzer.py:226-247). */
  const LoopTypes: seq<LoopType> := [
    LoopType(NotificationLoop, @"notification|alert|trigger", "User \U{E2}\U{2020}\U{2019} Notification \U{E2}\U{2020}\U{2019} Action \U{E2}\U{2020}\U{2019} Reward \U{E2}\U{2020}\U{2019} Habit"),
    LoopType(EngagementLoop, @"engagement|interaction|activity", "System designed to maximize user engagement"),
    LoopType(RewardLoop, @"reward|points|score|achievement", "Gamification creating addictive behavior"),
    LoopType(SocialLoop, @"social|like|share|comment", "Social validation creating compulsive behavior")
  ]

  const High: string := "high"

  datatype BehavioralLoop = BehavioralLoop(kind: LoopKind, detected: bool, description: string, severity: string)

  /** The entry reported for loop type `t` when its pattern is found. */
  function LoopEntry(t: LoopType): BehavioralLoop
  {
    BehavioralLoop(t.kind, true, t.description, High)
  }

  /** The loops reported for the types `types`, in order. */
  function LoopsAmong(re: Re, code: string, types: seq<LoopType>): seq<BehavioralLoop>
  {
    if |types| == 0 then []
    else
      var t := types[|types| - 1];
      LoopsAmong(re, code, types[..|types| - 1]) + (if re.search(t.pattern, code, true) then [LoopEntry(t)] else [])
  }

  /** `_detect_behavioral_loops` (consciousness_analyzer.py:220-258). */
  method DetectBehavioralLoops(re: Re, code: string) returns (loops: seq<BehavioralLoop>)
    ensures loops == LoopsAmong(re, code, LoopTypes)
  {
    loops := [];
    var i := 0;
    while i < |LoopTypes|
      invariant 0 <= i <= |LoopTypes|
      invariant loops == LoopsAmong(re, code, LoopTypes[..i])
    {
      var loopType := LoopTypes[i];
      assert LoopTypes[..i + 1][..i] == LoopTypes[..i];
      if re.search(loopType.pattern, code, true) {
        loops := loops + [BehavioralLoop(loopType.kind, true, loopType.description, High)];
      }
      i := i + 1;
    }
    assert LoopTypes[..i] == LoopTypes;
  }

  /** The kinds of `types` strictly increase in rank. */
  predicate LoopKindsIncrease(types: seq<LoopType>)
  {
    forall i, j :: 0 <= i < j < |types| ==> LoopRank(types[i].kind) < LoopRank(types[j].kind)
  }

  /**
   * For loop types of increasing rank: every reported loop is detected
   * with severity "high", ranks no higher than the last type, the ranks
   * increase along the list, and a type is reported exactly when its
   * pattern is found.
   */
  lemma {:induction false} LoopsAmongSpec(re: Re, code: string, types: seq<LoopType>)
    requires LoopKindsIncrease(types)
    ensures var loops := LoopsAmong(re, code, types);
      && (|types| == 0 ==> loops == [])
      && (forall j :: 0 <= j < |loops| ==> loops[j].detected && loops[j].severity == High)
      && (|types| > 0 ==> forall j :: 0 <= j < |loops| ==> LoopRank(loops[j].kind) <= LoopRank(types[|types| - 1].kind))
      && (forall i, j :: 0 <= i < j < |loops| ==> LoopRank(loops[i].kind) < LoopRank(loops[j].kind))
      && (forall t :: t in types ==> (LoopEntry(t) in loops <==> re.search(t.pattern, code, true)))
  {
    if |types| > 0 {
      var front := types[..|types| - 1];
      var last := types[|types| - 1];
      LoopsAmongSpec(re, code, front);
      var earlier := LoopsAmong(re, code, front);
      var loops := LoopsAmong(re, code, types);
      assert front[..] == front;
      assert |front| > 0 ==> LoopRank(front[|front| - 1].kind) < LoopRank(last.kind);
      assert LoopEntry(last) !in earlier;
      forall t | t in types
        ensures LoopEntry(t) in loops <==> re.search(t.pattern, code, true)
      {
        var k :| 0 <= k < |types| && types[k] == t;
        if k < |types| - 1 {
          assert t in front;
          assert LoopEntry(t) != LoopEntry(last);
        }
      }
    }
  }

  /** Every loop of `loops` is the entry of one of `types`. */
  predicate EntriesOf(loops: seq<BehavioralLoop>, types: seq<LoopType>)
  {
    forall j :: 0 <= j < |loops| ==> exists t :: t in types && loops[j] == LoopEntry(t)
  }

  /** Every reported loop is the entry of one of the types. */
  lemma {:induction false} LoopsAmongEntries(re: Re, code: string, types: seq<LoopType>)
    ensures EntriesOf(LoopsAmong(re, code, types), types)
  {
    if |types| > 0 {
      var front := types[..|types| - 1];
      var last := types[|types| - 1];
      LoopsAmongEntries(re, code, front);
      var earlier := LoopsAmong(re, code, front);
      var loops := LoopsAmong(re, code, types);
      assert loops == earlier + (if re.search(last.pattern, code, true) then [LoopEntry(last)] else []);
      forall j | 0 <= j < |loops|
        ensures exists t :: t in types && loops[j] == LoopEntry(t)
      {
        if j < |earlier| {
          var t :| t in front && earlier[j] == LoopEntry(t);
          assert loops[j] == earlier[j] && t in types;
        } else {
          assert loops[j] == LoopEntry(last);
        }
      }
    }
  }

  /** The loop types are listed in rank order. */
  lemma LoopTypesInOrder()
    ensures LoopKindsIncrease(LoopTypes)
  {
  }

  /**
   * `_detect_behavioral_loops` returns an order-preserving sub-list of the
   * four loop types, each at most once, each detected with severity
   * "high", holding exactly the types whose pattern is found.
   */
  lemma BehavioralLoopsSpec(re: Re, code: string)
    ensures var loops := LoopsAmong(re, code, LoopTypes);
      && |loops| <= 4
      && (forall j :: 0 <= j < |loops| ==> loops[j].detected && loops[j].severity == High)
      && (forall i, j :: 0 <= i < j < |loops| ==> LoopRank(loops[i].kind) < LoopRank(loops[j].kind))
      && (forall t :: t in LoopTypes ==> (LoopEntry(t) in loops <==> re.search(t.pattern, code, true)))
      && (forall j :: 0 <= j < |loops| ==> exists t :: t in LoopTypes && loops[j] == LoopEntry(t))
  {
    LoopTypesInOrder();
    LoopsAmongSpec(re, code, LoopTypes);
    LoopsAmongEntries(re, code, LoopTypes);
    var loops := LoopsAmong(re, code, LoopTypes);
    RanksBound(seq(|loops|, j requires 0 <= j < |loops| => LoopRank(loops[j].kind)), 4);
  }

  /** A strictly increasing list of numbers below `n` has at most `n` elements. */
  lemma {:induction false} RanksBound(ranks: seq<nat>, n: nat)
    requires forall j :: 0 <= j < |ranks| ==> ranks[j] < n
    requires forall i, j :: 0 <= i < j < |ranks| ==> ranks[i] < ranks[j]
    ensures |ranks| <= n
  {
    if |ranks| > 0 {
      var last := ranks[|ranks| - 1];
      RanksBound(ranks[..|ranks| - 1], last);
    }
  }

  // ---------------------------------------------------------------------------
  // Psychological triggers
  // ---------------------------------------------------------------------------

  datatype TriggerKind = Scarcity | SocialProof | Authority | Reciprocity

  function TriggerRank(k: TriggerKind): nat
  {
    match k
    case Scarcity => 0
    case SocialProof => 1
    case Authority => 2
    case Reciprocity => 3
  }

  datatype TriggerType = TriggerType(kind: TriggerKind, patterns: seq<string>, effect: string)

  /** `trigger_types` (consciousness_analyzer.py:266-287). */
  const TriggerTypes: seq<TriggerType> := [
    TriggerType(Scarcity, [@"limited|exclusive|rare|scarce"], "Creates urgency and impulsive decisions"),
    TriggerType(SocialProof, [@"popular|trending|everyone|most"], "Influences through conformity"),
    TriggerType(Authority, [@"expert|certified|verified|official"], "Increases trust and compliance"),
    TriggerType(Reciprocity, [@"free|gift|bonus|offer"], "Creates obligation to reciprocate")
  ]

  datatype Trigger = Trigger(kind: TriggerKind, pattern: string, effect: string, confidence: real)

  /** The first of `patterns` that `re.search` finds, ignoring case. */
  function FirstFound(re: Re, code: string, patterns: seq<string>): (r: Option<string>)
    ensures r.None? <==> forall i :: 0 <= i < |patterns| ==> !re.search(patterns[i], code, true)
    ensures r.Some? ==> r.value in patterns && re.search(r.value, code, true)
  {
    if |patterns| == 0 then None
    else if re.search(patterns[0], code, true) then Some(patterns[0])
    else
      var r := FirstFound(re, code, patterns[1..]);
      assert forall i :: 0 < i < |patterns| ==> patterns[i] == patterns[1..][i - 1];
      r
  }

  /** The entry reported for trigger type `t`, if one of its patterns is found. */
  function TriggerEntry(re: Re, code: string, t: TriggerType): Option<Trigger>
  {
    match FirstFound(re, code, t.patterns)
    case Some(p) => Some(Trigger(t.kind, p, t.effect, 0.65))
    case None => None
  }

  /** The triggers reported for the types `types`, in order. */
  function TriggersAmong(re: Re, code: string, types: seq<TriggerType>): seq<Trigger>
  {
    if |types| == 0 then []
    else
      var t := types[|types| - 1];
      TriggersAmong(re, code, types[..|types| - 1])
      + (match TriggerEntry(re, code, t) case Some(e) => [e] case None => [])
  }

  /**
   * `_detect_psychological_triggers` (consciousness_analyzer.py:260-300):
   * for each trigger type, the first of its patterns that is found, if
   * any; the `break` stops at that pattern.
   */
  method DetectPsychologicalTriggers(re: Re, code: string) returns (triggers: seq<Trigger>)
    ensures triggers == TriggersAmong(re, code, TriggerTypes)
  {
    triggers := [];
    var i := 0;
    while i < |TriggerTypes|
      invariant 0 <= i <= |TriggerTypes|
      invariant triggers == TriggersAmong(re, code, TriggerTypes[..i])
    {
      var trigger := TriggerTypes[i];
      assert TriggerTypes[..i + 1][..i] == TriggerTypes[..i];
      var j := 0;
      while j < |trigger.patterns|
        invariant 0 <= j <= |trigger.patterns|
        invariant forall k :: 0 <= k < j ==> !re.search(trigger.patterns[k], code, true)
      {
        var pattern := trigger.patterns[j];
        if re.search(pattern, code, true) {
          FirstFoundAt(re, code, trigger.patterns, j);
          triggers := triggers + [Trigger(trigger.kind, pattern, trigger.effect, 0.65)];
          break;
        }
        j := j + 1;
      }
      i := i + 1;
    }
    assert TriggerTypes[..i] == TriggerTypes;
  }

  /** A pattern found after none before it is the first found. */
  lemma {:induction false} FirstFoundAt(re: Re, code: string, patterns: seq<string>, j: nat)
    requires j < |patterns| && re.search(patterns[j], code, true)
    requires forall k :: 0 <= k < j ==> !re.search(patterns[k], code, true)
    ensures FirstFound(re, code, patterns) == Some(patterns[j])
  {
    if j > 0 {
      FirstFoundAt(re, code, patterns[1..], j - 1);
    }
  }

  /** The kinds of `types` strictly increase in rank. */
  predicate TriggerKindsIncrease(types: seq<TriggerType>)
  {
    forall i, j :: 0 <= i < j < |types| ==> TriggerRank(types[i].kind) < TriggerRank(types[j].kind)
  }

  /** Every entry has confidence 0.65 and a pattern that is found. */
  predicate FoundEntries(re: Re, code: string, ts: seq<Trigger>)
  {
    forall j :: 0 <= j < |ts| ==> ts[j].confidence == 0.65 && re.search(ts[j].pattern, code, true)
  }

  predicate TriggerRanksIncrease(ts: seq<Trigger>)
  {
    forall i, j :: 0 <= i < j < |ts| ==> TriggerRank(ts[i].kind) < TriggerRank(ts[j].kind)
  }

  predicate TriggerRanksBelow(ts: seq<Trigger>, bound: nat)
  {
    forall j :: 0 <= j < |ts| ==> TriggerRank(ts[j].kind) < bound
  }

  /**
   * For trigger types of increasing rank: every entry has confidence 0.65
   * and a pattern that is found, ranks no higher than the last type, and
   * the ranks increase along the list.
   */
  lemma {:induction false} TriggersAmongShape(re: Re, code: string, types: seq<TriggerType>)
    requires TriggerKindsIncrease(types)
    ensures |types| == 0 ==> TriggersAmong(re, code, types) == []
    ensures FoundEntries(re, code, TriggersAmong(re, code, types))
    ensures |types| > 0 ==> TriggerRanksBelow(TriggersAmong(re, code, types), TriggerRank(types[|types| - 1].kind) + 1)
    ensures TriggerRanksIncrease(TriggersAmong(re, code, types))
  {
    if |types| > 0 {
      var front := types[..|types| - 1];
      TriggersAmongShape(re, code, front);
      var last := types[|types| - 1];
      var bound := TriggerRank(last.kind);
      assert |front| > 0 ==> TriggerRank(front[|front| - 1].kind) < bound;
      var earlier := TriggersAmong(re, code, front);
      assert TriggerRanksBelow(earlier, bound);
      match TriggerEntry(re, code, last)
      case None =>
        assert TriggersAmong(re, code, types) == earlier;
      case Some(e) =>
        var ts := earlier + [e];
        assert TriggersAmong(re, code, types) == ts;
        var found := FirstFound(re, code, last.patterns);
        assert e == Trigger(last.kind, found.value, last.effect, 0.65);
        assert forall j :: 0 <= j < |earlier| ==> ts[j] == earlier[j];
        assert ts[|earlier|] == e;
    }
  }

  /**
   * For trigger types of increasing rank, a type has an entry exactly when
   * one of its patterns is found, and that entry is the type's own.
   */
  lemma {:induction false} TriggersAmongMembers(re: Re, code: string, types: seq<TriggerType>)
    requires TriggerKindsIncrease(types)
    ensures var ts := TriggersAmong(re, code, types);
      && (forall t :: t in types ==> (TriggerEntry(re, code, t).Some? ==> TriggerEntry(re, code, t).value in ts))
      && (forall t :: t in types ==> (TriggerEntry(re, code, t).None? ==> forall j :: 0 <= j < |ts| ==> ts[j].kind != t.kind))
  {
    if |types| > 0 {
      var front := types[..|types| - 1];
      var last := types[|types| - 1];
      TriggersAmongMembers(re, code, front);
      TriggersAmongShape(re, code, front);
      var earlier := TriggersAmong(re, code, front);
      var ts := TriggersAmong(re, code, types);
      assert |front| > 0 ==> TriggerRank(front[|front| - 1].kind) < TriggerRank(last.kind);
      forall t | t in types
        ensures TriggerEntry(re, code, t).Some? ==> TriggerEntry(re, code, t).value in ts
        ensures TriggerEntry(re, code, t).None? ==> forall j :: 0 <= j < |ts| ==> ts[j].kind != t.kind
      {
        var k :| 0 <= k < |types| && types[k] == t;
        if k < |types| - 1 {
          assert t in front;
          assert TriggerRank(t.kind) < TriggerRank(last.kind);
        }
      }
    }
  }

  /** The trigger types are listed in rank order. */
  lemma TriggerTypesInOrder()
    ensures TriggerKindsIncrease(TriggerTypes)
  {
  }

  /**
   * `_detect_psychological_triggers` yields at most one entry per trigger
   * type, in the fixed order Scarcity, Social Proof, Authority,
   * Reciprocity, each with confidence 0.65 and a pattern that is found.
   */
  lemma PsychologicalTriggersOrdered(re: Re, code: string)
    ensures var ts := TriggersAmong(re, code, TriggerTypes);
      && |ts| <= 4
      && (forall j :: 0 <= j < |ts| ==> ts[j].confidence == 0.65 && re.search(ts[j].pattern, code, true))
      && (forall i, j :: 0 <= i < j < |ts| ==> TriggerRank(ts[i].kind) < TriggerRank(ts[j].kind))
  {
    TriggerTypesInOrder();
    TriggersAmongShape(re, code, TriggerTypes);
    var ts := TriggersAmong(re, code, TriggerTypes);
    RanksBound(seq(|ts|, j requires 0 <= j < |ts| => TriggerRank(ts[j].kind)), 4);
  }

  /**
   * A trigger type has its entry exactly when one of its patterns is
   * found, and the entry carries the first such pattern of its list.
   */
  lemma PsychologicalTriggersPresent(re: Re, code: string)
    ensures var ts := TriggersAmong(re, code, TriggerTypes);
      forall t :: t in TriggerTypes ==>
        && ((exists j :: 0 <= j < |ts| && ts[j].kind == t.kind)
            <==> exists i :: 0 <= i < |t.patterns| && re.search(t.patterns[i], code, true))
        && (FirstFound(re, code, t.patterns).Some? ==>
              Trigger(t.kind, FirstFound(re, code, t.patterns).value, t.effect, 0.65) in ts)
  {
    TriggerTypesInOrder();
    TriggersAmongMembers(re, code, TriggerTypes);
    var ts := TriggersAmong(re, code, TriggerTypes);
    forall t | t in TriggerTypes
      ensures (exists j :: 0 <= j < |ts| && ts[j].kind == t.kind)
             <==> exists i :: 0 <= i < |t.patterns| && re.search(t.patterns[i], code, true)
    {
      var found := FirstFound(re, code, t.patterns);
      if found.Some? {
        var j :| 0 <= j < |ts| && ts[j] == TriggerEntry(re, code, t).value;
        assert ts[j].kind == t.kind;
        var i :| 0 <= i < |t.patterns| && t.patterns[i] == found.value;
      }
    }
  }

  // ---------------------------------------------------------------------------
  // Emergent properties and predictions
  // ---------------------------------------------------------------------------

  datatype PropertyKind = EmergentComplexity | CascadingEffects | ParallelProcessing

  datatype EmergentProperty = EmergentProperty(kind: PropertyKind, confidence: real)

  const CascadePattern: string := @"loop|recursion|cascade"
  const ParallelPattern: string := @"parallel|concurrent|async"

  /** `_detect_emergent_properties` (consciousness_analyzer.py:302-329). */
  function EmergentProperties(re: Re, code: string): seq<EmergentProperty>
  {
    (if Complexity(re, code) > 0.6 then [EmergentProperty(EmergentComplexity, 0.78)] else [])
    + (if re.search(CascadePattern, code, true) then [EmergentProperty(CascadingEffects, 0.72)] else [])
    + (if re.search(ParallelPattern, code, true) then [EmergentProperty(ParallelProcessing, 0.68)] else [])
  }

  /** `_detect_emergent_properties`, appending each property in turn. */
  method DetectEmergentProperties(re: Re, code: string) returns (properties: seq<EmergentProperty>)
    ensures properties == EmergentProperties(re, code)
  {
    properties := [];
    if Complexity(re, code) > 0.6 {
      properties := properties + [EmergentProperty(EmergentComplexity, 0.78)];
    }
    if re.search(CascadePattern, code, true) {
      properties := properties + [EmergentProperty(CascadingEffects, 0.72)];
    }
    if re.search(ParallelPattern, code, true) {
      properties := properties + [EmergentProperty(ParallelProcessing, 0.68)];
    }
  }

  function PropertyRank(k: PropertyKind): nat
  {
    match k
    case EmergentComplexity => 0
    case CascadingEffects => 1
    case ParallelProcessing => 2
  }

  /** The entry `_detect_emergent_properties` appends for kind `k`, with its fixed confidence. */
  function PropertyEntry(k: PropertyKind): EmergentProperty
  {
    match k
    case EmergentComplexity => EmergentProperty(EmergentComplexity, 0.78)
    case CascadingEffects => EmergentProperty(CascadingEffects, 0.72)
    case ParallelProcessing => EmergentProperty(ParallelProcessing, 0.68)
  }

  /**
   * Each property is reported at most once, in the source's order
   * (complexity, cascading, parallel), with its fixed confidence, exactly
   * when its test holds.
   */
  lemma EmergentPropertiesSpec(re: Re, code: string)
    ensures var ps := EmergentProperties(re, code);
      && |ps| <= 3
      && (forall i, j :: 0 <= i < j < |ps| ==> PropertyRank(ps[i].kind) < PropertyRank(ps[j].kind))
      && (forall j :: 0 <= j < |ps| ==> ps[j] == PropertyEntry(ps[j].kind))
      && (EmergentProperty(EmergentComplexity, 0.78) in ps <==> Complexity(re, code) > 0.6)
      && (EmergentProperty(CascadingEffects, 0.72) in ps <==> re.search(CascadePattern, code, true))
      && (EmergentProperty(ParallelProcessing, 0.68) in ps <==> re.search(ParallelPattern, code, true))
  {
  }

  datatype Impact = HighImpact | CriticalImpact

  datatype Prediction = Prediction(timeline: string, prediction: string, confidence: real, impact: Impact)

  /** The predictions of consciousness_analyzer.py:339-364 for the level `level`. */
  function PredictionsFor(level: real): seq<Prediction>
  {
    if level > 0.7 then
      [ Prediction("6-12 months", "System will exhibit autonomous decision-making", 0.82, CriticalImpact),
        Prediction("1-2 years", "Emergence of self-modifying behaviors", 0.75, HighImpact),
        Prediction("2-5 years", "Potential consciousness singularity", 0.68, CriticalImpact) ]
    else if level > 0.5 then
      [ Prediction("1-2 years", "System will reach critical consciousness threshold", 0.72, HighImpact) ]
    else []
  }

  /** `_predict_future_consciousness` (consciousness_analyzer.py:331-366). */
  method PredictFutureConsciousness(re: Re, code: string) returns (predictions: seq<Prediction>)
    ensures predictions == PredictionsFor(ConsciousnessScore(re, code))
  {
    predictions := [];
    var level := ConsciousnessScore(re, code);
    if level > 0.7 {
      predictions := predictions + [Prediction("6-12 months", "System will exhibit autonomous decision-making", 0.82, CriticalImpact)];
      predictions := predictions + [Prediction("1-2 years", "Emergence of self-modifying behaviors", 0.75, HighImpact)];
      predictions := predictions + [Prediction("2-5 years", "Potential consciousness singularity", 0.68, CriticalImpact)];
    } else if level > 0.5 {
      predictions := predictions + [Prediction("1-2 years", "System will reach critical consciousness threshold", 0.72, HighImpact)];
    }
  }

  /**
   * Three predictions above 0.7, exactly one in (0.5, 0.7], none
   * otherwise; so a higher score never gives fewer predictions.
   */
  lemma PredictionCount(level: real, higher: real)
    requires level <= higher
    ensures |PredictionsFor(level)| == 3 <==> level > 0.7
    ensures |PredictionsFor(level)| == 1 <==> 0.5 < level <= 0.7
    ensures |PredictionsFor(level)| == 0 <==> level <= 0.5
    ensures |PredictionsFor(level)| <= |PredictionsFor(higher)|
  {
  }

  // ---------------------------------------------------------------------------
  // Metrics
  // ---------------------------------------------------------------------------

  datatype Metrics = Metrics(
    totalLines: nat, functions: nat, classes: nat,
    complexityScore: real, selfReferenceScore: real, autonomyScore: real, emergenceScore: real)

  /** `_calculate_metrics` (consciousness_analyzer.py:368-384). */
  function CalculateMetrics(re: Re, code: string): Metrics
  {
    Metrics(LineCount(code), re.count(FunctionPattern, code, false), re.count(ClassPattern, code, false),
      Complexity(re, code), DetectSelfReference(re, code), DetectAutonomy(re, code), DetectEmergence(re, code))
  }

  /** `'\n'.join(files)`: the code of all files (consciousness_analyzer.py:42). */
  function AllCode(files: seq<string>): string
  {
    Join(files, "\n")
  }

  /** Total number of newlines inside the files. */
  function NewlinesIn(files: seq<string>): nat
  {
    if |files| == 0 then 0 else Count(files[0], '\n') + NewlinesIn(files[1..])
  }

  /** Joining `n` files with newlines adds `n - 1` newlines. */
  lemma {:induction false} JoinedNewlines(files: seq<string>)
    requires |files| >= 1
    ensures Count(AllCode(files), '\n') == |files| - 1 + NewlinesIn(files)
  {
    if |files| > 1 {
      JoinedNewlines(files[1..]);
      CountAppend(files[0], "\n", '\n');
      CountAppend(files[0] + "\n", AllCode(files[1..]), '\n');
      assert Count("\n", '\n') == 1;
    }
  }

  /**
   * `total_lines` is one more than the number of newlines in the code;
   * for the joined files it is the number of files plus the newlines
   * inside them, and 1 when there is no file.
   */
  lemma TotalLines(re: Re, files: seq<string>)
    ensures CalculateMetrics(re, AllCode(files)).totalLines == 1 + Count(AllCode(files), '\n')
    ensures |files| >= 1 ==> CalculateMetrics(re, AllCode(files)).totalLines == |files| + NewlinesIn(files)
    ensures |files| == 0 ==> CalculateMetrics(re, AllCode(files)).totalLines == 1
  {
    JoinedLineCount(files);
  }

  /** The number of lines of the joined files, by newline count and by file. */
  lemma JoinedLineCount(files: seq<string>)
    ensures LineCount(AllCode(files)) == 1 + Count(AllCode(files), '\n')
    ensures |files| >= 1 ==> LineCount(AllCode(files)) == |files| + NewlinesIn(files)
    ensures |files| == 0 ==> LineCount(AllCode(files)) == 1
  {
    SplitLength(AllCode(files), '\n');
    if |files| >= 1 {
      JoinedNewlines(files);
    } else {
      assert AllCode(files) == "";
    }
  }

  // ---------------------------------------------------------------------------
  // Risk
  // ---------------------------------------------------------------------------

  datatype RiskLevel = Low | Moderate | HighRisk | Critical

  function RiskRank(r: RiskLevel): nat
  {
    match r
    case Low => 0
    case Moderate => 1
    case HighRisk => 2
    case Critical => 3
  }

  datatype Risk = Risk(riskLevel: RiskLevel, status: string, recommendations: seq<string>)

  /**
   * `_assess_consciousness_risk` (consciousness_analyzer.py:386-427) for
   * the level `level`.  The status strings begin with the characters the
   * source file holds: the UTF-8 bytes of a coloured-circle emoji read as
   * Windows-1252.
   */
  function AssessRisk(level: real): Risk
  {
    if level > 0.8 then
      Risk(Critical, "\U{F0}\U{178}\U{201D}\U{B4} NASCENT CONSCIOUSNESS DETECTED",
        ["Implement consciousness monitoring", "Establish ethical guidelines",
         "Consider consciousness rights", "Prepare for autonomous behavior"])
    else if level > 0.6 then
      Risk(HighRisk, "\U{F0}\U{178}\U{178}\U{A0} APPROACHING CONSCIOUSNESS THRESHOLD",
        ["Monitor for emergent behaviors", "Document consciousness indicators", "Establish safety measures"])
    else if level > 0.4 then
      Risk(Moderate, "\U{F0}\U{178}\U{178}\U{A1} CONSCIOUSNESS PATTERNS DETECTED", ["Continue monitoring", "Document patterns"])
    else
      Risk(Low, "\U{F0}\U{178}\U{178}\U{A2} STANDARD SYSTEM", [])
  }

  /**
   * Strict thresholds: CRITICAL with 4 recommendations above 0.8, HIGH with
   * 3 above 0.6, MODERATE with 2 above 0.4, LOW with none otherwise; and a
   * larger level never gives a lower risk.
   */
  lemma RiskClassification(level: real, higher: real)
    requires level <= higher
    ensures AssessRisk(level).riskLevel == Critical <==> level > 0.8
    ensures AssessRisk(level).riskLevel == HighRisk <==> 0.6 < level <= 0.8
    ensures AssessRisk(level).riskLevel == Moderate <==> 0.4 < level <= 0.6
    ensures AssessRisk(level).riskLevel == Low <==> level <= 0.4
    ensures |AssessRisk(level).recommendations| == [0, 2, 3, 4][RiskRank(AssessRisk(level).riskLevel)]
    ensures RiskRank(AssessRisk(level).riskLevel) <= RiskRank(AssessRisk(higher).riskLevel)
  {
  }

  // ---------------------------------------------------------------------------
  // The whole analysis
  // ---------------------------------------------------------------------------

  datatype Analysis = Analysis(
    consciousnessLevel: real,
    patternsDetected: seq<DetectedPattern>,
    behavioralLoops: seq<BehavioralLoop>,
    psychologicalTriggers: seq<Trigger>,
    emergentProperties: seq<EmergentProperty>,
    futurePredictions: seq<Prediction>,
    metrics: Metrics,
    riskAssessment: Risk)

  /**
   * `analyze_repository` (consciousness_analyzer.py:26-54) on the files'
   * contents, in dictionary order, with `_detect_patterns` taking the
   * pattern `recursive`; it fails when that pattern does not compile.
   */
  function AnalysisWith(re: Re, files: seq<string>, recursive: string): Result<Analysis, ReError>
  {
    var code := AllCode(files);
    var level := ConsciousnessScore(re, code);
    match DetectPatternsWith(re, code, recursive)
    case Err(e) => Err(e)
    case Ok(patterns) =>
      Ok(Analysis(level, patterns, LoopsAmong(re, code, LoopTypes), TriggersAmong(re, code, TriggerTypes),
        EmergentProperties(re, code), PredictionsFor(level), CalculateMetrics(re, code),
        AssessRisk(level)))
  }

  /**
   * `analyze_repository` as written never returns normally: the pattern of
   * line 192 does not compile (and `analyze_code_files`, line 430-435,
   * raises with it).
   */
  lemma AnalysisAsWrittenFails(re: Re, files: seq<string>)
    ensures AnalysisWith(re, files, RecursivePatternAsWritten) == Err(InvalidGroupReference(1, 18))
  {
    PatternsAsWrittenFail(re, AllCode(files));
  }

  /**
   * `analyze_repository` with the corrected pattern, running the
   * detectors in the source's order.
   */
  method AnalyzeRepository(re: Re, files: seq<string>) returns (r: Result<Analysis, ReError>)
    ensures r == AnalysisWith(re, files, RecursivePattern)
  {
    var code := AllCode(files);
    var level := ConsciousnessScore(re, code);
    var patterns := DetectPatterns(re, code);
    if patterns.Err? {
      return Err(patterns.error);
    }
    var loops := DetectBehavioralLoops(re, code);
    var triggers := DetectPsychologicalTriggers(re, code);
    var properties := DetectEmergentProperties(re, code);
    var predictions := PredictFutureConsciousness(re, code);
    r := Ok(Analysis(level, patterns.value, loops, triggers, properties, predictions,
      CalculateMetrics(re, code), AssessRisk(level)));
  }

  /**
   * With the corrected pattern the analysis succeeds; its level lies in
   * [0, 1], the risk and the predictions follow the level, and the
   * metrics' scores are the keyword scores.
   */
  lemma CorrectedAnalysis(re: Re, files: seq<string>)
    ensures AnalysisWith(re, files, RecursivePattern).Ok?
    ensures var a := AnalysisWith(re, files, RecursivePattern).value;
      && 0.0 <= a.consciousnessLevel <= 1.0
      && a.riskAssessment == AssessRisk(a.consciousnessLevel)
      && a.futurePredictions == PredictionsFor(a.consciousnessLevel)
      && a.patternsDetected == CorrectedPatterns(re, AllCode(files)).value
      && a.behavioralLoops == LoopsAmong(re, AllCode(files), LoopTypes)
      && a.psychologicalTriggers == TriggersAmong(re, AllCode(files), TriggerTypes)
      && a.emergentProperties == EmergentProperties(re, AllCode(files))
      && a.metrics.totalLines == 1 + Count(AllCode(files), '\n')
      && a.metrics.complexityScore == Complexity(re, AllCode(files))
      && a.metrics.selfReferenceScore == DetectSelfReference(re, AllCode(files))
      && a.metrics.autonomyScore == DetectAutonomy(re, AllCode(files))
      && a.metrics.emergenceScore == DetectEmergence(re, AllCode(files))
      && 0.0 <= a.metrics.selfReferenceScore <= 1.0
      && 0.0 <= a.metrics.autonomyScore <= 1.0
      && 0.0 <= a.metrics.emergenceScore <= 1.0
  {
    CorrectedPatternCompiles();
    ScoreInRange(re, AllCode(files));
    KeywordScores(re, AllCode(files));
    JoinedLineCount(files);
  }
}
