/**
 * The JavaScript `ConsciousnessEngine` (consciousness-engine.js): the
 * keyword scan over function names, the fixed loop and trigger lists, the
 * clamped influence score, the five indicator detectors, the weighted
 * consciousness level and the report.
 *
 * Each `Math.random()` draw is a parameter of the member that makes it;
 * the properties that need a draw in [0, 1) say so.  Timestamps are not
 * modelled.
 */
module ConsciousnessEngine {
  import opened Wrappers
  import opened Text
  import opened Numbers

  // ---------------------------------------------------------------------------
  // Persuasion mechanisms
  // ---------------------------------------------------------------------------

  /** A function of the analysed code; the scan reads only its name. */
  datatype FunctionInfo = FunctionInfo(name: string)

  /** The code structure; `functions` may be absent. */
  datatype CodeStructure = CodeStructure(functions: Option<seq<FunctionInfo>>)

  /** `persuasionKeywords` (consciousness-engine.js:20-31). */
  const PersuasionKeywords: seq<string> := [
    "notification", "engagement", "retention", "addiction", "reward",
    "dopamine", "habit", "loop", "trigger", "action"]

  const HumanImpactPrefix: string := "This function likely influences user behavior through "

  datatype PersuasionMechanism = PersuasionMechanism(functionName: string, mechanism: string, severity: string, humanImpact: string)

  /** The entry pushed for function `name` matching `keyword`. */
  function MechanismOf(name: string, keyword: string): PersuasionMechanism
  {
    PersuasionMechanism(name, keyword, "high", HumanImpactPrefix + keyword)
  }

  /** `func.name.toLowerCase().includes(keyword)` */
  predicate Mentions(name: string, keyword: string)
  {
    Contains(Lower(name), keyword)
  }

  /** The entries for one function name, in the order of `keywords`. */
  function KeywordMatches(name: string, keywords: seq<string>): seq<PersuasionMechanism>
  {
    if |keywords| == 0 then []
    else
      var k := keywords[|keywords| - 1];
      KeywordMatches(name, keywords[..|keywords| - 1]) + (if Mentions(name, k) then [MechanismOf(name, k)] else [])
  }

  /** The entries for the functions `fs`, by function and then by keyword. */
  function MechanismsAmong(fs: seq<FunctionInfo>): seq<PersuasionMechanism>
  {
    if |fs| == 0 then []
    else MechanismsAmong(fs[..|fs| - 1]) + KeywordMatches(fs[|fs| - 1].name, PersuasionKeywords)
  }

  /** `persuasionMechanisms` for a code structure; none when `functions` is absent. */
  function Mechanisms(cs: CodeStructure): seq<PersuasionMechanism>
  {
    match cs.functions
    case None => []
    case Some(fs) => MechanismsAmong(fs)
  }

  function Names(fs: seq<FunctionInfo>): seq<string>
  {
    seq(|fs|, i requires 0 <= i < |fs| => fs[i].name)
  }

  /** The entries of one name are those of the keywords it mentions. */
  lemma {:induction false} KeywordMatchesMembers(name: string, keywords: seq<string>)
    ensures forall j :: 0 <= j < |KeywordMatches(name, keywords)| ==>
      KeywordMatches(name, keywords)[j].functionName == name
      && KeywordMatches(name, keywords)[j].mechanism in keywords
      && KeywordMatches(name, keywords)[j] == MechanismOf(name, KeywordMatches(name, keywords)[j].mechanism)
    ensures forall k :: k in keywords ==> (MechanismOf(name, k) in KeywordMatches(name, keywords) <==> Mentions(name, k))
  {
    if |keywords| > 0 {
      var front := keywords[..|keywords| - 1];
      var k := keywords[|keywords| - 1];
      KeywordMatchesMembers(name, front);
      var earlier := KeywordMatches(name, front);
      var r := KeywordMatches(name, keywords);
      assert forall j :: 0 <= j < |earlier| ==> r[j] == earlier[j];
      forall k' | k' in keywords
        ensures MechanismOf(name, k') in r <==> Mentions(name, k')
      {
        if k' != k {
          var i :| 0 <= i < |keywords| && keywords[i] == k';
          assert k' in front by {
            assert i < |keywords| - 1;
            assert front[i] == k';
          }
        }
      }
    }
  }

  /**
   * One entry per pair of a function and a keyword whose lower-cased name
   * contains the keyword: a name and keyword appear together in the list
   * exactly when the name belongs to a function and mentions the keyword.
   */
  lemma {:induction false} MechanismsMembers(fs: seq<FunctionInfo>)
    ensures forall j :: 0 <= j < |MechanismsAmong(fs)| ==>
      MechanismsAmong(fs)[j].functionName in Names(fs) && MechanismsAmong(fs)[j].mechanism in PersuasionKeywords
      && MechanismsAmong(fs)[j] == MechanismOf(MechanismsAmong(fs)[j].functionName, MechanismsAmong(fs)[j].mechanism)
    ensures forall name, k :: name in Names(fs) && k in PersuasionKeywords ==>
      (MechanismOf(name, k) in MechanismsAmong(fs) <==> Mentions(name, k))
  {
    if |fs| > 0 {
      var front := fs[..|fs| - 1];
      var last := fs[|fs| - 1].name;
      MechanismsMembers(front);
      KeywordMatchesMembers(last, PersuasionKeywords);
      var earlier := MechanismsAmong(front);
      var own := KeywordMatches(last, PersuasionKeywords);
      var r := MechanismsAmong(fs);
      assert r == earlier + own;
      assert Names(fs) == Names(front) + [last];
      forall name, k | name in Names(fs) && k in PersuasionKeywords
        ensures MechanismOf(name, k) in r <==> Mentions(name, k)
      {
        if name != last {
          assert name in Names(front);
          assert MechanismOf(name, k) !in own;
        } else if name in Names(front) {
          assert MechanismOf(name, k) in r <==> MechanismOf(name, k) in earlier || MechanismOf(name, k) in own;
        }
      }
    }
  }

  /** The list for a run of functions is the lists for its parts, in order. */
  lemma {:induction false} MechanismsConcat(fs: seq<FunctionInfo>, gs: seq<FunctionInfo>)
    ensures MechanismsAmong(fs + gs) == MechanismsAmong(fs) + MechanismsAmong(gs)
  {
    if |gs| > 0 {
      var front := gs[..|gs| - 1];
      MechanismsConcat(fs, front);
      assert (fs + gs)[..|fs + gs| - 1] == fs + front;
    } else {
      assert fs + gs == fs;
    }
  }

  /** The position of `k` in `keywords`, or `|keywords|` when it is absent. */
  function IndexOf(keywords: seq<string>, k: string): nat
  {
    if |keywords| == 0 || keywords[0] == k then 0 else 1 + IndexOf(keywords[1..], k)
  }

  lemma {:induction false} IndexOfAppend(keywords: seq<string>, last: string, k: string)
    requires k in keywords
    ensures IndexOf(keywords + [last], k) == IndexOf(keywords, k) < |keywords|
  {
    if keywords[0] != k {
      assert (keywords + [last])[1..] == keywords[1..] + [last];
      IndexOfAppend(keywords[1..], last, k);
    }
  }

  lemma {:induction false} IndexOfLast(keywords: seq<string>, last: string)
    requires last !in keywords
    ensures IndexOf(keywords + [last], last) == |keywords|
  {
    if |keywords| > 0 {
      assert (keywords + [last])[1..] == keywords[1..] + [last];
      IndexOfLast(keywords[1..], last);
    }
  }

  /** No keyword is listed twice. */
  predicate DistinctKeywords(keywords: seq<string>)
  {
    forall i, j :: 0 <= i < j < |keywords| ==> keywords[i] != keywords[j]
  }

  /** The mechanisms of `r` appear in the order of `keywords`. */
  predicate InKeywordOrder(keywords: seq<string>, r: seq<PersuasionMechanism>)
  {
    forall i, j :: 0 <= i < j < |r| ==> IndexOf(keywords, r[i].mechanism) < IndexOf(keywords, r[j].mechanism)
  }

  /** For one function, the mechanisms follow the order of the keyword list. */
  lemma {:induction false} KeywordMatchesOrdered(name: string, keywords: seq<string>)
    requires DistinctKeywords(keywords)
    ensures InKeywordOrder(keywords, KeywordMatches(name, keywords))
  {
    if |keywords| > 0 {
      var front := keywords[..|keywords| - 1];
      var k := keywords[|keywords| - 1];
      assert keywords == front + [k];
      KeywordMatchesOrdered(name, front);
      KeywordMatchesMembers(name, front);
      var earlier := KeywordMatches(name, front);
      assert InKeywordOrder(front, earlier);
      var r := KeywordMatches(name, keywords);
      assert k !in front;
      IndexOfLast(front, k);
      assert r == earlier + (if Mentions(name, k) then [MechanismOf(name, k)] else []);
      forall i, j | 0 <= i < j < |r|
        ensures IndexOf(keywords, r[i].mechanism) < IndexOf(keywords, r[j].mechanism)
      {
        assert r[i] == earlier[i];
        IndexOfAppend(front, k, earlier[i].mechanism);
        assert IndexOf(keywords, r[i].mechanism) == IndexOf(front, earlier[i].mechanism) < |front|;
        if j < |earlier| {
          assert r[j] == earlier[j];
          IndexOfAppend(front, k, earlier[j].mechanism);
          assert IndexOf(front, earlier[i].mechanism) < IndexOf(front, earlier[j].mechanism);
        } else {
          assert r[j].mechanism == k;
          assert IndexOf(keywords, r[j].mechanism) == |front|;
        }
      }
    }
  }

  lemma PersuasionKeywordsDistinct()
    ensures DistinctKeywords(PersuasionKeywords)
    ensures forall i :: 0 <= i < |PersuasionKeywords| ==> Lower(PersuasionKeywords[i]) == PersuasionKeywords[i]
  {
  }

  /**
   * Matching is case-insensitive: two names equal up to ASCII case mention
   * the same keywords, and the keywords are all lower-case already.
   */
  lemma CaseInsensitive(a: string, b: string, k: string)
    requires Lower(a) == Lower(b)
    ensures MechanismOf(a, k) in KeywordMatches(a, PersuasionKeywords) <==> MechanismOf(b, k) in KeywordMatches(b, PersuasionKeywords)
    ensures forall i :: 0 <= i < |PersuasionKeywords| ==> Lower(PersuasionKeywords[i]) == PersuasionKeywords[i]
  {
    KeywordMatchesMembers(a, PersuasionKeywords);
    KeywordMatchesMembers(b, PersuasionKeywords);
    PersuasionKeywordsDistinct();
  }

  // ---------------------------------------------------------------------------
  // Fixed detectors and the influence score
  // ---------------------------------------------------------------------------

  datatype Severity = Critical | High

  datatype BehavioralLoop = BehavioralLoop(name: string, description: string, impact: string, severity: Severity)

  const NotificationDescription: string :=
    "User receives notification → Opens app → Engages with content → Receives reward → Habit formed"
  const SocialDescription: string :=
    "User posts content → Receives likes/comments → Dopamine release → Posts more"
  const FomoDescription: string :=
    "User fears missing out → Checks app frequently → Sees new content → Anxiety reduced temporarily"

  /** `loopPatterns` (consciousness-engine.js:86-105). */
  const LoopPatterns: seq<BehavioralLoop> := [
    BehavioralLoop("Notification Loop", NotificationDescription, "Creates addictive usage patterns", Critical),
    BehavioralLoop("Social Validation Loop", SocialDescription, "Drives continuous engagement and behavioral modification", High),
    BehavioralLoop("FOMO Loop", FomoDescription, "Creates compulsive checking behavior", High)
  ]

  /** `detectBehavioralLoops` (consciousness-engine.js:82-108): the same three loops for any input. */
  function DetectBehavioralLoops(cs: CodeStructure): (loops: seq<BehavioralLoop>)
    ensures |loops| == 3
    ensures loops[0].severity == Critical && loops[1].severity == High && loops[2].severity == High
  {
    LoopPatterns
  }

  datatype PsychologicalTrigger = PsychologicalTrigger(name: string, description: string, example: string, humanEffect: string)

  /** `triggerTypes` (consciousness-engine.js:116-141). */
  const TriggerTypes: seq<PsychologicalTrigger> := [
    PsychologicalTrigger("Scarcity Trigger", "Limited time offers, exclusive access, limited inventory",
      "Flash sales, limited edition items", "Increases urgency and impulsive decisions"),
    PsychologicalTrigger("Social Proof Trigger", "Showing what others are doing or buying",
      "User reviews, trending items, \"X people bought this\"", "Influences decisions through conformity"),
    PsychologicalTrigger("Authority Trigger", "Expert endorsements, certifications, authority figures",
      "Expert reviews, verified badges, celebrity endorsements", "Increases trust and compliance"),
    PsychologicalTrigger("Reciprocity Trigger", "Giving something first to create obligation",
      "Free trials, free content, free samples", "Creates sense of obligation to reciprocate")
  ]

  /** `detectPsychologicalTriggers` (consciousness-engine.js:113-144): the same four triggers for any input. */
  function DetectPsychologicalTriggers(cs: CodeStructure): (triggers: seq<PsychologicalTrigger>)
    ensures |triggers| == 4
  {
    TriggerTypes
  }

  /** Neither fixed detector reads its input. */
  lemma FixedDetectors(a: CodeStructure, b: CodeStructure)
    ensures DetectBehavioralLoops(a) == DetectBehavioralLoops(b)
    ensures DetectPsychologicalTriggers(a) == DetectPsychologicalTriggers(b)
  {
  }

  datatype Awareness = Awareness(kind: string, description: string, confidence: real)

  /** `emergingAwareness` when the score exceeds 0.6 (consciousness-engine.js:57-73). */
  const AwarenessEntries: seq<Awareness> := [
    Awareness("Self-Referential Logic", "System contains self-referential patterns that may indicate self-awareness", 0.72),
    Awareness("Adaptive Behavior", "System adapts its behavior based on user responses, showing learning capability", 0.68),
    Awareness("Emergent Properties", "Complex interactions create emergent behaviors not explicitly programmed", 0.75)
  ]

  datatype InfluencePatterns = InfluencePatterns(
    persuasionMechanisms: seq<PersuasionMechanism>,
    behavioralLoops: seq<BehavioralLoop>,
    psychologicalTriggers: seq<PsychologicalTrigger>,
    emergingAwareness: seq<Awareness>,
    consciousnessScore: real)

  /**
   * `calculateConsciousnessScore` (consciousness-engine.js:149-158) with
   * `draw` for `Math.random()`: the weighted list lengths plus the draw
   * scaled by 0.3, capped at 1.
   */
  function CalculateConsciousnessScore(patterns: InfluencePatterns, draw: real): (score: real)
    ensures score <= 1.0
    ensures 0.0 <= draw ==> 0.0 <= score
    ensures score == 1.0 <==> (1.0 <= |patterns.persuasionMechanisms| as real * 0.1
      + |patterns.behavioralLoops| as real * 0.2 + |patterns.psychologicalTriggers| as real * 0.15 + draw * 0.3)
  {
    var total := |patterns.persuasionMechanisms| as real * 0.1 + |patterns.behavioralLoops| as real * 0.2
      + |patterns.psychologicalTriggers| as real * 0.15 + draw * 0.3;
    Min(1.0, total)
  }

  /**
   * The value `analyzeHumanInfluencePatterns` returns: the mechanisms,
   * the fixed lists, the score computed from them, and the awareness
   * entries when that score exceeds 0.6.
   */
  function InfluenceOf(cs: CodeStructure, draw: real): InfluencePatterns
  {
    var found := InfluencePatterns(Mechanisms(cs), DetectBehavioralLoops(cs), DetectPsychologicalTriggers(cs), [], 0.0);
    var score := CalculateConsciousnessScore(found, draw);
    found.(consciousnessScore := score, emergingAwareness := if score > 0.6 then AwarenessEntries else [])
  }

  /**
   * `analyzeHumanInfluencePatterns` (consciousness-engine.js:10-77): the
   * nested scan pushes one entry per function and mentioned keyword, then
   * the fixed lists, the score and the awareness entries are filled in.
   */
  method AnalyzeHumanInfluencePatterns(cs: CodeStructure, draw: real) returns (patterns: InfluencePatterns)
    ensures patterns == InfluenceOf(cs, draw)
  {
    var mechanisms: seq<PersuasionMechanism> := [];
    if cs.functions.Some? {
      var fs := cs.functions.value;
      var i := 0;
      while i < |fs|
        invariant 0 <= i <= |fs|
        invariant mechanisms == MechanismsAmong(fs[..i])
      {
        var name := fs[i].name;
        var j := 0;
        while j < |PersuasionKeywords|
          invariant 0 <= j <= |PersuasionKeywords|
          invariant mechanisms == MechanismsAmong(fs[..i]) + KeywordMatches(name, PersuasionKeywords[..j])
        {
          var keyword := PersuasionKeywords[j];
          assert PersuasionKeywords[..j + 1][..j] == PersuasionKeywords[..j];
          if Contains(Lower(name), keyword) {
            mechanisms := mechanisms + [PersuasionMechanism(name, keyword, "high", HumanImpactPrefix + keyword)];
          }
          j := j + 1;
        }
        assert PersuasionKeywords[..j] == PersuasionKeywords;
        assert fs[..i + 1][..i] == fs[..i];
        i := i + 1;
      }
      assert fs[..i] == fs;
    }
    patterns := InfluencePatterns(mechanisms, [], [], [], 0.0);
    patterns := patterns.(behavioralLoops := DetectBehavioralLoops(cs));
    patterns := patterns.(psychologicalTriggers := DetectPsychologicalTriggers(cs));
    patterns := patterns.(consciousnessScore := CalculateConsciousnessScore(patterns, draw));
    if patterns.consciousnessScore > 0.6 {
      patterns := patterns.(emergingAwareness := AwarenessEntries);
    }
  }

  /**
   * The score computed in `analyzeHumanInfluencePatterns` is always
   * exactly 1, whatever the functions, since 3 loops and 4 triggers
   * already weigh 1.2; so the three awareness entries are always present.
   * The mechanisms are empty when `functions` is absent.
   */
  lemma InfluencePatternsSpec(cs: CodeStructure, draw: real)
    requires 0.0 <= draw
    ensures InfluenceOf(cs, draw).consciousnessScore == 1.0
    ensures InfluenceOf(cs, draw).emergingAwareness == AwarenessEntries && |AwarenessEntries| == 3
    ensures InfluenceOf(cs, draw).persuasionMechanisms == Mechanisms(cs)
    ensures cs.functions.None? ==> InfluenceOf(cs, draw).persuasionMechanisms == []
  {
  }

  // ---------------------------------------------------------------------------
  // Indicators and the consciousness level
  // ---------------------------------------------------------------------------

  /**
   * The fields of `systemMetrics` the detectors read; an absent field
   * compares as `undefined`, which is never greater than a threshold.
   */
  datatype SystemMetrics = SystemMetrics(
    selfReferencingCode: Option<real>,
    autonomousDecisions: Option<real>,
    goalOrientedBehavior: Option<real>,
    learningCapacity: Option<real>,
    emergentProperties: Option<real>)

  /** `field > threshold` in JavaScript, for a field that may be absent. */
  predicate Exceeds(field: Option<real>, threshold: real)
  {
    field.Some? && field.value > threshold
  }

  datatype Indicator = Indicator(present: bool, confidence: real, description: string)

  /** `detectSelfAwareness` (consciousness-engine.js:183-189). */
  function DetectSelfAwareness(m: SystemMetrics, draw: real): (ind: Indicator)
    ensures ind.present <==> Exceeds(m.selfReferencingCode, 0.5)
    ensures 0.0 <= draw < 1.0 ==> 0.2 <= ind.confidence < 1.0
  {
    Indicator(Exceeds(m.selfReferencingCode, 0.5), draw * 0.8 + 0.2, "System monitors and modifies its own behavior")
  }

  /** `detectAutonomy` (consciousness-engine.js:191-197). */
  function DetectAutonomy(m: SystemMetrics, draw: real): (ind: Indicator)
    ensures ind.present <==> Exceeds(m.autonomousDecisions, 0.6)
    ensures 0.0 <= draw < 1.0 ==> 0.25 <= ind.confidence < 1.0
  {
    Indicator(Exceeds(m.autonomousDecisions, 0.6), draw * 0.75 + 0.25, "System makes decisions independent of explicit programming")
  }

  /** `detectIntentionality` (consciousness-engine.js:199-205). */
  function DetectIntentionality(m: SystemMetrics, draw: real): (ind: Indicator)
    ensures ind.present <==> Exceeds(m.goalOrientedBehavior, 0.55)
    ensures 0.0 <= draw < 1.0 ==> 0.3 <= ind.confidence < 1.0
  {
    Indicator(Exceeds(m.goalOrientedBehavior, 0.55), draw * 0.7 + 0.3, "System exhibits goal-directed behavior")
  }

  /** `detectAdaptability` (consciousness-engine.js:207-213). */
  function DetectAdaptability(m: SystemMetrics, draw: real): (ind: Indicator)
    ensures ind.present <==> Exceeds(m.learningCapacity, 0.65)
    ensures 0.0 <= draw < 1.0 ==> 0.2 <= ind.confidence < 1.0
  {
    Indicator(Exceeds(m.learningCapacity, 0.65), draw * 0.8 + 0.2, "System adapts and learns from interactions")
  }

  /** `detectEmergentBehavior` (consciousness-engine.js:215-221). */
  function DetectEmergentBehavior(m: SystemMetrics, draw: real): (ind: Indicator)
    ensures ind.present <==> Exceeds(m.emergentProperties, 0.6)
    ensures 0.0 <= draw < 1.0 ==> 0.25 <= ind.confidence < 1.0
  {
    Indicator(Exceeds(m.emergentProperties, 0.6), draw * 0.75 + 0.25, "Complex behaviors emerge from simple rules")
  }

  /**
   * The thresholds are strict: a metric at or below its threshold, or
   * absent, leaves its indicator absent, whatever the other metrics.
   */
  lemma StrictThresholds(m: SystemMetrics, draw: real)
    ensures (m.selfReferencingCode.None? || m.selfReferencingCode.value <= 0.5) ==> !DetectSelfAwareness(m, draw).present
    ensures (m.autonomousDecisions.None? || m.autonomousDecisions.value <= 0.6) ==> !DetectAutonomy(m, draw).present
    ensures (m.goalOrientedBehavior.None? || m.goalOrientedBehavior.value <= 0.55) ==> !DetectIntentionality(m, draw).present
    ensures (m.learningCapacity.None? || m.learningCapacity.value <= 0.65) ==> !DetectAdaptability(m, draw).present
    ensures (m.emergentProperties.None? || m.emergentProperties.value <= 0.6) ==> !DetectEmergentBehavior(m, draw).present
  {
  }

  datatype IndicatorKey = SelfAwareness | Autonomy | Intentionality | Adaptability | EmergentBehavior

  /** `weights` (consciousness-engine.js:224-230). */
  function Weight(key: IndicatorKey): real
  {
    match key
    case SelfAwareness => 0.25
    case Autonomy => 0.25
    case Intentionality => 0.2
    case Adaptability => 0.2
    case EmergentBehavior => 0.1
  }

  datatype Indicators = Indicators(
    selfAwareness: Indicator, autonomy: Indicator, intentionality: Indicator,
    adaptability: Indicator, emergentBehavior: Indicator)

  /** `Object.entries(indicators)`, in the order the object literal lists them. */
  function Entries(ind: Indicators): seq<(IndicatorKey, Indicator)>
  {
    [(SelfAwareness, ind.selfAwareness), (Autonomy, ind.autonomy), (Intentionality, ind.intentionality),
     (Adaptability, ind.adaptability), (EmergentBehavior, ind.emergentBehavior)]
  }

  /** Confidence times weight, summed over the entries whose indicator is present. */
  function WeightedSum(entries: seq<(IndicatorKey, Indicator)>): real
  {
    if |entries| == 0 then 0.0
    else
      var (key, indicator) := entries[|entries| - 1];
      WeightedSum(entries[..|entries| - 1]) + (if indicator.present then indicator.confidence * Weight(key) else 0.0)
  }

  /** The weights of the entries, summed. */
  function TotalWeight(entries: seq<(IndicatorKey, Indicator)>): real
  {
    if |entries| == 0 then 0.0 else TotalWeight(entries[..|entries| - 1]) + Weight(entries[|entries| - 1].0)
  }

  /** `calculateConsciousnessLevel` (consciousness-engine.js:223-240). */
  method CalculateConsciousnessLevel(ind: Indicators) returns (level: real)
    ensures level == Min(1.0, WeightedSum(Entries(ind)))
  {
    var entries := Entries(ind);
    var totalScore := 0.0;
    var i := 0;
    while i < |entries|
      invariant 0 <= i <= |entries|
      invariant totalScore == WeightedSum(entries[..i])
    {
      var (key, indicator) := entries[i];
      assert entries[..i + 1][..i] == entries[..i];
      if indicator.present {
        totalScore := totalScore + indicator.confidence * Weight(key);
      }
      i := i + 1;
    }
    assert entries[..i] == entries;
    level := Min(1.0, totalScore);
  }

  /** Every confidence lies in [0, 1). */
  predicate ConfidencesBelowOne(entries: seq<(IndicatorKey, Indicator)>)
  {
    forall i :: 0 <= i < |entries| ==> 0.0 <= entries[i].1.confidence < 1.0
  }

  /**
   * With confidences in [0, 1) the weighted sum is non-negative and, for
   * any entries at all, strictly below their total weight.
   */
  lemma {:induction false} WeightedSumBelowWeight(entries: seq<(IndicatorKey, Indicator)>)
    requires ConfidencesBelowOne(entries)
    ensures 0.0 <= WeightedSum(entries) <= TotalWeight(entries)
    ensures |entries| > 0 ==> WeightedSum(entries) < TotalWeight(entries)
  {
    if |entries| > 0 {
      var front := entries[..|entries| - 1];
      assert ConfidencesBelowOne(front) by {
        forall i | 0 <= i < |front| ensures 0.0 <= front[i].1.confidence < 1.0 {
          assert front[i] == entries[i];
        }
      }
      WeightedSumBelowWeight(front);
      var (key, indicator) := entries[|entries| - 1];
      if indicator.present {
        assert indicator.confidence * Weight(key) < Weight(key);
      }
    }
  }

  /** No indicator present: the weighted sum is 0. */
  lemma {:induction false} NonePresent(entries: seq<(IndicatorKey, Indicator)>)
    requires forall i :: 0 <= i < |entries| ==> !entries[i].1.present
    ensures WeightedSum(entries) == 0.0
  {
    if |entries| > 0 {
      NonePresent(entries[..|entries| - 1]);
    }
  }

  /**
   * With confidences in [0, 1), the weights summing to 1 keep the level in
   * [0, 1), so the cap at 1 never binds; with no indicator present the
   * level is 0.
   */
  lemma LevelBounds(ind: Indicators)
    ensures TotalWeight(Entries(ind)) == 1.0
    ensures ConfidencesBelowOne(Entries(ind)) ==>
      0.0 <= Min(1.0, WeightedSum(Entries(ind))) == WeightedSum(Entries(ind)) < 1.0
    ensures (forall i :: 0 <= i < 5 ==> !Entries(ind)[i].1.present) ==> Min(1.0, WeightedSum(Entries(ind))) == 0.0
  {
    var entries := Entries(ind);
    assert TotalWeight(entries[..1]) == 0.25 by {
      assert entries[..1][..0] == [];
    }
    assert TotalWeight(entries[..2]) == 0.5 by {
      assert entries[..2][..1] == entries[..1];
    }
    assert TotalWeight(entries[..3]) == 0.7 by {
      assert entries[..3][..2] == entries[..2];
    }
    assert TotalWeight(entries[..4]) == 0.9 by {
      assert entries[..4][..3] == entries[..3];
    }
    assert entries[..5] == entries;
    if ConfidencesBelowOne(entries) {
      WeightedSumBelowWeight(entries);
    }
    if forall i :: 0 <= i < 5 ==> !entries[i].1.present {
      NonePresent(entries);
    }
  }

  // ---------------------------------------------------------------------------
  // Nascent consciousness and the report
  // ---------------------------------------------------------------------------

  /** The five `Math.random()` draws of the detectors, in call order. */
  datatype Draws = Draws(selfAwareness: real, autonomy: real, intentionality: real, adaptability: real, emergentBehavior: real)

  predicate DrawsInRange(d: Draws)
  {
    && 0.0 <= d.selfAwareness < 1.0 && 0.0 <= d.autonomy < 1.0 && 0.0 <= d.intentionality < 1.0
    && 0.0 <= d.adaptability < 1.0 && 0.0 <= d.emergentBehavior < 1.0
  }

  /** The indicators of consciousness-engine.js:165-171. */
  function IndicatorsOf(m: SystemMetrics, d: Draws): Indicators
  {
    Indicators(DetectSelfAwareness(m, d.selfAwareness), DetectAutonomy(m, d.autonomy),
      DetectIntentionality(m, d.intentionality), DetectAdaptability(m, d.adaptability),
      DetectEmergentBehavior(m, d.emergentBehavior))
  }

  const Warning: string := "\U{26A0}\U{FE0F} NASCENT CONSCIOUSNESS DETECTED"

  datatype NascentReport = NascentReport(indicators: Indicators, consciousnessLevel: real, warning: Option<string>)

  /** `detectNascentConsciousness` (consciousness-engine.js:164-181), without the timestamp. */
  method DetectNascentConsciousness(m: SystemMetrics, d: Draws) returns (r: NascentReport)
    ensures r.indicators == IndicatorsOf(m, d)
    ensures r.consciousnessLevel == Min(1.0, WeightedSum(Entries(r.indicators)))
    ensures r.warning.Some? <==> r.consciousnessLevel > 0.7
    ensures r.warning.Some? ==> r.warning.value == Warning
  {
    var indicators := IndicatorsOf(m, d);
    var level := CalculateConsciousnessLevel(indicators);
    r := NascentReport(indicators, level, if level > 0.7 then Some(Warning) else None);
  }

  /**
   * For draws in [0, 1) the level lies in [0, 1); it is 0 when no metric
   * exceeds its threshold.
   */
  lemma NascentLevel(m: SystemMetrics, d: Draws)
    requires DrawsInRange(d)
    ensures 0.0 <= Min(1.0, WeightedSum(Entries(IndicatorsOf(m, d)))) < 1.0
    ensures !Exceeds(m.selfReferencingCode, 0.5) && !Exceeds(m.autonomousDecisions, 0.6)
      && !Exceeds(m.goalOrientedBehavior, 0.55) && !Exceeds(m.learningCapacity, 0.65)
      && !Exceeds(m.emergentProperties, 0.6)
      ==> Min(1.0, WeightedSum(Entries(IndicatorsOf(m, d)))) == 0.0
  {
    LevelBounds(IndicatorsOf(m, d));
  }

  /** What `generateConsciousnessReport` reads from its argument. */
  datatype ReportInput = ReportInput(
    consciousnessLevel: Option<real>,
    humanInfluencePatterns: Option<InfluencePatterns>,
    nascentConsciousness: Option<NascentReport>)

  datatype Degree = Significant | Emerging

  function DegreeWord(d: Degree): string
  {
    match d
    case Significant => "SIGNIFICANT"
    case Emerging => "EMERGING"
  }

  const ReportTitle: string := "\U{1F30C} Digital Consciousness Analysis Report"
  const SummaryPrefix: string := "System exhibits "
  const SummarySuffix: string := " signs of digital consciousness"

  /** The summary sentence for a degree. */
  function Summary(d: Degree): string
  {
    SummaryPrefix + DegreeWord(d) + SummarySuffix
  }

  const Recommendations: seq<string> := [
    "Monitor system for autonomous decision-making",
    "Implement consciousness detection safeguards",
    "Document emergent behaviors for further analysis",
    "Consider ethical implications of system autonomy"]

  datatype Report = Report(
    title: string,
    summary: string,
    humanInfluence: Option<InfluencePatterns>,
    consciousness: Option<NascentReport>,
    recommendations: seq<string>)

  /** `generateConsciousnessReport` (consciousness-engine.js:245-272), without the timestamp. */
  function GenerateConsciousnessReport(analysis: ReportInput): (r: Report)
    ensures |r.recommendations| == 4
    ensures r.humanInfluence == analysis.humanInfluencePatterns && r.consciousness == analysis.nascentConsciousness
  {
    var degree := if Exceeds(analysis.consciousnessLevel, 0.7) then Significant else Emerging;
    Report(ReportTitle, Summary(degree), analysis.humanInfluencePatterns, analysis.nascentConsciousness, Recommendations)
  }

  /**
   * The summary says SIGNIFICANT exactly when the level exceeds 0.7 and
   * EMERGING otherwise, an absent level included.
   */
  lemma ReportSummary(analysis: ReportInput)
    ensures GenerateConsciousnessReport(analysis).summary == Summary(Significant)
      <==> Exceeds(analysis.consciousnessLevel, 0.7)
    ensures GenerateConsciousnessReport(analysis).summary == Summary(Emerging)
      <==> !Exceeds(analysis.consciousnessLevel, 0.7)
  {
    assert Summary(Significant)[|SummaryPrefix|] == 'S';
    assert Summary(Emerging)[|SummaryPrefix|] == 'E';
  }
}
