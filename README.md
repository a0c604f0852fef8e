# Logospace analysis core in Dafny

This project models the deterministic core of the Logospace GitHub App and its two "consciousness" analyzers.

- **`server.js`**: the webhook handler's decision on an incoming pull-request event.
  - `analyzeRepository` tallies the file tree by extension, lists the main languages, draws a quality score and builds the insights.
  - `formatAnalysisComment` renders the Markdown comment.
- **`consciousness_analyzer.py`**: the helpers of `ConsciousnessAnalyzer`.
  - Keyword scores, bracket nesting depth, complexity and the weighted score.
  - The pattern, loop, trigger and emergent-property detectors.
  - Predictions, metrics and the risk classification.
- **`consciousness-engine.js`**: `ConsciousnessEngine`.
  - The case-insensitive keyword scan over function names, and the fixed loop and trigger lists.
  - The influence score, the five indicator detectors, the weighted consciousness level and the report.

Modules:

| file | module | models |
|---|---|---|
| `wrappers.dfy` | `Wrappers` | `Option` and `Result` |
| `numbers.dfy` | `Numbers` | `min` and `max` on two numbers |
| `text.dfy` | `Text` | `split`, `join`, character counts, ASCII lower-casing, `includes`, number rendering |
| `repo_analysis.dfy` | `RepoAnalysis` | `analyzeRepository` |
| `webhook.dfy` | `Webhook` | `formatAnalysisComment`, the webhook handler |
| `consciousness_analyzer.dfy` | `ConsciousnessAnalyzer` | the Python analyzer |
| `consciousness_engine.dfy` | `ConsciousnessEngine` | the JavaScript engine |

Conventions:

- **Loops.** Wherever the source runs a loop and updates state, the model does too, in a `method` with loop invariants. Each such method is proved equal to a specification function, and the promised properties are proved about that function.
  - The tree tally, the language list, the nesting-depth scan, the loop and trigger detectors, the keyword scan and the weighted level are written this way.
  - Operations that build their result by successive appends or by composing other steps are methods too, each proved equal to its specification function: `DetectPatterns`, `DetectEmergentProperties`, `PredictFutureConsciousness`, both `AnalyzeRepository`, and `DetectNascentConsciousness`.
  - The other operations are functions.
- **Random draws.** Each `Math.random()` draw is a `real` parameter. The properties that need a draw in [0, 1) require it.
- **Regular expressions.** Python's `re` answers are an oracle `Re`, queried with the source's own pattern strings.
- **Numbers.** Scores are exact `real`s.

## Model

| member | source | states |
|---|---|---|
| RepoAnalysis.ExtensionSpec | server.js:95 | The extension is the text after the last `.` of the full path. It contains no `.`. It is the whole path when there is no `.`, and a dot in a directory name is not skipped. |
| RepoAnalysis.TallyFileTypes | server.js:93-97 | The `forEach` loop builds `fileTypes`. Its keys are exactly the entries' extensions, and each count is that extension's number of entries. The key order is distinct and follows the first occurrence of each extension in the tree. |
| RepoAnalysis.TallyCounts | server.js:96 | Every key of the tally occurs in the extensions, and its count is its number of occurrences, at least 1. |
| RepoAnalysis.CountInZero | server.js:96 | An extension has count 0 exactly when no entry has it. |
| RepoAnalysis.FirstOccurrencesMembers | server.js:111 | The key order `Object.entries` walks holds each extension once, and exactly the extensions of the tree. |
| RepoAnalysis.FirstOccurrencesOrder | server.js:94-97 | For keys i < j in the order `Object.entries` walks, the first tree entry with key i comes before the first with key j. |
| RepoAnalysis.TallySum | server.js:85-97 | The counts of `fileTypes` sum to the number of tree entries, which is `totalFiles`. |
| RepoAnalysis.TallyKeys | server.js:94-97 | A key is in `fileTypes` exactly when it is the extension of some entry, and its count is at least 1. |
| RepoAnalysis.CollectMainLanguages | server.js:111-118 | The push loop yields, in key order, one entry per mapped key, carrying the mapped name and the key's count. |
| RepoAnalysis.LanguageMapInjective | server.js:100-109 | Distinct mapped extensions have distinct language names. |
| RepoAnalysis.LanguageMapSize | server.js:100-109 | `languageMap` has at most 8 keys, one per entry of its literal. |
| RepoAnalysis.MappedKeysCount | server.js:111-118 | There is one language per key found in `languageMap`. Those keys are distinct, each mapped and each a key of `fileTypes`. |
| RepoAnalysis.MappedKeysOrder | server.js:111-118 | Keeping only the mapped keys keeps their first-occurrence order. |
| RepoAnalysis.MainLanguagesAt | server.js:111-118 | Entry j of `mainLanguages` is the entry (mapped name and count) of the j-th mapped key. |
| RepoAnalysis.MainLanguagesSound | server.js:111-118 | Every language entry describes a key of `fileTypes` in `languageMap`, with that key's name and count. Unmapped extensions never appear. |
| RepoAnalysis.MainLanguagesComplete | server.js:111-118 | Every mapped key of `fileTypes` has its language entry. |
| RepoAnalysis.MainLanguagesDistinctNames | server.js:111-118 | No language name is listed twice. |
| RepoAnalysis.MainLanguagesBound | server.js:100-118 | There are at most 8 main languages. |
| RepoAnalysis.QualityScore | server.js:121 | For a draw in [0, 1) the score is `floor(draw * 40 + 60)`, an integer in [60, 99]. The cap at 100 never binds. |
| RepoAnalysis.AnalyzeRepository | server.js:83-145 | The whole analysis equals its specification `AnalysisOf` for the tree paths and the draw. |
| RepoAnalysis.AnalysisTally | server.js:83-97 | `totalFiles` is the entry count and equals the sum of the counts. The keys are the entries' extensions, each with count at least 1. |
| RepoAnalysis.AnalysisLanguages | server.js:99-126 | `mainLanguages` is the mapped projection of `fileTypes`: sound, complete, names distinct, at most 8. The second insight reports its length. |
| RepoAnalysis.AnalysisLanguageOrder | server.js:99-118 | Entry j of `mainLanguages` describes the j-th mapped extension, and the mapped extensions come in the order in which they first occur in the tree. |
| RepoAnalysis.AnalysisScoreAndInsights | server.js:120-143 | For a draw in [0, 1): the score is in [60, 99], there are 4 insights (entry count, language count, score, advice in that order), and the 2 fixed patterns are listed. |
| Webhook.Round | server.js:165 | `Math.round` gives the integer nearest to its argument, halves rounding up. |
| Webhook.CommentIsLines | server.js:153-176 | The comment is its lines joined by newlines. There are 20 lines plus one per pattern and one per insight. |
| Webhook.CommentLinesAt | server.js:157-168 | Line 3 names the repository and line 8 lists the languages joined by `, `. The pattern lines start at line 11 and the insight lines follow the insights heading. |
| Webhook.FixedPatternPercents | server.js:132-143 | The two fixed patterns are rendered at 85% and 72% confidence. |
| Webhook.FindInstallation | server.js:27-29 | No installation is found exactly when none has selection `all` or a non-empty repositories URL. Otherwise the first such installation is found. |
| Webhook.IgnoredActions | server.js:23-62 | Only `opened` and `synchronize` are processed. Any other action answers 200 `Event not processed` and makes no call. |
| Webhook.NoInstallation | server.js:26-34 | A 404 comes exactly when a processed event finds no installation. It answers `No installation found` after the listing call only, before any analysis. |
| Webhook.Succeeds | server.js:36-55 | Success comes exactly when every step succeeds and the payload has its repository and pull request. The calls are then listing, client, repository, tree and comment, in that order, and the answer carries the analysis of the tree. |
| Webhook.Failures | server.js:56-59 | For a processed event, every error answer other than the 404 is a 500. The first call is always the listing, and every call before the last one made succeeded. A 500 carries the last call's own error. Otherwise, when the client was created but the payload lacks `repository` or `pull_request`, it carries the `TypeError` of reading through the missing field. A success or 404 follows only calls that succeeded. |
| Webhook.CallsFollowRun | server.js:36-59 | Once an installation is found, the calls made are a prefix of listing, client, repository, tree and, when the tree is fetched, the comment with that tree's analysis. A missing payload field stops the calls after the client. |
| Text.Split | server.js:95 | `split` yields at least one piece, and no piece contains the separator. |
| Text.SplitLength | consciousness_analyzer.py:372 | `len(code.split('\n'))` is one more than the number of newlines. |
| Text.LowerIdempotent | consciousness-engine.js:35 | Lower-casing twice is lower-casing once, and its result has no upper-case ASCII letter. |
| Text.NatToStringValue | server.js:160 | A number's decimal rendering reads back as the number. |
| ConsciousnessAnalyzer.Saturate | consciousness_analyzer.py:88-89 | `min(1, m / k)` lies in [0, 1] and is 1 exactly when m ≥ k. |
| ConsciousnessAnalyzer.SaturateMonotone | consciousness_analyzer.py:88-89 | More matches never give a lower score. |
| ConsciousnessAnalyzer.KeywordScores | consciousness_analyzer.py:71-174 | Each of the four keyword scores lies in [0, 1]. It is 1 exactly when its pattern list matches at least 10, 8, 7 or 6 times. |
| ConsciousnessAnalyzer.NestingDepth | consciousness_analyzer.py:123-137 | The character loop returns `MaxDepth`: the largest count of openers minus closers over the prefixes, floored at 0. |
| ConsciousnessAnalyzer.MaxDepthIsMaximum | consciousness_analyzer.py:123-137 | No prefix is deeper than the result, and some prefix reaches it unless it is 0. |
| ConsciousnessAnalyzer.NoBracketsNoDepth | consciousness_analyzer.py:123-137 | Text without brackets, the empty text included, has depth 0. |
| ConsciousnessAnalyzer.BracketKindsIgnored | consciousness_analyzer.py:130-135 | `(]` returns to depth 0. In `))(`, the excess closers drive the depth negative, so the later opener leaves the result at 0. |
| ConsciousnessAnalyzer.Complexity | consciousness_analyzer.py:111-121 | The complexity lies in [0, 1]. |
| ConsciousnessAnalyzer.ScoreInRange | consciousness_analyzer.py:56-69 | The weighted sum of the five factors lies in [0, 1], so the clamp never binds and the score is that sum. |
| ConsciousnessAnalyzer.PatternsAsWrittenFail | consciousness_analyzer.py:192 | As written, the pattern refers to group 1 with no group open. Compiling it fails at position 18, so `_detect_patterns` fails for every input. |
| ConsciousnessAnalyzer.CorrectedPatternCompiles | consciousness_analyzer.py:192 | With the function name captured, the pattern's reference is valid. |
| ConsciousnessAnalyzer.DetectPatterns | consciousness_analyzer.py:176-218 | The appending steps, with the corrected pattern, equal the specification `CorrectedPatterns`. |
| ConsciousnessAnalyzer.DetectPatternsSpec | consciousness_analyzer.py:176-218 | With the corrected pattern the detection succeeds. Each kind's entry, with its fixed confidence, is reported exactly when its test holds; the decision pattern needs more than 5 matches. |
| ConsciousnessAnalyzer.DetectPatternsShape | consciousness_analyzer.py:176-218 | Every entry is its kind's fixed entry (0.85, 0.72, 0.68, 0.75). The kinds appear at most once each, in the source's order, so there are at most 4. |
| ConsciousnessAnalyzer.DetectBehavioralLoops | consciousness_analyzer.py:220-258 | The loop over the loop types equals the specification `LoopsAmong`. |
| ConsciousnessAnalyzer.LoopsAmongSpec | consciousness_analyzer.py:249-256 | For types in rank order, every entry is detected with severity `high`, and the entries keep the types' order. A type's entry is reported exactly when its pattern is found. |
| ConsciousnessAnalyzer.LoopsAmongEntries | consciousness_analyzer.py:249-256 | Every reported loop is the entry of one of the types: its kind, its description, detected, severity `high`. |
| ConsciousnessAnalyzer.LoopTypesInOrder | consciousness_analyzer.py:226-247 | The four loop types are listed in rank order. |
| ConsciousnessAnalyzer.BehavioralLoopsSpec | consciousness_analyzer.py:220-258 | The result holds at most 4 entries, each the entry of one of the four loop types, at most one per type and in the types' order. Each is detected with severity `high`. A type has its entry exactly when its pattern is found. |
| ConsciousnessAnalyzer.FirstFound | consciousness_analyzer.py:289-298 | The inner loop finds nothing exactly when no pattern of the type is found. Otherwise it finds one of the type's patterns that is found. |
| ConsciousnessAnalyzer.FirstFoundAt | consciousness_analyzer.py:289-298 | The `break` stops at the first pattern found. |
| ConsciousnessAnalyzer.DetectPsychologicalTriggers | consciousness_analyzer.py:260-300 | The nested loop with `break` equals the specification `TriggersAmong`. |
| ConsciousnessAnalyzer.TriggersAmongShape | consciousness_analyzer.py:289-298 | For types in rank order, every entry has confidence 0.65 and a pattern that is found, and the entries keep the types' order. |
| ConsciousnessAnalyzer.TriggersAmongMembers | consciousness_analyzer.py:289-298 | A type's entry is present when one of its patterns is found. No entry of that kind exists otherwise. |
| ConsciousnessAnalyzer.TriggerTypesInOrder | consciousness_analyzer.py:266-287 | The four trigger types are listed in rank order. |
| ConsciousnessAnalyzer.PsychologicalTriggersOrdered | consciousness_analyzer.py:260-300 | There is at most one entry per trigger type, in the order Scarcity, Social Proof, Authority, Reciprocity. Each has confidence 0.65 and a pattern that is found. |
| ConsciousnessAnalyzer.PsychologicalTriggersPresent | consciousness_analyzer.py:260-300 | A trigger type has its entry exactly when one of its patterns is found. The entry carries the first such pattern. |
| ConsciousnessAnalyzer.DetectEmergentProperties | consciousness_analyzer.py:302-329 | The appending steps equal the specification `EmergentProperties`. |
| ConsciousnessAnalyzer.EmergentPropertiesSpec | consciousness_analyzer.py:302-329 | Each entry is its kind's fixed entry (0.78, 0.72, 0.68). The kinds come in the order complexity, cascading, parallel, each at most once. A kind is reported exactly when its test holds. |
| ConsciousnessAnalyzer.PredictFutureConsciousness | consciousness_analyzer.py:331-366 | The appending steps equal `PredictionsFor` at the consciousness score. |
| ConsciousnessAnalyzer.PredictionCount | consciousness_analyzer.py:337-366 | There are 3 predictions above 0.7, exactly 1 in (0.5, 0.7] and none otherwise. A higher score never gives fewer. |
| ConsciousnessAnalyzer.JoinedNewlines | consciousness_analyzer.py:42 | Joining n files with `\n` adds n - 1 newlines to those inside the files. |
| ConsciousnessAnalyzer.JoinedLineCount | consciousness_analyzer.py:42 | The joined code has the number of files plus their inner newlines as lines, and 1 line when there is no file. |
| ConsciousnessAnalyzer.TotalLines | consciousness_analyzer.py:368-384 | `total_lines` is 1 plus the number of `\n` in the code. For joined files it is the file count plus their inner newlines. |
| ConsciousnessAnalyzer.RiskClassification | consciousness_analyzer.py:386-427 | The thresholds are strict. CRITICAL with 4 recommendations above 0.8, HIGH with 3 above 0.6, MODERATE with 2 above 0.4, and LOW with none otherwise. A larger level never gives a lower risk. |
| ConsciousnessAnalyzer.AnalysisAsWrittenFails | consciousness_analyzer.py:26-54 | As written, `analyze_repository` fails with the invalid group reference for every repository. |
| ConsciousnessAnalyzer.AnalyzeRepository | consciousness_analyzer.py:26-54 | With the corrected pattern, the passes in the source's order equal the specification `AnalysisWith`. |
| ConsciousnessAnalyzer.CorrectedAnalysis | consciousness_analyzer.py:26-54 | With the corrected pattern the analysis succeeds on the joined code, and its level lies in [0, 1]. The patterns, loops, triggers and emergent properties are the detectors' results, and the risk and predictions follow the level. The metrics hold the line count (1 plus the newlines), the complexity and the self-reference, autonomy and emergence scores, each in [0, 1]. |
| ConsciousnessEngine.KeywordMatchesMembers | consciousness-engine.js:34-43 | For one function, every entry names that function and one of the keywords. A keyword has its entry exactly when the lower-cased name contains it. |
| ConsciousnessEngine.MechanismsMembers | consciousness-engine.js:33-44 | Every entry pairs a function's name with a keyword. A (name, keyword) pair is listed exactly when the lower-cased name contains the keyword. |
| ConsciousnessEngine.MechanismsConcat | consciousness-engine.js:33-44 | The entries of a run of functions are those of its parts in order, so the list is ordered by function. |
| ConsciousnessEngine.KeywordMatchesOrdered | consciousness-engine.js:34-43 | Within one function, the entries follow the keyword list's order. |
| ConsciousnessEngine.PersuasionKeywordsDistinct | consciousness-engine.js:20-31 | The keywords are distinct and already lower-case. |
| ConsciousnessEngine.CaseInsensitive | consciousness-engine.js:20-35 | Two names equal up to case mention the same keywords. |
| ConsciousnessEngine.DetectBehavioralLoops | consciousness-engine.js:82-108 | There are 3 loops: the first is critical, the other two high. |
| ConsciousnessEngine.DetectPsychologicalTriggers | consciousness-engine.js:113-144 | There are 4 triggers. |
| ConsciousnessEngine.FixedDetectors | consciousness-engine.js:82-144 | Both detectors return the same lists whatever the input. |
| ConsciousnessEngine.CalculateConsciousnessScore | consciousness-engine.js:149-158 | The score never exceeds 1 and is non-negative for a non-negative draw. It is 1 exactly when the weighted sum reaches 1. |
| ConsciousnessEngine.AnalyzeHumanInfluencePatterns | consciousness-engine.js:10-77 | The nested `forEach` scan and the field assignments equal the specification `InfluenceOf`. |
| ConsciousnessEngine.InfluencePatternsSpec | consciousness-engine.js:47-74 | For a non-negative draw the score is exactly 1, because 3 loops and 4 triggers already weigh 1.2. So the 3 awareness entries are always present, and no functions give no mechanisms. |
| ConsciousnessEngine.DetectSelfAwareness | consciousness-engine.js:183-189 | Present exactly when `selfReferencingCode > 0.5`. For a draw in [0, 1) the confidence lies in [0.2, 1). |
| ConsciousnessEngine.DetectAutonomy | consciousness-engine.js:191-197 | Present exactly when `autonomousDecisions > 0.6`. For a draw in [0, 1) the confidence lies in [0.25, 1). |
| ConsciousnessEngine.DetectIntentionality | consciousness-engine.js:199-205 | Present exactly when `goalOrientedBehavior > 0.55`. For a draw in [0, 1) the confidence lies in [0.3, 1). |
| ConsciousnessEngine.DetectAdaptability | consciousness-engine.js:207-213 | Present exactly when `learningCapacity > 0.65`. For a draw in [0, 1) the confidence lies in [0.2, 1). |
| ConsciousnessEngine.DetectEmergentBehavior | consciousness-engine.js:215-221 | Present exactly when `emergentProperties > 0.6`. For a draw in [0, 1) the confidence lies in [0.25, 1). |
| ConsciousnessEngine.StrictThresholds | consciousness-engine.js:183-221 | A metric that is absent, or at or below its threshold, leaves its indicator absent, whatever the other metrics. |
| ConsciousnessEngine.CalculateConsciousnessLevel | consciousness-engine.js:223-240 | The `forEach` loop returns the weighted sum over the present indicators, capped at 1. |
| ConsciousnessEngine.WeightedSumBelowWeight | consciousness-engine.js:232-237 | With confidences in [0, 1), the weighted sum is non-negative and strictly below the total weight of a non-empty list of indicators. |
| ConsciousnessEngine.NonePresent | consciousness-engine.js:232-237 | With no indicator present the sum is 0. |
| ConsciousnessEngine.LevelBounds | consciousness-engine.js:223-240 | The weights sum to 1. With confidences in [0, 1) the level lies in [0, 1) and the cap never binds. With no indicator present the level is 0. |
| ConsciousnessEngine.DetectNascentConsciousness | consciousness-engine.js:164-181 | The indicators come from the five detectors and the level from the weighted sum. The warning is set exactly when the level exceeds 0.7. |
| ConsciousnessEngine.NascentLevel | consciousness-engine.js:164-181 | For draws in [0, 1) the level lies in [0, 1). It is 0 when no metric exceeds its threshold. |
| ConsciousnessEngine.GenerateConsciousnessReport | consciousness-engine.js:245-272 | The report lists 4 recommendations and carries the two findings it is given. |
| ConsciousnessEngine.ReportSummary | consciousness-engine.js:249 | The summary says SIGNIFICANT exactly when the level exceeds 0.7, and EMERGING otherwise, an absent level included. |

## Left out

- GitHub and HTTP I/O (server.js:26-53, 69-80, 178-188): the installation listing, the client, `repos.get`, `getTree`, `createComment`, the health route and `app.listen`. Each call's outcome is a field of the `GitHub` record given to `HandleWebhook`. A thrown error is modelled by its message.
- Webhook signature: the configured secret (server.js:14) is never checked by the handler, so no property about it exists.
- Logging (`console.log`, `console.error`) is not modelled.
- Missing payload fields are modelled only for `repository` and `pull_request` as a whole. A missing `owner` or `head` inside them is not modelled. A `null` value is not told apart from an absent one: both give the `MissingRepository` or `MissingPullRequest` error, whereas the source's message for `null` says "of null" rather than "of undefined".
- `api_server.py` (Flask routes) and `public/js/consciousness-visualizer.js` (Three.js scene) are not part of this model. They are a thin HTTP wrapper and a UI.
- Regular-expression semantics: every Python `re.search` and `len(re.findall(...))` is an oracle answer. The only pattern property decided by the model is the group reference of line 192.
- `BadGroupReference` checks back-references `\1`–`\9` against the capturing groups opened before them. It does not model character classes, named groups or multi-digit references; the analyzer's patterns use none of these.
- Timestamps (`new Date().toISOString()`, consciousness-engine.js:179, 248) are dropped from the nascent report and the report.
- Floating point: scores are exact reals, so the bounds and thresholds hold under exact arithmetic. IEEE-754 rounding is not modelled: for example `0.285 * 100` is 28.499999999999996 in doubles, so `Math.round` gives 28 where exact arithmetic gives 29.
- QualityScore: the [60, 99] bound holds under exact arithmetic only. With IEEE doubles, the draw 1 − 2⁻⁵² gives `40 * draw + 60` rounded to exactly 100, so the score can be 100.
- JavaScript plain-object keys: `fileTypes` and `languageMap` are Dafny maps.
  - An extension naming an `Object.prototype` member (`constructor`, `__proto__`, `toString`) behaves differently in the source: for example, `languageMap['constructor']` is truthy there.
  - Integer-like keys come first in `Object.entries`, whereas the model walks all keys in first-occurrence order. The mapped extensions are not integer-like, so `mainLanguages` is unaffected.
- Text.Lower: lower-cases ASCII letters only, where JavaScript's `toLowerCase` covers all of Unicode. Non-ASCII characters whose lower case is ASCII are U+212A (Kelvin sign, to `k`) and U+0130 (to `i` followed by U+0307). No keyword contains `k` or ends in `i`, so the difference cannot create or remove a keyword match.
- A `functions` element without a `name` makes `func.name.toLowerCase()` throw a `TypeError` (consciousness-engine.js:35). The model gives every function a name, so that error path is not modelled.
- Webhook.CommentIsLines: the template lines are named constants. The model does not prove that they are free of newlines, so line numbers are stated over the constants rather than re-split from the comment text.
- Descriptive strings: the pattern, emergent-property, loop and trigger names and descriptions are represented by the `PatternKind`, `PropertyKind`, `LoopKind` and `TriggerKind` enumerations rather than their text. The loop descriptions, trigger effects, prediction and risk texts, and the JavaScript report strings are carried as constants. Only their counts, order and the values they embed are proved about.
- Python status strings: the status and description literals of consciousness_analyzer.py hold the UTF-8 bytes of their emoji and arrows decoded as Windows-1252. The model keeps those characters as the file holds them.

## Findings

| source | as written | input that shows it | evidently intended | confidence | as-written member | corrected member |
|---|---|---|---|---|---|---|
| consciousness_analyzer.py:192 | `re.findall(r'def\s+\w+.*:\s*.*\1', code)`: the back-reference `\1` names group 1 but the pattern opens no group. Python's `re` refuses to compile it ("invalid group reference 1 at position 18"), so `_detect_patterns` and `analyze_repository` raise for every input. | any code, for example the empty string | capture the function name, `def\s+(\w+).*:\s*.*\1`, so the pattern finds a function whose name recurs after its colon | not executed | ConsciousnessAnalyzer.AnalysisAsWrittenFails | ConsciousnessAnalyzer.CorrectedAnalysis |
