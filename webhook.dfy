/**
 * The `/webhook` handler of server.js as a pure decision: the payload and
 * the outcome of each GitHub call it would make go in; the HTTP response
 * and the list of calls made come out.  Also the Markdown comment that
 * `formatAnalysisComment` posts on the pull request.
 */
module Webhook {
  import opened Wrappers
  import opened Text
  import opened RepoAnalysis

  // ---------------------------------------------------------------------------
  // The comment
  // ---------------------------------------------------------------------------

  /** `Math.round(x)`: the nearest integer, halves rounded up. */
  function Round(x: real): (n: int)
    ensures n as real <= x + 0.5 < n as real + 1.0
  {
    (x + 0.5).Floor
  }

  /** `${l.name} (${l.files})` */
  function LanguageText(l: Language): string
  {
    l.name + " (" + NatToString(l.files) + ")"
  }

  /** `- **${p.name}** (${Math.round(p.confidence * 100)}% confidence): ${p.description}` */
  function PatternLine(p: Pattern): string
  {
    "- **" + p.name + "** (" + IntToString(Round(p.confidence * 100.0)) + "% confidence): " + p.description
  }

  /** `- ${i}` */
  function InsightLine(i: Insight): string
  {
    "- " + InsightText(i)
  }

  function LanguageTexts(ls: seq<Language>): seq<string>
  {
    seq(|ls|, j requires 0 <= j < |ls| => LanguageText(ls[j]))
  }

  function PatternLines(ps: seq<Pattern>): seq<string>
  {
    seq(|ps|, j requires 0 <= j < |ps| => PatternLine(ps[j]))
  }

  function InsightLines(ins: seq<Insight>): seq<string>
  {
    seq(|ins|, j requires 0 <= j < |ins| => InsightLine(ins[j]))
  }

  const Newline: string := "\n"

  // The fixed lines of the template.
  const Title: string := "## \U{1F30C} Logospace AI Analysis"
  const OverviewHeading: string := "### \U{1F4CA} Overview"
  const PatternsHeading: string := "### \U{1F50D} Detected Patterns"
  const InsightsHeading: string := "### \U{1F4A1} Insights"
  const NextStepsHeading: string := "### \U{1F680} Next Steps"
  const DashboardLine: string :=
    "Visit the [Logospace Dashboard](https://logospace-ai.example.com) to explore your code in 3D spatial visualization!"
  const Footer: string := "*Powered by Logospace AI - Transform Code into Consciousness*"
  const RepositoryLabel: string := "**Repository:** "
  const TotalFilesLabel: string := "- **Total Files:** "
  const ScoreLabel: string := "- **Code Quality Score:** "
  const LanguagesLabel: string := "- **Main Languages:** "

  /** The template lines of server.js:154-175 up to the patterns. */
  function Head(a: Analysis): seq<string>
  {
    [ "", Title, "",
      RepositoryLabel + a.repository,
      "", OverviewHeading,
      TotalFilesLabel + NatToString(a.totalFiles),
      ScoreLabel + IntToString(a.codeQualityScore) + "/100",
      LanguagesLabel + Join(LanguageTexts(a.mainLanguages), ", "),
      "", PatternsHeading ]
  }

  const Middle: seq<string> := ["", InsightsHeading]

  const Tail: seq<string> := ["", NextStepsHeading, DashboardLine, "", "---", Footer, ""]

  /**
   * `formatAnalysisComment` (server.js:153-176): the template, with the
   * pattern lines and the insight lines each joined by newlines into the
   * template's single placeholder line.
   */
  function FormatAnalysisComment(a: Analysis): string
  {
    Join(Head(a) + [Join(PatternLines(a.patterns), Newline)] + Middle
         + [Join(InsightLines(a.insights), Newline)] + Tail, Newline)
  }

  /** The comment's lines when every placeholder is a single line. */
  function CommentLines(a: Analysis): seq<string>
  {
    Head(a) + PatternLines(a.patterns) + Middle + InsightLines(a.insights) + Tail
  }

  /** Joining a concatenation: the two joins with one more separator between them. */
  lemma {:induction false} JoinAppend(xs: seq<string>, ys: seq<string>, sep: string)
    requires |xs| >= 1 && |ys| >= 1
    ensures Join(xs + ys, sep) == Join(xs, sep) + sep + Join(ys, sep)
  {
    if |xs| == 1 {
      assert (xs + ys)[1..] == ys;
    } else {
      JoinAppend(xs[1..], ys, sep);
      assert (xs + ys)[1..] == xs[1..] + ys;
    }
  }

  /** Joining five runs: their joins with a separator between each two. */
  lemma JoinAppend5(r1: seq<string>, r2: seq<string>, r3: seq<string>, r4: seq<string>, r5: seq<string>, sep: string)
    requires |r1| >= 1 && |r2| >= 1 && |r3| >= 1 && |r4| >= 1 && |r5| >= 1
    ensures Join(r1 + r2 + r3 + r4 + r5, sep)
      == Join(r1, sep) + sep + Join(r2, sep) + sep + Join(r3, sep) + sep + Join(r4, sep) + sep + Join(r5, sep)
  {
    JoinAppend(r1, r2, sep);
    JoinAppend(r1 + r2, r3, sep);
    JoinAppend(r1 + r2 + r3, r4, sep);
    JoinAppend(r1 + r2 + r3 + r4, r5, sep);
  }

  /**
   * The comment is its template lines joined by newlines, where each
   * pattern and each insight has a line of its own, so that there are 20
   * lines besides them.  (With no pattern or no insight the placeholder
   * line stays, empty.)
   */
  lemma CommentIsLines(a: Analysis)
    requires |a.patterns| >= 1 && |a.insights| >= 1
    ensures FormatAnalysisComment(a) == Join(CommentLines(a), Newline)
    ensures |CommentLines(a)| == 20 + |a.patterns| + |a.insights|
  {
    var p, i := Join(PatternLines(a.patterns), Newline), Join(InsightLines(a.insights), Newline);
    JoinAppend5(Head(a), [p], Middle, [i], Tail, Newline);
    JoinAppend5(Head(a), PatternLines(a.patterns), Middle, InsightLines(a.insights), Tail, Newline);
    assert Join([p], Newline) == p && Join([i], Newline) == i;
  }

  /** The middle run of a concatenation sits right after the first. */
  lemma RunAt(pre: seq<string>, run: seq<string>, post: seq<string>)
    ensures (pre + run + post)[|pre|..|pre| + |run|] == run
  {
    assert (pre + run + post)[|pre|..|pre| + |run|] == ((pre + run) + post)[|pre|..|pre| + |run|];
  }

  /**
   * Where the values sit among the comment's lines: the repository on
   * line 3, the main languages as `name (files)` separated by ", " on
   * line 8, the pattern lines from line 11 on and the insight lines two
   * lines after them.
   */
  lemma CommentLinesAt(a: Analysis)
    ensures var lines := CommentLines(a);
      && lines[3] == RepositoryLabel + a.repository
      && lines[8] == LanguagesLabel + Join(LanguageTexts(a.mainLanguages), ", ")
      && lines[11..11 + |a.patterns|] == PatternLines(a.patterns)
      && lines[13 + |a.patterns|..13 + |a.patterns| + |a.insights|] == InsightLines(a.insights)
  {
    var h, pats, ins := Head(a), PatternLines(a.patterns), InsightLines(a.insights);
    assert |h| == 11;
    RunAt(h, pats, Middle + ins + Tail);
    assert h + pats + (Middle + ins + Tail) == CommentLines(a);
    RunAt(h + pats + Middle, ins, Tail);
  }

  /** The two fixed patterns are shown as 85% and 72% confidence. */
  lemma FixedPatternPercents()
    ensures Round(FixedPatterns[0].confidence * 100.0) == 85
    ensures Round(FixedPatterns[1].confidence * 100.0) == 72
  {
  }

  // ---------------------------------------------------------------------------
  // The handler
  // ---------------------------------------------------------------------------

  datatype Repository = Repository(ownerLogin: string, name: string)

  datatype PullRequest = PullRequest(number: int, headSha: string)

  /** The fields of the request body the handler reads; either object may be missing. */
  datatype Payload = Payload(action: string, repository: Option<Repository>, pullRequest: Option<PullRequest>)

  /**
   * An installation of the app; `repositoriesUrl` is "" when the field is
   * absent or empty, which JavaScript treats as false.
   */
  datatype Installation = Installation(id: int, repositorySelection: string, repositoriesUrl: string)

  /**
   * How each GitHub call would end: listing the installations (the list or
   * the error message), creating the installation client, `repos.get`,
   * `git.getTree` (the tree's paths), `issues.createComment`; and the draw
   * of `Math.random()` for the score.
   */
  datatype GitHub = GitHub(
    installations: Result<seq<Installation>, string>,
    clientError: Option<string>,
    repoError: Option<string>,
    tree: Result<seq<string>, string>,
    commentError: Option<string>,
    draw: real)

  /**
   * The calls the handler makes, with their arguments.  A comment is
   * recorded with the analysis it reports; its body is
   * `FormatAnalysisComment(report)` (see `CommentBody`).
   */
  datatype Call =
    | ListInstallations
    | GetInstallationClient(installationId: int)
    | GetRepo(owner: string, repo: string)
    | GetTree(owner: string, repo: string, treeSha: string)
    | CreateComment(owner: string, repo: string, issueNumber: int, report: Analysis)

  /** The Markdown body a `CreateComment` call posts. */
  function CommentBody(c: Call): string
    requires c.CreateComment?
  {
    FormatAnalysisComment(c.report)
  }

  /** The JSON body sent back. */
  datatype Body =
    | NotProcessed
    | ErrorMessage(error: string)
    | Success(analysis: Analysis)

  datatype Response = Response(status: nat, body: Body)

  datatype Outcome = Outcome(response: Response, calls: seq<Call>)

  /** The messages Node gives for reading through a missing `repository` or `pull_request`. */
  const MissingRepository: string := "Cannot read properties of undefined (reading 'owner')"
  const MissingPullRequest: string := "Cannot read properties of undefined (reading 'head')"

  predicate Processed(action: string)
  {
    action == "opened" || action == "synchronize"
  }

  /** `inst.repository_selection === 'all' || inst.repositories_url` */
  predicate Suitable(inst: Installation)
  {
    inst.repositorySelection == "all" || inst.repositoriesUrl != ""
  }

  /** `inst` is the installation at index `k` of `insts`, and no earlier one is suitable. */
  predicate FirstSuitableAt(insts: seq<Installation>, k: int, inst: Installation)
  {
    0 <= k < |insts| && insts[k] == inst && forall i :: 0 <= i < k ==> !Suitable(insts[i])
  }

  /** `installations.data.find(...)`: the first suitable installation, if any. */
  function FindInstallation(insts: seq<Installation>): (r: Option<Installation>)
    ensures r.None? <==> forall i :: 0 <= i < |insts| ==> !Suitable(insts[i])
    ensures r.Some? ==> Suitable(r.value) && exists k :: FirstSuitableAt(insts, k, r.value)
  {
    if |insts| == 0 then None
    else if Suitable(insts[0]) then
      assert FirstSuitableAt(insts, 0, insts[0]);
      Some(insts[0])
    else
      var r := FindInstallation(insts[1..]);
      assert r.Some? ==> exists k :: FirstSuitableAt(insts, k, r.value) by {
        if r.Some? {
          var k :| FirstSuitableAt(insts[1..], k, r.value);
          assert FirstSuitableAt(insts, k + 1, r.value);
        }
      }
      r
  }

  function Fail(message: string, calls: seq<Call>): Outcome
  {
    Outcome(Response(500, ErrorMessage(message)), calls)
  }

  /**
   * The handler (server.js:18-63).  Any error thrown inside the `try`
   * becomes a 500 carrying its message; `res.json` without a status sends
   * 200.
   */
  function HandleWebhook(p: Payload, gh: GitHub): Outcome
  {
    if !Processed(p.action) then Outcome(Response(200, NotProcessed), [])
    else match gh.installations
      case Err(m) => Fail(m, [ListInstallations])
      case Ok(insts) =>
        match FindInstallation(insts)
        case None => Outcome(Response(404, ErrorMessage("No installation found")), [ListInstallations])
        case Some(inst) =>
          var calls := [ListInstallations, GetInstallationClient(inst.id)];
          if gh.clientError.Some? then Fail(gh.clientError.value, calls)
          else if p.repository.None? then Fail(MissingRepository, calls)
          else if p.pullRequest.None? then Fail(MissingPullRequest, calls)
          else
            var owner := p.repository.value.ownerLogin;
            var name := p.repository.value.name;
            var pr := p.pullRequest.value;
            var calls := calls + [GetRepo(owner, name)];
            if gh.repoError.Some? then Fail(gh.repoError.value, calls)
            else
              var calls := calls + [GetTree(owner, name, pr.headSha)];
              match gh.tree
              case Err(m) => Fail(m, calls)
              case Ok(paths) =>
                var analysis := AnalysisOf(name, paths, gh.draw);
                var calls := calls + [CreateComment(owner, name, pr.number, analysis)];
                if gh.commentError.Some? then Fail(gh.commentError.value, calls)
                else Outcome(Response(200, Success(analysis)), calls)
  }

  /** Only `opened` and `synchronize` are handled; every other action is answered without a call. */
  lemma IgnoredActions(p: Payload, gh: GitHub)
    ensures HandleWebhook(p, gh).response.body == NotProcessed <==> !Processed(p.action)
    ensures !Processed(p.action) ==> HandleWebhook(p, gh) == Outcome(Response(200, NotProcessed), [])
  {
  }

  /**
   * With no suitable installation the answer is 404 "No installation
   * found", after listing the installations and before anything else; and
   * a 404 means exactly that.
   */
  lemma NoInstallation(p: Payload, gh: GitHub)
    ensures HandleWebhook(p, gh).response.status == 404
      <==> Processed(p.action) && gh.installations.Ok? && FindInstallation(gh.installations.value).None?
    ensures HandleWebhook(p, gh).response.status == 404 ==>
      HandleWebhook(p, gh) == Outcome(Response(404, ErrorMessage("No installation found")), [ListInstallations])
  {
  }

  /** The calls the handler makes when nothing fails. */
  function AllCalls(p: Payload, inst: Installation, report: Analysis): seq<Call>
    requires p.repository.Some? && p.pullRequest.Some?
  {
    var r := p.repository.value;
    [ ListInstallations, GetInstallationClient(inst.id), GetRepo(r.ownerLogin, r.name),
      GetTree(r.ownerLogin, r.name, p.pullRequest.value.headSha),
      CreateComment(r.ownerLogin, r.name, p.pullRequest.value.number, report) ]
  }

  /**
   * The handler succeeds exactly when every call succeeds and the payload
   * names the repository and the pull request; it then answers with the
   * analysis of the tree at the pull request's head, having posted that
   * analysis's comment on the pull request with the first suitable
   * installation.
   */
  lemma Succeeds(p: Payload, gh: GitHub)
    ensures HandleWebhook(p, gh).response.body.Success? <==>
      Processed(p.action) && gh.installations.Ok? && FindInstallation(gh.installations.value).Some?
      && gh.clientError.None? && p.repository.Some? && p.pullRequest.Some?
      && gh.repoError.None? && gh.tree.Ok? && gh.commentError.None?
    ensures HandleWebhook(p, gh).response.body.Success? ==>
      var a := AnalysisOf(p.repository.value.name, gh.tree.value, gh.draw);
      HandleWebhook(p, gh) == Outcome(Response(200, Success(a)),
        AllCalls(p, FindInstallation(gh.installations.value).value, a))
  {
  }

  /** The error message with which call `c` would throw, if it fails. */
  function CallError(c: Call, gh: GitHub): Option<string>
  {
    match c
    case ListInstallations => if gh.installations.Err? then Some(gh.installations.error) else None
    case GetInstallationClient(_) => gh.clientError
    case GetRepo(_, _) => gh.repoError
    case GetTree(_, _, _) => if gh.tree.Err? then Some(gh.tree.error) else None
    case CreateComment(_, _, _, _) => gh.commentError
  }

  /**
   * The calls of a run with installation `inst` in which nothing fails up
   * to the tree: the comment is posted only once the tree is fetched.
   */
  function RunCalls(p: Payload, gh: GitHub, inst: Installation): seq<Call>
    requires p.repository.Some? && p.pullRequest.Some?
  {
    var r := p.repository.value;
    [ ListInstallations, GetInstallationClient(inst.id), GetRepo(r.ownerLogin, r.name),
      GetTree(r.ownerLogin, r.name, p.pullRequest.value.headSha) ]
    + (if gh.tree.Ok? then [CreateComment(r.ownerLogin, r.name, p.pullRequest.value.number,
                                          AnalysisOf(r.name, gh.tree.value, gh.draw))] else [])
  }

  /**
   * Every failure inside the `try` is a 500: every call before the last
   * one made succeeded, and the message is the last call's own error, or,
   * when the installation client was created and the payload lacks
   * `repository` or `pull_request`, the `TypeError` of reading through it.
   */
  lemma Failures(p: Payload, gh: GitHub)
    requires Processed(p.action)
    ensures var o := HandleWebhook(p, gh);
      && (o.response.status == 500 <==> o.response.body.ErrorMessage? && o.response.status != 404)
      && |o.calls| >= 1 && o.calls[0] == ListInstallations
      && (forall i :: 0 <= i < |o.calls| - 1 ==> CallError(o.calls[i], gh).None?)
      && (o.response.status == 500 && CallError(o.calls[|o.calls| - 1], gh).Some? ==>
            o.response.body.error == CallError(o.calls[|o.calls| - 1], gh).value)
      && (o.response.status == 500 && CallError(o.calls[|o.calls| - 1], gh).None? ==>
            o.calls[|o.calls| - 1].GetInstallationClient?
            && ((p.repository.None? && o.response.body.error == MissingRepository)
                || (p.repository.Some? && p.pullRequest.None? && o.response.body.error == MissingPullRequest)))
      && (o.response.status != 500 ==> forall i :: 0 <= i < |o.calls| ==> CallError(o.calls[i], gh).None?)
  {
  }

  /**
   * The calls made are always a prefix of the calls of a run in which
   * nothing fails, so a comment is posted only as the last call, and only
   * with the analysis of the fetched tree.
   */
  lemma CallsFollowRun(p: Payload, gh: GitHub)
    requires Processed(p.action) && gh.installations.Ok? && FindInstallation(gh.installations.value).Some?
    ensures var o := HandleWebhook(p, gh); var inst := FindInstallation(gh.installations.value).value;
      && (p.repository.Some? && p.pullRequest.Some? ==> o.calls <= RunCalls(p, gh, inst))
      && (p.repository.None? || p.pullRequest.None? ==> o.calls == [ListInstallations, GetInstallationClient(inst.id)])
  {
  }
}
