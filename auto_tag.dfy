/**
 * The decision part of `process` in main.py, once the subprocess and
 * GitHub calls have produced their values: parse the current tag, pick the
 * pull request, derive the title, choose the increment, and produce the
 * name and message that add_new_tag is called with.
 */
module AutoTag {
  import opened Outcomes
  import opened Decimal
  import opened TagParser
  import opened VersionBump
  import opened Lookup

  /**
   * Why a run stops before any tag is created. TitleNotAscii is the
   * UnicodeEncodeError of line 133 under Python 2: the template
   * '{}: auto-generated tag' is a byte string, the title from the GitHub
   * client is unicode, and format cannot encode a character outside ASCII.
   */
  datatype Failure =
    | UnparsableTag(parse: ParseError)
    | LookupFailed(lookup: LookupError)
    | TitleNotAscii

  /** The arguments of add_new_tag: `git tag -a <name> -m <message>`. */
  datatype TagRequest = TagRequest(name: string, message: string)

  /** The warnings logged during a run, and either the tag to create or the failure. */
  datatype Run = Run(warnings: seq<Warning>, outcome: Result<TagRequest, Failure>)

  const Suffix := ": auto-generated tag"

  /** Every character of `s` is in the ASCII range. */
  predicate Ascii(s: string) {
    forall i :: 0 <= i < |s| ==> s[i] as int < 128
  }

  /**
   * '{}: auto-generated tag'.format(title): the title followed by the fixed
   * suffix, or the encoding error when the title is not ASCII.
   */
  function TagMessage(title: string): (r: Result<string, Failure>)
    ensures r.Ok? <==> Ascii(title)
    ensures r.Err? ==> r.error == TitleNotAscii
    ensures r.Ok? ==> |r.value| == |title| + |Suffix| && r.value[..|title|] == title && r.value[|title|..] == Suffix
  {
    if Ascii(title) then Ok(title + Suffix) else Err(TitleNotAscii)
  }

  /** An accented title, such as `café`, cannot be formatted. */
  lemma AccentedTitleFails()
    ensures TagMessage("caf\U{e9}") == Err(TitleNotAscii)
  {
    var title := "caf\U{e9}";
    assert title[3] as int == 0xe9;
  }

  /** The title can be read back from a tag message: different titles give different messages. */
  lemma {:induction false} TagMessageKeepsTitle(t1: string, t2: string)
    ensures TagMessage(t1).Ok? ==> (TagMessage(t1) == TagMessage(t2) <==> t1 == t2)
  {
    if TagMessage(t1).Ok? && TagMessage(t1) == TagMessage(t2) {
      assert |t1| == |t2|;
      assert t1 == TagMessage(t1).value[..|t1|];
    }
  }

  /**
   * `process` after `git rev-parse` and `git describe`: `tag` is the
   * current tag, `issues` and `commits` are what the two GitHub searches
   * for the current commit return (the commit search is consulted only
   * when no pull request matches).
   */
  function Process(tag: string, issues: seq<Issue>, commits: seq<Commit>): (run: Run)
  {
    match ParseTag(tag)
    case Err(e) => Run([], Err(UnparsableTag(e)))
    case Ok(parts) => Decide(parts, issues, commits)
  }

  /** The part of `process` after the current tag has been parsed into `parts`. */
  function Decide(parts: Parts, issues: seq<Issue>, commits: seq<Commit>): (run: Run)
    requires WellFormed(parts)
  {
    var lookup := SelectPullRequest(issues);
    match lookup.value
    case Err(e) => Run(lookup.warnings, Err(LookupFailed(e)))
    case Ok(Some(pr)) =>
      var inc := ChooseIncrement(Some(pr.labels));
      Tagged(lookup.warnings + (if inc == DefaultPatch then [NoLabelFound] else []), NewVersion(parts, inc), pr.title)
    case Ok(None) =>
      match CommitMessage(commits)
      case Err(e) => Run(lookup.warnings, Err(LookupFailed(e)))
      case Ok(title) => Tagged(lookup.warnings + [NoPrFound], NewVersion(parts, DefaultPatch), title)
  }

  /** The last step of `process`: format the message, then create the tag. */
  function Tagged(warnings: seq<Warning>, name: string, title: string): (run: Run) {
    match TagMessage(title)
    case Err(e) => Run(warnings, Err(e))
    case Ok(message) => Run(warnings, Ok(TagRequest(name, message)))
  }

  /**
   * A run creates a tag exactly when the current tag has three digit runs,
   * at most one pull request matches, and, when none does, exactly one
   * commit matches, and the title it uses is ASCII. In particular an
   * ambiguous pull request or commit search always stops the run before a
   * tag is created.
   */
  lemma {:induction false} ProcessSucceedsExactly(tag: string, issues: seq<Issue>, commits: seq<Commit>)
    ensures Process(tag, issues, commits).outcome.Ok? <==>
      |Runs(tag)| >= 3 && |issues| <= 1 && (|issues| == 1 || |commits| == 1) &&
      Ascii(if |issues| == 1 then issues[0].title else commits[0].message)
    ensures |Runs(tag)| >= 3 && |issues| > 1 ==>
      Process(tag, issues, commits).outcome == Err(LookupFailed(MultipleIssues))
    ensures |Runs(tag)| >= 3 && issues == [] && |commits| != 1 ==>
      Process(tag, issues, commits).outcome == Err(LookupFailed(CommitCountNotOne(|commits|)))
    ensures |Runs(tag)| >= 3 && |issues| == 1 && !Ascii(issues[0].title) ==>
      Process(tag, issues, commits).outcome == Err(TitleNotAscii)
    ensures |Runs(tag)| >= 3 && issues == [] && |commits| == 1 && !Ascii(commits[0].message) ==>
      Process(tag, issues, commits).outcome == Err(TitleNotAscii)
    ensures |Runs(tag)| < 3 ==> Process(tag, issues, commits) == Run([], Err(UnparsableTag(NoDigitRun)))
  {
    ParseTagReadsRuns(tag);
  }

  /**
   * The tag a successful run creates: its name is the next version chosen
   * by the labels (or the patch default), it parses back to a version
   * strictly above the current one, and its message is the pull request's
   * title, or the commit message when there is no pull request, followed
   * by the fixed suffix.
   */
  lemma {:induction false} ProcessTagsNextVersion(tag: string, issues: seq<Issue>, commits: seq<Commit>)
    requires Process(tag, issues, commits).outcome.Ok?
    ensures ParseTag(tag).Ok?
    ensures var req := Process(tag, issues, commits).outcome.value;
      var labels := if issues == [] then None else Some(issues[0].labels);
      var title := if issues == [] then commits[0].message else issues[0].title;
      req.name == NewVersion(ParseTag(tag).value, ChooseIncrement(labels)) &&
      Ascii(title) && req.message == title + ": auto-generated tag" &&
      ParseTag(req.name).Ok? &&
      Below(Numbers(ParseTag(tag).value), Numbers(ParseTag(req.name).value))
  {
    ProcessSucceedsExactly(tag, issues, commits);
    var labels := if issues == [] then None else Some(issues[0].labels);
    NewVersionIsGreater(ParseTag(tag).value, ChooseIncrement(labels));
  }

  /**
   * The warnings of a run whose tag parses: no match for the pull request
   * is reported first; then either the commit-message fallback or, for a
   * pull request without a recognised label, the patch default.
   */
  lemma {:induction false} ProcessWarnings(tag: string, issues: seq<Issue>, commits: seq<Commit>)
    requires ParseTag(tag).Ok?
    ensures var w := Process(tag, issues, commits).warnings;
      if |issues| > 1 then w == []
      else if issues == [] then
        w == if |commits| == 1 then [NoAssociatedPr, NoPrFound] else [NoAssociatedPr]
      else
        var labels := issues[0].labels;
        w == if "major" !in labels && "minor" !in labels && "patch" !in labels then [NoLabelFound] else []
  {
  }

  /** Once the tag has parsed, the run is decided by its parts alone. */
  lemma {:induction false} ProcessAfterParse(tag: string, parts: Parts, issues: seq<Issue>, commits: seq<Commit>)
    requires ParseTag(tag) == Ok(parts)
    ensures WellFormed(parts) && Process(tag, issues, commits) == Decide(parts, issues, commits)
  {
  }

  /**
   * A commit without a pull request: the patch goes up by one, the title is
   * the commit message, and both warnings are logged; a message that is
   * not ASCII stops the run after the warnings.
   */
  lemma {:induction false} DirectCommitRun(tag: string, parts: Parts, message: string)
    requires ParseTag(tag) == Ok(parts)
    ensures WellFormed(parts)
    ensures Process(tag, [], [Commit(message)]) ==
      Run([NoAssociatedPr, NoPrFound],
          if Ascii(message) then Ok(TagRequest(NewVersion(parts, DefaultPatch), message + ": auto-generated tag"))
          else Err(TitleNotAscii))
  {
    var none: seq<Issue> := [];
    ProcessAfterParse(tag, parts, none, [Commit(message)]);
    assert SelectPullRequest(none) == Logged(Ok(None), [NoAssociatedPr]);
    assert CommitMessage([Commit(message)]) == Ok(message);
  }

  /**
   * A pull request labelled `minor` but not `major`: the minor goes up by
   * one, with no warning; a title that is not ASCII stops the run.
   */
  lemma {:induction false} MinorLabelRun(tag: string, parts: Parts, title: string, labels: seq<string>, commits: seq<Commit>)
    requires ParseTag(tag) == Ok(parts)
    requires "minor" in labels && "major" !in labels
    ensures WellFormed(parts)
    ensures Process(tag, [Issue(title, labels)], commits) ==
      Run([], if Ascii(title) then Ok(TagRequest(NewVersion(parts, Minor), title + ": auto-generated tag"))
              else Err(TitleNotAscii))
  {
    var pr := Issue(title, labels);
    ProcessAfterParse(tag, parts, [pr], commits);
    assert SelectPullRequest([pr]) == Logged(Ok(Some(pr)), []);
  }

  /** The commit message of FixTypoRun is ASCII, and its tag message is the expected one. */
  lemma FixTypoMessage()
    ensures Ascii("fix typo")
    ensures "fix typo" + Suffix == "fix typo: auto-generated tag"
  {
  }

  /** The patch default renders `int('0') + 1` as "1". */
  lemma FixTypoPatch()
    ensures AllDigits("0") && NatToString(ParseNat("0") + 1) == "1"
  {
    assert ParseNat("0") == 0;
    assert NatToString(1) == "1";
  }

  /** `v0.9.0` with no pull request and commit message "fix typo" is tagged `v0.9.1`. */
  lemma FixTypoRun()
    ensures Process(Render("0", "9", "0"), [], [Commit("fix typo")]) ==
      Run([NoAssociatedPr, NoPrFound], Ok(TagRequest(Render("0", "9", "1"), "fix typo: auto-generated tag")))
  {
    var a, b, c, m := "0", "9", "0", "fix typo";
    var parts := Parts(a, b, 0);
    FixTypoMessage();
    FixTypoPatch();
    assert NewVersion(parts, DefaultPatch) == Render(a, b, "1");
    ParseRender(a, b, c);
    DirectCommitRun(Render(a, b, c), parts, m);
  }

  /** `v1.2.3` with a pull request labelled `minor` and `patch` is tagged `v1.3.3` (for an ASCII title). */
  lemma {:induction false} MinorAndPatchRun(title: string)
    ensures Process(Render("1", "2", "3"), [Issue(title, ["minor", "patch"])], []) ==
      Run([], if Ascii(title) then Ok(TagRequest(Render("1", "3", "3"), title + ": auto-generated tag"))
              else Err(TitleNotAscii))
  {
    var a, b, c := "1", "2", "3";
    var labels := ["minor", "patch"];
    var parts := Parts(a, b, 3);
    assert ParseNat(b) == 2 && ParseNat(c) == 3;
    assert NatToString(3) == "3";
    assert NewVersion(parts, Minor) == Render(a, "3", "3");
    assert "minor" in labels && "major" !in labels;
    ParseRender(a, b, c);
    MinorLabelRun(Render(a, b, c), parts, title, labels, []);
  }
}
