/**
 * The selection logic of get_pr_from_hash and get_commit_message in
 * main.py. The GitHub searches themselves are not modelled: their results
 * arrive as plain sequences.
 */
module Lookup {
  import opened Outcomes

  /** A search hit for a pull request: its title and the names of its labels. */
  datatype Issue = Issue(title: string, labels: seq<string>)

  /** A search hit for a commit: its message. */
  datatype Commit = Commit(message: string)

  /** The exceptions: 'Multiple issues found' and the commit-count check. */
  datatype LookupError = MultipleIssues | CommitCountNotOne(found: nat)

  /** A search result read as zero, exactly one, or several matches. */
  datatype Matches<T> = NoMatch | OneMatch(only: T) | ManyMatches

  function Classify<T>(results: seq<T>): (m: Matches<T>)
    ensures m.NoMatch? <==> results == []
    ensures m.OneMatch? ==> results == [m.only]
    ensures m.ManyMatches? <==> |results| > 1
  {
    if results == [] then NoMatch
    else if |results| == 1 then OneMatch(results[0])
    else ManyMatches
  }

  /**
   * get_pr_from_hash: several matches raise, none gives None with a
   * warning, one gives that match.
   */
  function SelectPullRequest<T>(matches: seq<T>): (r: Logged<Result<Option<T>, LookupError>>)
    ensures r.value == match Classify(matches)
      case ManyMatches => Err(MultipleIssues)
      case NoMatch => Ok(None)
      case OneMatch(x) => Ok(Some(x))
    ensures r.warnings == if Classify(matches).NoMatch? then [NoAssociatedPr] else []
  {
    if |matches| > 1 then Logged(Err(MultipleIssues), [])
    else
      var warnings := if |matches| == 0 then [NoAssociatedPr] else [];
      Logged(Ok(if matches != [] then Some(matches[0]) else None), warnings)
  }

  /** get_commit_message: the message of the only matching commit; any other count raises. */
  function CommitMessage(commits: seq<Commit>): (r: Result<string, LookupError>)
    ensures r == match Classify(commits)
      case OneMatch(c) => Ok(c.message)
      case _ => Err(CommitCountNotOne(|commits|))
  {
    if |commits| != 1 then Err(CommitCountNotOne(|commits|)) else Ok(commits[0].message)
  }

  /** A pull request is chosen only when it is the single match. */
  lemma {:induction false} SelectedIsOnlyMatch<T>(matches: seq<T>, x: T)
    ensures SelectPullRequest(matches).value == Ok(Some(x)) <==> matches == [x]
  {
  }
}
