/** Option and Result values, and the warnings main.py logs, used by the lookups and the parser. */
module Outcomes {

  /** A value that may be absent (Python's None). */
  datatype Option<+T> = None | Some(value: T)

  /** Either a value or the exception the source would raise instead. */
  datatype Result<+T, +E> = Ok(value: T) | Err(error: E)

  /** The three warning lines of main.py. */
  datatype Warning =
    | NoAssociatedPr   // get_pr_from_hash found no pull request for the commit
    | NoLabelFound     // the pull request has none of the three labels
    | NoPrFound        // process fell back to the commit message

  /** A value together with the warnings logged while computing it, in order. */
  datatype Logged<+T> = Logged(value: T, warnings: seq<Warning>)
}
