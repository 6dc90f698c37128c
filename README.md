# Verified model of the version arithmetic of auto_pr_versioning

`main.py` tags the current commit of a git working copy with the next
semantic version. It reads the most recent tag, looks up the GitHub pull
request for the commit, lets the pull request's labels (`major`, `minor`,
`patch`) pick the component to bump, and creates and pushes the new tag
`v<major>.<minor>.<patch>` with the message `<title>: auto-generated tag`.

This project models the pure decisions inside that script as Dafny
functions and proves what they do:

- `TagParser` is the parser of `get_current_tagged_version_parts`. It models
  `re.search(r'\d+', …).group()` as `Search` and `str.index` as `Index`, and
  follows the code's offset arithmetic step by step. Major and minor stay
  digit strings. Patch goes through `int()`. The independent reference is
  `Runs`, a character-by-character scanner that lists the maximal runs of
  ASCII digits.
- `VersionBump` holds the label precedence (`ChooseIncrement`) and the
  rendering `'v{}.{}.{}'.format(…)` of the three branches (`NewVersion`).
- `Lookup` holds the list-length checks of `get_pr_from_hash` and
  `get_commit_message`, with a three-way `Classify` (zero, one, many) as
  reference.
- `AutoTag.Process` is `process` once its I/O has produced its values: the
  tag string, the pull-request search results and the commit search
  results. It returns the warnings logged and either the arguments of
  `add_new_tag` or the exception that stops the run.
- `Decimal` models `int()` of a digit string and `str()` of a non-negative
  int, as used by the code.

What the proofs establish:
- The parser returns exactly the first three maximal digit runs, whatever
  separates or follows them.
- The parser fails exactly when there are fewer than three runs, and it
  fails through `.group()` on `None`, never through `str.index`.
- The labels decide the bump with `major` > `minor` > `patch` > default, and
  nothing is reset.
- The rendered tag parses back to the triple with the chosen component one
  higher, and that triple is lexicographically above the old one.
- An untouched major or minor keeps its leading zeros, and a bumped
  component loses them: `v1.02.007` bumped at patch gives `v1.02.8`.
- A run ends in a tag exactly when there are at least three digit runs, at
  most one pull request, exactly one commit when there is no pull request,
  and the title used for the message is ASCII.

Behaviour of `main.py` worth knowing:
- Finding no pull request can still stop the run. `process` then calls
  `get_commit_message`, which raises unless exactly one commit matches (see
  `AutoTag.ProcessSucceedsExactly`).
- Major and minor stay the strings read from the tag; only the patch goes
  through `int()`. An untouched major or minor keeps its leading zeros.
- The script works only on a repository that already has a tag. With no
  tag, `git describe` prints nothing and parsing fails.
- When the commit count is not one, the exception's text always says "More
  than one commit found", even when no commit matched. The model records
  the count (`CommitCountNotOne`) and not the text.
- The script reads git's output as a byte string and applies `re.search`
  with a text pattern to it, so it runs as Python 2 code. The titles it gets
  from the GitHub client are unicode, and the message template of line 133
  is a byte string. `'{}: auto-generated tag'.format(title)` therefore raises
  `UnicodeEncodeError` for a title with a character outside ASCII, after the
  warnings are logged and before any tag is created (`AutoTag.TitleNotAscii`).

## Model

| member | source | states |
|---|---|---|
| Decimal.NatToString | main.py:120-131 | a rendered int is a non-empty ASCII digit string that starts with 0 exactly for 0, and then is "0" (no leading zeros) |
| Decimal.ParseNatToString | main.py:120-131 | int() of str(n) is n |
| Decimal.ParseNatLeadingZero | main.py:77 | int() ignores a leading zero |
| TagParser.Runs | main.py:73-77 | reference: the maximal digit runs of a string, each a non-empty ASCII digit string |
| TagParser.FirstDigit | main.py:73 | the first digit at or after a position; only non-digits before it |
| TagParser.RunEnd | main.py:73 | the greedy end of a digit run: all digits up to it, a non-digit or the end at it |
| TagParser.Search | main.py:73 | re.search(r'\d+', s).group() is a non-empty digit string, and None exactly when s has no digit |
| TagParser.Index | main.py:74 | str.index: the lowest occurrence at or after start, None (ValueError) exactly when there is no occurrence |
| TagParser.ParseTag | main.py:68-79 | a successful parse has non-empty digit strings for major and minor |
| TagParser.ParseFromMinor | main.py:75-77 | the parse after the major part also yields well-formed parts |
| TagParser.ParsePatch | main.py:77 | the last step yields well-formed parts |
| TagParser.IndexOfRun | main.py:74-76 | str.index of a digit run finds it at its own position when only non-digits precede it |
| TagParser.NextRun | main.py:75-76 | one parser step: str.index never fails on the run re.search found, and the text after it holds exactly the remaining runs |
| TagParser.ParseTagReadsRuns | main.py:73-77 | the parser succeeds iff there are at least three runs, returns (run 1, run 2, int(run 3)), and fails only with the re.search None |
| VersionBump.ChooseIncrement | main.py:119-131 | major if `major` is a label; minor if `minor` but not `major`; patch if `patch` but neither; otherwise, or with no pull request, the default |
| VersionBump.RenderRuns | main.py:120-131 | the digit runs of `v<a>.<b>.<c>` followed by a non-digit suffix are a, b, c and then the suffix's runs |
| VersionBump.ParseRender | main.py:120-131 | parsing a rendered version gives back its parts |
| VersionBump.DigitFreePrefix | main.py:73 | text without digits before the version adds no run |
| VersionBump.DecoratedTagParts | main.py:73-77 | a prefix without digits and a suffix that does not continue the patch leave the parts unchanged, as in `release-v2.13.7-hotfix` |
| VersionBump.NewVersionReadsBack | main.py:119-131 | the new tag parses back; the chosen component is one higher numerically; an untouched major or minor comes back as the same string, an untouched patch as the same number |
| VersionBump.NewVersionIsGreater | main.py:119-131 | the new version is strictly above the old one in (major, minor, patch) order |
| VersionBump.LabelsDecideBump | main.py:114-131 | `major` wins whatever else is present, then `minor`, else patch + 1; the other components are carried over |
| VersionBump.ZeroPaddedPatch | main.py:77 | int('007') is 7 |
| VersionBump.ZeroPaddedTagParts | main.py:73-77 | `v1.02.007` parses to "1", "02" and int('007') |
| VersionBump.ZeroPaddedPatchBump | main.py:123-124 | a patch bump of those parts is `v1.02.8` |
| Lookup.Classify | main.py:44-49 | reference: zero matches, exactly one match (the whole list is that element), or more than one |
| Lookup.SelectPullRequest | main.py:40-49 | many matches raise, none gives None with the warning, one gives that match |
| Lookup.CommitMessage | main.py:59-65 | the message of the only matching commit; any other count raises |
| Lookup.SelectedIsOnlyMatch | main.py:44-49 | a pull request is returned exactly when it is the only match |
| AutoTag.TagMessage | main.py:133 | an ASCII title gives the title followed by `: auto-generated tag`; any other title gives the encoding error |
| AutoTag.AccentedTitleFails | main.py:133 | the title `café` cannot be formatted |
| AutoTag.TagMessageKeepsTitle | main.py:133 | different titles that can be formatted give different messages |
| AutoTag.ProcessSucceedsExactly | main.py:106-133 | a tag is created iff three runs, at most one pull request, exactly one commit when there is none, and an ASCII title; otherwise the matching exception |
| AutoTag.ProcessTagsNextVersion | main.py:112-133 | the created tag is the label-chosen next version, strictly above the current one, with the message made from an ASCII title |
| AutoTag.ProcessWarnings | main.py:112-131 | the warnings: no PR (and the fallback when the commit lookup succeeds) or, for a PR without a recognised label, the patch default |
| AutoTag.ProcessAfterParse | main.py:107-112 | after a successful parse the run depends only on the parts and the search results |
| AutoTag.DirectCommitRun | main.py:128-133 | no pull request and one commit: patch default, the commit message as title, both warnings; the encoding error after both warnings when the message is not ASCII |
| AutoTag.MinorLabelRun | main.py:114-133 | a pull request labelled `minor` and not `major` bumps the minor, with no warning; the encoding error when the title is not ASCII |
| AutoTag.FixTypoRun | main.py:128-133 | `v0.9.0`, no pull request, commit "fix typo": tag `v0.9.1` with message `fix typo: auto-generated tag` |
| AutoTag.MinorAndPatchRun | main.py:114-133 | `v1.2.3` with labels `minor` and `patch`: tag `v1.3.3`, or the encoding error for a title that is not ASCII |

## Left out

- Subprocess calls to git (`rev-parse`, `describe`, `branch`, `tag`, `push`): process I/O. The tag string is an input, and the tag to create is an output.
- GitHub API calls (login, issue search, commit search): foreign calls. Their results are input sequences, and labels are plain name strings.
- The commit hash: it only keys the searches and appears in an error message, so the model does not need it.
- Argument parsing, logging setup, the directory check and `os.chdir` (including logging and carrying on when the directory is not a repository): environment plumbing. Warnings are a list of `Warning` values.
- Bytes versus text: the tag is a character string, and only ASCII digits count as digits, as `\d` does on a Python 2 byte string. Unicode digits matched by `\d` on Python 3 text are not modelled. The `.strip()` of the git output is taken as already applied.
- setup.py: packaging metadata that shells out to git, with a `v0.0.0` fallback that is not part of `main.py`.
- AutoTag.Process: wrong Python types and other exceptions from the left-out calls are not modelled. The model covers only the exceptions that `main.py` itself raises.
