/**
 * The version-control library as seen by the extension: every call the
 * source makes is an answer in this oracle, and a call that throws is a
 * `Failure`. Nothing here models how git computes those answers.
 */
module Git {
  import opened Wrappers
  import opened Text

  /** Whatever a git call throws; the source only catches it. */
  datatype GitError = GitError(message: string)

  /** One entry of `git.log(...)`: the fields the source reads. */
  datatype LogEntry = LogEntry(
    hash: string,
    date: string,
    message: string,
    authorName: string,
    authorEmail: string)

  /** The answer of `git.log({ maxCount })`: the entries, newest first, and `latest`. */
  datatype LogResult = LogResult(all: seq<LogEntry>, latest: Option<LogEntry>)

  /**
   * One file of a diff summary. A text entry reports its line counts; a
   * binary entry has no `insertions` or `deletions` field at all.
   */
  datatype DiffFile =
    | TextFile(file: string, insertions: nat, deletions: nat)
    | BinaryFile(file: string)

  /** The answer of `git.diffSummary([hash + "^", hash])`. */
  datatype DiffSummary = DiffSummary(files: seq<DiffFile>, insertions: nat, deletions: nat)

  /**
   * The repository at one folder, as the library answers about it:
   * `checkIsRepo()`, `log({ maxCount })`, `diffSummary([h^, h])` for a
   * commit hash h, and `diff([h^, h, '--', path])`. A root commit has no
   * parent, so `h^` does not resolve and its diff calls fail.
   */
  datatype GitOracle = GitOracle(
    checkIsRepo: Result<bool, GitError>,
    log: nat -> Result<LogResult, GitError>,
    diffSummary: string -> Result<DiffSummary, GitError>,
    diff: (string, string) -> Result<string, GitError>)

  /**
   * What the library promises about `log`, and the source relies on
   * without checking: at most `maxCount` entries, and `latest` is the
   * first entry, absent exactly when there are none.
   */
  ghost predicate LogContract(git: GitOracle) {
    forall n: nat :: git.log(n).Success? ==>
      |git.log(n).value.all| <= n &&
      git.log(n).value.latest == (if |git.log(n).value.all| == 0 then None else Some(git.log(n).value.all[0]))
  }

  /** Number of characters of the displayed short hash (`hash.substring(0, 8)`). */
  const ShortHashLength: nat := 8

  /** The displayed short form of a commit hash: its first eight characters. */
  function ShortHash(hash: string): (s: string)
    ensures |s| == Min(ShortHashLength, |hash|)
    ensures s <= hash
  {
    Prefix(hash, ShortHashLength)
  }

  /** The names of the files of a diff summary, in the summary's order (`files.map(f => f.file)`). */
  function FileNames(files: seq<DiffFile>): (names: seq<string>)
    ensures |names| == |files|
    ensures forall i :: 0 <= i < |files| ==> names[i] == files[i].file
  {
    if files == [] then [] else [files[0].file] + FileNames(files[1..])
  }
}
