/**
 * The commit-selection walkthrough (`testCommitSelection`): the selection
 * list of recent commits, the detailed analysis of the latest commit, and
 * the analysis of the third commit with a ten-line diff preview. Console
 * output is modelled as the values that would be printed.
 */
module CommitSelection {
  import opened Wrappers
  import opened Text
  import opened Git

  /** The `maxCount` the selection list asks the log for. */
  const ListingLogCount: nat := 10

  /** The list position of the commit the walkthrough selects (the third). */
  const SelectedIndex: nat := 2

  /** The number of diff lines the preview shows. */
  const PreviewLineCount: nat := 10

  /** Label prefix of the newest commit: a fire emoji and a space. */
  const FireMarker: string := "\U{1F525} "

  /** Label prefix of every other commit: three spaces. */
  const Indent: string := "   "

  // ---------------------------------------------------------------------
  // The selection list

  /** One entry of the selection list, as the extension would show it. */
  datatype CommitOption = CommitOption(labelText: string, description: string, detail: string)

  /** The zero statistics that stand in for a diff summary that failed (a root commit). */
  const EmptyStats := DiffSummary([], 0, 0)

  /** The statistics of one listed commit: its diff summary, or zero statistics if that threw. */
  function StatsOrEmpty(r: Result<DiffSummary, GitError>): (d: DiffSummary)
    ensures r.Success? ==> d == r.value
    ensures r.Failure? ==> d.files == [] && d.insertions == 0 && d.deletions == 0
  {
    match r
    case Success(d) => d
    case Failure(_) => EmptyStats
  }

  function LabelPrefix(index: nat): string {
    if index == 0 then FireMarker else Indent
  }

  function OptionLabel(index: nat, commit: LogEntry): string {
    LabelPrefix(index) + ShortHash(commit.hash) + " - " + commit.message
  }

  function Detail(filesChanged: nat, linesChanged: nat): string {
    NatToString(filesChanged) + " files, " + NatToString(linesChanged) + " lines changed"
  }

  /**
   * The option for the commit at `index` of the list, with statistics
   * `stats`; `localeDate` stands for `new Date(date).toLocaleDateString()`.
   */
  function OptionFor(index: nat, commit: LogEntry, stats: DiffSummary, localeDate: string -> string): CommitOption {
    CommitOption(
      OptionLabel(index, commit),
      "by " + commit.authorName + " on " + localeDate(commit.date),
      Detail(|stats.files|, stats.insertions + stats.deletions))
  }

  /** `options` is the selection list of `entries`: one option per entry, in log order. */
  ghost predicate ListsCommits(options: seq<CommitOption>, git: GitOracle, entries: seq<LogEntry>, localeDate: string -> string) {
    && |options| == |entries|
    && forall i :: 0 <= i < |entries| ==>
         options[i] == OptionFor(i, entries[i], StatsOrEmpty(git.diffSummary(entries[i].hash)), localeDate)
  }

  /**
   * The loop over `log.all`: each commit's diff summary is asked for, and a
   * failing one is replaced by zero statistics, so later commits are still listed.
   */
  method ListCommitOptions(git: GitOracle, entries: seq<LogEntry>, localeDate: string -> string)
    returns (options: seq<CommitOption>)
    ensures ListsCommits(options, git, entries, localeDate)
  {
    options := [];
    var i := 0;
    while i < |entries|
      invariant 0 <= i <= |entries|
      invariant |options| == i
      invariant forall k :: 0 <= k < i ==>
        options[k] == OptionFor(k, entries[k], StatsOrEmpty(git.diffSummary(entries[k].hash)), localeDate)
    {
      var commit := entries[i];
      var diffSummary: DiffSummary;
      match git.diffSummary(commit.hash) {
        case Success(d) => diffSummary := d;
        case Failure(_) => diffSummary := EmptyStats;
      }
      var shortHash := ShortHash(commit.hash);
      var date := localeDate(commit.date);
      var filesChanged := |diffSummary.files|;
      var linesChanged := diffSummary.insertions + diffSummary.deletions;
      var labelText := (if i == 0 then FireMarker else Indent) + shortHash + " - " + commit.message;
      var description := "by " + commit.authorName + " on " + date;
      var detail := NatToString(filesChanged) + " files, " + NatToString(linesChanged) + " lines changed";
      options := options + [CommitOption(labelText, description, detail)];
      i := i + 1;
    }
  }

  /**
   * The fire marker starts a label exactly at index 0; every other label
   * starts with the indent, and either prefix is followed by the short hash.
   */
  lemma LabelMarksNewest(index: nat, commit: LogEntry)
    ensures FireMarker <= OptionLabel(index, commit) <==> index == 0
    ensures index != 0 ==> Indent <= OptionLabel(index, commit)
    ensures var p := LabelPrefix(index);
      OptionLabel(index, commit)[|p|..] == ShortHash(commit.hash) + " - " + commit.message
  {
    var rest := ShortHash(commit.hash) + " - " + commit.message;
    var l := OptionLabel(index, commit);
    assert l == LabelPrefix(index) + rest;
    if index != 0 {
      assert l[0] == ' ';
    }
  }

  /** In a selection list only the first option carries the fire marker. */
  lemma OnlyNewestMarked(options: seq<CommitOption>, git: GitOracle, entries: seq<LogEntry>, localeDate: string -> string)
    requires ListsCommits(options, git, entries, localeDate)
    ensures forall i :: 0 <= i < |options| ==> (FireMarker <= options[i].labelText <==> i == 0)
  {
    forall i | 0 <= i < |options|
      ensures FireMarker <= options[i].labelText <==> i == 0
    {
      LabelMarksNewest(i, entries[i]);
    }
  }

  /** Length of the run of digits that starts `s`. */
  function DigitRun(s: string): nat {
    if s == [] || !IsDigit(s[0]) then 0 else 1 + DigitRun(s[1..])
  }

  lemma {:induction false} DigitRunAppend(x: string, u: string)
    requires AllDigits(x) && |u| > 0 && !IsDigit(u[0])
    ensures DigitRun(x + u) == |x|
  {
    if x == [] {
      assert x + u == u;
    } else {
      assert (x + u)[1..] == x[1..] + u;
      DigitRunAppend(x[1..], u);
    }
  }

  /** A rendered number followed by a non-digit can be split off unambiguously. */
  lemma DigitsSplitUniquely(x: string, u: string, y: string, v: string)
    requires AllDigits(x) && AllDigits(y)
    requires |u| > 0 && !IsDigit(u[0]) && |v| > 0 && !IsDigit(v[0])
    requires x + u == y + v
    ensures x == y && u == v
  {
    DigitRunAppend(x, u);
    DigitRunAppend(y, v);
    assert x == (x + u)[..|x|];
    assert y == (y + v)[..|y|];
    assert u == (x + u)[|x|..];
    assert v == (y + v)[|y|..];
  }

  /** The detail text determines the file count and the changed-line count it reports. */
  lemma DetailDeterminesCounts(files: nat, lines: nat, files': nat, lines': nat)
    requires Detail(files, lines) == Detail(files', lines')
    ensures files == files' && lines == lines'
  {
    var tail := NatToString(lines) + " lines changed";
    var tail' := NatToString(lines') + " lines changed";
    assert Detail(files, lines) == NatToString(files) + (" files, " + tail);
    assert Detail(files', lines') == NatToString(files') + (" files, " + tail');
    DigitsSplitUniquely(NatToString(files), " files, " + tail, NatToString(files'), " files, " + tail');
    NatToStringInjective(files, files');
    assert tail == (" files, " + tail)[8..];
    assert tail' == (" files, " + tail')[8..];
    DigitsSplitUniquely(NatToString(lines), " lines changed", NatToString(lines'), " lines changed");
    NatToStringInjective(lines, lines');
  }

  // ---------------------------------------------------------------------
  // The latest commit in detail

  /** One printed line of the changed-file list: the name and its counts. */
  datatype FileStat = FileStat(file: string, additions: nat, deletions: nat) {
    /** The text printed for this file. */
    function Line(): string {
      "  \U{1F4C4} " + file + " (+" + NatToString(additions) + "/-" + NatToString(deletions) + ")"
    }
  }

  /** The counts printed for one file: the reported ones, or 0 for an entry without them (binary). */
  function FileStatOf(f: DiffFile): (s: FileStat)
    ensures s.file == f.file
    ensures f.TextFile? ==> s.additions == f.insertions && s.deletions == f.deletions
    ensures f.BinaryFile? ==> s.additions == 0 && s.deletions == 0
  {
    match f
    case TextFile(name, insertions, deletions) => FileStat(name, insertions, deletions)
    case BinaryFile(name) => FileStat(name, 0, 0)
  }

  /** The `forEach` over the diff summary's files. */
  method CollectFileStats(files: seq<DiffFile>) returns (stats: seq<FileStat>)
    ensures |stats| == |files|
    ensures forall i :: 0 <= i < |files| ==> stats[i] == FileStatOf(files[i])
  {
    stats := [];
    for i := 0 to |files|
      invariant |stats| == i
      invariant forall k :: 0 <= k < i ==> stats[k] == FileStatOf(files[k])
    {
      var file := files[i];
      var additions := if file.TextFile? then file.insertions else 0;
      var deletions := if file.TextFile? then file.deletions else 0;
      stats := stats + [FileStat(file.file, additions, deletions)];
    }
  }

  /** What is printed about the latest commit's diff: the note, or the statistics. */
  datatype LatestDiff =
    | InitialCommitNote
    | LatestStats(filesChanged: nat, linesAdded: nat, linesRemoved: nat, totalChanges: nat, files: seq<FileStat>)

  /** What is printed about the latest commit. */
  datatype LatestAnalysis = LatestAnalysis(commit: LogEntry, shortHash: string, diff: LatestDiff)

  /** `a` is the analysis of commit `c`: the note exactly when its diff summary throws. */
  ghost predicate AnalysesLatest(a: LatestAnalysis, git: GitOracle, c: LogEntry) {
    && a.commit == c
    && a.shortHash == ShortHash(c.hash)
    && match git.diffSummary(c.hash)
       case Failure(_) => a.diff == InitialCommitNote
       case Success(d) =>
         && a.diff.LatestStats?
         && a.diff.filesChanged == |d.files| == |a.diff.files|
         && a.diff.linesAdded == d.insertions
         && a.diff.linesRemoved == d.deletions
         && a.diff.totalChanges == a.diff.linesAdded + a.diff.linesRemoved
         && forall i :: 0 <= i < |d.files| ==> a.diff.files[i] == FileStatOf(d.files[i])
  }

  method AnalyseLatest(git: GitOracle, c: LogEntry) returns (a: LatestAnalysis)
    ensures AnalysesLatest(a, git, c)
  {
    match git.diffSummary(c.hash) {
      case Failure(_) =>
        a := LatestAnalysis(c, ShortHash(c.hash), InitialCommitNote);
      case Success(diffSummary) =>
        var stats := CollectFileStats(diffSummary.files);
        a := LatestAnalysis(c, ShortHash(c.hash),
               LatestStats(|diffSummary.files|, diffSummary.insertions, diffSummary.deletions,
                           diffSummary.insertions + diffSummary.deletions, stats));
    }
  }

  // ---------------------------------------------------------------------
  // The selected commit and its diff preview

  /** The printed part of a diff and whether the truncation notice follows it. */
  datatype DiffPreview = DiffPreview(shown: string, truncated: bool)

  /**
   * `text.split('\n').slice(0, 10).join('\n')`, with the notice when the
   * text has more than ten lines. The shown part is the start of the text
   * holding its first min(10, n) lines, cut at a line break; it is the
   * whole text when there is no notice.
   */
  function PreviewOf(text: string): (p: DiffPreview)
    ensures p.truncated <==> NewlineCount(text) + 1 > PreviewLineCount
    ensures p.shown <= text
    ensures NewlineCount(p.shown) + 1 == Min(PreviewLineCount, NewlineCount(text) + 1)
    ensures p.truncated ==> |p.shown| < |text| && text[|p.shown|] == '\n'
    ensures !p.truncated ==> p.shown == text
  {
    var lines := SplitLines(text);
    var k := Min(PreviewLineCount, |lines|);
    JoinTakePrefix(text, k);
    NewlineCountJoin(lines[..k]);
    assert k == |lines| ==> lines[..k] == lines;
    JoinSplitLines(text);
    DiffPreview(JoinLines(lines[..k]), |lines| > PreviewLineCount)
  }

  /** The sample shown after the selected commit's statistics. */
  datatype SampleDiff =
    | NoFiles                                    // the commit changed no file
    | SampleUnavailable                          // the diff call threw
    | SampleOf(file: string, preview: DiffPreview)

  /** What is printed about the selected commit's diff. */
  datatype SelectedDiff =
    | SelectedNote                               // the diff summary threw
    | SelectedStats(filesChanged: nat, linesAdded: nat, linesRemoved: nat, sample: SampleDiff)

  datatype SelectedAnalysis = SelectedAnalysis(heading: string, diff: SelectedDiff)

  /**
   * The analysis of the selected commit: its statistics, and a preview of
   * the diff of its first file when there is one. A throw anywhere in the
   * block ends it with a note.
   */
  function SelectedAnalysisOf(git: GitOracle, c: LogEntry): (a: SelectedAnalysis)
    ensures a.heading == ShortHash(c.hash) + " - " + c.message
    ensures a.diff.SelectedNote? <==> git.diffSummary(c.hash).Failure?
    ensures a.diff.SelectedStats? ==>
      var d := git.diffSummary(c.hash).value;
      && a.diff.filesChanged == |d.files|
      && a.diff.linesAdded == d.insertions
      && a.diff.linesRemoved == d.deletions
      && (a.diff.sample.NoFiles? <==> d.files == [])
      && (a.diff.sample.SampleUnavailable? <==> d.files != [] && git.diff(c.hash, d.files[0].file).Failure?)
      && (a.diff.sample.SampleOf? ==>
            a.diff.sample.file == d.files[0].file &&
            a.diff.sample.preview == PreviewOf(git.diff(c.hash, d.files[0].file).value))
  {
    SelectedAnalysis(
      ShortHash(c.hash) + " - " + c.message,
      match git.diffSummary(c.hash) {
        case Failure(_) => SelectedNote
        case Success(d) =>
          SelectedStats(|d.files|, d.insertions, d.deletions,
            if |d.files| == 0 then NoFiles
            else
              match git.diff(c.hash, d.files[0].file) {
                case Failure(_) => SampleUnavailable
                case Success(text) => SampleOf(d.files[0].file, PreviewOf(text))
              })
      })
  }

  // ---------------------------------------------------------------------
  // The whole walkthrough

  /** How the walkthrough ends: not a repository, a throw caught at the top, or all three parts. */
  datatype SelectionRun =
    | NotARepository
    | Aborted(error: GitError)
    | Completed(options: seq<CommitOption>, latest: Option<LatestAnalysis>, selected: Option<SelectedAnalysis>)

  method TestCommitSelection(git: GitOracle, localeDate: string -> string) returns (run: SelectionRun)
    ensures run.NotARepository? <==> git.checkIsRepo == Success(false)
    ensures run.Aborted? <==>
      git.checkIsRepo.Failure? || (git.checkIsRepo == Success(true) && git.log(ListingLogCount).Failure?)
    ensures run.Aborted? ==>
      run.error == if git.checkIsRepo.Failure? then git.checkIsRepo.error else git.log(ListingLogCount).error
    ensures run.Completed? ==> git.checkIsRepo == Success(true) && git.log(ListingLogCount).Success?
    ensures run.Completed? ==>
      var log := git.log(ListingLogCount).value;
      && ListsCommits(run.options, git, log.all, localeDate)
      && (run.latest.Some? <==> log.latest.Some?)
      && (log.latest.Some? ==> AnalysesLatest(run.latest.value, git, log.latest.value))
      && (run.selected.Some? <==> |log.all| > SelectedIndex)
      && (|log.all| > SelectedIndex ==> run.selected.value == SelectedAnalysisOf(git, log.all[SelectedIndex]))
    ensures LogContract(git) && run.Completed? ==> |run.options| <= ListingLogCount
  {
    match git.checkIsRepo {
      case Failure(e) =>
        return Aborted(e);
      case Success(isRepo) =>
        if !isRepo {
          return NotARepository;
        }
    }
    var logResult := git.log(ListingLogCount);
    if logResult.Failure? {
      return Aborted(logResult.error);
    }
    var log := logResult.value;
    var options := ListCommitOptions(git, log.all, localeDate);
    var latest: Option<LatestAnalysis> := None;
    if log.latest.Some? {
      var a := AnalyseLatest(git, log.latest.value);
      latest := Some(a);
    }
    var selected: Option<SelectedAnalysis> := None;
    if |log.all| >= 3 {
      selected := Some(SelectedAnalysisOf(git, log.all[SelectedIndex]));
    }
    run := Completed(options, latest, selected);
  }
}
