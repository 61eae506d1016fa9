# ReviewBot commit summary and selection list, in Dafny

This project models the deterministic core of the ReviewBot VS Code
extension ("Velocity Review"): how it turns git's answers about a
workspace into the sidebar's commit summary, how the sidebar tree is
laid out, and how the commit-selection walkthrough builds its list of
recent commits, the analysis of the newest one and the diff preview of
the third one.

The git library (`simple-git`) is not modelled. `Git.GitOracle` holds its
answers for one folder:
- `checkIsRepo`;
- `log(maxCount)`;
- `diffSummary(h)`, which stands for `diffSummary([h + "^", h])`;
- `diff(h, path)`.

A call that throws is a `Failure`. A root commit is a hash whose
`diffSummary`/`diff` fail, because `h^` does not resolve. `Git.LogContract`
states the library's own promise about `log`: at most `maxCount` entries,
and `latest` is the first one. The source never checks that promise, so
the model takes it only as a hypothesis of lemmas.

Modules:
- `Wrappers`: Option and Result.
- `Text`: JavaScript string behaviour used by the source.
  - `${n}` for a non-negative number (`NatToString`, with its inverse `ParseNat`).
  - `substring(0, n)` (`Prefix`).
  - `split('\n')` / `join('\n')` (`SplitLines`/`JoinLines`), proved to round-trip.
- `Git`: the oracle, log entries, diff summaries, `ShortHash` and `FileNames`.
- `Extension` (src/extension.ts):
  - `getLastCommitInfo` as `LastCommitInfo`;
  - the sidebar table `getChildren` as `Children`;
  - the provider class `SidebarProvider`, whose one field `gitCommitInfo` is replaced by `LoadGitCommitInfo`/`Refresh`.
- `CommitSelection` (test-commit-selection.js):
  - the loop that builds the selection list (`ListCommitOptions`);
  - the per-file loop (`CollectFileStats`);
  - the latest-commit analysis;
  - the selected-commit analysis with its ten-line preview (`PreviewOf`);
  - the whole walkthrough (`TestCommitSelection`).

A root commit is handled differently by the two sources. `getLastCommitInfo`
gives null for it: its `diffSummary` throws and the catch returns null.
Only the selection list (test-commit-selection.js:31-37) substitutes the
zero statistics of an empty summary.

## Model

| member | source | states |
|---|---|---|
| Extension.LastCommitInfo | src/extension.ts:20-61 | The summary exists exactly when all of these hold: the folder is a repository, `log({maxCount: 1})` succeeds with a non-empty `all` and a `latest` entry, and that commit's diff summary succeeds. Otherwise the result is null: not a repo, no commits, or any throw (a root commit among them), never a partial record. When present, `filesChanged` equals the file list's length and equals `|changedFiles|`, `changedFiles[i]` is the i-th diff file's name, `linesAdded`/`linesRemoved` are the summary's insertions/deletions, `commitHash` is the hash's prefix of length min(8, \|hash\|), and message, author and date are copied. |
| Extension.LastCommitInfoOfLatest | src/extension.ts:31-39 | If the library keeps its log promise, the `!latest` check never fires. The summary then exists exactly when the repo check holds, the one-entry log succeeds with exactly one entry, and that entry's diff summary succeeds. The summary then describes that newest entry. |
| Git.FileNames | src/extension.ts:45 | `files.map(f => f.file)`: the result has the same length as the list and holds each name at its position, so the order is kept. |
| Git.ShortHash | src/extension.ts:51 | `hash.substring(0, 8)`: a prefix of the hash of length min(8, \|hash\|). |
| Extension.Children | src/extension.ts:89-158 | The `getChildren` table. With no element: exactly four collapsed items with contexts analysis, quality, security, performance, in that order. `analysis`: 5 items when a summary is cached, else 3; the first three are `info` leaves, and with a summary the fourth and fifth are collapsed items opening into commit-details and changed-files. `quality`: 3 `info` leaves; `security` and `performance`: 2 each. `commit-details`: 3 `info` leaves with a summary, else none. `changed-files`: one `file` leaf per changed file, in order, or the single leaf "No files changed" when there is no summary or no file. A context outside these six: no items. |
| Extension.ChangedFileItems | src/extension.ts:146-149 | One leaf with context `file` per name, labelled with that name, in the same order. |
| Extension.TreeIsConsistent | src/extension.ts:89-158 | Whatever is cached, every collapsible item `getChildren` returns has children, and every leaf has none. |
| Extension.SidebarShowsLatestCommit | src/extension.ts:143-153 | For a freshly computed summary, the analysis category starts with "Files Changed: " followed by the diff summary's file count. The changed-files category lists the diff summary's file names in order, or "No files changed" when there are none. |
| Extension.SidebarProvider.constructor | src/extension.ts:67-71 | The cache starts as null and is then loaded from the first workspace folder, if there is one. |
| Extension.SidebarProvider.LoadGitCommitInfo | src/extension.ts:73-78 | With at least one workspace folder, the cache is replaced wholesale by `getLastCommitInfo` of the first folder. Otherwise it is left as it was. |
| Extension.SidebarProvider.Refresh | src/extension.ts:80-83 | The same new cache as `loadGitCommitInfo`. |
| Extension.SidebarProvider.GetChildren | src/extension.ts:89 | The provider answers from its cache: analysis has 5 items exactly when a summary is cached; commit-details is empty exactly when none is; changed-files lists the cached summary's files as `file` leaves in order, or "No files changed" when the cache is null or holds no file. |
| CommitSelection.StatsOrEmpty | test-commit-selection.js:31-37 | A successful diff summary is used as is. A failing one (root commit) becomes no files, 0 insertions, 0 deletions. |
| CommitSelection.ListCommitOptions | test-commit-selection.js:27-53 | One option per log entry, in log order, even when a diff summary throws part-way through. Option i has: the label from index i and the commit; the description "by <author> on <date>"; and the detail built from the file count of the (fallback) summary and insertions + deletions. |
| CommitSelection.LabelMarksNewest | test-commit-selection.js:45 | A label starts with the fire marker exactly when its index is 0, and otherwise with three spaces. Either prefix is followed by the 8-character short hash, " - " and the message. |
| CommitSelection.OnlyNewestMarked | test-commit-selection.js:45 | In a selection list, option i carries the fire marker exactly when i = 0. |
| CommitSelection.DetailDeterminesCounts | test-commit-selection.js:47 | Two equal detail strings report the same file count and the same changed-line count, so the detail faithfully carries both numbers. |
| CommitSelection.FileStatOf | test-commit-selection.js:77-78 | A file's printed counts are its reported insertions/deletions when present (text entry), else 0 and 0 (binary entry). The name is kept. |
| CommitSelection.CollectFileStats | test-commit-selection.js:76-80 | The `forEach` gives one stat per diff file, in order, each one that file's fallback counts. |
| CommitSelection.AnalyseLatest | test-commit-selection.js:59-85 | The latest commit's analysis carries the commit and its short hash. Its diff part is the initial-commit note exactly when the diff summary throws. Otherwise it holds the file count, insertions, deletions, total changes = insertions + deletions, and one per-file stat per file in order. |
| CommitSelection.PreviewOf | test-commit-selection.js:106-109 | The preview is a prefix of the diff text with min(10, n) lines (n = number of `\n`-separated lines), cut just before a line break. The truncation notice appears exactly when n > 10. Without the notice the preview is the whole text. |
| CommitSelection.SelectedAnalysisOf | test-commit-selection.js:92-113 | The heading is the short hash, " - " and the message. The note (no statistics) appears exactly when the diff summary throws. Otherwise it gives the counts. The sample is absent exactly when no file changed. It is unavailable exactly when the diff of the first file throws. Otherwise it is that file's `PreviewOf`. |
| CommitSelection.TestCommitSelection | test-commit-selection.js:5-126 | Stops exactly when not a repository. Aborts with the thrown error exactly when the repo check or `log({maxCount: 10})` throws. Otherwise it builds the selection list of `log.all`. The latest analysis is present exactly when `log.latest` is. The selected analysis is present exactly when at least 3 commits exist, and is for `log.all[2]`. With the library's log promise the list has at most 10 entries. |

## Left out

- The `simple-git` library itself (`checkIsRepo`, `log`, `diffSummary`, `diff`): a foreign library, modelled only as the answers in `Git.GitOracle`.
- The VS Code host glue, which is UI only:
  - `activate`/`deactivate`, command registration (`helloWorld`, `refreshSidebar`) and `setContext`;
  - tree-view creation, the `onDidChangeTreeData` event and its `fire` in `refresh`;
  - `showInformationMessage`;
  - `getTreeItem`, which returns its argument;
  - the `VelocityReviewItem` constructor's tooltip and `ThemeIcon` choice (src/extension.ts:161-198).
- Dates: `new Date(date).toLocaleString()` and `toLocaleDateString()` depend on the host's locale and time zone. They are the function parameters `localeString`/`localeDate`, treated as opaque.
- Console output: the model returns the values and strings that would be printed, not the printing or its interleaving. This includes the headings, the `=` rulers, the closing summary and `console.error` in the catch blocks.
- Asynchrony: every `await` is modelled as straight-line sequential code. The provider constructor starts `loadGitCommitInfo` without awaiting it. The model runs that load to completion inside the constructor, so it does not capture a `getChildren` that runs before the load finishes and sees null.
- An undefined `workspace.workspaceFolders` is modelled as the empty folder list. Both leave the cache unchanged.
- The git oracle is a fixed snapshot: asking it the same question twice gives the same answer. The selection list (test-commit-selection.js:33) and the latest-commit analysis (test-commit-selection.js:69) both ask for the newest commit's diff summary, and the model cannot express a transient throw in only one of those calls.
- Counts are unbounded naturals rendered in plain decimal. JavaScript's `${n}` switches to exponent form from 1e21 and loses precision beyond 2^53; that is not modelled.
- Simple-git's unused diff fields (`changes` of text entries, `before`/`after` of binary entries) are not modelled.
- Strings are sequences of Unicode scalar values. JavaScript strings are UTF-16, so a length such as that of the fire-marker prefix differs. No contract depends on it.
- Extension.Children: the contract fixes the number, order, collapsibility and context value of every item, and the file items exactly, but not the label texts ("Pull Request Analysis", "Lines Added: N/A", "Files Changed: 3", …), which only the body gives.
- test-git-functionality.js repeats `getLastCommitInfo` with console output. test-extension.js only starts the editor process. Neither is part of this model.
- src/extension.ts and test-commit-selection.js contain no prompt rendering, review backend or JSON export, so the model has none.
