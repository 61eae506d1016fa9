/**
 * The extension's commit summary (`getLastCommitInfo`) and the sidebar
 * tree that shows it (`VelocityReviewSidebarProvider`).
 */
module Extension {
  import opened Wrappers
  import opened Text
  import opened Git

  /** The summary of the latest commit shown in the sidebar (`GitCommitInfo`). */
  datatype CommitInfo = CommitInfo(
    filesChanged: nat,
    linesAdded: nat,
    linesRemoved: nat,
    commitHash: string,
    commitMessage: string,
    author: string,
    date: string,
    changedFiles: seq<string>)

  /** The `maxCount` the summary asks the log for: only the latest commit. */
  const LatestLogCount: nat := 1

  /** True when `info` is the summary of commit `c` with diff summary `d`. */
  ghost predicate Summarizes(info: CommitInfo, c: LogEntry, d: DiffSummary) {
    && info.filesChanged == |d.files| == |info.changedFiles|
    && (forall i :: 0 <= i < |d.files| ==> info.changedFiles[i] == d.files[i].file)
    && info.linesAdded == d.insertions
    && info.linesRemoved == d.deletions
    && info.commitHash <= c.hash
    && |info.commitHash| == Min(ShortHashLength, |c.hash|)
    && info.commitMessage == c.message
    && info.author == c.authorName
    && info.date == c.date
  }

  /** True when every git answer `getLastCommitInfo` waits for arrives and lets it go on. */
  ghost predicate LatestCommitResolves(git: GitOracle) {
    && git.checkIsRepo == Success(true)
    && git.log(LatestLogCount).Success?
    && |git.log(LatestLogCount).value.all| > 0
    && git.log(LatestLogCount).value.latest.Some?
    && git.diffSummary(git.log(LatestLogCount).value.latest.value.hash).Success?
  }

  /**
   * `getLastCommitInfo`: null when the folder is not a repository, when it
   * has no commits, or when any git call throws (a root commit among them,
   * whose `hash^` does not resolve); otherwise the summary of the latest
   * commit and its diff against its parent.
   */
  function LastCommitInfo(git: GitOracle): (r: Option<CommitInfo>)
    ensures r.Some? <==> LatestCommitResolves(git)
    ensures r.Some? ==>
      Summarizes(r.value, git.log(LatestLogCount).value.latest.value,
                 git.diffSummary(git.log(LatestLogCount).value.latest.value.hash).value)
  {
    match git.checkIsRepo
    case Failure(_) => None
    case Success(isRepo) =>
      if !isRepo then None
      else
        match git.log(LatestLogCount)
        case Failure(_) => None
        case Success(log) =>
          if |log.all| == 0 then None
          else
            match log.latest
            case None => None
            case Some(latestCommit) =>
              match git.diffSummary(latestCommit.hash)
              case Failure(_) => None
              case Success(diffSummary) =>
                Some(CommitInfo(
                  |diffSummary.files|,
                  diffSummary.insertions,
                  diffSummary.deletions,
                  ShortHash(latestCommit.hash),
                  latestCommit.message,
                  latestCommit.authorName,
                  latestCommit.date,
                  FileNames(diffSummary.files)))
  }

  /**
   * With a library that keeps its log promise, the summary exists exactly
   * when the folder is a repository with a commit whose diff summary
   * succeeds, and it describes the newest commit of the log.
   */
  lemma LastCommitInfoOfLatest(git: GitOracle)
    requires LogContract(git)
    ensures LastCommitInfo(git).Some? <==>
      && git.checkIsRepo == Success(true)
      && git.log(LatestLogCount).Success?
      && |git.log(LatestLogCount).value.all| == 1
      && git.diffSummary(git.log(LatestLogCount).value.all[0].hash).Success?
    ensures LastCommitInfo(git).Some? ==>
      Summarizes(LastCommitInfo(git).value, git.log(LatestLogCount).value.all[0],
                 git.diffSummary(git.log(LatestLogCount).value.all[0].hash).value)
  {
  }

  // ---------------------------------------------------------------------
  // The sidebar tree

  /** `vscode.TreeItemCollapsibleState`: `None` (a leaf), `Collapsed` or `Expanded`. */
  datatype CollapsibleState = Leaf | Collapsed | Expanded

  /** A sidebar entry (`VelocityReviewItem`): its label, whether it opens, and its context value. */
  datatype Item = Item(labelText: string, state: CollapsibleState, contextValue: string)

  const AnalysisContext := "analysis"
  const QualityContext := "quality"
  const SecurityContext := "security"
  const PerformanceContext := "performance"
  const CommitDetailsContext := "commit-details"
  const ChangedFilesContext := "changed-files"
  const InfoContext := "info"
  const FileContext := "file"

  /** The four top-level categories, in display order. */
  const RootContexts := [AnalysisContext, QualityContext, SecurityContext, PerformanceContext]

  /** The context values `getChildren` answers with items. */
  const ParentContexts := RootContexts + [CommitDetailsContext, ChangedFilesContext]

  function Info(text: string): Item {
    Item(text, Leaf, InfoContext)
  }

  /** Every item is an `info` leaf. */
  predicate AllInfoLeaves(items: seq<Item>) {
    forall i :: 0 <= i < |items| ==> items[i].state == Leaf && items[i].contextValue == InfoContext
  }

  /**
   * `getChildren`: the items below `element` (the top level when absent),
   * given the cached commit summary `info`. `localeString` stands for
   * `new Date(date).toLocaleString()`, which depends on the host's locale.
   */
  function Children(element: Option<Item>, info: Option<CommitInfo>, localeString: string -> string): (items: seq<Item>)
    ensures element.None? ==>
      |items| == |RootContexts| &&
      forall i :: 0 <= i < |items| ==> items[i].state == Collapsed && items[i].contextValue == RootContexts[i]
    ensures element.Some? && element.value.contextValue == AnalysisContext ==>
      && |items| == (if info.Some? then 5 else 3)
      && AllInfoLeaves(items[..3])
      && (info.Some? ==>
            && items[3].state == Collapsed && items[3].contextValue == CommitDetailsContext
            && items[4].state == Collapsed && items[4].contextValue == ChangedFilesContext)
    ensures element.Some? && element.value.contextValue == QualityContext ==>
      |items| == 3 && AllInfoLeaves(items)
    ensures element.Some? && element.value.contextValue == SecurityContext ==>
      |items| == 2 && AllInfoLeaves(items)
    ensures element.Some? && element.value.contextValue == PerformanceContext ==>
      |items| == 2 && AllInfoLeaves(items)
    ensures element.Some? && element.value.contextValue == CommitDetailsContext ==>
      |items| == (if info.Some? then 3 else 0) && AllInfoLeaves(items)
    ensures element.Some? && element.value.contextValue == ChangedFilesContext ==>
      if info.Some? && |info.value.changedFiles| > 0 then
        |items| == |info.value.changedFiles| &&
        forall i :: 0 <= i < |items| ==> items[i] == Item(info.value.changedFiles[i], Leaf, FileContext)
      else
        items == [Info("No files changed")]
    ensures element.Some? && element.value.contextValue !in ParentContexts ==> items == []
  {
    if element.None? then
      [ Item("Pull Request Analysis", Collapsed, AnalysisContext),
        Item("Code Quality Checks", Collapsed, QualityContext),
        Item("Security Review", Collapsed, SecurityContext),
        Item("Performance Metrics", Collapsed, PerformanceContext) ]
    else
      var context := element.value.contextValue;
      if context == AnalysisContext then
        if info.Some? then
          [ Info("Files Changed: " + NatToString(info.value.filesChanged)),
            Info("Lines Added: " + NatToString(info.value.linesAdded)),
            Info("Lines Removed: " + NatToString(info.value.linesRemoved)),
            Item("Commit: " + info.value.commitHash, Collapsed, CommitDetailsContext),
            Item("Changed Files", Collapsed, ChangedFilesContext) ]
        else
          [ Info("Files Changed: N/A (No git repo)"),
            Info("Lines Added: N/A"),
            Info("Lines Removed: N/A") ]
      else if context == QualityContext then
        [ Info("Code Coverage: N/A"), Info("Linting Issues: 0"), Info("Test Status: Pending") ]
      else if context == SecurityContext then
        [ Info("Vulnerability Scan: Pending"), Info("Dependency Check: Pending") ]
      else if context == PerformanceContext then
        [ Info("Bundle Size: N/A"), Info("Load Time: N/A") ]
      else if context == CommitDetailsContext then
        if info.Some? then
          [ Info("Message: " + info.value.commitMessage),
            Info("Author: " + info.value.author),
            Info("Date: " + localeString(info.value.date)) ]
        else []
      else if context == ChangedFilesContext then
        if info.Some? && |info.value.changedFiles| > 0 then
          ChangedFileItems(info.value.changedFiles)
        else
          [Info("No files changed")]
      else []
  }

  /** One leaf per changed file, in order (`changedFiles.map(file => ...)`). */
  function ChangedFileItems(files: seq<string>): (items: seq<Item>)
    ensures |items| == |files|
    ensures forall i :: 0 <= i < |files| ==> items[i] == Item(files[i], Leaf, FileContext)
  {
    if files == [] then [] else [Item(files[0], Leaf, FileContext)] + ChangedFileItems(files[1..])
  }

  /**
   * The tree is consistent whatever the cache holds: every item that can be
   * expanded has children, and every leaf has none.
   */
  lemma TreeIsConsistent(element: Option<Item>, info: Option<CommitInfo>, localeString: string -> string)
    ensures forall i :: 0 <= i < |Children(element, info, localeString)| ==>
      var item := Children(element, info, localeString)[i];
      && (item.state == Collapsed ==> Children(Some(item), info, localeString) != [])
      && (item.state == Leaf ==> Children(Some(item), info, localeString) == [])
  {
  }

  /**
   * What the sidebar shows for a freshly computed summary: the analysis
   * category starts with the diff summary's file count, and the changed-files
   * category lists the diff summary's files in order, or "No files changed".
   */
  lemma SidebarShowsLatestCommit(git: GitOracle, localeString: string -> string)
    requires LatestCommitResolves(git)
    ensures var d := git.diffSummary(git.log(LatestLogCount).value.latest.value.hash).value;
      var info := LastCommitInfo(git);
      && Children(Some(Item("", Collapsed, AnalysisContext)), info, localeString)[0].labelText
           == "Files Changed: " + NatToString(|d.files|)
      && var files := Children(Some(Item("", Collapsed, ChangedFilesContext)), info, localeString);
         if |d.files| == 0 then files == [Info("No files changed")]
         else |files| == |d.files| && forall i :: 0 <= i < |d.files| ==> files[i].labelText == d.files[i].file
  {
  }

  /**
   * `VelocityReviewSidebarProvider`: the tree's data source, caching the
   * summary of the first workspace folder's latest commit. Each element of
   * `workspaceFolders` is the repository at that folder; an undefined folder
   * list is the empty one.
   */
  class SidebarProvider {
    var gitCommitInfo: Option<CommitInfo>

    /** The constructor loads the summary right away. */
    constructor (workspaceFolders: seq<GitOracle>)
      ensures gitCommitInfo == if |workspaceFolders| > 0 then LastCommitInfo(workspaceFolders[0]) else None
    {
      gitCommitInfo := None;
      if |workspaceFolders| > 0 {
        gitCommitInfo := LastCommitInfo(workspaceFolders[0]);
      }
    }

    /** `loadGitCommitInfo`: replaces the cache when there is a folder, else keeps it. */
    method LoadGitCommitInfo(workspaceFolders: seq<GitOracle>)
      modifies this
      ensures gitCommitInfo == if |workspaceFolders| > 0 then LastCommitInfo(workspaceFolders[0]) else old(gitCommitInfo)
    {
      if |workspaceFolders| > 0 {
        gitCommitInfo := LastCommitInfo(workspaceFolders[0]);
      }
    }

    /** `refresh`: reloads the summary (the tree-changed notification is host glue). */
    method Refresh(workspaceFolders: seq<GitOracle>)
      modifies this
      ensures gitCommitInfo == if |workspaceFolders| > 0 then LastCommitInfo(workspaceFolders[0]) else old(gitCommitInfo)
    {
      LoadGitCommitInfo(workspaceFolders);
    }

    /** `getChildren`: the tree answered from the cached summary. */
    function GetChildren(element: Option<Item>, localeString: string -> string): (items: seq<Item>)
      reads this
      ensures items == Children(element, gitCommitInfo, localeString)
      ensures element.Some? && element.value.contextValue == AnalysisContext ==>
        (|items| == 5 <==> gitCommitInfo.Some?)
      ensures element.Some? && element.value.contextValue == CommitDetailsContext ==>
        (items == [] <==> gitCommitInfo.None?)
      ensures element.Some? && element.value.contextValue == ChangedFilesContext &&
              gitCommitInfo.Some? && |gitCommitInfo.value.changedFiles| > 0 ==>
        |items| == |gitCommitInfo.value.changedFiles| &&
        forall i :: 0 <= i < |items| ==> items[i] == Item(gitCommitInfo.value.changedFiles[i], Leaf, FileContext)
      ensures element.Some? && element.value.contextValue == ChangedFilesContext &&
              (gitCommitInfo.None? || gitCommitInfo.value.changedFiles == []) ==>
        items == [Info("No files changed")]
    {
      Children(element, gitCommitInfo, localeString)
    }
  }
}
