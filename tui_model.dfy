/** The application record of the terminal UI (`model.Model`), the views it can
    be in, and the helpers that build or refresh it. Go passes the record by
    value to every reducer, so here it is a datatype and every step returns a
    new record. */
module TuiModel {
  import opened Wrappers
  import opened Text
  import opened GitFiles

  /** The screens of the UI, in the order of their Go constants. */
  datatype View =
    | FileView | CommitView | BranchView | RemoteView | AddRemoteView | NewBranchView
    | ConfirmDialog | HelpView | LogGraphView | RepositoryListView | ConfirmCloneRepoView
    | GitHubControlsView | MergeView | RebaseView | StashView | StashMessageView

  /** The tone of the status message: Go's `MessageType`, whose values are "",
      "info", "success", "warning" and "error". */
  datatype Severity = Plain | Info | Success | Warning | Error

  /** A byte of a Go string. */
  newtype byte = x: int | 0 <= x < 256

  /** The text-entry buffers are Go strings, that is, bytes. */
  type Bytes = seq<byte>

  /** A yes/no field of the record (a Go `bool`). The record is rebuilt by
      every step; as a two-valued datatype rather than `bool`, its flags do
      not make the verifier split cases on every one of them each time. */
  datatype Flag = Off | On

  /** A GitHub repository as `gh repo list` describes it. */
  datatype Repository = Repository(name: string, ownerLogin: string, sshUrl: string, description: string)

  /** The record every reducer receives and returns. */
  datatype Model = Model(
    files: seq<FileItem>,
    branches: seq<string>,
    remotes: seq<string>,
    currentBranch: string,
    cursor: int,
    currentView: View,
    commitMsg: Bytes,
    remoteName: string,
    remoteURL: string,
    inputField: string,
    message: string,
    messageType: Severity,
    isPushing: Flag,
    spinnerIndex: int,
    spinnerFrames: seq<string>,
    isFetching: Flag,
    isPulling: Flag,
    autoFetchDone: Flag,
    newBranchName: Bytes,
    hasRemoteChanges: Flag,
    showHelpPanel: Flag,
    advancedMode: Flag,
    logLines: seq<string>,
    repositories: seq<Repository>,
    selectedRepoIndex: int,
    repoToClone: Option<Repository>,
    selectedBranch: string,
    mergeConflictFiles: seq<string>,
    rebaseConflictFiles: seq<string>,
    isMerging: Flag,
    isRebasing: Flag,
    mergeStep: string,
    rebaseStep: string,
    stashes: seq<string>,
    stashMessage: Bytes,
    selectedStash: int,
    isStashing: Flag,
    dialogType: string,
    dialogTarget: string,
    awaitingPush: Flag)

  /** What the reducers rely on to index safely: a non-negative cursor, a
      spinner frame to show, and a repository selection inside the list
      whenever the list is non-empty. Every step keeps it. */
  predicate WellFormed(m: Model) {
    && m.cursor >= 0
    && |m.spinnerFrames| > 0
    && 0 <= m.spinnerIndex < |m.spinnerFrames|
    && 0 <= m.selectedRepoIndex
    && (|m.repositories| > 0 ==> m.selectedRepoIndex < |m.repositories|)
  }

  /** The marked merge or rebase target is empty or differs from the
      checked-out branch. */
  predicate TargetNotCurrent(m: Model) {
    m.dialogTarget == "" || m.dialogTarget != m.currentBranch
  }

  /** The spinner animation. */
  const SpinnerFrames: seq<string> := ["⠋", "⠙", "⠹", "⠸", "⠼", "⠴", "⠦", "⠧", "⠇", "⠏"]

  /** `InitialModel`: the record the program starts with, given what the file,
      branch and remote queries returned (a failed query contributes nothing). */
  function InitialModel(files: seq<FileItem>, branches: seq<string>, current: string, remotes: seq<string>): (m: Model)
    ensures WellFormed(m)
    ensures m.currentView == FileView && m.cursor == 0
    ensures m.isPushing == Off && m.isFetching == Off && m.isPulling == Off
    ensures m.advancedMode == Off && m.awaitingPush == Off
    ensures |m.spinnerFrames| == 10 && m.spinnerIndex == 0
    ensures m.files == files && m.branches == branches && m.currentBranch == current && m.remotes == remotes
    ensures m.logLines == [] && m.stashes == [] && m.message == "" && m.dialogTarget == ""
  {
    Model(
      files := files, branches := branches, remotes := remotes, currentBranch := current,
      cursor := 0, currentView := FileView, commitMsg := [], remoteName := "", remoteURL := "",
      inputField := "", message := "", messageType := Plain, isPushing := Off, spinnerIndex := 0,
      spinnerFrames := SpinnerFrames, isFetching := Off, isPulling := Off, autoFetchDone := Off,
      newBranchName := [], hasRemoteChanges := Off, showHelpPanel := Off, advancedMode := Off,
      logLines := [], repositories := [], selectedRepoIndex := 0, repoToClone := None,
      selectedBranch := "", mergeConflictFiles := [], rebaseConflictFiles := [], isMerging := Off,
      isRebasing := Off, mergeStep := "", rebaseStep := "", stashes := [], stashMessage := [],
      selectedStash := 0, isStashing := Off, dialogType := "", dialogTarget := "", awaitingPush := Off)
  }

  /** What one `RefreshData` reads from the repository: the results of the
      file, branch and remote queries, the remote-changes check and the raw
      `git stash list` output. */
  datatype Snapshot = Snapshot(
    files: seq<FileItem>,
    branches: seq<string>,
    currentBranch: string,
    remotes: seq<string>,
    hasRemoteChanges: Flag,
    stashOutput: string)

  /** `b` differs from `a` at most in the fields `RefreshData` assigns. */
  predicate OnlyRepoDataChanged(a: Model, b: Model) {
    b == a.(files := b.files, branches := b.branches, remotes := b.remotes,
            currentBranch := b.currentBranch, hasRemoteChanges := b.hasRemoteChanges, stashes := b.stashes)
  }

  /** `Model.RefreshData`: the repository data is replaced in one step by what
      the snapshot holds; the view, the cursor and everything else stay. */
  function RefreshData(m: Model, snap: Snapshot): (r: Model)
    ensures OnlyRepoDataChanged(m, r)
    ensures r.files == snap.files && r.branches == snap.branches && r.remotes == snap.remotes
    ensures r.currentBranch == snap.currentBranch && r.hasRemoteChanges == snap.hasRemoteChanges
    ensures r.stashes == ParseStashList(snap.stashOutput)
    ensures WellFormed(m) ==> WellFormed(r)
  {
    m.(files := snap.files, branches := snap.branches, remotes := snap.remotes,
       currentBranch := snap.currentBranch, hasRemoteChanges := snap.hasRemoteChanges,
       stashes := ParseStashList(snap.stashOutput))
  }

  /** The non-empty lines, in order. */
  function NonEmptyLines(lines: seq<string>): (r: seq<string>)
    ensures |r| <= |lines|
  {
    if lines == [] then []
    else
      var last := lines[|lines| - 1];
      NonEmptyLines(lines[..|lines| - 1]) + (if last != "" then [last] else [])
  }

  /** `parseStashList`: nothing for an empty output, otherwise the non-empty
      lines of the trimmed output. */
  function ParseStashList(output: string): (stashes: seq<string>)
    ensures output == "" ==> stashes == []
  {
    if output == "" then [] else NonEmptyLines(Split(TrimSpace(output), '\n'))
  }

  /** Exactly the non-empty lines are kept. */
  lemma {:induction false} NonEmptyLinesMembers(lines: seq<string>, x: string)
    ensures x in NonEmptyLines(lines) <==> x in lines && x != ""
  {
    if lines != [] {
      var init := lines[..|lines| - 1];
      NonEmptyLinesMembers(init, x);
      assert lines == init + [lines[|lines| - 1]];
    }
  }

  /** Filtering distributes over concatenation, so the kept lines keep their
      input order. */
  lemma {:induction false} NonEmptyLinesAppend(a: seq<string>, b: seq<string>)
    ensures NonEmptyLines(a + b) == NonEmptyLines(a) + NonEmptyLines(b)
  {
    if b == [] {
      assert a + b == a;
    } else {
      var init := b[..|b| - 1];
      NonEmptyLinesAppend(a, init);
      assert (a + b)[..|a + b| - 1] == a + init;
    }
  }

  /** Two stash lines followed by a newline give two stashes, in order. */
  lemma TwoStashLines(a: string, b: string)
    requires a != "" && b != "" && '\n' !in a && '\n' !in b
    requires !IsSpace(a[0]) && !IsSpace(b[|b| - 1])
    ensures ParseStashList(a + "\n" + b + "\n") == [a, b]
  {
    var s := a + "\n" + b + "\n";
    var t := a + "\n" + b;
    assert s == t + "\n";
    assert TrimLeft(s, WhiteSpace) == s;
    assert s[..|s| - 1] == t;
    assert TrimRight(t, WhiteSpace) == t;
    assert TrimRight(s, WhiteSpace) == t;
    SplitAtSeparator(a, '\n', b);
    SplitWithoutSeparator(b, '\n');
    assert t == a + ['\n'] + b;
    assert NonEmptyLines([a, b]) == NonEmptyLines([a]) + [b];
    assert [a, b][..1] == [a];
  }

  /** `Model.SetMergeConflictFiles`. */
  function SetMergeConflictFiles(m: Model, files: seq<string>): (r: Model)
    ensures r.mergeConflictFiles == files
    ensures r.(mergeConflictFiles := m.mergeConflictFiles) == m
  {
    m.(mergeConflictFiles := files)
  }

  /** `Model.SetRebaseConflictFiles`. */
  function SetRebaseConflictFiles(m: Model, files: seq<string>): (r: Model)
    ensures r.rebaseConflictFiles == files
    ensures r.(rebaseConflictFiles := m.rebaseConflictFiles) == m
  {
    m.(rebaseConflictFiles := files)
  }

  /** Each setter assigns only its own list, so setting both keeps both and
      the order of the two calls does not matter. */
  lemma ConflictSettersIndependent(m: Model, merge: seq<string>, rebase: seq<string>)
    ensures SetRebaseConflictFiles(SetMergeConflictFiles(m, merge), rebase).mergeConflictFiles == merge
    ensures SetRebaseConflictFiles(SetMergeConflictFiles(m, merge), rebase)
         == SetMergeConflictFiles(SetRebaseConflictFiles(m, rebase), merge)
  {
  }
}
