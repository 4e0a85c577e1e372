/** The clone-confirmation dialog and the event that reports a finished
    checkout (`SwitchBranchMsg`), as `actions/clone_and_switch.go` handles
    them. After the checkout the next action (merge or rebase) runs at once.
    Here a failed merge or rebase is reported before the conflicts are
    queried; `Update` queries the conflicts first (see `Update.AfterSwitch`). */
module Actions {
  import opened Wrappers
  import opened TuiModel
  import opened Messages

  /** The status lines that follow a checkout, with the source and target
      branch in the places Go's format strings put them. */
  function SwitchErrorText(target: string, err: string): string {
    "✗ Error switching to branch " + target + ": " + err
  }

  function MergeConflictsText(source: string, target: string): string {
    "Conflicts detected while merging " + source + " into " + target + ". Please resolve them and use [P] Proceed or [X] Cancel."
  }

  function MergeErrorText(source: string, target: string, err: string): string {
    "✗ Error merging " + source + " into " + target + ": " + err
  }

  function MergedText(source: string, target: string): string {
    "✓ Successfully merged " + source + " into " + target + ". Press [P] to push to remote."
  }

  function RebaseConflictsText(source: string, target: string): string {
    "Conflicts detected while rebasing " + source + " onto " + target + ". Please resolve them and use [P] Proceed or [X] Cancel."
  }

  function RebaseErrorText(source: string, target: string, err: string): string {
    "✗ Error rebasing " + source + " onto " + target + ": " + err
  }

  function RebasedText(source: string, target: string): string {
    "✓ Successfully rebased " + source + " onto " + target
  }

  /** The repository the dialog offers, as "owner/name". */
  function FullName(repo: Repository): (s: string)
    ensures s == repo.ownerLogin + "/" + repo.name
    ensures |s| == |repo.ownerLogin| + 1 + |repo.name| && s[|repo.ownerLogin|] == '/'
  {
    repo.ownerLogin + "/" + repo.name
  }

  /** `HandleConfirmCloneRepo`: "y", "n" and "esc" close the dialog (back to
      the repository list, nothing left to clone); "y" first clones the
      offered repository, when there is one, and reports the outcome. Every
      other key is not handled and changes nothing. */
  method HandleConfirmCloneRepo(m: Model, key: string, env: Env) returns (r: Model, calls: seq<Call>, handled: bool)
    requires WellFormed(m)
    ensures WellFormed(r)
    ensures handled <==> key in {"y", "n", "esc"}
    ensures !handled ==> r == m && calls == []
    ensures handled ==> r.currentView == RepositoryListView && r.repoToClone == None
    ensures calls != [] <==> key == "y" && m.repoToClone.Some?
    ensures key == "y" && m.repoToClone.Some? && env.cloneErr.Some? ==>
      r == m.(message := "✗ Error cloning: " + env.cloneErr.value, messageType := Error,
              currentView := RepositoryListView, repoToClone := None)
      && calls == [CloneRepository(FullName(m.repoToClone.value))]
    ensures key == "y" && m.repoToClone.Some? && env.cloneErr.None? ==>
      r == m.(message := "✓ Repository cloned successfully", messageType := Success,
              currentView := RepositoryListView, repoToClone := None)
      && calls == [CloneRepository(FullName(m.repoToClone.value))]
    ensures (key in {"n", "esc"} || (key == "y" && m.repoToClone.None?)) ==>
      r == m.(currentView := RepositoryListView, repoToClone := None) && calls == []
  {
    r, calls, handled := m, [], false;
    if key == "y" {
      if m.repoToClone.Some? {
        var repo := m.repoToClone.value;
        var fullName := repo.ownerLogin + "/" + repo.name;
        calls := [CloneRepository(fullName)];
        if env.cloneErr.Some? {
          r := r.(message := "✗ Error cloning: " + env.cloneErr.value, messageType := Error);
        } else {
          r := r.(message := "✓ Repository cloned successfully", messageType := Success);
        }
      }
      r := r.(currentView := RepositoryListView, repoToClone := None);
      handled := true;
    } else if key == "n" || key == "esc" {
      r := r.(currentView := RepositoryListView, repoToClone := None);
      handled := true;
    }
  }

  /** The merge that follows a checkout, on the refreshed record `m`: a
      failed merge is reported and no conflicts are queried; otherwise
      remaining conflicts are listed for resolution, and a clean merge opens
      the merge screen waiting for its push. */
  method MergeAfterSwitch(m: Model, source: string, target: string, env: Env) returns (r: Model, calls: seq<Call>)
    requires WellFormed(m)
    ensures WellFormed(r)
    ensures env.mergeErr.Some? ==>
      r == m.(message := MergeErrorText(source, target, env.mergeErr.value), messageType := Error)
      && calls == [Merge(source)]
    ensures env.mergeErr.None? && env.conflicts != [] ==>
      r == m.(logLines := env.conflicts, message := MergeConflictsText(source, target), messageType := Warning)
      && calls == [Merge(source), ConflictFiles]
    ensures env.mergeErr.None? && env.conflicts == [] ==>
      r == m.(message := MergedText(source, target), messageType := Success, currentView := MergeView,
              awaitingPush := On)
      && calls == [Merge(source), ConflictFiles]
  {
    calls := [Merge(source)];
    if env.mergeErr.Some? {
      r := m.(message := MergeErrorText(source, target, env.mergeErr.value), messageType := Error);
      return;
    }
    calls := calls + [ConflictFiles];
    if |env.conflicts| > 0 {
      r := m.(logLines := env.conflicts, message := MergeConflictsText(source, target), messageType := Warning);
    } else {
      r := m.(message := MergedText(source, target), messageType := Success, currentView := MergeView,
              awaitingPush := On);
    }
  }

  /** The rebase that follows a checkout, on the refreshed record `m`: a
      failed rebase is reported and no conflicts are queried; otherwise
      remaining conflicts are listed, and a clean rebase returns to the file
      list, forgets the target and reads the repository data again. */
  method RebaseAfterSwitch(m: Model, source: string, target: string, env: Env) returns (r: Model, calls: seq<Call>)
    requires WellFormed(m)
    ensures WellFormed(r)
    ensures env.rebaseErr.Some? ==>
      r == m.(message := RebaseErrorText(source, target, env.rebaseErr.value), messageType := Error)
      && calls == [Rebase(target)]
    ensures env.rebaseErr.None? && env.conflicts != [] ==>
      r == m.(logLines := env.conflicts, message := RebaseConflictsText(source, target), messageType := Warning)
      && calls == [Rebase(target), ConflictFiles]
    ensures env.rebaseErr.None? && env.conflicts == [] ==>
      r == RefreshData(m.(message := RebasedText(source, target), messageType := Success, currentView := FileView,
                          dialogTarget := "", logLines := []), env.laterSnapshot)
      && calls == [Rebase(target), ConflictFiles, Refresh]
  {
    calls := [Rebase(target)];
    if env.rebaseErr.Some? {
      r := m.(message := RebaseErrorText(source, target, env.rebaseErr.value), messageType := Error);
      return;
    }
    calls := calls + [ConflictFiles];
    if |env.conflicts| > 0 {
      r := m.(logLines := env.conflicts, message := RebaseConflictsText(source, target), messageType := Warning);
    } else {
      r := m.(message := RebasedText(source, target), messageType := Success, currentView := FileView,
              dialogTarget := "", logLines := []);
      r := RefreshData(r, env.laterSnapshot);
      calls := calls + [Refresh];
    }
  }

  /** The record right after a successful checkout: the branch is set to the
      target and the repository data read again (which sets the branch once
      more, to what git reports). */
  function Switched(m: Model, target: string, env: Env): (r: Model)
    ensures r == RefreshData(m.(currentBranch := target), env.snapshot)
    ensures r.currentBranch == env.snapshot.currentBranch
    ensures WellFormed(m) ==> WellFormed(r)
  {
    RefreshData(m.(currentBranch := target), env.snapshot)
  }

  /** A successful checkout: the record is refreshed, then the merge or
      rebase runs; with any other next action the refreshed record comes back
      unhandled. */
  method AfterSwitch(m: Model, msg: Msg, env: Env) returns (r: Model, calls: seq<Call>, handled: bool)
    requires WellFormed(m) && msg.SwitchBranch?
    ensures WellFormed(r)
    ensures |calls| > 0 && calls[0] == Refresh
    ensures handled <==> msg.nextAction in {"merge", "rebase"}
    ensures !handled ==> r == Switched(m, msg.targetBranch, env) && calls == [Refresh]
    ensures msg.nextAction == "merge" ==>
      Merge(msg.sourceBranch) in calls && r.currentBranch == env.snapshot.currentBranch
      && (env.mergeErr.Some? ==> ConflictFiles !in calls && r.logLines == m.logLines && r.messageType == Error)
      && (env.mergeErr.None? && env.conflicts == [] ==> r.currentView == MergeView && r.awaitingPush == On)
      && (env.mergeErr.None? && env.conflicts != [] ==> r.logLines == env.conflicts && r.messageType == Warning)
    ensures msg.nextAction == "rebase" ==>
      Rebase(msg.targetBranch) in calls
      && (env.rebaseErr.Some? ==> ConflictFiles !in calls && r.logLines == m.logLines && r.messageType == Error)
      && (env.rebaseErr.None? && env.conflicts == [] ==>
            r.currentView == FileView && r.dialogTarget == "" && r.logLines == []
            && r.currentBranch == env.laterSnapshot.currentBranch)
      && (env.rebaseErr.None? && env.conflicts != [] ==> r.logLines == env.conflicts && r.messageType == Warning)
  {
    r := m.(currentBranch := msg.targetBranch);
    r := RefreshData(r, env.snapshot);
    var more;
    if msg.nextAction == "merge" {
      r, more := MergeAfterSwitch(r, msg.sourceBranch, msg.targetBranch, env);
      return r, [Refresh] + more, true;
    } else if msg.nextAction == "rebase" {
      r, more := RebaseAfterSwitch(r, msg.sourceBranch, msg.targetBranch, env);
      return r, [Refresh] + more, true;
    }
    return r, [Refresh], false;
  }

  /** `HandleSwitchBranchMsg`. Any other event is not handled. A failed
      checkout only reports the error: the branch stays what it was and
      nothing is called. */
  method HandleSwitchBranchMsg(m: Model, msg: Msg, env: Env) returns (r: Model, calls: seq<Call>, handled: bool)
    requires WellFormed(m)
    ensures WellFormed(r)
    ensures !msg.SwitchBranch? ==> r == m && calls == [] && !handled
    ensures msg.SwitchBranch? && msg.err.Some? ==>
      r == m.(message := SwitchErrorText(msg.targetBranch, msg.err.value), messageType := Error)
      && calls == [] && handled
    ensures msg.SwitchBranch? && msg.err.None? ==> |calls| > 0 && calls[0] == Refresh
    ensures msg.SwitchBranch? && msg.err.None? ==> (handled <==> msg.nextAction in {"merge", "rebase"})
  {
    if !msg.SwitchBranch? {
      return m, [], false;
    }
    if msg.err.Some? {
      r := m.(message := SwitchErrorText(msg.targetBranch, msg.err.value), messageType := Error);
      return r, [], true;
    }
    r, calls, handled := AfterSwitch(m, msg, env);
  }
}
