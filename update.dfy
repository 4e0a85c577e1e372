/** `Update`, the reducer of the terminal UI: one event and the current record
    in, the next record, the scheduled command and the collaborator calls
    made on the way out. */
module Update {
  import opened Wrappers
  import opened TuiModel
  import opened Messages
  import opened Utils
  import opened Actions
  import opened LogGraph
  import opened MergeHandler
  import opened RebaseHandler
  import opened UpdateKeys

  /** The merge that follows a checkout, as `Update` runs it: the conflicts
      are queried even when the merge failed, and conflicts that remain take
      precedence over the merge's error. */
  method MergeAfterSwitchInUpdate(m: Model, source: string, target: string, env: Env) returns (r: Model, calls: seq<Call>)
    requires WellFormed(m)
    ensures WellFormed(r)
    ensures calls == [Merge(source), ConflictFiles]
    ensures env.conflicts != [] ==>
      r == m.(logLines := env.conflicts, message := MergeConflictsText(source, target), messageType := Warning)
    ensures env.conflicts == [] && env.mergeErr.Some? ==>
      r == m.(message := MergeErrorText(source, target, env.mergeErr.value), messageType := Error)
    ensures env.conflicts == [] && env.mergeErr.None? ==>
      r == m.(message := MergedText(source, target), messageType := Success, currentView := MergeView,
              awaitingPush := On)
  {
    calls := [Merge(source), ConflictFiles];
    if |env.conflicts| > 0 {
      r := m.(logLines := env.conflicts, message := MergeConflictsText(source, target), messageType := Warning);
    } else if env.mergeErr.Some? {
      r := m.(message := MergeErrorText(source, target, env.mergeErr.value), messageType := Error);
    } else {
      r := m.(message := MergedText(source, target), messageType := Success, currentView := MergeView,
              awaitingPush := On);
    }
  }

  /** The rebase that follows a checkout, as `Update` runs it: conflicts
      first, then the rebase's error, and a clean rebase reads the repository
      data a second time. */
  method RebaseAfterSwitchInUpdate(m: Model, source: string, target: string, env: Env) returns (r: Model, calls: seq<Call>)
    requires WellFormed(m)
    ensures WellFormed(r)
    ensures env.conflicts != [] ==>
      r == m.(logLines := env.conflicts, message := RebaseConflictsText(source, target), messageType := Warning)
      && calls == [Rebase(target), ConflictFiles]
    ensures env.conflicts == [] && env.rebaseErr.Some? ==>
      r == m.(message := RebaseErrorText(source, target, env.rebaseErr.value), messageType := Error)
      && calls == [Rebase(target), ConflictFiles]
    ensures env.conflicts == [] && env.rebaseErr.None? ==>
      r == RefreshData(m.(message := RebasedText(source, target), messageType := Success, currentView := FileView,
                          dialogTarget := "", logLines := []), env.laterSnapshot)
      && calls == [Rebase(target), ConflictFiles, Refresh]
  {
    calls := [Rebase(target), ConflictFiles];
    if |env.conflicts| > 0 {
      r := m.(logLines := env.conflicts, message := RebaseConflictsText(source, target), messageType := Warning);
    } else if env.rebaseErr.Some? {
      r := m.(message := RebaseErrorText(source, target, env.rebaseErr.value), messageType := Error);
    } else {
      r := m.(message := RebasedText(source, target), messageType := Success, currentView := FileView,
              dialogTarget := "", logLines := []);
      r := RefreshData(r, env.laterSnapshot);
      calls := calls + [Refresh];
    }
  }

  /** A `SwitchBranchMsg` as `Update` handles it. A failed checkout only
      reports the error, so the branch stays what it was; after a successful
      one the record is refreshed and the next action runs. With both an
      error and conflicts, `Update` lists the conflicts where
      `HandleSwitchBranchMsg` reports the error. */
  method SwitchBranchInUpdate(m: Model, msg: Msg, env: Env) returns (r: Model, calls: seq<Call>)
    requires WellFormed(m) && msg.SwitchBranch?
    ensures WellFormed(r)
    ensures msg.err.Some? ==>
      r == m.(message := SwitchErrorText(msg.targetBranch, msg.err.value), messageType := Error) && calls == []
    ensures msg.err.None? ==> |calls| > 0 && calls[0] == Refresh
    ensures msg.err.None? && msg.nextAction != "merge" && msg.nextAction != "rebase" ==>
      r == Switched(m, msg.targetBranch, env) && calls == [Refresh]
    ensures msg.err.None? && msg.nextAction == "merge" ==>
      calls == [Refresh, Merge(msg.sourceBranch), ConflictFiles] && r.currentBranch == env.snapshot.currentBranch
      && (env.conflicts != [] ==> r.logLines == env.conflicts && r.messageType == Warning)
      && (env.conflicts == [] && env.mergeErr.Some? ==> r.messageType == Error && r.logLines == m.logLines)
      && (env.conflicts == [] && env.mergeErr.None? ==> r.currentView == MergeView && r.awaitingPush == On)
    ensures msg.err.None? && msg.nextAction == "rebase" ==>
      Rebase(msg.targetBranch) in calls && ConflictFiles in calls
      && (env.conflicts != [] ==> r.logLines == env.conflicts && r.messageType == Warning)
      && (env.conflicts == [] && env.rebaseErr.Some? ==> r.messageType == Error && r.logLines == m.logLines)
      && (env.conflicts == [] && env.rebaseErr.None? ==> r.currentView == FileView && r.logLines == [])
  {
    if msg.err.Some? {
      r := m.(message := SwitchErrorText(msg.targetBranch, msg.err.value), messageType := Error);
      return r, [];
    }
    if msg.nextAction == "merge" {
      r, calls := SwitchThenMerge(m, msg, env);
    } else if msg.nextAction == "rebase" {
      r, calls := SwitchThenRebase(m, msg, env);
    } else {
      r := Switched(m, msg.targetBranch, env);
      calls := [Refresh];
    }
  }

  /** A successful checkout followed by the merge of the source branch. */
  method SwitchThenMerge(m: Model, msg: Msg, env: Env) returns (r: Model, calls: seq<Call>)
    requires WellFormed(m) && msg.SwitchBranch?
    ensures WellFormed(r)
    ensures calls == [Refresh, Merge(msg.sourceBranch), ConflictFiles] && r.currentBranch == env.snapshot.currentBranch
    ensures env.conflicts != [] ==> r.logLines == env.conflicts && r.messageType == Warning
    ensures env.conflicts == [] && env.mergeErr.Some? ==> r.messageType == Error && r.logLines == m.logLines
    ensures env.conflicts == [] && env.mergeErr.None? ==> r.currentView == MergeView && r.awaitingPush == On
  {
    var base := Switched(m, msg.targetBranch, env);
    var more;
    r, more := MergeAfterSwitchInUpdate(base, msg.sourceBranch, msg.targetBranch, env);
    calls := [Refresh] + more;
  }

  /** A successful checkout followed by the rebase onto the target branch. */
  method SwitchThenRebase(m: Model, msg: Msg, env: Env) returns (r: Model, calls: seq<Call>)
    requires WellFormed(m) && msg.SwitchBranch?
    ensures WellFormed(r)
    ensures |calls| > 0 && calls[0] == Refresh && Rebase(msg.targetBranch) in calls && ConflictFiles in calls
    ensures env.conflicts != [] ==> r.logLines == env.conflicts && r.messageType == Warning
    ensures env.conflicts == [] && env.rebaseErr.Some? ==> r.messageType == Error && r.logLines == m.logLines
    ensures env.conflicts == [] && env.rebaseErr.None? ==> r.currentView == FileView && r.logLines == []
  {
    var base := Switched(m, msg.targetBranch, env);
    var more;
    r, more := RebaseAfterSwitchInUpdate(base, msg.sourceBranch, msg.targetBranch, env);
    calls := [Refresh] + more;
    assert calls[1] == Rebase(msg.targetBranch) && calls[2] == ConflictFiles;
  }

  /** Whether a push, fetch or pull is running. */
  predicate Busy(m: Model) {
    m.isPushing == On || m.isFetching == On || m.isPulling == On
  }

  /** The frame after frame `i` of `n`: the next one, and the first after
      the last. */
  function NextFrame(i: int, n: int): (j: int)
    requires 0 <= i < n
    ensures 0 <= j < n
    ensures j == i + 1 || (i == n - 1 && j == 0)
  {
    if i + 1 == n then 0 else i + 1
  }

  /** Go's `(i + 1) % n` is that frame. */
  lemma NextFrameIsModulo(i: int, n: int)
    requires 0 <= i < n
    ensures (i + 1) % n == NextFrame(i, n)
  {
    if i + 1 == n {
      assert (i + 1) % n == n % n;
    }
  }

  /** A spinner tick: while something runs, the next frame is shown (after
      the last comes the first) and the timer is set again; otherwise the tick
      is dropped and the timer stops. */
  method SpinnerStep(m: Model) returns (r: Model, cmd: Cmd)
    requires WellFormed(m)
    ensures WellFormed(r)
    ensures Busy(m) ==>
      r == m.(spinnerIndex := NextFrame(m.spinnerIndex, |m.spinnerFrames|)) && cmd == Run([SpinnerTask])
    ensures !Busy(m) ==> r == m && cmd == NoCmd
  {
    if Busy(m) {
      NextFrameIsModulo(m.spinnerIndex, |m.spinnerFrames|);
      r := m.(spinnerIndex := (m.spinnerIndex + 1) % |m.spinnerFrames|);
      return r, Run([SpinnerTask]);
    }
    return m, NoCmd;
  }

  /** The frame shown after `k` ticks. */
  function SpinnerAfter(index: int, frames: int, k: nat): (i: int)
    requires 0 <= index < frames
    ensures 0 <= i < frames
  {
    if k == 0 then index else NextFrame(SpinnerAfter(index, frames, k - 1), frames)
  }

  /** Within one round the spinner counts up and wraps past the last frame
      exactly once. */
  lemma {:induction false} SpinnerAfterWithinRound(index: int, frames: int, k: nat)
    requires 0 <= index < frames && k <= frames
    ensures SpinnerAfter(index, frames, k) == if index + k < frames then index + k else index + k - frames
  {
    if k > 0 {
      SpinnerAfterWithinRound(index, frames, k - 1);
    }
  }

  /** A full round of ticks brings the spinner back to the frame it started
      on, so every frame is shown in turn. */
  lemma SpinnerFullRound(index: int, frames: int)
    requires 0 <= index < frames
    ensures SpinnerAfter(index, frames, frames) == index
  {
    SpinnerAfterWithinRound(index, frames, frames);
  }

  /** The end of a push: the running mark is cleared; an error is reported,
      a success returns to the file list with the target and the conflict
      list cleared, reads the repository data again and clamps the cursor. */
  method PushDone(m: Model, err: Option<string>, env: Env) returns (r: Model, calls: seq<Call>)
    requires WellFormed(m)
    ensures WellFormed(r) && r.isPushing == Off
    ensures err.Some? ==>
      r == m.(isPushing := Off, message := "✗ Error pushing changes: " + err.value, messageType := Error)
      && calls == []
    ensures err.None? ==>
      r == ValidateCursor(RefreshData(m.(isPushing := Off, message := "✓ Changes pushed to remote successfully",
                                         messageType := Success, currentView := FileView, dialogTarget := "",
                                         logLines := []), env.snapshot))
      && calls == [Refresh]
  {
    r := m.(isPushing := Off);
    if err.Some? {
      r := r.(message := "✗ Error pushing changes: " + err.value, messageType := Error);
      calls := [];
    } else {
      r := r.(message := "✓ Changes pushed to remote successfully", messageType := Success,
              currentView := FileView, dialogTarget := "", logLines := []);
      r := RefreshData(r, env.snapshot);
      ValidateCursorWellFormed(r);
      r := ValidateCursor(r);
      calls := [Refresh];
    }
  }

  /** The end of a fetch: the running mark is cleared; an error is reported,
      a success reads the repository data again and clamps the cursor. */
  method FetchDone(m: Model, err: Option<string>, env: Env) returns (r: Model, calls: seq<Call>)
    requires WellFormed(m)
    ensures WellFormed(r) && r.isFetching == Off
    ensures err.Some? ==>
      r == m.(isFetching := Off, message := "✗ Error fetching changes: " + err.value, messageType := Error)
      && calls == []
    ensures err.None? ==>
      r == ValidateCursor(RefreshData(m.(isFetching := Off, message := "✓ Changes fetched successfully",
                                         messageType := Success), env.snapshot))
      && calls == [Refresh]
  {
    r := m.(isFetching := Off);
    if err.Some? {
      r := r.(message := "✗ Error fetching changes: " + err.value, messageType := Error);
      calls := [];
    } else {
      r := r.(message := "✓ Changes fetched successfully", messageType := Success);
      r := RefreshData(r, env.snapshot);
      ValidateCursorWellFormed(r);
      r := ValidateCursor(r);
      calls := [Refresh];
    }
  }

  /** The end of a pull, like that of a fetch. */
  method PullDone(m: Model, err: Option<string>, env: Env) returns (r: Model, calls: seq<Call>)
    requires WellFormed(m)
    ensures WellFormed(r) && r.isPulling == Off
    ensures err.Some? ==>
      r == m.(isPulling := Off, message := "✗ Error pulling changes: " + err.value, messageType := Error)
      && calls == []
    ensures err.None? ==>
      r == ValidateCursor(RefreshData(m.(isPulling := Off, message := "✓ Changes pulled successfully",
                                         messageType := Success), env.snapshot))
      && calls == [Refresh]
  {
    r := m.(isPulling := Off);
    if err.Some? {
      r := r.(message := "✗ Error pulling changes: " + err.value, messageType := Error);
      calls := [];
    } else {
      r := r.(message := "✓ Changes pulled successfully", messageType := Success);
      r := RefreshData(r, env.snapshot);
      ValidateCursorWellFormed(r);
      r := ValidateCursor(r);
      calls := [Refresh];
    }
  }

  /** The keys after the screen-specific blocks: first the shared keys, then
      typing on the text screens, then the branch list's and the file list's
      own keys. */
  method LaterKeys(m: Model, key: Key, env: Env) returns (r: Model, cmd: Cmd, calls: seq<Call>)
    requires WellFormed(m)
    ensures WellFormed(r)
    ensures cmd == Quit <==>
      (key.name == "ctrl+c" || (key.name == "q" && m.currentView in {FileView, BranchView, RemoteView, ConfirmDialog, HelpView}))
    ensures cmd in {NoCmd, Quit, PushWithSpinner, FetchWithSpinner, PullWithSpinner}
    ensures cmd == PushWithSpinner ==> m.isPushing == Off && r.isPushing == On
    ensures cmd == FetchWithSpinner ==> m.isFetching == Off && r.isFetching == On
    ensures cmd == PullWithSpinner ==> m.isPulling == Off && r.isPulling == On
  {
    var handled;
    r, cmd, calls, handled := SharedKey(m, key.name, env);
    if handled {
      return;
    }
    r, handled := TypeRune(m, key);
    if handled {
      return;
    }
    if m.currentView == BranchView {
      r, handled := BranchKeys(m, key.name);
      if handled {
        return;
      }
    }
    if m.currentView == FileView {
      r, cmd, calls := FileKeys(m, key.name, env);
    }
  }

  /** A key press. The repository list, the commit graph, the merge and
      rebase screens and the confirmation dialog see it first; the keys they
      leave go on to `LaterKeys`. */
  method KeyPressed(m: Model, key: Key, env: Env) returns (r: Model, cmd: Cmd, calls: seq<Call>)
    requires WellFormed(m)
    ensures WellFormed(r)
    ensures cmd == Quit <==>
      (key.name == "ctrl+c" && m.currentView !in {LogGraphView, ConfirmDialog})
      || (key.name == "q" && m.currentView in {FileView, BranchView, RemoteView, HelpView})
    ensures cmd in {NoCmd, Quit, PushWithSpinner, FetchWithSpinner, PullWithSpinner}
      || cmd == Run([SwitchAndMerge(m.dialogTarget, m.currentBranch)])
    ensures cmd == PushWithSpinner ==>
      (m.isPushing == Off && r.isPushing == On) || (m.currentView == MergeView && m.awaitingPush == On)
    ensures cmd == FetchWithSpinner ==> m.isFetching == Off && r.isFetching == On
    ensures cmd == PullWithSpinner ==> m.isPulling == Off && r.isPulling == On
  {
    var handled;
    if m.currentView == RepositoryListView {
      r, handled := RepositoryListKeys(m, key.name);
      if handled {
        return r, NoCmd, [];
      }
    }
    if m.currentView == LogGraphView {
      r := HandleLogGraphKey(m, key.name);
      return r, NoCmd, [];
    }
    if m.currentView == MergeView {
      r, cmd, calls, handled := MergeKeys(m, key.name, env);
      if handled {
        return;
      }
    }
    if m.currentView == RebaseView {
      r, calls, handled := RebaseKeys(m, key.name, env);
      if handled {
        return r, NoCmd, calls;
      }
    }
    if m.currentView == ConfirmDialog {
      r, calls := ConfirmDialogKeys(m, key.name, env);
      return r, NoCmd, calls;
    }
    r, cmd, calls := LaterKeys(m, key, env);
  }

  /** `Update`. On the clone-confirmation screen the dialog sees a key first;
      a key it leaves, and every other event, goes on to the event's own
      handling. The record stays well formed. The program quits exactly on
      ctrl+c outside the commit graph and the confirmation dialog, and on "q"
      on the file, branch, remote and help screens. A fetch or a pull starts
      only when it is not already running, and a push only then or to push
      a finished merge. */
  method Update(m: Model, msg: Msg, env: Env) returns (r: Model, cmd: Cmd, calls: seq<Call>)
    requires WellFormed(m)
    ensures WellFormed(r)
    ensures cmd == Quit <==>
      msg.KeyPress? &&
      ((msg.key.name == "ctrl+c" && m.currentView !in {LogGraphView, ConfirmDialog})
       || (msg.key.name == "q" && m.currentView in {FileView, BranchView, RemoteView, HelpView}))
    ensures cmd == PushWithSpinner ==>
      (m.isPushing == Off && r.isPushing == On) || (m.currentView == MergeView && m.awaitingPush == On)
    ensures cmd == FetchWithSpinner ==> m.isFetching == Off && r.isFetching == On
    ensures cmd == PullWithSpinner ==> m.isPulling == Off && r.isPulling == On
    ensures msg == SpinnerTick && Busy(m) ==>
      r == m.(spinnerIndex := NextFrame(m.spinnerIndex, |m.spinnerFrames|)) && cmd == Run([SpinnerTask])
    ensures msg == SpinnerTick && !Busy(m) ==> r == m && cmd == NoCmd
    ensures msg.PushDone? ==> r.isPushing == Off && cmd == NoCmd
    ensures msg.FetchDone? ==> r.isFetching == Off && cmd == NoCmd
    ensures msg.PullDone? ==> r.isPulling == Off && cmd == NoCmd
    ensures msg == OtherMsg ==> r == m && cmd == NoCmd && calls == []
  {
    if m.currentView == ConfirmCloneRepoView && msg.KeyPress? {
      var handled;
      r, calls, handled := HandleConfirmCloneRepo(m, msg.key.name, env);
      if handled {
        return r, NoCmd, calls;
      }
    }
    cmd := NoCmd;
    match msg {
      case KeyPress(key) =>
        r, cmd, calls := KeyPressed(m, key, env);
      case SwitchBranch(_, _, _, _) =>
        r, calls := SwitchBranchInUpdate(m, msg, env);
      case SpinnerTick =>
        r, cmd := SpinnerStep(m);
        calls := [];
      case PushDone(err) =>
        r, calls := PushDone(m, err, env);
      case FetchDone(err) =>
        r, calls := FetchDone(m, err, env);
      case PullDone(err) =>
        r, calls := PullDone(m, err, env);
      case OtherMsg =>
        r, calls := m, [];
    }
  }
}
