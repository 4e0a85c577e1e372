/** The merge screen: choosing the branch to merge the current one into,
    starting the switch-and-merge, and continuing, aborting or pushing a merge
    in progress. The same key handling appears in `HandleMergeView` and inline
    in `Update`. */
module MergeHandler {
  import opened Wrappers
  import opened TuiModel
  import opened Messages
  import opened Utils

  const CannotMergeIntoItself := "⚠ Cannot merge a branch into itself"
  const SelectTargetFirst := "Select a target branch first by pressing space"
  const SelectionUnmarked := "Selection unmarked"
  const MergeCompleted := "✓ Merge completed successfully. Press [P] to push to remote."
  const ConflictsStillPresent := "Conflicts still present. Please resolve all conflicts."

  /** Space: the branch under the cursor becomes the merge target, or stops
      being it when it already was; the checked-out branch is refused with a
      warning. A cursor past the list changes nothing. */
  method MarkTarget(m: Model) returns (r: Model)
    requires WellFormed(m)
    ensures WellFormed(r)
    ensures TargetNotCurrent(m) ==> TargetNotCurrent(r)
    ensures r.currentView == m.currentView
    ensures r.dialogTarget != m.dialogTarget ==> r.dialogTarget != m.currentBranch || r.dialogTarget == ""
    ensures m.cursor >= |m.branches| ==> r == m
    ensures m.cursor < |m.branches| && m.branches[m.cursor] == m.currentBranch ==>
      r == m.(message := CannotMergeIntoItself, messageType := Warning)
    ensures m.cursor < |m.branches| && m.branches[m.cursor] != m.currentBranch && m.dialogTarget == m.branches[m.cursor] ==>
      r == m.(dialogTarget := "", message := SelectionUnmarked, messageType := Info)
    ensures m.cursor < |m.branches| && m.branches[m.cursor] != m.currentBranch && m.dialogTarget != m.branches[m.cursor] ==>
      r == m.(dialogTarget := m.branches[m.cursor], messageType := Info,
              message := "Will merge " + m.currentBranch + " into " + m.branches[m.cursor] + " (current: " + m.currentBranch + ")")
  {
    r := m;
    if |r.branches| > 0 && r.cursor < |r.branches| {
      var selected := r.branches[r.cursor];
      if selected == r.currentBranch {
        r := r.(message := CannotMergeIntoItself, messageType := Warning);
        return;
      }
      if r.dialogTarget == selected {
        r := r.(dialogTarget := "", message := SelectionUnmarked, messageType := Info);
      } else {
        r := r.(dialogTarget := selected,
                message := "Will merge " + r.currentBranch + " into " + selected + " (current: " + r.currentBranch + ")",
                messageType := Info);
      }
    }
  }

  /** "M": a switch-and-merge is scheduled exactly when a target is marked
      and it is not the checked-out branch; otherwise a warning. No git call
      is made here. */
  method StartMerge(m: Model) returns (r: Model, cmd: Cmd)
    requires WellFormed(m)
    ensures WellFormed(r)
    ensures TargetNotCurrent(m) ==> TargetNotCurrent(r)
    ensures r.currentView == m.currentView
    ensures cmd != NoCmd <==> m.dialogTarget != "" && m.dialogTarget != m.currentBranch
    ensures cmd != NoCmd ==>
      cmd == Run([SwitchAndMerge(m.dialogTarget, m.currentBranch)])
      && r == m.(message := "Switching to " + m.dialogTarget + " and merging " + m.currentBranch + " into it...",
                 messageType := Info)
    ensures m.dialogTarget == "" ==> r == m.(message := SelectTargetFirst, messageType := Warning)
    ensures m.dialogTarget != "" && m.dialogTarget == m.currentBranch ==>
      r == m.(message := CannotMergeIntoItself, messageType := Warning)
  {
    r := m;
    if r.dialogTarget != "" {
      if r.dialogTarget == r.currentBranch {
        r := r.(message := CannotMergeIntoItself, messageType := Warning);
        return r, NoCmd;
      }
      r := r.(message := "Switching to " + r.dialogTarget + " and merging " + r.currentBranch + " into it...",
              messageType := Info);
      return r, Run([SwitchAndMerge(r.dialogTarget, r.currentBranch)]);
    } else {
      r := r.(message := SelectTargetFirst, messageType := Warning);
      return r, NoCmd;
    }
  }

  /** "P": a finished merge is pushed (push and spinner scheduled, the flag
      cleared); otherwise a merge in progress is continued, which ends in the
      continue error, in the conflicts that remain, or in a finished merge
      awaiting its push. With neither, the key is not handled. */
  method PushOrContinue(m: Model, env: Env) returns (r: Model, cmd: Cmd, calls: seq<Call>, handled: bool)
    requires WellFormed(m)
    ensures WellFormed(r)
    ensures TargetNotCurrent(m) ==> TargetNotCurrent(r)
    ensures r.currentView == m.currentView
    ensures handled <==> m.awaitingPush == On || |m.logLines| > 0
    ensures !handled ==> r == m && cmd == NoCmd && calls == []
    ensures m.awaitingPush == On ==>
      r == m.(awaitingPush := Off, message := "Pushing...", messageType := Info)
      && cmd == PushWithSpinner && calls == []
    ensures m.awaitingPush == Off ==> cmd == NoCmd
    ensures m.awaitingPush == Off && |m.logLines| > 0 && env.continueErr.Some? ==>
      r == m.(message := "✗ Error continuing merge: " + env.continueErr.value, messageType := Error)
      && calls == [MergeContinue]
    ensures m.awaitingPush == Off && |m.logLines| > 0 && env.continueErr.None? && env.conflicts != [] ==>
      r == m.(logLines := env.conflicts, message := ConflictsStillPresent, messageType := Warning)
      && calls == [MergeContinue, ConflictFiles]
    ensures m.awaitingPush == Off && |m.logLines| > 0 && env.continueErr.None? && env.conflicts == [] ==>
      r == m.(awaitingPush := On, message := MergeCompleted, messageType := Success)
      && calls == [MergeContinue, ConflictFiles]
  {
    if m.awaitingPush == On {
      r := m.(message := "Pushing...", messageType := Info, awaitingPush := Off);
      return r, PushWithSpinner, [], true;
    }
    if |m.logLines| > 0 {
      if env.continueErr.Some? {
        r := m.(message := "✗ Error continuing merge: " + env.continueErr.value, messageType := Error);
        return r, NoCmd, [MergeContinue], true;
      }
      if |env.conflicts| > 0 {
        r := m.(logLines := env.conflicts, message := ConflictsStillPresent, messageType := Warning);
        return r, NoCmd, [MergeContinue, ConflictFiles], true;
      }
      r := m.(message := MergeCompleted, messageType := Success, awaitingPush := On);
      return r, NoCmd, [MergeContinue, ConflictFiles], true;
    }
    return m, NoCmd, [], false;
  }

  /** "X": a merge in progress is aborted; on success the screen closes, the
      target and conflict list are cleared and the repository data is read
      again. With no merge in progress the key is not handled. */
  method Abort(m: Model, env: Env) returns (r: Model, calls: seq<Call>, handled: bool)
    requires WellFormed(m)
    ensures WellFormed(r)
    ensures TargetNotCurrent(m) ==> TargetNotCurrent(r)
    ensures handled <==> |m.logLines| > 0
    ensures !handled ==> r == m && calls == []
    ensures handled && env.abortErr.Some? ==>
      r == m.(message := "✗ Error aborting merge: " + env.abortErr.value, messageType := Error)
      && calls == [MergeAbort]
    ensures handled && env.abortErr.None? ==>
      r == RefreshData(m.(message := "Merge aborted.", messageType := Info, currentView := FileView,
                          dialogTarget := "", logLines := []), env.snapshot)
      && calls == [MergeAbort, Refresh]
  {
    if |m.logLines| > 0 {
      if env.abortErr.Some? {
        r := m.(message := "✗ Error aborting merge: " + env.abortErr.value, messageType := Error);
        return r, [MergeAbort], true;
      }
      r := m.(message := "Merge aborted.", messageType := Info, currentView := FileView,
              dialogTarget := "", logLines := []);
      r := RefreshData(r, env.snapshot);
      return r, [MergeAbort, Refresh], true;
    }
    return m, [], false;
  }

  /** The keys the merge screen handles: navigation, marking, merging and
      leaving always; "P" while a push is awaited or a merge is in progress;
      "X" while a merge is in progress. */
  predicate MergeKeyHandled(m: Model, key: string)
  {
    key in {"up", "down", " ", "space", "M", "m", "esc"}
    || (key in {"P", "p"} && (m.awaitingPush == On || |m.logLines| > 0))
    || (key in {"X", "x"} && |m.logLines| > 0)
  }

  /** The keys of the merge screen. A key it does not handle (`handled`
      false) leaves everything as it was. The cursor walks the branch list;
      the target never becomes the checked-out branch; the only commands are
      the switch-and-merge of the marked target and the push of a finished
      merge. */
  method MergeKeys(m: Model, key: string, env: Env) returns (r: Model, cmd: Cmd, calls: seq<Call>, handled: bool)
    requires WellFormed(m)
    ensures WellFormed(r)
    ensures !handled ==> r == m && cmd == NoCmd && calls == []
    ensures handled <==> MergeKeyHandled(m, key)
    ensures TargetNotCurrent(m) ==> TargetNotCurrent(r)
    ensures key in {"up", "down"} ==> r == m.(cursor := CursorStep(m.cursor, |m.branches|, key == "up"))
    ensures key == "esc" ==> r == m.(currentView := FileView, dialogTarget := "", message := "", cursor := 0, logLines := [])
    ensures cmd == NoCmd || cmd == PushWithSpinner || cmd == Run([SwitchAndMerge(m.dialogTarget, m.currentBranch)])
    ensures cmd == PushWithSpinner ==> m.awaitingPush == On && r.awaitingPush == Off && calls == []
    ensures cmd.Run? && cmd != PushWithSpinner ==> m.dialogTarget != "" && m.dialogTarget != m.currentBranch
    ensures r.currentView == m.currentView || r.currentView == FileView
  {
    cmd, calls, handled := NoCmd, [], true;
    if key == "up" || key == "down" {
      r := m.(cursor := CursorStep(m.cursor, |m.branches|, key == "up"));
    } else if key == " " || key == "space" {
      r := MarkTarget(m);
    } else if key == "M" || key == "m" {
      r, cmd := StartMerge(m);
    } else if key == "P" || key == "p" {
      r, cmd, calls, handled := PushOrContinue(m, env);
    } else if key == "X" || key == "x" {
      r, calls, handled := Abort(m, env);
    } else if key == "esc" {
      r := m.(currentView := FileView, dialogTarget := "", message := "", cursor := 0, logLines := []);
    } else {
      r, handled := m, false;
    }
  }

  /** `HandleMergeView`: outside the merge screen nothing happens; on it the
      keys act as `MergeKeys` says, and a key it does not handle changes
      nothing. Like `MergeKeys`, it never makes the target the checked-out
      branch, and it schedules a switch-and-merge only for a target that is
      set and not current. */
  method HandleMergeView(m: Model, key: string, env: Env) returns (r: Model, cmd: Cmd, calls: seq<Call>)
    requires WellFormed(m)
    ensures WellFormed(r)
    ensures m.currentView != MergeView ==> r == m && cmd == NoCmd && calls == []
    ensures r.currentView == m.currentView || r.currentView == FileView
    ensures TargetNotCurrent(m) ==> TargetNotCurrent(r)
    ensures m.currentView == MergeView && key in {"up", "down"} ==>
      r == m.(cursor := CursorStep(m.cursor, |m.branches|, key == "up"))
    ensures m.currentView == MergeView && key == "esc" ==>
      r == m.(currentView := FileView, dialogTarget := "", message := "", cursor := 0, logLines := [])
    ensures m.currentView == MergeView && !MergeKeyHandled(m, key) ==> r == m && cmd == NoCmd && calls == []
    ensures cmd == NoCmd || cmd == PushWithSpinner || cmd == Run([SwitchAndMerge(m.dialogTarget, m.currentBranch)])
    ensures cmd == PushWithSpinner ==> m.awaitingPush == On && r.awaitingPush == Off && calls == []
    ensures cmd.Run? && cmd != PushWithSpinner ==> m.dialogTarget != "" && m.dialogTarget != m.currentBranch
  {
    if m.currentView != MergeView {
      return m, NoCmd, [];
    }
    var handled;
    r, cmd, calls, handled := MergeKeys(m, key, env);
  }
}
