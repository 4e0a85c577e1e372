/** The rebase screen: choosing the branch to rebase the current one onto,
    running the rebase, and continuing or aborting a rebase in progress. The
    same key handling appears in `HandleRebaseView` and inline in `Update`. */
module RebaseHandler {
  import opened Wrappers
  import opened TuiModel
  import opened Messages
  import opened Utils

  const CannotRebaseOntoItself := "⚠ Cannot rebase a branch onto itself"
  const SelectTargetFirst := "Select a target branch first by pressing space"
  const SelectionUnmarked := "Selection unmarked"
  const ConflictsDetected := "Conflicts detected. Please resolve them and use [P] Proceed or [X] Cancel."
  const ConflictsStillPresent := "Conflicts still present. Please resolve all conflicts."
  const RebaseCompleted := "✓ Rebase completed successfully"

  /** The record after a rebase finished: back to the file list, no target,
      no conflict list, the repository data read again. */
  function Finished(m: Model, message: string, snap: Snapshot): (r: Model)
    requires WellFormed(m)
    ensures WellFormed(r)
    ensures r.currentView == FileView && r.dialogTarget == "" && r.logLines == []
    ensures r.message == message && r.messageType == Success && r.cursor == m.cursor
  {
    RefreshData(m.(message := message, messageType := Success, currentView := FileView,
                   dialogTarget := "", logLines := []), snap)
  }

  /** Space: the branch under the cursor becomes the rebase base, or stops
      being it when it already was; the checked-out branch is refused with a
      warning. A cursor past the list changes nothing. */
  method MarkTarget(m: Model) returns (r: Model)
    requires WellFormed(m)
    ensures WellFormed(r) && r.currentView == m.currentView
    ensures r.dialogTarget != m.dialogTarget ==> r.dialogTarget != m.currentBranch || r.dialogTarget == ""
    ensures m.cursor >= |m.branches| ==> r == m
    ensures m.cursor < |m.branches| && m.branches[m.cursor] == m.currentBranch ==>
      r == m.(message := CannotRebaseOntoItself, messageType := Warning)
    ensures m.cursor < |m.branches| && m.branches[m.cursor] != m.currentBranch && m.dialogTarget == m.branches[m.cursor] ==>
      r == m.(dialogTarget := "", message := SelectionUnmarked, messageType := Info)
    ensures m.cursor < |m.branches| && m.branches[m.cursor] != m.currentBranch && m.dialogTarget != m.branches[m.cursor] ==>
      r == m.(dialogTarget := m.branches[m.cursor], messageType := Info,
              message := "Will rebase " + m.currentBranch + " onto " + m.branches[m.cursor])
  {
    r := m;
    if |r.branches| > 0 && r.cursor < |r.branches| {
      var selected := r.branches[r.cursor];
      if selected == r.currentBranch {
        r := r.(message := CannotRebaseOntoItself, messageType := Warning);
        return;
      }
      if r.dialogTarget == selected {
        r := r.(dialogTarget := "", message := SelectionUnmarked, messageType := Info);
      } else {
        r := r.(dialogTarget := selected, message := "Will rebase " + r.currentBranch + " onto " + selected,
                messageType := Info);
      }
    }
  }

  /** "R": without a target, or with the checked-out branch as target, a
      warning and no git call. Otherwise the rebase runs; its error is
      reported before the conflicts are asked for, so the conflict list is
      untouched on error; remaining conflicts fill the list; a clean rebase
      closes the screen and reads the repository again. */
  method StartRebase(m: Model, env: Env) returns (r: Model, calls: seq<Call>)
    requires WellFormed(m)
    ensures WellFormed(r)
    ensures r.currentView == m.currentView || r.currentView == FileView
    ensures m.dialogTarget == "" ==> r == m.(message := SelectTargetFirst, messageType := Warning) && calls == []
    ensures m.dialogTarget != "" && m.dialogTarget == m.currentBranch ==>
      r == m.(message := CannotRebaseOntoItself, messageType := Warning) && calls == []
    ensures m.dialogTarget != "" && m.dialogTarget != m.currentBranch && env.rebaseErr.Some? ==>
      r == m.(message := "✗ Error rebasing: " + env.rebaseErr.value, messageType := Error)
      && calls == [Rebase(m.dialogTarget)]
    ensures m.dialogTarget != "" && m.dialogTarget != m.currentBranch && env.rebaseErr.None? && env.conflicts != [] ==>
      r == m.(logLines := env.conflicts, message := ConflictsDetected, messageType := Warning)
      && calls == [Rebase(m.dialogTarget), ConflictFiles]
    ensures m.dialogTarget != "" && m.dialogTarget != m.currentBranch && env.rebaseErr.None? && env.conflicts == [] ==>
      r == Finished(m, "✓ Rebase of " + m.currentBranch + " onto " + m.dialogTarget + " successful", env.snapshot)
      && calls == [Rebase(m.dialogTarget), ConflictFiles, Refresh]
  {
    if m.dialogTarget == "" {
      return m.(message := SelectTargetFirst, messageType := Warning), [];
    }
    if m.dialogTarget == m.currentBranch {
      return m.(message := CannotRebaseOntoItself, messageType := Warning), [];
    }
    r := m.(message := "Rebasing " + m.currentBranch + " onto " + m.dialogTarget + "...", messageType := Info);
    calls := [Rebase(m.dialogTarget)];
    if env.rebaseErr.Some? {
      r := r.(message := "✗ Error rebasing: " + env.rebaseErr.value, messageType := Error);
      return;
    }
    calls := calls + [ConflictFiles];
    if |env.conflicts| > 0 {
      r := r.(logLines := env.conflicts, message := ConflictsDetected, messageType := Warning);
      return;
    }
    r := Finished(m, "✓ Rebase of " + m.currentBranch + " onto " + m.dialogTarget + " successful", env.snapshot);
    calls := calls + [Refresh];
  }

  /** "P" on a rebase in progress as the source writes it
      (rebase_handler.go:81-103, update.go:290-312): after a successful
      `git rebase --continue` the test for remaining conflicts reads the old,
      non-empty conflict list instead of the fresh one, so the rebase is never
      reported finished, and the fresh list replaces the old one even when it
      is empty. */
  function ContinueAsWritten(m: Model, env: Env): (r: (Model, seq<Call>))
    requires |m.logLines| > 0
    ensures env.continueErr.Some? ==>
      r == (m.(message := "✗ Error continuing rebase: " + env.continueErr.value, messageType := Error), [RebaseContinue])
    ensures env.continueErr.None? ==>
      r.0 == m.(logLines := env.conflicts, message := ConflictsStillPresent, messageType := Warning)
      && r.1 == [RebaseContinue, ConflictFiles]
  {
    if env.continueErr.Some? then
      (m.(message := "✗ Error continuing rebase: " + env.continueErr.value, messageType := Error), [RebaseContinue])
    else if |m.logLines| > 0 then
      (m.(logLines := env.conflicts, message := ConflictsStillPresent, messageType := Warning), [RebaseContinue, ConflictFiles])
    else // the source's success branch, which the guard above never lets run
      (RefreshData(m.(message := RebaseCompleted, messageType := Success, currentView := FileView,
                      dialogTarget := "", logLines := []), env.snapshot),
       [RebaseContinue, ConflictFiles, Refresh])
  }

  /** "P" on a rebase in progress as evidently intended, mirroring the merge
      screen: the continue error, or the conflicts that remain, or a finished
      rebase that closes the screen and reads the repository again. */
  function Continue(m: Model, env: Env): (r: (Model, seq<Call>))
    requires WellFormed(m) && |m.logLines| > 0
    ensures WellFormed(r.0)
    ensures env.continueErr.Some? ==>
      r == (m.(message := "✗ Error continuing rebase: " + env.continueErr.value, messageType := Error), [RebaseContinue])
    ensures env.continueErr.None? && env.conflicts != [] ==>
      r == (m.(logLines := env.conflicts, message := ConflictsStillPresent, messageType := Warning),
            [RebaseContinue, ConflictFiles])
    ensures env.continueErr.None? && env.conflicts == [] ==>
      r == (Finished(m, RebaseCompleted, env.snapshot), [RebaseContinue, ConflictFiles, Refresh])
  {
    if env.continueErr.Some? then
      (m.(message := "✗ Error continuing rebase: " + env.continueErr.value, messageType := Error), [RebaseContinue])
    else if |env.conflicts| > 0 then
      (m.(logLines := env.conflicts, message := ConflictsStillPresent, messageType := Warning), [RebaseContinue, ConflictFiles])
    else
      (Finished(m, RebaseCompleted, env.snapshot), [RebaseContinue, ConflictFiles, Refresh])
  }

  /** The corrected continue closes the screen exactly when the continue
      succeeded and no conflict remains; otherwise the screen stays and the
      conflict list is the fresh one or the old one. */
  lemma ContinueFinishesIffResolved(m: Model, env: Env)
    requires WellFormed(m) && |m.logLines| > 0 && m.currentView == RebaseView
    ensures Continue(m, env).0.currentView == FileView <==> env.continueErr.None? && env.conflicts == []
    ensures Continue(m, env).0.currentView == FileView ==> Continue(m, env).0.logLines == []
    ensures Continue(m, env).0.currentView == RebaseView ==> Continue(m, env).0.logLines != []
  {
  }

  /** As written, a continue that succeeds never closes the screen: with no
      conflict left it shows "Conflicts still present" over an empty list,
      where the corrected continue finishes the rebase. */
  lemma ContinueAsWrittenNeverFinishes(m: Model, env: Env)
    requires WellFormed(m) && |m.logLines| > 0 && m.currentView == RebaseView
    requires env.continueErr.None? && env.conflicts == []
    ensures ContinueAsWritten(m, env).0.currentView == RebaseView
    ensures ContinueAsWritten(m, env).0.logLines == []
    ensures ContinueAsWritten(m, env).0.message == ConflictsStillPresent
    ensures Continue(m, env).0.currentView == FileView
  {
  }

  /** The concrete case: on branch "topic", rebasing onto "main" with
      README.md once in conflict, a clean `git rebase --continue` leaves the
      screen open as written. */
  lemma ContinueAsWrittenExample(env: Env)
    requires env.continueErr == None && env.conflicts == []
    ensures ContinueAsWritten(StuckRebase(), env).0.currentView == RebaseView
    ensures Continue(StuckRebase(), env).0.currentView == FileView
  {
  }

  function StuckRebase(): (m: Model)
    ensures WellFormed(m) && m.currentView == RebaseView && m.logLines == ["README.md"]
  {
    InitialModel([], ["main", "topic"], "topic", []).(currentView := RebaseView, dialogTarget := "main",
                                                     logLines := ["README.md"])
  }

  /** "X": a rebase in progress is aborted; on success the screen closes, the
      target and conflict list are cleared and the repository data is read
      again. With no rebase in progress the key is not handled. */
  method Abort(m: Model, env: Env) returns (r: Model, calls: seq<Call>, handled: bool)
    requires WellFormed(m)
    ensures WellFormed(r)
    ensures r.currentView == m.currentView || r.currentView == FileView
    ensures handled <==> |m.logLines| > 0
    ensures !handled ==> r == m && calls == []
    ensures handled && env.abortErr.Some? ==>
      r == m.(message := "✗ Error aborting rebase: " + env.abortErr.value, messageType := Error)
      && calls == [RebaseAbort]
    ensures handled && env.abortErr.None? ==>
      r == RefreshData(m.(message := "Rebase aborted.", messageType := Info, currentView := FileView,
                          dialogTarget := "", logLines := []), env.snapshot)
      && calls == [RebaseAbort, Refresh]
  {
    if |m.logLines| > 0 {
      if env.abortErr.Some? {
        r := m.(message := "✗ Error aborting rebase: " + env.abortErr.value, messageType := Error);
        return r, [RebaseAbort], true;
      }
      r := m.(message := "Rebase aborted.", messageType := Info, currentView := FileView,
              dialogTarget := "", logLines := []);
      r := RefreshData(r, env.snapshot);
      return r, [RebaseAbort, Refresh], true;
    }
    return m, [], false;
  }

  /** The keys the rebase screen handles: navigation, marking, rebasing and
      leaving always; "P" and "X" only while a rebase is in progress. */
  predicate RebaseKeyHandled(m: Model, key: string)
  {
    key in {"up", "down", " ", "space", "R", "r", "esc"} || (key in {"P", "p", "X", "x"} && |m.logLines| > 0)
  }

  /** The keys of the rebase screen. A key it does not handle (`handled`
      false) leaves everything as it was. The rebase screen schedules no
      command: the rebase itself runs inside the step. "P" continues with the
      corrected test (see `ContinueAsWritten`). */
  method RebaseKeys(m: Model, key: string, env: Env) returns (r: Model, calls: seq<Call>, handled: bool)
    requires WellFormed(m)
    ensures WellFormed(r)
    ensures !handled ==> r == m && calls == []
    ensures handled <==> RebaseKeyHandled(m, key)
    ensures r.currentView == m.currentView || r.currentView == FileView
    ensures TargetNotCurrent(m) ==> TargetNotCurrent(r)
    ensures key in {"up", "down"} ==> r == m.(cursor := CursorStep(m.cursor, |m.branches|, key == "up"))
    ensures key in {"P", "p"} && |m.logLines| > 0 ==> (r, calls) == Continue(m, env)
    ensures key == "esc" ==> r == m.(currentView := FileView, dialogTarget := "", message := "", cursor := 0, logLines := [])
    ensures Rebase(m.dialogTarget) in calls ==> key in {"R", "r"} && m.dialogTarget != "" && m.dialogTarget != m.currentBranch
  {
    calls, handled := [], true;
    if key == "up" || key == "down" {
      r := m.(cursor := CursorStep(m.cursor, |m.branches|, key == "up"));
    } else if key == " " || key == "space" {
      r := MarkTarget(m);
    } else if key == "R" || key == "r" {
      r, calls := StartRebase(m, env);
    } else if (key == "P" || key == "p") && |m.logLines| > 0 {
      r, calls := Continue(m, env).0, Continue(m, env).1;
    } else if key == "X" || key == "x" {
      r, calls, handled := Abort(m, env);
    } else if key == "esc" {
      r := m.(currentView := FileView, dialogTarget := "", message := "", cursor := 0, logLines := []);
    } else {
      r, handled := m, false;
    }
  }

  /** `HandleRebaseView`: outside the rebase screen nothing happens; on it the
      keys act as `RebaseKeys` says, and a key it does not handle changes
      nothing. `git rebase` runs only on "R" for a target that is set and not
      current. */
  method HandleRebaseView(m: Model, key: string, env: Env) returns (r: Model, calls: seq<Call>)
    requires WellFormed(m)
    ensures WellFormed(r)
    ensures m.currentView != RebaseView ==> r == m && calls == []
    ensures r.currentView == m.currentView || r.currentView == FileView
    ensures TargetNotCurrent(m) ==> TargetNotCurrent(r)
    ensures m.currentView == RebaseView && key in {"up", "down"} ==>
      r == m.(cursor := CursorStep(m.cursor, |m.branches|, key == "up"))
    ensures m.currentView == RebaseView && key in {"P", "p"} && |m.logLines| > 0 ==> (r, calls) == Continue(m, env)
    ensures m.currentView == RebaseView && key == "esc" ==>
      r == m.(currentView := FileView, dialogTarget := "", message := "", cursor := 0, logLines := [])
    ensures m.currentView == RebaseView && !RebaseKeyHandled(m, key) ==> r == m && calls == []
    ensures Rebase(m.dialogTarget) in calls ==> key in {"R", "r"} && m.dialogTarget != "" && m.dialogTarget != m.currentBranch
  {
    if m.currentView != RebaseView {
      return m, [];
    }
    var handled;
    r, calls, handled := RebaseKeys(m, key, env);
  }
}
