/** The key handling of `Update` outside the merge, rebase and log-graph
    screens: the repository list, the confirmation dialog, the keys every
    screen shares, typing into the text fields, and the keys of the branch
    and file lists. */
module UpdateKeys {
  import opened Wrappers
  import opened GitFiles
  import opened TuiModel
  import opened Messages
  import opened Utils
  import opened TextInput
  import opened Staging
  import opened Actions
  import opened LogGraph

  const NoFilesToStage := "⚠ No files to stage"
  const AllFilesStaged := "✓ All files added to stage"

  /** The repository list: up and down move the selection without wrapping,
      esc goes back to the GitHub controls, and "c" offers the selected
      repository for cloning when the list is not empty. Other keys are not
      handled here. */
  method RepositoryListKeys(m: Model, key: string) returns (r: Model, handled: bool)
    requires WellFormed(m)
    ensures WellFormed(r)
    ensures handled <==> key in {"up", "down", "esc", "c"}
    ensures !handled ==> r == m
    ensures key in {"up", "down"} ==>
      r == m.(selectedRepoIndex := CursorStep(m.selectedRepoIndex, |m.repositories|, key == "up"))
    ensures key == "esc" ==> r == m.(currentView := GitHubControlsView)
    ensures key == "c" && m.repositories != [] ==>
      r == m.(repoToClone := Some(m.repositories[m.selectedRepoIndex]), currentView := ConfirmCloneRepoView)
    ensures key == "c" && m.repositories == [] ==> r == m
  {
    r, handled := m, true;
    if key == "up" || key == "down" {
      r := m.(selectedRepoIndex := CursorStep(m.selectedRepoIndex, |m.repositories|, key == "up"));
    } else if key == "esc" {
      r := m.(currentView := GitHubControlsView);
    } else if key == "c" {
      if |m.repositories| > 0 {
        r := m.(repoToClone := Some(m.repositories[m.selectedRepoIndex]), currentView := ConfirmCloneRepoView);
      }
    } else {
      handled := false;
    }
  }

  /** The confirmation dialog. "y" carries out a branch deletion or a
      discard of a file's changes (any other kind of dialog does nothing) and
      returns to the file list; "n" and esc return without doing anything;
      every other key is swallowed. */
  method ConfirmDialogKeys(m: Model, key: string, env: Env) returns (r: Model, calls: seq<Call>)
    requires WellFormed(m)
    ensures WellFormed(r)
    ensures calls != [] ==> key == "y" && m.dialogType in {"delete_branch", "discard_changes"}
    ensures key == "y" && m.dialogType == "delete_branch" && env.deleteBranchErr.Some? ==>
      r == m.(message := "✗ Error deleting branch: " + env.deleteBranchErr.value, messageType := Error,
              currentView := FileView)
      && calls == [DeleteBranch(m.dialogTarget)]
    ensures key == "y" && m.dialogType == "delete_branch" && env.deleteBranchErr.None? ==>
      r == RefreshData(m.(message := "✓ Branch deleted successfully", messageType := Success), env.snapshot)
             .(currentView := FileView)
      && calls == [DeleteBranch(m.dialogTarget), Refresh]
    ensures key == "y" && m.dialogType == "discard_changes" && env.discardErr.Some? ==>
      r == m.(message := "✗ Error discarding changes: " + env.discardErr.value, messageType := Error,
              currentView := FileView)
      && calls == [DiscardChanges(m.dialogTarget)]
    ensures key == "y" && m.dialogType == "discard_changes" && env.discardErr.None? ==>
      r == RefreshData(m.(message := "✓ Changes discarded", messageType := Success), env.snapshot)
             .(currentView := FileView)
      && calls == [DiscardChanges(m.dialogTarget), Refresh]
    ensures key == "y" && m.dialogType !in {"delete_branch", "discard_changes"} ==> r == m.(currentView := FileView)
    ensures key in {"n", "esc"} ==> r == m.(currentView := FileView) && calls == []
    ensures key !in {"y", "n", "esc"} ==> r == m && calls == []
  {
    r, calls := m, [];
    if key == "y" {
      if m.dialogType == "delete_branch" {
        calls := [DeleteBranch(m.dialogTarget)];
        if env.deleteBranchErr.Some? {
          r := r.(message := "✗ Error deleting branch: " + env.deleteBranchErr.value, messageType := Error);
        } else {
          r := r.(message := "✓ Branch deleted successfully", messageType := Success);
          r := RefreshData(r, env.snapshot);
          calls := calls + [Refresh];
        }
      } else if m.dialogType == "discard_changes" {
        calls := [DiscardChanges(m.dialogTarget)];
        if env.discardErr.Some? {
          r := r.(message := "✗ Error discarding changes: " + env.discardErr.value, messageType := Error);
        } else {
          r := r.(message := "✓ Changes discarded", messageType := Success);
          r := RefreshData(r, env.snapshot);
          calls := calls + [Refresh];
        }
      }
      r := r.(currentView := FileView);
    } else if key == "n" || key == "esc" {
      r := r.(currentView := FileView);
    }
  }

  /** "M" or "R" in advanced mode: the merge or rebase screen opens at the
      top with no target marked and no conflicts listed; the branches are
      read again only when none are known. */
  method OpenBranchScreen(m: Model, view: View, message: string, env: Env) returns (r: Model, calls: seq<Call>)
    requires WellFormed(m)
    ensures WellFormed(r)
    ensures m.branches != [] ==>
      r == m.(currentView := view, cursor := 0, dialogTarget := "", logLines := [], message := message,
              messageType := Info)
      && calls == []
    ensures m.branches == [] ==>
      r == RefreshData(m.(currentView := view, cursor := 0, dialogTarget := "", logLines := [], message := message,
                          messageType := Info), env.snapshot)
      && calls == [Refresh]
  {
    r := m.(currentView := view, cursor := 0, dialogTarget := "", logLines := [], message := message,
            messageType := Info);
    calls := [];
    if |m.branches| == 0 {
      r := RefreshData(r, env.snapshot);
      calls := [Refresh];
    }
  }

  /** The text of the merge and rebase screens' opening message. */
  function MergeIntro(branch: string): string {
    "Current branch: " + branch + " - Select target branch to merge INTO"
  }

  function RebaseIntro(branch: string): string {
    "Current branch: " + branch + " - Select base branch to rebase ONTO"
  }

  /** Esc among the shared keys: it leaves advanced mode when that is on
      (and the commit graph, were it showing); otherwise any screen but the
      file list closes back to it, clearing the text fields and the
      message. */
  method Escape(m: Model) returns (r: Model)
    requires WellFormed(m)
    ensures WellFormed(r)
    ensures m.advancedMode == On ==>
      r == m.(advancedMode := Off, currentView := if m.currentView == LogGraphView then FileView else m.currentView)
    ensures m.advancedMode == Off && m.currentView != FileView ==>
      r == m.(currentView := FileView, commitMsg := [], remoteName := "", remoteURL := "", newBranchName := [],
              message := "", messageType := Plain)
    ensures m.advancedMode == Off && m.currentView == FileView ==> r == m
  {
    if m.advancedMode == On {
      r := m.(advancedMode := Off);
      if r.currentView == LogGraphView {
        r := r.(currentView := FileView);
      }
      return;
    }
    r := m;
    if m.currentView != FileView {
      r := m.(currentView := FileView, commitMsg := [], remoteName := "", remoteURL := "", newBranchName := [],
              message := "", messageType := Plain);
    }
  }

  /** Enter on the commit screen: a non-empty message is committed; on
      success the field is cleared, the repository data read again and the
      file list shown, on failure the field is kept. */
  method CommitEnter(m: Model, env: Env) returns (r: Model, calls: seq<Call>)
    requires WellFormed(m)
    ensures WellFormed(r)
    ensures m.commitMsg == [] ==> r == m && calls == []
    ensures m.commitMsg != [] && env.commitErr.Some? ==>
      r == m.(message := "✗ Error committing: " + env.commitErr.value, messageType := Error)
      && calls == [Commit(m.commitMsg)]
    ensures m.commitMsg != [] && env.commitErr.None? ==>
      r == RefreshData(m.(message := "✓ Changes committed successfully", messageType := Success,
                          currentView := FileView, commitMsg := []), env.snapshot)
      && calls == [Commit(m.commitMsg), Refresh]
  {
    r, calls := m, [];
    if m.commitMsg != [] {
      calls := [Commit(m.commitMsg)];
      if env.commitErr.Some? {
        r := r.(message := "✗ Error committing: " + env.commitErr.value, messageType := Error);
      } else {
        r := r.(message := "✓ Changes committed successfully", messageType := Success,
                currentView := FileView, commitMsg := []);
        r := RefreshData(r, env.snapshot);
        calls := calls + [Refresh];
      }
    }
  }

  /** Enter on the new-branch screen: a non-empty name is created; on
      success the branch list is shown with the field cleared, on failure
      the field is kept. */
  method NewBranchEnter(m: Model, env: Env) returns (r: Model, calls: seq<Call>)
    requires WellFormed(m)
    ensures WellFormed(r)
    ensures m.newBranchName == [] ==> r == m && calls == []
    ensures m.newBranchName != [] && env.createBranchErr.Some? ==>
      r == m.(message := "✗ Error creating branch: " + env.createBranchErr.value, messageType := Error)
      && calls == [CreateBranch(m.newBranchName)]
    ensures m.newBranchName != [] && env.createBranchErr.None? ==>
      r == RefreshData(m.(message := "✓ Branch " + Latin1(m.newBranchName) + " created successfully",
                          messageType := Success, currentView := BranchView, newBranchName := []), env.snapshot)
      && calls == [CreateBranch(m.newBranchName), Refresh]
  {
    r, calls := m, [];
    if m.newBranchName != [] {
      calls := [CreateBranch(m.newBranchName)];
      if env.createBranchErr.Some? {
        r := r.(message := "✗ Error creating branch: " + env.createBranchErr.value, messageType := Error);
      } else {
        r := r.(message := "✓ Branch " + Latin1(m.newBranchName) + " created successfully",
                messageType := Success, currentView := BranchView, newBranchName := []);
        r := RefreshData(r, env.snapshot);
        calls := calls + [Refresh];
      }
    }
  }

  /** Enter on the branch list: a cursor past the end is first pulled back to
      the last branch; the branch under it is checked out unless it is
      already the current one. Nothing happens on an empty list. */
  method BranchEnter(m: Model, env: Env) returns (r: Model, calls: seq<Call>)
    requires WellFormed(m)
    ensures WellFormed(r)
    ensures m.branches == [] ==> r == m && calls == []
    ensures m.branches != [] ==> r.cursor == Clamp(m.cursor, |m.branches|) && r.currentView == m.currentView
    ensures m.branches != [] && m.branches[Clamp(m.cursor, |m.branches|)] == m.currentBranch ==>
      r == m.(cursor := Clamp(m.cursor, |m.branches|), message := "⚠ You are already on this branch",
              messageType := Info)
      && calls == []
    ensures m.branches != [] && m.branches[Clamp(m.cursor, |m.branches|)] != m.currentBranch ==>
      |calls| >= 1 && calls[0] == Checkout(m.branches[Clamp(m.cursor, |m.branches|)])
      && (env.checkoutErr.Some? ==>
            r == m.(cursor := Clamp(m.cursor, |m.branches|), messageType := Error,
                    message := SwitchErrorText(m.branches[Clamp(m.cursor, |m.branches|)], env.checkoutErr.value))
            && |calls| == 1)
      && (env.checkoutErr.None? ==>
            r == RefreshData(m.(cursor := Clamp(m.cursor, |m.branches|), messageType := Success,
                                message := "✓ Switched to branch " + m.branches[Clamp(m.cursor, |m.branches|)],
                                currentBranch := m.branches[Clamp(m.cursor, |m.branches|)]), env.snapshot)
            && |calls| == 2 && calls[1] == Refresh)
  {
    r, calls := m, [];
    if |m.branches| > 0 {
      if r.cursor >= |r.branches| {
        r := r.(cursor := |r.branches| - 1);
      }
      var selected := r.branches[r.cursor];
      if selected != r.currentBranch {
        calls := [Checkout(selected)];
        if env.checkoutErr.Some? {
          r := r.(message := SwitchErrorText(selected, env.checkoutErr.value), messageType := Error);
        } else {
          r := r.(message := "✓ Switched to branch " + selected, messageType := Success, currentBranch := selected);
          r := RefreshData(r, env.snapshot);
          calls := calls + [Refresh];
        }
      } else {
        r := r.(message := "⚠ You are already on this branch", messageType := Info);
      }
    }
  }

  /** Enter among the shared keys: handled on the commit, new-branch and
      branch screens only. */
  method Enter(m: Model, env: Env) returns (r: Model, calls: seq<Call>, handled: bool)
    requires WellFormed(m)
    ensures WellFormed(r)
    ensures handled <==> m.currentView in {CommitView, NewBranchView, BranchView}
    ensures !handled ==> r == m && calls == []
    ensures r.currentView == m.currentView || (r.currentView == FileView && m.currentView == CommitView)
      || (r.currentView == BranchView && m.currentView == NewBranchView)
  {
    r, calls, handled := m, [], true;
    if m.currentView == CommitView {
      r, calls := CommitEnter(m, env);
    } else if m.currentView == NewBranchView {
      r, calls := NewBranchEnter(m, env);
    } else if m.currentView == BranchView {
      r, calls := BranchEnter(m, env);
    } else {
      handled := false;
    }
  }

  /** Backspace: the last character of the commit message or of the new
      branch name goes, on their screens; elsewhere nothing changes. */
  method Backspace(m: Model) returns (r: Model)
    ensures m.currentView == CommitView ==> r == m.(commitMsg := DeleteLastChar(m.commitMsg))
    ensures m.currentView == NewBranchView ==> r == m.(newBranchName := DeleteLastChar(m.newBranchName))
    ensures m.currentView !in {CommitView, NewBranchView} ==> r == m
  {
    r := m;
    if m.currentView == CommitView {
      r := m.(commitMsg := DeleteLastChar(m.commitMsg));
    } else if m.currentView == NewBranchView {
      r := m.(newBranchName := DeleteLastChar(m.newBranchName));
    }
  }

  /** The keys every screen shares (the Go `switch` on the key after the
      screen-specific blocks). Keys whose condition does not hold fall
      through (`handled` false, nothing changed). */
  method SharedKey(m: Model, key: string, env: Env) returns (r: Model, cmd: Cmd, calls: seq<Call>, handled: bool)
    requires WellFormed(m)
    ensures WellFormed(r)
    ensures !handled ==> r == m && cmd == NoCmd && calls == []
    ensures cmd == Quit <==>
      (key == "ctrl+c" || (key == "q" && m.currentView in {FileView, BranchView, RemoteView, ConfirmDialog, HelpView}))
    ensures cmd == NoCmd || cmd == Quit
    ensures cmd == Quit ==> r == m && calls == []
    ensures key in {"esc", "backspace", "up", "down", "ctrl+c"} ==> handled
    ensures key == "A" ==> (handled <==> m.currentView == FileView && m.advancedMode == Off)
    ensures key == "A" && handled ==> r == m.(advancedMode := On)
    ensures key in {"M", "R"} ==> (handled <==> m.currentView == FileView && m.advancedMode == On)
    ensures key == "M" && handled ==> r.currentView == MergeView && r.cursor == 0 && r.dialogTarget == ""
    ensures key == "R" && handled ==> r.currentView == RebaseView && r.cursor == 0 && r.dialogTarget == ""
    ensures key == "a" ==> (handled <==> m.currentView == FileView && m.advancedMode == Off)
    ensures key == "a" && handled ==>
      r == m.(files := AllStaged(m.files), message := AllFilesStaged, messageType := Success)
      && calls == AddCalls(m.files)
    ensures key == "enter" ==> (handled <==> m.currentView in {CommitView, NewBranchView, BranchView})
    ensures key == "up" && m.currentView !in {CommitView, NewBranchView} ==>
      r == m.(cursor := CursorStep(m.cursor, ListLength(m), true))
    ensures key == "down" && IsListView(m.currentView) ==>
      r == m.(cursor := CursorStep(m.cursor, ListLength(m), false))
    ensures key in {"up", "down"} && m.currentView in {CommitView, NewBranchView} ==> r == m
    ensures key == "down" && !IsListView(m.currentView) ==> r == m
    ensures key !in {"ctrl+c", "A", "M", "R", "a", "esc", "q", "enter", "backspace", "up", "down"} ==> !handled
  {
    r, cmd, calls, handled := m, NoCmd, [], true;
    if key == "ctrl+c" {
      cmd := Quit;
    } else if key == "A" {
      if m.currentView == FileView && m.advancedMode == Off {
        r := m.(advancedMode := On);
      } else {
        handled := false;
      }
    } else if key == "M" || key == "R" {
      if m.currentView == FileView && m.advancedMode == On {
        if key == "M" {
          r, calls := OpenBranchScreen(m, MergeView, MergeIntro(m.currentBranch), env);
        } else {
          r, calls := OpenBranchScreen(m, RebaseView, RebaseIntro(m.currentBranch), env);
        }
      } else {
        handled := false;
      }
    } else if key == "a" {
      if m.currentView == FileView && m.advancedMode == Off {
        var files;
        files, calls := StageAll(m.files);
        r := m.(files := files, message := AllFilesStaged, messageType := Success);
      } else {
        handled := false;
      }
    } else if key == "esc" {
      r := Escape(m);
    } else if key == "q" {
      if m.currentView in {FileView, BranchView, RemoteView, ConfirmDialog, HelpView} {
        cmd := Quit;
      } else {
        handled := false;
      }
    } else if key == "enter" {
      r, calls, handled := Enter(m, env);
    } else if key == "backspace" {
      r := Backspace(m);
    } else if key == "up" {
      if m.currentView != CommitView && m.currentView != NewBranchView {
        r := m.(cursor := CursorStep(m.cursor, ListLength(m), true));
      }
    } else if key == "down" {
      if IsListView(m.currentView) {
        r := m.(cursor := CursorStep(m.cursor, ListLength(m), false));
      }
    } else {
      handled := false;
    }
  }

  /** A single printable rune typed on the commit or new-branch screen is
      appended to that field; `handled` is false otherwise. */
  method TypeRune(m: Model, key: Key) returns (r: Model, handled: bool)
    requires WellFormed(m)
    ensures WellFormed(r)
    ensures handled <==> m.currentView in {CommitView, NewBranchView} && |key.runes| == 1 && IsPrintableChar(key.runes[0])
    ensures !handled ==> r == m
    ensures handled && m.currentView == CommitView ==> r == m.(commitMsg := AppendRune(m.commitMsg, key.runes[0]))
    ensures handled && m.currentView == NewBranchView ==>
      r == m.(newBranchName := AppendRune(m.newBranchName, key.runes[0]))
  {
    r, handled := m, false;
    if |key.runes| == 1 && IsPrintableChar(key.runes[0]) {
      if m.currentView == CommitView {
        r, handled := m.(commitMsg := AppendRune(m.commitMsg, key.runes[0])), true;
      } else if m.currentView == NewBranchView {
        r, handled := m.(newBranchName := AppendRune(m.newBranchName, key.runes[0])), true;
      }
    }
  }

  /** The branch list's own keys: "n" opens the new-branch screen with an
      empty name; "d" asks to confirm deleting the branch under the cursor,
      and refuses the current branch. */
  method BranchKeys(m: Model, key: string) returns (r: Model, handled: bool)
    requires WellFormed(m)
    ensures WellFormed(r)
    ensures handled <==> key in {"n", "d"}
    ensures !handled ==> r == m
    ensures key == "n" ==> r == m.(currentView := NewBranchView, newBranchName := [])
    ensures key == "d" && m.cursor >= |m.branches| ==> r == m
    ensures key == "d" && m.cursor < |m.branches| && m.branches[m.cursor] == m.currentBranch ==>
      r == m.(message := "✗ Cannot delete current branch", messageType := Error)
    ensures key == "d" && m.cursor < |m.branches| && m.branches[m.cursor] != m.currentBranch ==>
      r == m.(dialogType := "delete_branch", dialogTarget := m.branches[m.cursor], currentView := ConfirmDialog)
    ensures r.currentView == ConfirmDialog && m.currentView != ConfirmDialog ==> r.dialogTarget != m.currentBranch
  {
    r, handled := m, true;
    if key == "n" {
      r := m.(currentView := NewBranchView, newBranchName := []);
    } else if key == "d" {
      if |m.branches| > 0 && m.cursor < |m.branches| {
        var toDel := m.branches[m.cursor];
        if toDel == m.currentBranch {
          r := m.(message := "✗ Cannot delete current branch", messageType := Error);
        } else {
          r := m.(dialogType := "delete_branch", dialogTarget := toDel, currentView := ConfirmDialog);
        }
      }
    } else {
      handled := false;
    }
  }

  /** Whether some file is staged: the loop of "c", which stops at the first
      staged file. */
  method AnyStaged(files: seq<FileItem>) returns (ok: bool)
    ensures ok <==> exists i :: 0 <= i < |files| && files[i].staged
  {
    ok := false;
    var i := 0;
    while i < |files|
      invariant 0 <= i <= |files|
      invariant forall j :: 0 <= j < i ==> !files[j].staged
    {
      if files[i].staged {
        ok := true;
        return;
      }
      i := i + 1;
    }
  }

  /** Space on the file list: the file under the cursor changes sides of the
      index. A cursor past the end is sent back to the top; with no files
      there is a warning. */
  method ToggleKey(m: Model) returns (r: Model, calls: seq<Call>)
    requires WellFormed(m)
    ensures WellFormed(r)
    ensures m.cursor < |m.files| ==>
      r.files == Toggled(m.files, m.cursor) && r.messageType == Success
      && calls == [if r.files[m.cursor].staged then Add(m.files[m.cursor].name) else Reset(m.files[m.cursor].name)]
      && r == m.(files := r.files, message := r.message, messageType := Success)
    ensures m.cursor < |m.files| && !m.files[m.cursor].staged ==>
      r.message == "✓ File " + m.files[m.cursor].name + " added to stage"
    ensures m.cursor < |m.files| && m.files[m.cursor].staged ==>
      r.message == "✓ File " + m.files[m.cursor].name + " removed from stage"
    ensures m.files != [] && m.cursor >= |m.files| ==> r == m.(cursor := 0) && calls == []
    ensures m.files == [] ==> r == m.(message := NoFilesToStage, messageType := Warning) && calls == []
  {
    if |m.files| > 0 && m.cursor < |m.files| {
      var files, call := Toggle(m.files, m.cursor);
      var name := files[m.cursor].name;
      if files[m.cursor].staged {
        r := m.(files := files, message := "✓ File " + name + " added to stage", messageType := Success);
      } else {
        r := m.(files := files, message := "✓ File " + name + " removed from stage", messageType := Success);
      }
      calls := [call];
    } else if |m.files| > 0 {
      r, calls := m.(cursor := 0), [];
    } else {
      r, calls := m.(message := NoFilesToStage, messageType := Warning), [];
    }
  }

  /** The file list's keys that stage, commit or discard. "a" reaches here
      only in advanced mode (otherwise the shared keys took it): unlike
      there, it warns when there are no files. */
  method FileIndexKeys(m: Model, key: string) returns (r: Model, calls: seq<Call>)
    requires WellFormed(m) && key in {" ", "a", "c", "x"}
    ensures WellFormed(r)
    ensures key == " " && m.cursor < |m.files| ==> r.files == Toggled(m.files, m.cursor) && |calls| == 1
    ensures key == "a" && m.files != [] ==>
      r == m.(files := AllStaged(m.files), message := AllFilesStaged, messageType := Success)
      && calls == AddCalls(m.files)
    ensures key == "a" && m.files == [] ==> r == m.(message := NoFilesToStage, messageType := Warning) && calls == []
    ensures key == "c" && (exists i :: 0 <= i < |m.files| && m.files[i].staged) ==>
      r == m.(currentView := CommitView, message := "") && calls == []
    ensures key == "c" && !(exists i :: 0 <= i < |m.files| && m.files[i].staged) ==>
      r == m.(message := "⚠ No staged files to commit", messageType := Error) && calls == []
    ensures key == "x" && m.cursor < |m.files| ==>
      r == m.(dialogType := "discard_changes", dialogTarget := m.files[m.cursor].name, currentView := ConfirmDialog)
      && calls == []
    ensures key == "x" && m.cursor >= |m.files| ==>
      r == m.(message := "⚠ No file selected or no files available", messageType := Warning) && calls == []
  {
    r, calls := m, [];
    if key == " " {
      r, calls := ToggleKey(m);
    } else if key == "a" {
      if |m.files| > 0 {
        var files;
        files, calls := StageAll(m.files);
        r := m.(files := files, message := AllFilesStaged, messageType := Success);
      } else {
        r := m.(message := NoFilesToStage, messageType := Warning);
      }
    } else if key == "c" {
      var ok := AnyStaged(m.files);
      if ok {
        r := m.(currentView := CommitView, message := "");
      } else {
        r := m.(message := "⚠ No staged files to commit", messageType := Error);
      }
    } else {
      if |m.files| > 0 && m.cursor < |m.files| {
        r := m.(dialogType := "discard_changes", dialogTarget := m.files[m.cursor].name, currentView := ConfirmDialog);
      } else {
        r := m.(message := "⚠ No file selected or no files available", messageType := Warning);
      }
    }
  }

  /** Push, fetch and pull from the file list: each starts, together with
      the spinner, only when the same operation is not already running, and
      marks it running; while it runs the key does nothing. */
  method RemoteKey(m: Model, key: string) returns (r: Model, cmd: Cmd)
    requires WellFormed(m) && key in {"p", "f", "l"}
    ensures WellFormed(r)
    ensures key == "p" && m.isPushing == Off ==>
      r == m.(isPushing := On, message := "Pushing...", messageType := Info) && cmd == PushWithSpinner
    ensures key == "f" && m.isFetching == Off ==>
      r == m.(isFetching := On, message := "Fetching...", messageType := Info) && cmd == FetchWithSpinner
    ensures key == "l" && m.isPulling == Off ==>
      r == m.(isPulling := On, message := "Pulling...", messageType := Info) && cmd == PullWithSpinner
    ensures (key == "p" && m.isPushing == On) || (key == "f" && m.isFetching == On) || (key == "l" && m.isPulling == On) ==>
      r == m && cmd == NoCmd
  {
    r, cmd := m, NoCmd;
    if key == "p" {
      if m.isPushing == Off {
        r := m.(isPushing := On, message := "Pushing...", messageType := Info);
        cmd := PushWithSpinner;
      }
    } else if key == "f" {
      if m.isFetching == Off {
        r := m.(isFetching := On, message := "Fetching...", messageType := Info);
        cmd := FetchWithSpinner;
      }
    } else {
      if m.isPulling == Off {
        r := m.(isPulling := On, message := "Pulling...", messageType := Info);
        cmd := PullWithSpinner;
      }
    }
  }

  /** The file list's keys that change screens or only the message. */
  method FileScreenKeys(m: Model, key: string, env: Env) returns (r: Model, calls: seq<Call>)
    requires WellFormed(m) && key in {"b", "m", "r", "L", "A", "?"}
    ensures WellFormed(r)
    ensures key == "b" ==> r == m.(currentView := BranchView, cursor := 0, message := "") && calls == []
    ensures key == "m" ==> r == m.(currentView := RemoteView, cursor := 0, message := "") && calls == []
    ensures key == "r" ==>
      r == ValidateCursor(RefreshData(m, env.snapshot)).(message := "✓ Status updated", messageType := Success)
      && calls == [Refresh]
    ensures key == "L" ==> calls == [LogsGraph]
    ensures key == "L" && env.logGraph.Err? ==>
      r == m.(message := "✗ Error retrieving log graph: " + env.logGraph.error, messageType := Error)
    ensures key == "L" && env.logGraph.Ok? ==>
      r == m.(logLines := GraphLines(env.logGraph.value), cursor := 0, currentView := LogGraphView, message := "")
    ensures key == "A" ==> r == m.(messageType := Info) && calls == []
    ensures key == "?" ==> r == m.(currentView := HelpView) && calls == []
  {
    r, calls := m, [];
    if key == "b" {
      r := m.(currentView := BranchView, cursor := 0, message := "");
    } else if key == "m" {
      r := m.(currentView := RemoteView, cursor := 0, message := "");
    } else if key == "r" {
      r := RefreshData(m, env.snapshot);
      ValidateCursorWellFormed(r);
      r := ValidateCursor(r);
      r := r.(message := "✓ Status updated", messageType := Success);
      calls := [Refresh];
    } else if key == "L" {
      r, calls := OpenLogGraphView(m, env);
    } else if key == "A" {
      r := m.(messageType := Info);
    } else {
      r := m.(currentView := HelpView);
    }
  }

  /** The file list's own keys (after the shared ones). */
  method FileKeys(m: Model, key: string, env: Env) returns (r: Model, cmd: Cmd, calls: seq<Call>)
    requires WellFormed(m)
    ensures WellFormed(r)
    ensures cmd in {NoCmd, PushWithSpinner, FetchWithSpinner, PullWithSpinner}
    ensures cmd == PushWithSpinner ==> key == "p" && m.isPushing == Off && r.isPushing == On
    ensures cmd == FetchWithSpinner ==> key == "f" && m.isFetching == Off && r.isFetching == On
    ensures cmd == PullWithSpinner ==> key == "l" && m.isPulling == Off && r.isPulling == On
    ensures key !in {" ", "a", "c", "x", "b", "m", "r", "p", "f", "l", "L", "A", "?"} ==>
      r == m && cmd == NoCmd && calls == []
  {
    r, cmd, calls := m, NoCmd, [];
    if key in {" ", "a", "c", "x"} {
      r, calls := FileIndexKeys(m, key);
    } else if key in {"p", "f", "l"} {
      r, cmd := RemoteKey(m, key);
    } else if key in {"b", "m", "r", "L", "A", "?"} {
      r, calls := FileScreenKeys(m, key, env);
    }
  }
}
