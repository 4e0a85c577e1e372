# froggit reducer model

froggit is a terminal front end for git. Its core is a key and event reducer:
`Update(m, msg)` takes the application record `Model` and one event (a key
press, the end of a checkout, a spinner tick, the end of a push, fetch or
pull) and returns the new record and the command to run next. Around it sit
the per-screen handlers (merge, rebase, stash, clone confirmation, commit
graph, repository list), the parsers of git's text output, the cursor clamp,
the scroll windows of two screens, the key-hint bar and its line wrapping,
configuration defaults and the commit-message helper.

This project models that core in Dafny and proves what it promises.

- The record `Model` is a datatype (`TuiModel`). Go passes it by value and
  returns the changed copy, so each handler is a method from the old record
  to the new one. The handlers of single keys and actions (such as
  `MergeHandler.MarkTarget`, `RebaseHandler.StartRebase`, `StashHandler.Apply`
  or `UpdateKeys.Escape`) give the whole new record, case by case. A
  screen's key handler (`MergeKeys`, `RebaseKeys`, `HandleStashView`) gives
  the record for the keys it handles itself (cursor, esc, help, and the
  stash actions through `Applied`, `Popped`, `Viewed` and `DropAsked`); for
  the other keys it states which keys it handles, the invariants they keep
  (well-formedness, the target never the current branch) and what they may
  call or schedule, and leaves the record to the key's own handler. The
  dispatchers (`Update.Update`, `Update.KeyPressed`, `Update.LaterKeys`,
  `UpdateKeys.FileKeys`) state quitting, the scheduled commands, the running
  flags and well-formedness, and leave the record to the handler they call.
- Every git or GitHub call is an oracle. `Env` holds the answer each call
  gives. Every step also returns the calls it made, in order, so "nothing
  was called" can be stated.
- `RefreshData` is one replacement of the repository fields from a
  `Snapshot`.
- Commands are a datatype `Cmd`. The program runs them after the step.
- Text buffers (commit message, branch name, stash message) are byte
  sequences, as Go strings are. Go's `strings` functions used by the parsers
  (`TrimSpace`, `Trim`, `Split`, `SplitN`, `Fields`, `Join`, `HasPrefix`,
  `Contains`) are modelled in the module `Text`.
- The key-hint builder `ControlSet` is a class, since the source mutates it
  through a pointer. Its wrap loop works on the measured widths of the parts.

Modules, by source file:

| module | source |
|---|---|
| `TuiModel`, `Messages` | `internal/tui/model/model.go`, message types |
| `Update`, `UpdateKeys`, `Staging`, `TextInput` | `internal/tui/update/update.go` |
| `MergeHandler`, `RebaseHandler`, `StashHandler` | `internal/tui/update/handlers/*.go` |
| `Actions` | `internal/tui/update/actions/clone_and_switch.go` |
| `LogGraph`, `Repositories` | `internal/tui/update/loggraph.go`, `repositories.go` |
| `Utils` | `internal/utils/validate_cursor.go`, `PrintableChar.go` |
| `GitFiles`, `GitBranches`, `GitRemotes` | `internal/git/files.go`, `branches.go`, `remotes.go` |
| `Views` | `internal/tui/views/stash_view.go`, `log_graph_view.go`, `repository_view.go` |
| `Controls` | `internal/tui/controls/controls.go` |
| `Config` | `internal/config/config.go` |
| `Copilot` | `internal/copilot/api.go` |
| `Text`, `Wrappers` | Go's `strings` package; `Option` and `Result` |

## Model

| member | source | states |
|---|---|---|
| TuiModel.InitialModel | internal/tui/model/model.go:87-123 | the first record shows the file list with the cursor at 0, nothing running, simple mode, ten spinner frames and the queried files, branches and remotes; it is well formed |
| TuiModel.RefreshData | internal/tui/model/model.go:125-172 | files, branches, remotes, current branch, remote-changes flag and stashes come from the snapshot; every other field, the cursor and the view included, is kept |
| TuiModel.NonEmptyLines | internal/tui/model/model.go:180-185 | the filter keeps no more lines than it is given (which lines, and in what order, is stated by the two lemmas below) |
| TuiModel.ParseStashList | internal/tui/model/model.go:175-187 | an empty output gives no stashes |
| TuiModel.NonEmptyLinesMembers | internal/tui/model/model.go:181-184 | a line is kept exactly when it is in the input and is not empty |
| TuiModel.NonEmptyLinesAppend | internal/tui/model/model.go:181-184 | filtering distributes over concatenation, so kept lines stay in input order |
| TuiModel.TwoStashLines | internal/tui/model/model_test.go:8-12 | two stash lines and a trailing newline give exactly those two stashes, in order |
| TuiModel.SetMergeConflictFiles | internal/tui/model/model.go:189-191 | only the merge conflict list changes |
| TuiModel.SetRebaseConflictFiles | internal/tui/model/model.go:193-195 | only the rebase conflict list changes |
| TuiModel.ConflictSettersIndependent | internal/tui/model/model_test.go:15-25 | setting both lists keeps both, in either order |
| Utils.Clamp | internal/utils/validate_cursor.go:9-15 | an empty list gives 0; otherwise the result is in range, a cursor in range is kept, one past the end becomes the last index, a negative one 0 |
| Utils.ValidateCursor | internal/utils/validate_cursor.go:6-33 | on the file, branch and remote screens the cursor is clamped into its list; other screens and all other fields are left alone |
| Utils.ValidateCursorIdempotent | internal/utils/validate_cursor.go:6-33 | clamping twice is clamping once |
| Utils.ValidateCursorWellFormed | internal/utils/validate_cursor.go:6-33 | clamping keeps the record well formed |
| Utils.CursorStep | internal/tui/update/update.go:516-540 | up or down moves the cursor by at most one, never below 0 or past the last entry, and never wraps |
| Utils.PrintableBoundaries | internal/utils/utils_test.go:14-21 | 31, 127 and 256 are refused; 32, 126, 128 and 255 are accepted |
| TextInput.Utf8 | internal/tui/update/update.go:545 | a rune below 128 is one byte; a rune from 128 to 2047 is two bytes, a lead byte 0xC0-0xDF then a continuation byte |
| TextInput.AppendRune | internal/tui/update/update.go:545 | typing a printable rune lengthens the buffer and keeps what was there in front |
| TextInput.DeleteLastByte | internal/tui/update/update.go:506-512 | backspace as written: the last byte goes, and an empty buffer stays empty |
| TextInput.DeleteLastChar | internal/tui/update/update.go:506-512 | backspace as intended: an empty buffer stays empty, otherwise a shorter prefix of it is left |
| TextInput.DeleteLastCharUndoesAppend | internal/tui/update/update.go:544-545 | for every printable rune, typing it and pressing backspace restores the buffer |
| TextInput.DeleteLastByteLeavesLeadByte | internal/tui/update/update.go:506-512 | deleting one byte undoes typing exactly when the rune is ASCII; after a rune from 128 to 255 its lead byte stays behind |
| TextInput.DeleteLastByteExample | internal/tui/update/update.go:506-512 | typing 'é' into an empty buffer and deleting leaves the byte 0xC3 |
| TextInput.StashBufferRoundTrip | internal/tui/update/handlers/stash_handler.go:148-158 | in the stash message field, which takes only runes 32-126, appending and then deleting one byte restores the buffer |
| Staging.AllStaged | internal/tui/update/update.go:412-417 | every entry is staged and nothing else about it changes |
| Staging.AddCalls | internal/tui/update/update.go:412-417 | no more `git add` calls than entries |
| Staging.AddCallsMembers | internal/tui/update/update.go:602-609 | `git add` is called for a name exactly when some entry of that name was not staged |
| Staging.AddCallsOnlyAdd | internal/tui/update/update.go:602-609 | staging all never calls `git reset` |
| Staging.StageAllTwiceCallsNothing | internal/tui/update/update.go:602-609 | staging all a second time calls nothing |
| Staging.StageAll | internal/tui/update/update.go:604-609 | the loop leaves every file staged and calls `git add` for the unstaged ones, in list order |
| Staging.Toggled | internal/tui/update/update.go:583-584 | flipping one entry keeps the list's length |
| Staging.Toggle | internal/tui/update/update.go:581-592 | space flips only the entry under the cursor; it calls `git add` when the entry is now staged and `git reset` when it is not |
| Staging.ToggleTwiceRestores | internal/tui/update/update.go:581-592 | toggling the same entry twice restores the list |
| UpdateKeys.RepositoryListKeys | internal/tui/update/update.go:89-111 | up and down move the selection without wrapping; esc opens the GitHub controls; "c" offers the selected repository for cloning only when the list is not empty |
| UpdateKeys.ConfirmDialogKeys | internal/tui/update/update.go:339-370 | "y" deletes a branch or discards a file only for those two dialog kinds, then returns to the file list; "n" and esc return with no call; any other key changes nothing |
| UpdateKeys.OpenBranchScreen | internal/tui/update/update.go:382-409 | the merge or rebase screen opens at the top with no target and no conflict list; branches are read again only when none are known |
| UpdateKeys.Escape | internal/tui/update/update.go:423-441 | esc leaves advanced mode (and the commit graph); otherwise any screen but the file list closes back to it with the text fields and message cleared |
| UpdateKeys.CommitEnter | internal/tui/update/update.go:449-462 | a non-empty message is committed; success clears it, refreshes and shows the file list; failure keeps the message; an empty one calls nothing |
| UpdateKeys.NewBranchEnter | internal/tui/update/update.go:464-477 | a non-empty name is created; success shows the branch list with the field cleared; failure keeps the field |
| UpdateKeys.BranchEnter | internal/tui/update/update.go:479-500 | a cursor past the end is pulled back to the last branch; the branch under it is checked out unless it is the current one; an empty list does nothing |
| UpdateKeys.Enter | internal/tui/update/update.go:447-501 | enter is handled on the commit, new-branch and branch screens only |
| UpdateKeys.Backspace | internal/tui/update/update.go:503-515 | backspace deletes the last whole character of the commit message or branch name on their screens, the corrected form of the last row of "## Findings", and changes nothing elsewhere |
| UpdateKeys.SharedKey | internal/tui/update/update.go:372-541 | quit, advanced mode, merge and rebase screens, stage all, esc, enter, backspace and the cursor keys; a key whose condition fails changes nothing and is passed on |
| UpdateKeys.TypeRune | internal/tui/update/update.go:543-555 | one printable rune is appended to the commit message or branch name on their screens, and to nothing else |
| UpdateKeys.BranchKeys | internal/tui/update/update.go:557-577 | "n" opens the new-branch screen with an empty name; "d" refuses the current branch and otherwise asks to confirm deleting the branch under the cursor |
| UpdateKeys.AnyStaged | internal/tui/update/update.go:617-623 | the loop answers whether some file is staged |
| UpdateKeys.ToggleKey | internal/tui/update/update.go:581-601 | space toggles the entry under the cursor; a cursor past the end goes back to 0; no files gives a warning |
| UpdateKeys.FileIndexKeys | internal/tui/update/update.go:602-630 | "a" stages all or warns when there are no files; "c" opens the commit screen only when something is staged; "x" asks to confirm a discard only for a file under the cursor |
| UpdateKeys.RemoteKey | internal/tui/update/update.go:644-664 | push, fetch and pull each start with the spinner and set their flag only when not already running; otherwise nothing changes |
| UpdateKeys.FileScreenKeys | internal/tui/update/update.go:631-689 | the branch, remote, commit-graph and help screens open from the file list; "L" gives the graph's lines from the top or only the error message; refresh reads the data and clamps the cursor |
| UpdateKeys.FileKeys | internal/tui/update/update.go:579-691 | the file list's own keys, dispatched to the members above |
| Update.MergeAfterSwitchInUpdate | internal/tui/update/update.go:40-60 | conflicts are queried even after a failed merge; remaining conflicts win over the merge error; a clean merge opens the merge screen awaiting its push |
| Update.RebaseAfterSwitchInUpdate | internal/tui/update/update.go:61-83 | conflicts win over the rebase error; a clean rebase returns to the file list, drops the target and refreshes a second time |
| Update.SwitchBranchInUpdate | internal/tui/update/update.go:31-84 | a failed checkout only reports the error and keeps the current branch; otherwise the branch is set, the record refreshed and the next action run |
| Update.SwitchThenMerge | internal/tui/update/update.go:38-59 | after the checkout the merge runs and the conflicts are queried; conflicts win over the merge error, and a clean merge opens the merge screen awaiting a push |
| Update.SwitchThenRebase | internal/tui/update/update.go:60-83 | after the checkout the rebase runs and the conflicts are queried; conflicts win over the rebase error, and a clean rebase returns to the file list with the log cleared |
| Update.NextFrame | internal/tui/update/update.go:695 | the next frame index stays in range: the next one, or the first after the last |
| Update.NextFrameIsModulo | internal/tui/update/update.go:695 | Go's `(i + 1) % n` equals the next frame |
| Update.SpinnerStep | internal/tui/update/update.go:693-697 | while a push, fetch or pull runs the next frame is shown and the tick is scheduled again; otherwise nothing changes and nothing is scheduled |
| Update.SpinnerAfter | internal/tui/update/update.go:693-697 | the frame after k ticks stays in range |
| Update.SpinnerAfterWithinRound | internal/tui/update/update.go:693-697 | within one round the frame counts up and wraps past the last frame exactly once |
| Update.SpinnerFullRound | internal/tui/update/update.go:693-697 | a full round of ticks returns to the starting frame |
| Update.PushDone | internal/tui/update/update.go:699-713 | the push flag is cleared; an error is reported; success returns to the file list, clears target and conflicts, refreshes and clamps the cursor |
| Update.FetchDone | internal/tui/update/update.go:714-725 | the fetch flag is cleared; an error is reported; success refreshes and clamps the cursor |
| Update.PullDone | internal/tui/update/update.go:726-736 | the pull flag is cleared; an error is reported; success refreshes and clamps the cursor |
| Update.LaterKeys | internal/tui/update/update.go:372-691 | after the screen blocks: shared keys, then typing, then the branch and file lists; it quits only on ctrl+c or "q" on the listed screens and starts push, fetch or pull only when not running |
| Update.KeyPressed | internal/tui/update/update.go:86-691 | repository list, commit graph, merge, rebase and confirmation screens see the key first; the record stays well formed |
| Update.Update | internal/tui/update/update.go:18-740 | the record stays well formed; quit happens exactly on ctrl+c (outside the commit graph and dialog) or "q" on the file, branch, remote and help screens; fetch and pull start only when not running, push also to push a finished merge; spinner and completion events as above; other events change nothing |
| MergeHandler.MarkTarget | internal/tui/update/handlers/merge_handler.go:28-46 | space marks the branch under the cursor, unmarks it when already marked, refuses the current branch with a warning; the target never becomes the current branch |
| MergeHandler.StartMerge | internal/tui/update/handlers/merge_handler.go:47-63 | "M" schedules the switch-and-merge of (target, current) exactly when a target is marked and is not the current branch; otherwise a warning and no command |
| MergeHandler.PushOrContinue | internal/tui/update/handlers/merge_handler.go:64-89 | a finished merge is pushed with the spinner and the flag cleared; otherwise a merge in progress ends in the continue error, the remaining conflicts, or awaiting its push |
| MergeHandler.Abort | internal/tui/update/handlers/merge_handler.go:90-105 | a successful abort returns to the file list with no target and no conflict list and refreshes; without a merge in progress the key is passed on |
| MergeHandler.MergeKeys | internal/tui/update/handlers/merge_handler.go:17-113 | the cursor stays within the branch list; the target never becomes the current branch; the only commands are the switch-and-merge and the push of a finished merge; esc resets cursor, target, message and conflicts |
| MergeHandler.HandleMergeView | internal/tui/update/handlers/merge_handler.go:12-115 | off the merge screen nothing changes and nothing is scheduled; on it, as in MergeKeys, the cursor steps within the branch list, esc resets the screen, a key MergeKeys does not handle changes nothing, the target never becomes the current branch, a push is scheduled only when one is awaited and a switch-and-merge only for a target that is set and not current |
| RebaseHandler.Finished | internal/tui/update/handlers/rebase_handler.go:96-102 | a finished rebase returns to the file list with no target and no conflict list, refreshed |
| RebaseHandler.MarkTarget | internal/tui/update/handlers/rebase_handler.go:25-43 | space marks or unmarks the branch under the cursor and refuses the current branch |
| RebaseHandler.StartRebase | internal/tui/update/handlers/rebase_handler.go:44-80 | no target gives a warning and no call; the current branch is refused; a rebase error is reported before conflicts are asked for, so the conflict list is untouched; conflicts fill the list; a clean rebase closes the screen and refreshes |
| RebaseHandler.ContinueAsWritten | internal/tui/update/handlers/rebase_handler.go:81-103 | "P" as written: after a successful continue the conflict test reads the old list, so the fresh list replaces it and the screen stays |
| RebaseHandler.Continue | internal/tui/update/handlers/rebase_handler.go:81-103 | "P" as intended: the continue error, or the remaining conflicts, or a finished rebase |
| RebaseHandler.ContinueFinishesIffResolved | internal/tui/update/handlers/rebase_handler.go:81-103 | the corrected continue closes the screen exactly when the continue succeeded and no conflict remains |
| RebaseHandler.ContinueAsWrittenNeverFinishes | internal/tui/update/handlers/rebase_handler.go:89-95 | as written, a successful continue never closes the screen, even with no conflict left, where the corrected one does |
| RebaseHandler.ContinueAsWrittenExample | internal/tui/update/handlers/rebase_handler.go:89-95 | the concrete case: rebasing "topic" onto "main" with README.md in conflict and a clean continue leaves the screen open as written |
| RebaseHandler.StuckRebase | internal/tui/update/handlers/rebase_handler.go:82 | the record of that case has a rebase in progress on the rebase screen |
| RebaseHandler.Abort | internal/tui/update/handlers/rebase_handler.go:104-119 | a successful abort returns to the file list with no target and no conflict list and refreshes; without a rebase in progress the key is passed on |
| RebaseHandler.RebaseKeys | internal/tui/update/handlers/rebase_handler.go:14-127 | the cursor stays within the branch list; the target never becomes the current branch; no command is scheduled; esc resets cursor, target, message and conflicts |
| RebaseHandler.HandleRebaseView | internal/tui/update/handlers/rebase_handler.go:12-130 | off the rebase screen nothing changes; on it, as in RebaseKeys, the cursor steps within the branch list, esc resets the screen, "P" during a rebase is the corrected continue, a key RebaseKeys does not handle changes nothing, the target never becomes the current branch and `git rebase` runs only on "R" for a target that is set and not current |
| StashHandler.StashDiffLines | internal/tui/update/handlers/stash_handler.go:96-97 | the diff view is a title line, a blank line, then the diff's lines |
| StashHandler.Apply | internal/tui/update/handlers/stash_handler.go:40-55 | the selected stash is applied by its ref; success reports the ref and refreshes; failure reports the error |
| StashHandler.Pop | internal/tui/update/handlers/stash_handler.go:57-72 | the pop is called without a ref, whatever entry is selected; the ref only appears in the message |
| StashHandler.View | internal/tui/update/handlers/stash_handler.go:85-103 | success shows the title, a blank line and the diff lines in the commit-graph screen; failure only changes the message |
| StashHandler.Drop | internal/tui/update/handlers/stash_handler.go:74-84 | "d" only asks for confirmation: the drop dialog opens with the selected stash's ref |
| StashHandler.ActionOf | internal/tui/update/handlers/stash_handler.go:40-85 | exactly enter, "p", "P", "d", "D", "v" and "V" select an action, and exactly "p" and "P" select the pop |
| StashHandler.SelectedStashKey | internal/tui/update/handlers/stash_handler.go:40-103 | every action first looks up the selected stash's ref; exactly the pop calls `git stash pop`; apply, pop, drop and view each give their whole record and calls (`Applied`, `Popped`, `DropAsked`, `Viewed`) |
| StashHandler.HandleStashView | internal/tui/update/handlers/stash_handler.go:12-118 | up and down stay within the stash list; apply, pop, drop and view act only with a selected stash, then give the record and calls of `Applied`, `Popped`, `DropAsked` and `Viewed`, and otherwise change and call nothing; "s" opens the message field only when there are changed files |
| StashHandler.StashMessageOrDefault | internal/tui/update/handlers/stash_handler.go:124-127 | an empty message becomes "Work in progress"; any other is kept |
| StashHandler.HandleStashMessageView | internal/tui/update/handlers/stash_handler.go:120-160 | enter saves; success returns to the stash list with the field cleared, failure keeps view and field; esc returns without saving; backspace drops a byte; only runes 32-126 are appended |
| Actions.FullName | internal/tui/update/actions/clone_and_switch.go:19 | the clone target is "owner/name" |
| Actions.HandleConfirmCloneRepo | internal/tui/update/actions/clone_and_switch.go:14-38 | "y", "n" and esc return to the repository list with nothing left to clone; "y" first clones the offered repository and reports the outcome; other keys are not handled and change nothing |
| Actions.MergeAfterSwitch | internal/tui/update/actions/clone_and_switch.go:52-71 | a failed merge is reported and no conflicts are queried; remaining conflicts are listed; a clean merge opens the merge screen awaiting its push |
| Actions.RebaseAfterSwitch | internal/tui/update/actions/clone_and_switch.go:72-93 | a failed rebase is reported and no conflicts are queried; remaining conflicts are listed; a clean rebase returns to the file list, drops the target and refreshes |
| Actions.Switched | internal/tui/update/actions/clone_and_switch.go:49-50 | after a checkout the branch is set and the data refreshed |
| Actions.AfterSwitch | internal/tui/update/actions/clone_and_switch.go:49-96 | the merge or rebase runs after the refresh; any other next action returns the refreshed record unhandled |
| Actions.HandleSwitchBranchMsg | internal/tui/update/actions/clone_and_switch.go:40-97 | a failed checkout only reports the error and keeps the branch, with no call; other events are not handled |
| LogGraph.GraphLines | internal/tui/update/loggraph.go:46 | there is at least one line, and joining them with newlines gives the trimmed graph back |
| LogGraph.BlankGraphIsOneEmptyLine | internal/tui/update/loggraph.go:46 | an empty or blank graph is one empty line |
| LogGraph.HandleLogGraphKey | internal/tui/update/loggraph.go:14-35 | esc returns to the file list keeping lines and cursor; up and down stay within the lines without wrapping; other keys change nothing |
| LogGraph.OpenLogGraphView | internal/tui/update/loggraph.go:38-52 | success shows the graph's lines from the top with the message cleared; failure changes only the message |
| Repositories.ShowRepositoryList | internal/tui/update/repositories.go:9-21 | failure changes only the message; success replaces the list, selects the first entry, shows the list and clears the message; the cursor is never touched |
| GitFiles.OutputLines | internal/git/files.go:25-26 | an empty output has no lines; otherwise the trimmed output split at newlines |
| GitFiles.StagedName | internal/git/files.go:28-30 | a staged-diff line names a path exactly when it has at least two fields, and that path is a single word |
| GitFiles.StagedSetMembers | internal/git/files.go:22-33 | a path is marked staged exactly when some staged-diff line names it |
| GitFiles.Kept | internal/git/files.go:44-46 | no more lines are kept than given, and each kept line is at least four bytes long in UTF-8, as Go's `len` counts |
| GitFiles.KeptMembers | internal/git/files.go:44-46 | a line is kept exactly when it is an input line of at least four UTF-8 bytes |
| Text.ByteLength | internal/git/files.go:44 | Go's `len` of a string is at least its number of characters, and equals it exactly when every character is ASCII |
| GitFiles.AccentedLineKept | internal/git/files.go:44-51 | the three-character line "M é", four bytes long, is kept and names the file "é" |
| GitFiles.StatusAndPath | internal/git/files.go:48-52 | the status has at most two characters |
| GitFiles.CollectStaged | internal/git/files.go:22-33 | the first loop collects exactly the staged set |
| GitFiles.EntriesOf | internal/git/files.go:40-60 | the second loop gives one entry per kept line, in order |
| GitFiles.GetModifiedFiles | internal/git/files.go:21-63 | a failed status query gives no files and its error; a failed staged diff is ignored; otherwise one entry per kept line, staged exactly when the staged diff names its path |
| GitFiles.PorcelainLineRoundTrip | internal/git/files.go:48-58 | a line made of a one-field status, a blank and single-spaced words yields that status and that path |
| GitFiles.StagedNameOfWord | internal/git/files.go:28-30 | a staged-diff line of a one-word path names that path |
| GitFiles.StagedRoundTrip | internal/git/files.go:22-57 | a one-word path listed by the staged diff is shown staged |
| GitFiles.StagedNameFirstWordOnly | internal/git/files.go:28-30 | for a path with blanks the staged diff contributes only its first word |
| GitBranches.BranchName | internal/git/branches.go:24-29 | the trimmed line, without the "* " marker when present |
| GitBranches.GetBranches | internal/git/branches.go:13-34 | a failed command gives no branches and no current branch; otherwise one branch per line in order, and the current one from the last marked line |
| GitBranches.ReadLines | internal/git/branches.go:23-31 | the loop gives one branch per line, in order, and the current branch from the last marked line |
| GitBranches.ReadStep | internal/git/branches.go:24-30 | one line appends its own branch name, and becomes the current branch exactly when it is marked |
| GitBranches.ReadLine | internal/git/branches.go:24-30 | a line is marked exactly when its trimmed text starts with "* ", and gives its branch name |
| GitBranches.CurrentOfUnmarked | internal/git/branches.go:20-31 | with no marked line the current branch is "" |
| GitBranches.CurrentOfLastMarked | internal/git/branches.go:25-27 | the current branch is the name of the last marked line |
| GitBranches.MarkedNameNonEmpty | internal/git/branches.go:25-26 | a marked line names a non-empty branch |
| GitBranches.EmptyOutput | internal/git/branches.go:21 | an empty output gives one empty branch name and no current branch |
| GitBranches.BranchLineRoundTrip | internal/git/branches.go:24-29 | both line shapes `git branch` prints give the branch name back |
| GitRemotes.Arrow | internal/git/remotes.go:25 | the entry is "name -> url" |
| GitRemotes.GetRemotes | internal/git/remotes.go:13-31 | a failed command gives no remotes and its error; otherwise one entry per remote of the lines |
| GitRemotes.ReadRemotes | internal/git/remotes.go:19-28 | the loop lists "name -> url" for each line with two fields whose name was not listed before, in line order |
| GitRemotes.RemotesDistinct | internal/git/remotes.go:19-28 | no two entries share a remote name |
| GitRemotes.RemoteFromLine | internal/git/remotes.go:22-27 | every entry is the name and URL of some line with at least two fields |
| GitRemotes.FirstLineKept | internal/git/remotes.go:22-27 | a line with a URL whose name no earlier such line used contributes its name and URL |
| GitRemotes.Fetch | internal/git/remotes.go:55-61 | no error exactly on success; an error starts with "fetch failed: " and ends with the command's output |
| GitRemotes.Pull | internal/git/remotes.go:67-73 | no error exactly on success; an error starts with "pull failed: " and ends with the command's output |
| GitRemotes.Push | internal/git/remotes.go:79-106 | the plain push always runs first and at most three commands run; a third is `push --set-upstream origin` of the trimmed current branch |
| GitRemotes.PushFirstSuccess | internal/git/remotes.go:80-83 | a push that succeeds at once runs no other command |
| GitRemotes.PushRetryExactly | internal/git/remotes.go:85-104 | the upstream retry is made exactly when the push failed for want of an upstream and the current branch is known and non-empty |
| GitRemotes.PushSucceeds | internal/git/remotes.go:79-106 | a push succeeds exactly when the plain push does or the retry is made and succeeds |
| GitRemotes.PushOtherFailure | internal/git/remotes.go:105 | another failure is reported with the push output and no further command |
| GitRemotes.NoUpstreamMarkerSubsumed | internal/git/remotes.go:86-88 | every output with "have no upstream branch" also holds "no upstream branch" |
| Views.StagedFilesCountAsChanges | internal/tui/views/stash_view.go:99-101 | a list of staged files only still counts as changes to stash |
| Views.ParseStashInfo | internal/tui/views/stash_view.go:104-124 | the line is shown unchanged or shortened |
| Views.StashLineParts | internal/tui/views/stash_view.go:108-112 | a stash line is cut into its ref, its description and its commit line |
| Views.CommitLineParts | internal/tui/views/stash_view.go:115-117 | the commit line is cut at its first space |
| Views.StashInfoDropsHash | internal/tui/views/stash_view.go:104-119 | the hash, the first word of the commit line, is dropped and the rest kept |
| Views.StashInfoOneWord | internal/tui/views/stash_view.go:120 | a commit line of one word leaves the whole line unchanged |
| Views.StashInfoUnparsed | internal/tui/views/stash_view.go:123 | a line without ": " is shown unchanged |
| Views.Min | internal/tui/views/log_graph_view.go:66-71 | the lesser argument |
| Views.Max | internal/tui/views/log_graph_view.go:72-77 | the greater argument |
| Views.Window | internal/tui/views/log_graph_view.go:25-32 | 0 <= start <= end <= total, at most one viewport long, exactly one viewport once there are that many lines, and the selection in range is inside the window |
| Views.LogGraphListing | internal/tui/views/log_graph_view.go:20-32 | no lines only when there are none; at most 15 lines; the cursor's line is on screen; exactly 15 once there are that many |
| Views.LogGraphPosition | internal/tui/views/log_graph_view.go:60 | the position shown is the cursor counted from one, over the number of lines |
| Views.RepositoryCounter | internal/tui/views/repository_view.go:16-20 | the counter appears exactly when there are repositories, counting the selection from one |
| Views.DescriptionRowOnlyForSelected | internal/tui/views/repository_view.go:57-60 | a description row appears exactly for the selected repository, in the window, with a description |
| Views.RepoRowsOfWindow | internal/tui/views/repository_view.go:36-55 | every repository of the window, and no other, has its own row, marked exactly when selected |
| Views.RepositoryRows | internal/tui/views/repository_view.go:23-61 | no rows for an empty list; otherwise the loop writes the rows of the window in order |
| Controls.TerminalWidth | internal/tui/controls/controls.go:23-26 | the reported width when positive; otherwise 80 |
| Controls.Indices | internal/tui/controls/controls.go:68-73 | the parts 0 to n-1 in order |
| Controls.EndLine | internal/tui/controls/controls.go:99-101 | ending a line that fits, or holds one part, keeps the layout well placed and in order |
| Controls.PlacePart | internal/tui/controls/controls.go:82-104 | a part joins the current line when it fits, otherwise starts a new line, keeping the loop's state |
| Controls.JoinLine | internal/tui/controls/controls.go:93-99 | a part that fits joins the current line and keeps the loop's state |
| Controls.StartLine | internal/tui/controls/controls.go:100-104 | a part that does not fit ends the current line and starts the next, keeping the loop's state |
| Controls.StartFirstLine | internal/tui/controls/controls.go:100-104 | a part too wide for an empty line starts the first line |
| Controls.WrapStep | internal/tui/controls/controls.go:81-108 | one pass of the loop; after the last part the layout is complete |
| Controls.Wrap | internal/tui/controls/controls.go:75-112 | every part is on exactly one line, in order; each line fits or is a single part; a line ends only when the next part does not fit |
| Controls.ExtendLine | internal/tui/controls/controls.go:85-89 | a part widens a line by its own width, plus a separator when the line is not empty |
| Controls.ControlSet.constructor | internal/tui/controls/controls.go:22-31 | an empty set with the terminal's width |
| Controls.ControlSet.Add | internal/tui/controls/controls.go:33-40 | one control more at the end; the rest and the width are kept |
| Controls.ControlSet.AddMultiple | internal/tui/controls/controls.go:42-45 | the controls in order at the end; the rest and the width are kept |
| Controls.ControlSet.Render | internal/tui/controls/controls.go:47-112 | nothing for an empty set; one line when the whole fits in width-4; otherwise the greedy wrapped layout |
| Controls.FileActionsNeedFiles | internal/tui/controls/controls.go:130-133 | in simple mode, space and x are offered exactly when there are files |
| Controls.CommitNeedsStaged | internal/tui/controls/controls.go:134-136 | in simple mode, commit is offered exactly when something is staged |
| Controls.SimpleModeHelp | internal/tui/controls/controls.go:129-144 | simple mode offers help and not merge |
| Controls.AdvancedFileViewKeys | internal/tui/controls/controls.go:145-152 | advanced mode drops space, x and commit and offers merge and help |
| Controls.AddSimpleModeControls | internal/tui/controls/controls.go:130-144 | the simple-mode hints are added in order |
| Controls.AddSimpleModeTail | internal/tui/controls/controls.go:137-144 | the hints simple mode always shows are added in order |
| Controls.AddAdvancedModeControls | internal/tui/controls/controls.go:146-151 | the advanced-mode hints are added in order |
| Controls.NewFileViewControls | internal/tui/controls/controls.go:124-155 | the file list's hints for the given state, with the terminal's width |
| Controls.SelectionKeys | internal/tui/controls/controls.go:186-206 | merge and rebase are offered exactly when a branch is selected |
| Controls.NewMergeViewControls | internal/tui/controls/controls.go:186-195 | the merge screen's hints, with the terminal's width |
| Controls.NewRebaseViewControls | internal/tui/controls/controls.go:197-206 | the rebase screen's hints, with the terminal's width |
| Controls.StashViewKeys | internal/tui/controls/controls.go:208-226 | pop is offered exactly when there are stashes, save exactly when there are changes, back always |
| Controls.NewStashViewControls | internal/tui/controls/controls.go:208-226 | the stash screen's hints, with the terminal's width |
| Config.WithDefaults | internal/config/config.go:39-44 | an empty position becomes "left" and an empty default branch "main"; other values, branding and auto-fetch are kept |
| Config.LoadConfig | internal/config/config.go:24-47 | a read or decode error gives the zero configuration and the error, with no defaults; otherwise the decoded configuration with defaults |
| Config.DefaultsIdempotent | internal/config/config.go:39-44 | applying the defaults twice is applying them once |
| Copilot.TruncateDiff | internal/copilot/api.go:16-18 | a diff of at most 8000 bytes is kept; a longer one becomes its first 8000 bytes and the truncation note |
| Copilot.TruncateDiffStable | internal/copilot/api.go:16-18 | the diff part is never longer than 8000 bytes and the note; a diff that was not cut is not cut by a second truncation either |
| Copilot.CleanResponse | internal/copilot/api.go:38-39 | the cleaned reply is no longer than the reply |
| Copilot.CleanResponseEnds | internal/copilot/api.go:38-39 | the cleaned reply is empty or neither starts nor ends with a backtick or quote |
| Copilot.CleanResponseIsPiece | internal/copilot/api.go:38-39 | the cleaned reply is a contiguous piece of the reply |
| Copilot.CleanReplyKept | internal/copilot/api.go:38-39 | a reply that is already clean is kept |
| Copilot.GenerateCommitMessage | internal/copilot/api.go:10-42 | a client error gives no message, that error and no request; otherwise the request carries the truncated diff; a chat error gives no message; a reply is cleaned |

## Left out

- Process execution, the file system, the network and GitHub: every `git.*`, `gh.*` and chat call is an input read from `Env` (or a parameter), and each step returns the calls it made.
- `GetStashRef` is not part of this model; the ref of the selected stash line is an input.
- The goroutines and channels inside `RefreshData`: the refresh is one replacement from a snapshot.
- The async command closures and timers: commands are the datatype `Cmd`, and their results come back as events.
- Rendering and styling: lipgloss widths, colours, boxes, the per-line colouring of the commit graph and the text each screen writes. Only window arithmetic, the rows of the repository list, `parseStashInfo` and the wrap of the hint bar are modelled; part widths are inputs.
- `RenderStashView`: only its helpers `parseStashInfo` and `hasUnstagedChanges` are modelled.
- The hint builders that add a fixed list with no condition (`NewBranchViewControls`, `NewRemoteViewControls`, `NewCommitViewControls`, `NewStashMessageViewControls` and the other constant lists): they add nothing beyond `ControlSet.Add`.
- The prompt's instruction text in `GenerateCommitMessage`: only the diff part of the request is modelled.
- Counters are modelled as pairs of numbers, not as formatted text.
- `HandleStashView` is modelled, but `Update` never dispatches the stash screens to it, as the source is written. The confirmation dialog's "y" does nothing for a `drop_stash` dialog, for the same reason.
- Go's `bool` fields of `Model` are the two-valued `Flag` datatype.
- Strings are sequences of runes; the text buffers are byte sequences, shown in messages with one character per byte.
- GitFiles.StatusAndPath: cuts the status and the single-field path at character columns where files.go:48-49 cut at byte columns; the two agree whenever the first three characters are ASCII, as the status letters and the blank after them are, and otherwise Go can cut a character in two, which a string of characters cannot hold.
- RebaseHandler.RebaseKeys: "P" runs the corrected continue (`Continue`), not the as-written test of the old conflict list (`ContinueAsWritten`, first row of "## Findings"), so a clean continue closes the screen where the source keeps it open.
- RebaseHandler.HandleRebaseView: inherits the corrected "P" of `RebaseKeys`.
- UpdateKeys.Backspace: deletes the whole last character (`DeleteLastChar`), not the last byte as update.go:506-512 does (`DeleteLastByte`, second row of "## Findings"), so after a rune from 128 to 255 the source leaves the lead byte and the model leaves nothing.
- UpdateKeys.SharedKey: its backspace is the corrected one of `Backspace`.
- Update.LaterKeys: its backspace is the corrected one of `Backspace`.
- Update.KeyPressed: rebase "P" and backspace are the corrected ones of `RebaseKeys` and `Backspace`.
- Update.Update: inherits the corrected rebase "P" and backspace of `KeyPressed`.
- The older copies of the parsers and the reducer under the former module path, `main.go`, `app.go`, `quickstart.go` and the credential and token handling of the chat client are not part of this model.

## Findings

| source | as written | input that shows it | evidently intended | confidence | as-written member | corrected member |
|---|---|---|---|---|---|---|
| internal/tui/update/handlers/rebase_handler.go:89-95 | after a successful `git rebase --continue` the conflict test reads the old `LogLines`, which is non-empty on that path, so the rebase is never reported finished and an empty fresh list replaces the old one | on branch "topic" rebasing onto "main" with README.md in conflict, a continue that succeeds with no conflicts left | test the freshly queried conflicts, as the merge screen does, and close the screen when none remain | not executed | RebaseHandler.ContinueAsWritten | RebaseHandler.Continue |
| internal/tui/update/update.go:506-512 | backspace drops the last byte, while typing accepts runes 128-255, which take two bytes | typing 'é' (233) into an empty commit message and pressing backspace leaves the byte 0xC3 | drop the whole last character | not executed | TextInput.DeleteLastByte | TextInput.DeleteLastChar |
