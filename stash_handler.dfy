/** The stash screens: the list of stashes (apply, pop, drop, view, start a
    new stash) and the field where the message of a new stash is typed. The
    entry's ref is what `git.GetStashRef` returns for the selected line; that
    function is not part of this model, so its result comes from `Env`. */
module StashHandler {
  import opened Wrappers
  import opened Text
  import opened TuiModel
  import opened Messages
  import opened Utils
  import opened TextInput

  const NoChangesToStash := "⚠ No changes to stash"
  const StashHelp := "Stash Help: [S]ave [Enter]Apply [P]op [D]rop [V]iew [↑/↓]Navigate [Esc]Back"
  const WorkInProgress := "Work in progress"

  /** The cursor points at a stash. */
  predicate HasSelection(m: Model) {
    |m.stashes| > 0 && m.cursor < |m.stashes|
  }

  /** What the diff view shows for a stash: a title, a blank line, and the
      diff's lines. */
  function StashDiffLines(ref: string, diff: string): (lines: seq<string>)
    ensures |lines| >= 3 && lines[0] == "Stash " + ref + ":" && lines[1] == ""
    ensures Join(lines[2..], "\n") == diff
  {
    JoinSplit(diff, '\n');
    ["Stash " + ref + ":", ""] + Split(diff, '\n')
  }

  /** What enter leaves: the ref is looked up and `git stash apply` runs; on
      error only the message changes, otherwise the data is read again under
      a success message. */
  predicate Applied(m: Model, env: Env, r: Model, calls: seq<Call>)
    requires WellFormed(m) && HasSelection(m)
  {
    if env.stashErr.Some? then
      r == m.(message := "✗ Error applying stash: " + env.stashErr.value, messageType := Error)
      && calls == [StashRef(m.stashes[m.cursor]), StashApply(env.stashRef)]
    else
      r == RefreshData(m.(message := "✓ Stash " + env.stashRef + " applied successfully", messageType := Success),
                       env.snapshot)
      && calls == [StashRef(m.stashes[m.cursor]), StashApply(env.stashRef), Refresh]
  }

  /** What "p" leaves: as `Applied`, with `git stash pop` and its messages. */
  predicate Popped(m: Model, env: Env, r: Model, calls: seq<Call>)
    requires WellFormed(m) && HasSelection(m)
  {
    if env.stashErr.Some? then
      r == m.(message := "✗ Error popping stash: " + env.stashErr.value, messageType := Error)
      && calls == [StashRef(m.stashes[m.cursor]), StashPop]
    else
      r == RefreshData(m.(message := "✓ Stash " + env.stashRef + " popped successfully", messageType := Success),
                       env.snapshot)
      && calls == [StashRef(m.stashes[m.cursor]), StashPop, Refresh]
  }

  /** What "v" leaves: the diff under a title on the log screen, or only the
      error message. */
  predicate Viewed(m: Model, env: Env, r: Model, calls: seq<Call>)
    requires WellFormed(m) && HasSelection(m)
  {
    calls == [StashRef(m.stashes[m.cursor]), StashShow(env.stashRef)]
    && if env.stashDiff.Err? then
      r == m.(message := "✗ Error viewing stash: " + env.stashDiff.error, messageType := Error)
    else
      r == m.(logLines := StashDiffLines(env.stashRef, env.stashDiff.value), currentView := LogGraphView,
              message := "Viewing stash " + env.stashRef + " (Press Esc to return)", messageType := Info)
  }

  /** What "d" leaves: the confirmation dialog for the selected stash's ref. */
  predicate DropAsked(m: Model, env: Env, r: Model, calls: seq<Call>)
    requires WellFormed(m) && HasSelection(m)
  {
    r == m.(dialogType := "drop_stash", dialogTarget := env.stashRef, currentView := ConfirmDialog)
    && calls == [StashRef(m.stashes[m.cursor])]
  }

  /** Enter: the selected stash is applied by its ref; on success the
      repository data is read again. */
  method Apply(m: Model, env: Env) returns (r: Model, calls: seq<Call>)
    requires WellFormed(m) && HasSelection(m)
    ensures WellFormed(r) && r.currentView == m.currentView
    ensures |calls| >= 2 && calls[0] == StashRef(m.stashes[m.cursor]) && calls[1] == StashApply(env.stashRef)
    ensures env.stashErr.Some? ==>
      r == m.(message := "✗ Error applying stash: " + env.stashErr.value, messageType := Error) && |calls| == 2
    ensures env.stashErr.None? ==>
      r == RefreshData(m.(message := "✓ Stash " + env.stashRef + " applied successfully", messageType := Success),
                       env.snapshot)
      && calls == [StashRef(m.stashes[m.cursor]), StashApply(env.stashRef), Refresh]
    ensures Applied(m, env, r, calls)
  {
    var ref := env.stashRef;
    calls := [StashRef(m.stashes[m.cursor]), StashApply(ref)];
    if env.stashErr.Some? {
      r := m.(message := "✗ Error applying stash: " + env.stashErr.value, messageType := Error);
    } else {
      r := m.(message := "✓ Stash " + ref + " applied successfully", messageType := Success);
      r := RefreshData(r, env.snapshot);
      calls := calls + [Refresh];
    }
  }

  /** "p": the pop runs without a ref, so it pops the newest stash whatever
      entry is selected; the selected entry's ref only appears in the
      message. */
  method Pop(m: Model, env: Env) returns (r: Model, calls: seq<Call>)
    requires WellFormed(m) && HasSelection(m)
    ensures WellFormed(r) && r.currentView == m.currentView
    ensures |calls| >= 2 && calls[0] == StashRef(m.stashes[m.cursor]) && calls[1] == StashPop
    ensures env.stashErr.Some? ==>
      r == m.(message := "✗ Error popping stash: " + env.stashErr.value, messageType := Error) && |calls| == 2
    ensures env.stashErr.None? ==>
      r == RefreshData(m.(message := "✓ Stash " + env.stashRef + " popped successfully", messageType := Success),
                       env.snapshot)
      && calls == [StashRef(m.stashes[m.cursor]), StashPop, Refresh]
    ensures Popped(m, env, r, calls)
  {
    var ref := env.stashRef;
    calls := [StashRef(m.stashes[m.cursor]), StashPop];
    if env.stashErr.Some? {
      r := m.(message := "✗ Error popping stash: " + env.stashErr.value, messageType := Error);
    } else {
      r := m.(message := "✓ Stash " + ref + " popped successfully", messageType := Success);
      r := RefreshData(r, env.snapshot);
      calls := calls + [Refresh];
    }
  }

  /** "v": the selected stash's diff is shown in the log view, under a
      title; on error only the message changes. */
  method View(m: Model, env: Env) returns (r: Model, calls: seq<Call>)
    requires WellFormed(m) && HasSelection(m)
    ensures WellFormed(r)
    ensures calls == [StashRef(m.stashes[m.cursor]), StashShow(env.stashRef)]
    ensures env.stashDiff.Err? ==>
      r == m.(message := "✗ Error viewing stash: " + env.stashDiff.error, messageType := Error)
    ensures env.stashDiff.Ok? ==>
      r == m.(logLines := StashDiffLines(env.stashRef, env.stashDiff.value), currentView := LogGraphView,
              message := "Viewing stash " + env.stashRef + " (Press Esc to return)", messageType := Info)
    ensures Viewed(m, env, r, calls)
  {
    var ref := env.stashRef;
    calls := [StashRef(m.stashes[m.cursor]), StashShow(ref)];
    if env.stashDiff.Err? {
      r := m.(message := "✗ Error viewing stash: " + env.stashDiff.error, messageType := Error);
    } else {
      var diffLines := Split(env.stashDiff.value, '\n');
      r := m.(logLines := ["Stash " + ref + ":", ""] + diffLines, currentView := LogGraphView,
              message := "Viewing stash " + ref + " (Press Esc to return)", messageType := Info);
    }
  }

  /** "d": the drop is only asked for; the confirmation dialog opens with
      the selected stash's ref. */
  method Drop(m: Model, env: Env) returns (r: Model, calls: seq<Call>)
    requires WellFormed(m) && HasSelection(m)
    ensures WellFormed(r)
    ensures calls == [StashRef(m.stashes[m.cursor])]
    ensures r == m.(dialogType := "drop_stash", dialogTarget := env.stashRef, currentView := ConfirmDialog)
    ensures DropAsked(m, env, r, calls)
  {
    calls := [StashRef(m.stashes[m.cursor])];
    r := m.(dialogType := "drop_stash", dialogTarget := env.stashRef, currentView := ConfirmDialog);
  }

  /** What enter, "p", "d" and "v" do to the selected stash. */
  datatype StashAction = ApplyStash | PopStash | DropStash | ViewStash

  /** The action a key of the stash list selects, if any; the letters act in
      either case. */
  function ActionOf(key: string): (a: Option<StashAction>)
    ensures a.Some? <==> key in {"enter", "p", "P", "d", "D", "v", "V"}
    ensures a == Some(PopStash) <==> key in {"p", "P"}
  {
    if key == "enter" then Some(ApplyStash)
    else if key == "p" || key == "P" then Some(PopStash)
    else if key == "d" || key == "D" then Some(DropStash)
    else if key == "v" || key == "V" then Some(ViewStash)
    else None
  }

  /** An action on a selected stash. Every action first looks up the
      selected stash's ref; only pop calls `git stash pop`, and drop only
      asks for confirmation: it opens the dialog with that ref. */
  method SelectedStashKey(m: Model, action: StashAction, env: Env) returns (r: Model, calls: seq<Call>)
    requires WellFormed(m) && HasSelection(m)
    ensures WellFormed(r)
    ensures |calls| >= 1 && calls[0] == StashRef(m.stashes[m.cursor])
    ensures action == ApplyStash ==> |calls| >= 2 && calls[1] == StashApply(env.stashRef)
    ensures action == PopStash ==> |calls| >= 2 && calls[1] == StashPop
    ensures action == DropStash ==>
      r == m.(dialogType := "drop_stash", dialogTarget := env.stashRef, currentView := ConfirmDialog)
      && calls == [StashRef(m.stashes[m.cursor])]
    ensures action == ViewStash ==> calls == [StashRef(m.stashes[m.cursor]), StashShow(env.stashRef)]
    ensures StashPop in calls <==> action == PopStash
    ensures action == ApplyStash ==> Applied(m, env, r, calls)
    ensures action == PopStash ==> Popped(m, env, r, calls)
    ensures action == DropStash ==> DropAsked(m, env, r, calls)
    ensures action == ViewStash ==> Viewed(m, env, r, calls)
  {
    var ref := StashRef(m.stashes[m.cursor]);
    match action
    case ApplyStash =>
      r, calls := Apply(m, env);
      assert calls == [ref, StashApply(env.stashRef)] || calls == [ref, StashApply(env.stashRef), Refresh];
    case PopStash =>
      r, calls := Pop(m, env);
    case DropStash =>
      r, calls := Drop(m, env);
    case ViewStash =>
      r, calls := View(m, env);
  }

  /** `HandleStashView`. The view is not checked here (the caller dispatches
      on it). Apply, pop, drop and view act only when the cursor points at a
      stash; otherwise they change nothing and call nothing. A new stash is
      started only when there are changed files. */
  method HandleStashView(m: Model, key: string, env: Env) returns (r: Model, calls: seq<Call>)
    requires WellFormed(m)
    ensures WellFormed(r)
    ensures key in {"up", "down"} ==> r == m.(cursor := CursorStep(m.cursor, |m.stashes|, key == "up")) && calls == []
    ensures key in {"s", "S"} && m.files != [] ==>
      r == m.(currentView := StashMessageView, stashMessage := [], message := "", messageType := Plain) && calls == []
    ensures key in {"s", "S"} && m.files == [] ==>
      r == m.(message := NoChangesToStash, messageType := Warning) && calls == []
    ensures key in {"enter", "p", "P", "d", "D", "v", "V"} && !HasSelection(m) ==> r == m && calls == []
    ensures key in {"enter", "p", "P", "d", "D", "v", "V"} && HasSelection(m) ==>
      |calls| >= 1 && calls[0] == StashRef(m.stashes[m.cursor])
    ensures ActionOf(key) == Some(ApplyStash) && HasSelection(m) ==> Applied(m, env, r, calls)
    ensures ActionOf(key) == Some(PopStash) && HasSelection(m) ==> Popped(m, env, r, calls)
    ensures ActionOf(key) == Some(DropStash) && HasSelection(m) ==> DropAsked(m, env, r, calls)
    ensures ActionOf(key) == Some(ViewStash) && HasSelection(m) ==> Viewed(m, env, r, calls)
    ensures key == "esc" ==> r == m.(currentView := FileView, message := "", messageType := Plain) && calls == []
    ensures key == "?" ==> r == m.(message := StashHelp, messageType := Info) && calls == []
    ensures key !in {"up", "down", "s", "S", "enter", "p", "P", "d", "D", "v", "V", "esc", "?"} ==> r == m && calls == []
    ensures StashPop in calls ==> key in {"p", "P"}
  {
    r, calls := m, [];
    if key == "up" || key == "down" {
      r := m.(cursor := CursorStep(m.cursor, |m.stashes|, key == "up"));
    } else if key == "s" || key == "S" {
      if |m.files| > 0 {
        r := m.(currentView := StashMessageView, stashMessage := [], message := "", messageType := Plain);
      } else {
        r := m.(message := NoChangesToStash, messageType := Warning);
      }
    } else if ActionOf(key).Some? {
      if HasSelection(m) {
        r, calls := SelectedStashKey(m, ActionOf(key).value, env);
      }
    } else if key == "esc" {
      r := m.(currentView := FileView, message := "", messageType := Plain);
    } else if key == "?" {
      r := m.(message := StashHelp, messageType := Info);
    }
  }

  /** The message a new stash is saved under: the typed one, or "Work in
      progress" when nothing was typed. */
  function StashMessageOrDefault(buf: Bytes): (msg: Bytes)
    ensures buf != [] ==> msg == buf
    ensures buf == [] ==> msg == Ascii(WorkInProgress) && |msg| == 16
  {
    if buf == [] then Ascii(WorkInProgress) else buf
  }

  /** `HandleStashMessageView`: enter saves the stash (on success back to the
      list with an empty field, on failure the view and the field are kept),
      esc goes back without saving, backspace drops the last byte, and any
      single printable ASCII rune is appended; every other key changes
      nothing. */
  method HandleStashMessageView(m: Model, key: Key, env: Env) returns (r: Model, calls: seq<Call>)
    requires WellFormed(m)
    ensures WellFormed(r)
    ensures key.name == "enter" ==> |calls| >= 1 && calls[..1] == [SaveStash(StashMessageOrDefault(m.stashMessage))]
    ensures key.name == "enter" && env.stashErr.Some? ==>
      r == m.(message := "✗ Error saving stash: " + env.stashErr.value, messageType := Error) && |calls| == 1
    ensures key.name == "enter" && env.stashErr.None? ==>
      r == RefreshData(m.(message := "✓ Stash saved: " + Latin1(StashMessageOrDefault(m.stashMessage)),
                          messageType := Success, currentView := StashView, stashMessage := []), env.snapshot)
      && calls == [SaveStash(StashMessageOrDefault(m.stashMessage)), Refresh]
    ensures key.name == "esc" ==>
      r == m.(currentView := StashView, stashMessage := [], message := "", messageType := Plain) && calls == []
    ensures key.name == "backspace" ==> r == m.(stashMessage := DeleteLastByte(m.stashMessage)) && calls == []
    ensures key.name !in {"enter", "esc", "backspace"} && |key.runes| == 1 && 32 <= key.runes[0] <= 126 ==>
      r == m.(stashMessage := AppendRune(m.stashMessage, key.runes[0])) && calls == []
    ensures key.name !in {"enter", "esc", "backspace"} && !(|key.runes| == 1 && 32 <= key.runes[0] <= 126) ==>
      r == m && calls == []
  {
    if key.name == "enter" {
      var message := StashMessageOrDefault(m.stashMessage);
      calls := [SaveStash(message)];
      if env.stashErr.Some? {
        r := m.(message := "✗ Error saving stash: " + env.stashErr.value, messageType := Error);
      } else {
        r := m.(message := "✓ Stash saved: " + Latin1(message), messageType := Success,
                currentView := StashView, stashMessage := []);
        r := RefreshData(r, env.snapshot);
        calls := calls + [Refresh];
      }
    } else if key.name == "esc" {
      r := m.(currentView := StashView, stashMessage := [], message := "", messageType := Plain);
      calls := [];
    } else if key.name == "backspace" {
      r := m.(stashMessage := DeleteLastByte(m.stashMessage));
      calls := [];
    } else {
      r, calls := m, [];
      if |key.runes| == 1 && 32 <= key.runes[0] <= 126 {
        r := m.(stashMessage := AppendRune(m.stashMessage, key.runes[0]));
      }
    }
  }
}
