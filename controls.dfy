/** The key-hint bar at the bottom of each screen: a set of controls built up
    one by one, and their layout, which wraps onto further lines greedily when
    the bar is wider than the terminal. Text widths are what the terminal
    library measures, so they are inputs here; colours and the box are not
    modelled. */
module Controls {
  import opened Wrappers

  /** A key, what it does, and the group it belongs to. */
  datatype Control = Control(key: string, description: string, group: string)

  /** The width assumed when the terminal does not report one. */
  const DefaultWidth := 80

  /** Display width of the " │ " separator between two controls. */
  const SeparatorWidth := 3

  /** The width a new set takes: the terminal's, unless asking for it failed
      or gave no positive width. */
  function TerminalWidth(size: Result<int>): (w: int)
    ensures w > 0
    ensures size.Ok? && size.value > 0 ==> w == size.value
    ensures size.Err? || size.value <= 0 ==> w == DefaultWidth
  {
    if size.Err? || size.value <= 0 then DefaultWidth else size.value
  }

  /** The width of a line holding parts `line` (indices into `widths`): their
      widths and a separator between each two. */
  function LineWidth(widths: seq<int>, line: seq<nat>): int
  {
    if line == [] then 0
    else if |line| == 1 then PartWidth(widths, line[0])
    else LineWidth(widths, line[..|line| - 1]) + SeparatorWidth + PartWidth(widths, line[|line| - 1])
  }

  /** The width of part `p`. */
  function PartWidth(widths: seq<int>, p: nat): int {
    if p < |widths| then widths[p] else 0
  }

  /** The lines one after the other. */
  function Concat(lines: seq<seq<nat>>): seq<nat> {
    if lines == [] then [] else Concat(lines[..|lines| - 1]) + lines[|lines| - 1]
  }

  /** The part indices `0 .. n-1` in order. */
  function Indices(n: nat): (r: seq<nat>)
    ensures |r| == n && forall j :: 0 <= j < n ==> r[j] == j
  {
    seq(n, j requires 0 <= j < n => j)
  }

  /** The lines of a layout hold parts of `widths`, none is empty, each
      fits unless it is one wide part, and each was ended only because the
      next part did not fit on it. */
  predicate LinesWellPlaced(widths: seq<int>, maxWidth: int, lines: seq<seq<nat>>)
  {
    (forall k :: 0 <= k < |lines| ==> lines[k] != [])
    && (forall k :: 0 <= k < |lines| ==> LineWidth(widths, lines[k]) <= maxWidth || |lines[k]| == 1)
    && (forall k :: 0 < k < |lines| ==>
          LineWidth(widths, lines[k - 1]) + SeparatorWidth + PartWidth(widths, lines[k][0]) > maxWidth)
  }

  /** A layout of all parts within `maxWidth`, as the wrap loop makes it:
      every part is on exactly one line, in the original order, and the lines
      are placed greedily. */
  predicate GreedyLayout(widths: seq<int>, maxWidth: int, lines: seq<seq<nat>>)
  {
    Concat(lines) == Indices(|widths|) && LinesWellPlaced(widths, maxWidth, lines)
  }

  /** Ending the current line keeps the layout well placed. */
  lemma EndLine(widths: seq<int>, maxWidth: int, lines: seq<seq<nat>>, line: seq<nat>)
    requires LinesWellPlaced(widths, maxWidth, lines)
    requires line != []
    requires LineWidth(widths, line) <= maxWidth || |line| == 1
    requires lines != [] ==> LineWidth(widths, lines[|lines| - 1]) + SeparatorWidth + PartWidth(widths, line[0]) > maxWidth
    ensures LinesWellPlaced(widths, maxWidth, lines + [line])
    ensures Concat(lines + [line]) == Concat(lines) + line
  {
    var all := lines + [line];
    assert all[..|lines|] == lines;
    forall k | 0 <= k < |all|
      ensures all[k] != [] && (LineWidth(widths, all[k]) <= maxWidth || |all[k]| == 1)
    {
      if k < |lines| {
        assert all[k] == lines[k];
      }
    }
    forall k | 0 < k < |all|
      ensures LineWidth(widths, all[k - 1]) + SeparatorWidth + PartWidth(widths, all[k][0]) > maxWidth
    {
      assert all[k - 1] == lines[k - 1];
      if k < |lines| {
        assert all[k] == lines[k];
      }
    }
  }

  /** The state of the wrap loop after the first `n` parts: the ended
      lines and the current one hold them in order, the current width is
      measured, and everything placed so far is well placed. */
  predicate Placed(widths: seq<int>, maxWidth: int, n: nat, lines: seq<seq<nat>>, current: seq<nat>, currentWidth: int)
  {
    Concat(lines) + current == Indices(n)
    && currentWidth == LineWidth(widths, current)
    && (current != [] ==> currentWidth >= 1 && (currentWidth <= maxWidth || |current| == 1))
    && LinesWellPlaced(widths, maxWidth, lines)
    && (current == [] ==> lines == [])
    && (lines != [] && current != [] ==>
          LineWidth(widths, lines[|lines| - 1]) + SeparatorWidth + PartWidth(widths, current[0]) > maxWidth)
  }

  /** One step of the wrap loop: part `i` joins the current line if it fits
      there, and otherwise the current line is ended and the part starts the
      next one. */
  method PlacePart(widths: seq<int>, maxWidth: int, i: nat, lines: seq<seq<nat>>, current: seq<nat>, currentWidth: int)
    returns (lines': seq<seq<nat>>, current': seq<nat>, currentWidth': int)
    requires i < |widths| && widths[i] >= 1
    requires Placed(widths, maxWidth, i, lines, current, currentWidth)
    ensures Placed(widths, maxWidth, i + 1, lines', current', currentWidth') && current' != []
  {
    var partWidth := widths[i];
    var totalWidth := currentWidth;
    if currentWidth > 0 {
      totalWidth := totalWidth + SeparatorWidth;
    }
    totalWidth := totalWidth + partWidth;
    if totalWidth <= maxWidth {
      JoinLine(widths, maxWidth, i, lines, current, currentWidth);
      lines', current', currentWidth' := lines, current + [i], totalWidth;
    } else {
      if current != [] {
        StartLine(widths, maxWidth, i, lines, current, currentWidth);
        lines' := lines + [current];
      } else {
        StartFirstLine(widths, maxWidth, i, lines, currentWidth);
        lines' := lines;
      }
      current' := [i];
      currentWidth' := partWidth;
    }
  }

  /** Part `i` joins the current line when the line, a separator and the
      part fit the width. */
  lemma JoinLine(widths: seq<int>, maxWidth: int, i: nat, lines: seq<seq<nat>>, current: seq<nat>, currentWidth: int)
    requires i < |widths| && widths[i] >= 1
    requires Placed(widths, maxWidth, i, lines, current, currentWidth)
    requires (if currentWidth > 0 then currentWidth + SeparatorWidth else currentWidth) + widths[i] <= maxWidth
    ensures Placed(widths, maxWidth, i + 1, lines, current + [i],
                   (if currentWidth > 0 then currentWidth + SeparatorWidth else currentWidth) + widths[i])
  {
    assert Indices(i + 1) == Indices(i) + [i];
    ExtendLine(widths, current, i);
    assert Concat(lines) + (current + [i]) == Indices(i + 1);
    assert current != [] ==> (current + [i])[0] == current[0];
  }

  /** Part `i` starts a new line when it does not fit the current one, which
      is ended first. */
  lemma StartLine(widths: seq<int>, maxWidth: int, i: nat, lines: seq<seq<nat>>, current: seq<nat>, currentWidth: int)
    requires i < |widths| && widths[i] >= 1 && current != []
    requires Placed(widths, maxWidth, i, lines, current, currentWidth)
    requires currentWidth + SeparatorWidth + widths[i] > maxWidth
    ensures Placed(widths, maxWidth, i + 1, lines + [current], [i], widths[i])
  {
    var all := lines + [current];
    EndLine(widths, maxWidth, lines, current);
    assert Concat(all) + [i] == Indices(i + 1) by {
      assert Indices(i + 1) == Indices(i) + [i];
    }
    assert LineWidth(widths, [i]) == widths[i];
    assert all[|all| - 1] == current;
  }

  /** The first part that does not fit an empty line starts the first line. */
  lemma StartFirstLine(widths: seq<int>, maxWidth: int, i: nat, lines: seq<seq<nat>>, currentWidth: int)
    requires i < |widths| && widths[i] >= 1
    requires Placed(widths, maxWidth, i, lines, [], currentWidth)
    ensures Placed(widths, maxWidth, i + 1, lines, [i], widths[i])
  {
    assert Indices(i + 1) == Indices(i) + [i];
    assert LineWidth(widths, [i]) == widths[i];
  }

  /** One pass of the wrap loop's body: part `i` is placed, and after the
      last part the current line is ended too. */
  method WrapStep(widths: seq<int>, maxWidth: int, i: nat, lines: seq<seq<nat>>, current: seq<nat>, currentWidth: int)
    returns (lines': seq<seq<nat>>, current': seq<nat>, currentWidth': int)
    requires i < |widths| && widths[i] >= 1
    requires Placed(widths, maxWidth, i, lines, current, currentWidth)
    ensures i + 1 < |widths| ==> Placed(widths, maxWidth, i + 1, lines', current', currentWidth')
    ensures i + 1 == |widths| ==> GreedyLayout(widths, maxWidth, lines')
  {
    lines', current', currentWidth' := PlacePart(widths, maxWidth, i, lines, current, currentWidth);
    if i == |widths| - 1 && current' != [] {
      EndLine(widths, maxWidth, lines', current');
      lines' := lines' + [current'];
      current' := [];
    }
  }

  /** The wrap loop of `renderSimple`, over the measured widths of the
      parts. Each part holds a space between key and description, so its
      width is at least one. */
  method Wrap(widths: seq<int>, maxWidth: int) returns (lines: seq<seq<nat>>)
    requires forall j :: 0 <= j < |widths| ==> widths[j] >= 1
    ensures GreedyLayout(widths, maxWidth, lines)
  {
    lines := [];
    var current: seq<nat> := [];
    var currentWidth := 0;
    var i := 0;
    while i < |widths|
      invariant i <= |widths|
      invariant i < |widths| ==> Placed(widths, maxWidth, i, lines, current, currentWidth)
      invariant i == |widths| ==> GreedyLayout(widths, maxWidth, lines)
    {
      lines, current, currentWidth := WrapStep(widths, maxWidth, i, lines, current, currentWidth);
      i := i + 1;
    }
  }

  /** A part added to a line widens it by its own width, and by a separator
      unless the line was empty. */
  lemma ExtendLine(widths: seq<int>, line: seq<nat>, p: nat)
    ensures LineWidth(widths, line + [p])
      == (if line == [] then 0 else LineWidth(widths, line) + SeparatorWidth) + PartWidth(widths, p)
  {
    assert (line + [p])[..|line|] == line;
  }

  /** The controls of one screen and the width they are laid out in. */
  class ControlSet {
    var controls: seq<Control>
    var width: int

    /** `NewControlSet`: no controls yet, and the terminal's width. */
    constructor (size: Result<int>)
      ensures controls == [] && width == TerminalWidth(size)
    {
      controls := [];
      width := TerminalWidth(size);
    }

    /** `Add`: one control more, at the end. */
    method Add(key: string, description: string, group: string)
      modifies this
      ensures controls == old(controls) + [Control(key, description, group)]
      ensures width == old(width)
    {
      controls := controls + [Control(key, description, group)];
    }

    /** `AddMultiple`: the given controls, in order, at the end. */
    method AddMultiple(more: seq<Control>)
      modifies this
      ensures controls == old(controls) + more
      ensures width == old(width)
    {
      controls := controls + more;
    }

    /** `Render`, as a layout of the parts: none for an empty set, all on one
        line when the joined bar fits in the width less the box's 4 columns,
        and the greedy wrap otherwise. `widths` are the measured widths of the
        parts, one per control. */
    method Render(widths: seq<int>) returns (lines: seq<seq<nat>>)
      requires |widths| == |controls|
      requires forall j :: 0 <= j < |widths| ==> widths[j] >= 1
      ensures controls == [] ==> lines == []
      ensures controls != [] && LineWidth(widths, Indices(|widths|)) <= width - 4 ==> lines == [Indices(|widths|)]
      ensures controls != [] && LineWidth(widths, Indices(|widths|)) > width - 4 ==> GreedyLayout(widths, width - 4, lines)
    {
      if |controls| == 0 {
        return [];
      }
      if LineWidth(widths, Indices(|widths|)) > width - 4 {
        lines := Wrap(widths, width - 4);
      } else {
        lines := [Indices(|widths|)];
      }
    }
  }

  /** The hints of the file list that only its simple mode shows when there
      are files. */
  function FileControls(hasFiles: bool): seq<Control> {
    if hasFiles then [Control("space", "stage/unstage", "files"), Control("x", "discard changes", "files")] else []
  }

  /** The hint of the file list for a commit, shown when something is staged. */
  function CommitControls(staged: bool): seq<Control> {
    if staged then [Control("c", "commit", "files")] else []
  }

  const SimpleModeControls := [Control("a", "stage all", "files"), Control("r", "refresh", "files"),
    Control("f", "fetch", "git"), Control("l", "pull", "git"), Control("p", "push", "git"),
    Control("b", "branches", "nav"), Control("m", "remotes", "nav"), Control("?", "help", "general")]

  const AdvancedModeControls := [Control("L", "log graph", "advanced"), Control("M", "merge", "advanced"),
    Control("R", "rebase", "advanced"), Control("S", "stash", "advanced"), Control("esc", "exit advanced", "mode"),
    Control("?", "help", "general")]

  /** The hints of the file list. */
  function FileViewControls(staged: bool, hasFiles: bool, advancedMode: bool): seq<Control>
  {
    [Control("↑/↓", "navigate", "navigation")]
    + (if !advancedMode then FileControls(hasFiles) + CommitControls(staged) + SimpleModeControls
       else AdvancedModeControls)
  }

  /** The simple-mode file list: navigation, the file actions, commit, then
      the fixed simple-mode hints. */
  lemma SimpleFileView(staged: bool, hasFiles: bool)
    ensures FileViewControls(staged, hasFiles, false)
      == [Control("↑/↓", "navigate", "navigation")] + FileControls(hasFiles) + (CommitControls(staged) + SimpleModeControls)
  {
  }

  /** Neither file action is among the hints after them. */
  lemma FileActionsOnlyOnce(staged: bool)
    ensures Control("space", "stage/unstage", "files") !in CommitControls(staged) + SimpleModeControls
    ensures Control("x", "discard changes", "files") !in CommitControls(staged) + SimpleModeControls
  {
    assert Control("space", "stage/unstage", "files") !in SimpleModeControls;
    assert Control("x", "discard changes", "files") !in SimpleModeControls;
  }

  /** In simple mode, space and x are offered exactly when there are files. */
  lemma FileActionsNeedFiles(staged: bool, hasFiles: bool)
    ensures Control("space", "stage/unstage", "files") in FileViewControls(staged, hasFiles, false) <==> hasFiles
    ensures Control("x", "discard changes", "files") in FileViewControls(staged, hasFiles, false) <==> hasFiles
  {
    SimpleFileView(staged, hasFiles);
    FileActionsOnlyOnce(staged);
  }

  /** In simple mode, commit is offered exactly when something is staged. */
  lemma CommitNeedsStaged(staged: bool, hasFiles: bool)
    ensures Control("c", "commit", "files") in FileViewControls(staged, hasFiles, false) <==> staged
  {
    SimpleFileView(staged, hasFiles);
    assert Control("c", "commit", "files") !in SimpleModeControls + FileControls(hasFiles);
  }

  /** Simple mode offers help, and leaves merge to advanced mode. */
  lemma SimpleModeHelp(staged: bool, hasFiles: bool)
    ensures Control("M", "merge", "advanced") !in FileViewControls(staged, hasFiles, false)
    ensures Control("?", "help", "general") in FileViewControls(staged, hasFiles, false)
  {
    SimpleFileView(staged, hasFiles);
    assert Control("?", "help", "general") == SimpleModeControls[7];
  }

  /** In advanced mode the file actions give way to log graph, merge, rebase
      and stash; help is still offered. */
  lemma AdvancedFileViewKeys(staged: bool, hasFiles: bool)
    ensures Control("space", "stage/unstage", "files") !in FileViewControls(staged, hasFiles, true)
    ensures Control("x", "discard changes", "files") !in FileViewControls(staged, hasFiles, true)
    ensures Control("c", "commit", "files") !in FileViewControls(staged, hasFiles, true)
    ensures Control("M", "merge", "advanced") in FileViewControls(staged, hasFiles, true)
    ensures Control("?", "help", "general") in FileViewControls(staged, hasFiles, true)
  {
    var nav := Control("↑/↓", "navigate", "navigation");
    assert FileViewControls(staged, hasFiles, true) == [nav] + AdvancedModeControls;
    assert Control("M", "merge", "advanced") == AdvancedModeControls[1];
    assert Control("?", "help", "general") == AdvancedModeControls[5];
  }

  /** The hints of simple mode after navigation, added one by one. */
  method AddSimpleModeControls(cs: ControlSet, staged: bool, hasFiles: bool)
    modifies cs
    ensures cs.controls == old(cs.controls) + FileControls(hasFiles) + CommitControls(staged) + SimpleModeControls
    ensures cs.width == old(cs.width)
  {
    if hasFiles {
      cs.Add("space", "stage/unstage", "files");
      cs.Add("x", "discard changes", "files");
    }
    if staged {
      cs.Add("c", "commit", "files");
    }
    AddSimpleModeTail(cs);
  }

  /** The hints simple mode always shows, added one by one. */
  method AddSimpleModeTail(cs: ControlSet)
    modifies cs
    ensures cs.controls == old(cs.controls) + SimpleModeControls
    ensures cs.width == old(cs.width)
  {
    cs.Add("a", "stage all", "files");
    cs.Add("r", "refresh", "files");
    cs.Add("f", "fetch", "git");
    cs.Add("l", "pull", "git");
    cs.Add("p", "push", "git");
    cs.Add("b", "branches", "nav");
    cs.Add("m", "remotes", "nav");
    cs.Add("?", "help", "general");
  }

  /** The hints of advanced mode after navigation, added one by one. */
  method AddAdvancedModeControls(cs: ControlSet)
    modifies cs
    ensures cs.controls == old(cs.controls) + AdvancedModeControls
    ensures cs.width == old(cs.width)
  {
    cs.Add("L", "log graph", "advanced");
    cs.Add("M", "merge", "advanced");
    cs.Add("R", "rebase", "advanced");
    cs.Add("S", "stash", "advanced");
    cs.Add("esc", "exit advanced", "mode");
    cs.Add("?", "help", "general");
  }

  /** `NewFileViewControls`. */
  method NewFileViewControls(staged: bool, hasFiles: bool, advancedMode: bool, size: Result<int>) returns (cs: ControlSet)
    ensures fresh(cs)
    ensures cs.controls == FileViewControls(staged, hasFiles, advancedMode) && cs.width == TerminalWidth(size)
  {
    cs := new ControlSet(size);
    cs.Add("↑/↓", "navigate", "navigation");
    if !advancedMode {
      AddSimpleModeControls(cs, staged, hasFiles);
    } else {
      AddAdvancedModeControls(cs);
    }
  }

  /** The hints of the merge screen, or of the rebase screen with `action`
      "R": the action is offered only once a branch is selected. */
  function SelectionControls(action: Control, hasSelection: bool): seq<Control>
  {
    [Control("↑/↓", "navigate", "navigation"), Control("enter", "select branch", "actions")]
    + (if hasSelection then [action] else [])
    + [Control("esc", "cancel", "navigation")]
  }

  const MergeControl := Control("M", "merge", "actions")
  const RebaseControl := Control("R", "rebase", "actions")

  /** The merge and rebase actions appear exactly when there is a
      selection. */
  lemma SelectionKeys(hasSelection: bool)
    ensures MergeControl in SelectionControls(MergeControl, hasSelection) <==> hasSelection
    ensures RebaseControl in SelectionControls(RebaseControl, hasSelection) <==> hasSelection
    ensures |SelectionControls(MergeControl, hasSelection)| == if hasSelection then 4 else 3
  {
  }

  /** `NewMergeViewControls`. */
  method NewMergeViewControls(hasSelection: bool, size: Result<int>) returns (cs: ControlSet)
    ensures fresh(cs)
    ensures cs.controls == SelectionControls(MergeControl, hasSelection) && cs.width == TerminalWidth(size)
  {
    cs := new ControlSet(size);
    cs.Add("↑/↓", "navigate", "navigation");
    cs.Add("enter", "select branch", "actions");
    if hasSelection {
      cs.Add("M", "merge", "actions");
    }
    cs.Add("esc", "cancel", "navigation");
  }

  /** `NewRebaseViewControls`. */
  method NewRebaseViewControls(hasSelection: bool, size: Result<int>) returns (cs: ControlSet)
    ensures fresh(cs)
    ensures cs.controls == SelectionControls(RebaseControl, hasSelection) && cs.width == TerminalWidth(size)
  {
    cs := new ControlSet(size);
    cs.Add("↑/↓", "navigate", "navigation");
    cs.Add("enter", "select branch", "actions");
    if hasSelection {
      cs.Add("R", "rebase", "actions");
    }
    cs.Add("esc", "cancel", "navigation");
  }

  /** The hints of the stash screen. */
  function StashViewControls(hasChanges: bool, hasStashes: bool): seq<Control>
  {
    (if hasStashes then
       [Control("↑/↓", "navigate", "navigation"), Control("enter", "apply stash", "actions"),
        Control("p", "pop stash", "actions"), Control("d", "drop stash", "actions"),
        Control("v", "view stash", "actions")]
     else [])
    + (if hasChanges then [Control("s", "save stash", "actions")] else [])
    + [Control("esc", "back", "navigation"), Control("?", "help", "general")]
  }

  /** Apply, pop, drop and view are offered only with stashes, save only
      with changes; back and help always. */
  lemma StashViewKeys(hasChanges: bool, hasStashes: bool)
    ensures Control("p", "pop stash", "actions") in StashViewControls(hasChanges, hasStashes) <==> hasStashes
    ensures Control("s", "save stash", "actions") in StashViewControls(hasChanges, hasStashes) <==> hasChanges
    ensures Control("esc", "back", "navigation") in StashViewControls(hasChanges, hasStashes)
  {
  }

  /** `NewStashViewControls`. */
  method NewStashViewControls(hasChanges: bool, hasStashes: bool, size: Result<int>) returns (cs: ControlSet)
    ensures fresh(cs)
    ensures cs.controls == StashViewControls(hasChanges, hasStashes) && cs.width == TerminalWidth(size)
  {
    cs := new ControlSet(size);
    if hasStashes {
      cs.Add("↑/↓", "navigate", "navigation");
      cs.Add("enter", "apply stash", "actions");
      cs.Add("p", "pop stash", "actions");
      cs.Add("d", "drop stash", "actions");
      cs.Add("v", "view stash", "actions");
    }
    if hasChanges {
      cs.Add("s", "save stash", "actions");
    }
    cs.Add("esc", "back", "navigation");
    cs.Add("?", "help", "general");
  }
}
