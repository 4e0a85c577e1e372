/** Staging from the file list: space stages or unstages the file under the
    cursor, "a" stages every file that is not staged yet. Each change to the
    index is a `git add` or `git reset` of that file. */
module Staging {
  import opened GitFiles
  import opened Messages

  /** The list with every entry staged and nothing else changed. */
  function AllStaged(files: seq<FileItem>): (r: seq<FileItem>)
    ensures |r| == |files|
    ensures forall i :: 0 <= i < |files| ==> r[i] == files[i].(staged := true)
  {
    seq(|files|, i requires 0 <= i < |files| => files[i].(staged := true))
  }

  /** The `git add` calls staging all of `files` makes: one per entry not yet
      staged, in list order. */
  function AddCalls(files: seq<FileItem>): (calls: seq<Call>)
    ensures |calls| <= |files|
  {
    if files == [] then []
    else
      var last := files[|files| - 1];
      AddCalls(files[..|files| - 1]) + (if last.staged then [] else [Add(last.name)])
  }

  /** Some entry named `name` is not staged. */
  predicate HasUnstaged(files: seq<FileItem>, name: string) {
    exists i :: 0 <= i < |files| && !files[i].staged && files[i].name == name
  }

  /** `git add` is called for a name exactly when some entry of that name was
      not staged. */
  lemma {:induction false} AddCallsMembers(files: seq<FileItem>, name: string)
    ensures Add(name) in AddCalls(files) <==> HasUnstaged(files, name)
  {
    if files != [] {
      var init := files[..|files| - 1];
      var last := files[|files| - 1];
      AddCallsMembers(init, name);
      assert AddCalls(files) == AddCalls(init) + (if last.staged then [] else [Add(last.name)]);
      HasUnstagedSnoc(init, last, name);
      assert files == init + [last];
    }
  }

  /** An entry added at the end is unstaged under `name` exactly when it is
      itself, or one before it was. */
  lemma HasUnstagedSnoc(init: seq<FileItem>, last: FileItem, name: string)
    ensures HasUnstaged(init + [last], name) <==> HasUnstaged(init, name) || (!last.staged && last.name == name)
  {
    var files := init + [last];
    if HasUnstaged(init, name) {
      var i :| 0 <= i < |init| && !init[i].staged && init[i].name == name;
      assert files[i] == init[i];
    }
    if !last.staged && last.name == name {
      assert files[|init|] == last;
    }
    if HasUnstaged(files, name) {
      var i :| 0 <= i < |files| && !files[i].staged && files[i].name == name;
      if i < |init| {
        assert init[i] == files[i];
      }
    }
  }

  /** Only `git add` is called, never `git reset`. */
  lemma {:induction false} AddCallsOnlyAdd(files: seq<FileItem>)
    ensures forall k :: 0 <= k < |AddCalls(files)| ==> AddCalls(files)[k].Add?
  {
    if files != [] {
      AddCallsOnlyAdd(files[..|files| - 1]);
    }
  }

  /** Once every entry is staged, staging all again calls nothing. */
  lemma {:induction false} StageAllTwiceCallsNothing(files: seq<FileItem>)
    ensures AddCalls(AllStaged(files)) == []
  {
    if files != [] {
      var init := files[..|files| - 1];
      StageAllTwiceCallsNothing(init);
      assert AllStaged(files)[..|files| - 1] == AllStaged(init);
    }
  }

  /** The loop of "a": each entry that is not staged is marked staged and
      added, in list order. */
  method StageAll(files: seq<FileItem>) returns (staged: seq<FileItem>, calls: seq<Call>)
    ensures staged == AllStaged(files)
    ensures calls == AddCalls(files)
  {
    staged, calls := files, [];
    var i := 0;
    while i < |staged|
      invariant 0 <= i <= |staged| == |files|
      invariant staged[..i] == AllStaged(files)[..i] && staged[i..] == files[i..]
      invariant calls == AddCalls(files[..i])
    {
      assert files[..i + 1][..i] == files[..i];
      if !staged[i].staged {
        staged := staged[i := staged[i].(staged := true)];
        calls := calls + [Add(staged[i].name)];
      }
      i := i + 1;
    }
    assert files[..i] == files;
  }

  /** The list after space on the entry at `cursor`, as a value. */
  function Toggled(files: seq<FileItem>, cursor: nat): (r: seq<FileItem>)
    requires cursor < |files|
    ensures |r| == |files|
  {
    files[cursor := files[cursor].(staged := !files[cursor].staged)]
  }

  /** Space on the entry at `cursor`: its staged mark flips, and the file is
      added when it is now staged and reset when it is not. Every other entry
      is left as it was. */
  method Toggle(files: seq<FileItem>, cursor: nat) returns (r: seq<FileItem>, call: Call)
    requires cursor < |files|
    ensures |r| == |files| && r[cursor].staged == !files[cursor].staged
    ensures r[cursor] == files[cursor].(staged := r[cursor].staged)
    ensures forall i :: 0 <= i < |files| && i != cursor ==> r[i] == files[i]
    ensures call == (if r[cursor].staged then Add(files[cursor].name) else Reset(files[cursor].name))
    ensures r == Toggled(files, cursor)
  {
    var f := files[cursor];
    f := f.(staged := !f.staged);
    r := files[cursor := f];
    if f.staged {
      call := Add(f.name);
    } else {
      call := Reset(f.name);
    }
  }

  /** Toggling the same entry twice restores the list. */
  lemma ToggleTwiceRestores(files: seq<FileItem>, cursor: nat)
    requires cursor < |files|
    ensures Toggled(Toggled(files, cursor), cursor) == files
  {
    var t := Toggled(files, cursor);
    assert t[cursor].staged == !files[cursor].staged;
    assert Toggled(t, cursor)[cursor] == files[cursor];
  }
}
