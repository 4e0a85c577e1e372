/** The arithmetic and text handling behind the stash, commit-graph and
    repository screens: which lines are on screen, and how a stash line is
    shortened for display. Styling and terminal output are not modelled. */
module Views {
  import opened Wrappers
  import opened Text
  import opened TuiModel

  /** `hasUnstagedChanges`: whether there is anything to stash. Any listed
      file counts, staged ones included. */
  predicate HasUnstagedChanges(m: Model) {
    |m.files| > 0
  }

  /** A file list made only of staged files still counts as changes to stash. */
  lemma StagedFilesCountAsChanges(m: Model)
    requires |m.files| > 0 && forall k :: 0 <= k < |m.files| ==> m.files[k].staged
    ensures HasUnstagedChanges(m)
  {
  }

  /** `parseStashInfo`: "stash@{0}: WIP on main: 1234567 message" is shown
      without the commit hash. A line that does not have three ": "-separated
      parts, or whose third part has no space, is shown as it is. */
  function ParseStashInfo(line: string): (r: string)
    ensures r == line || |r| < |line|
  {
    var parts := SplitN(line, ": ", 3);
    if |parts| >= 3 then
      var commitParts := SplitN(parts[2], " ", 2);
      if |commitParts| >= 2 then
        JoinPrefix(parts, commitParts);
        parts[0] + ": " + parts[1] + ": " + commitParts[1]
      else
        JoinThree(parts);
        parts[0] + ": " + parts[1] + ": " + parts[2]
    else line
  }

  /** The three pieces of a three-way split, put back together. */
  lemma JoinThree(parts: seq<string>)
    requires |parts| == 3
    ensures Join(parts, ": ") == parts[0] + ": " + parts[1] + ": " + parts[2]
  {
    var tail := parts[1..];
    assert tail[1..] == [parts[2]];
    assert Join(tail, ": ") == parts[1] + ": " + Join([parts[2]], ": ");
  }

  /** Dropping the hash and its space shortens the line. */
  lemma JoinPrefix(parts: seq<string>, commitParts: seq<string>)
    requires |parts| == 3 && |commitParts| == 2 && Join(commitParts, " ") == parts[2]
    ensures |parts[0] + ": " + parts[1] + ": " + commitParts[1]| < |Join(parts, ": ")|
  {
    JoinThree(parts);
    assert commitParts[1..] == [commitParts[1]];
  }

  /** A separator whose first character does not occur in `a` is found right
      after `a`. */
  lemma {:induction false} IndexAfter(a: string, sep: string, b: string)
    requires sep != [] && sep[0] !in a
    ensures Index(a + sep + b, sep) == |a|
  {
    var s := a + sep + b;
    assert s[|a|..|a| + |sep|] == sep;
    assert MatchAt(s, sep, |a|);
  }

  /** A text without the separator's first character is not split. */
  lemma {:induction false} IndexAbsent(a: string, sep: string)
    requires sep != [] && sep[0] !in a
    ensures Index(a, sep) == -1
  {
  }

  /** A stash line is cut into its reference, its description and the commit
      line when neither of the first two holds a colon. */
  lemma StashLineParts(ref: string, wip: string, commit: string)
    requires ':' !in ref && ':' !in wip
    ensures SplitN(ref + ": " + wip + ": " + commit, ": ", 3) == [ref, wip, commit]
  {
    var s := ref + ": " + wip + ": " + commit;
    assert s == ref + ": " + (wip + ": " + commit);
    IndexAfter(ref, ": ", wip + ": " + commit);
    assert s[|ref| + 2..] == wip + ": " + commit;
    IndexAfter(wip, ": ", commit);
    assert (wip + ": " + commit)[|wip| + 2..] == commit;
  }

  /** The hash, the first word of the commit line, is dropped. */
  lemma StashInfoDropsHash(ref: string, wip: string, hash: string, msg: string)
    requires ':' !in ref && ':' !in wip && ' ' !in hash
    ensures ParseStashInfo(ref + ": " + wip + ": " + hash + " " + msg) == ref + ": " + wip + ": " + msg
  {
    var commit := hash + " " + msg;
    var line := ref + ": " + wip + ": " + commit;
    assert line == ref + ": " + wip + ": " + hash + " " + msg;
    StashLineParts(ref, wip, commit);
    CommitLineParts(hash, msg);
    assert ParseStashInfo(line) == ref + ": " + wip + ": " + msg;
  }

  /** The commit line is cut at its first space. */
  lemma CommitLineParts(hash: string, msg: string)
    requires ' ' !in hash
    ensures SplitN(hash + " " + msg, " ", 2) == [hash, msg]
  {
    IndexAfter(hash, " ", msg);
    assert (hash + " " + msg)[|hash| + 1..] == msg;
  }

  /** A commit line of one word is kept, and so is the whole line. */
  lemma StashInfoOneWord(ref: string, wip: string, commit: string)
    requires ':' !in ref && ':' !in wip && ' ' !in commit
    ensures ParseStashInfo(ref + ": " + wip + ": " + commit) == ref + ": " + wip + ": " + commit
  {
    StashLineParts(ref, wip, commit);
    IndexAbsent(commit, " ");
  }

  /** A line without ": " is shown as it is. */
  lemma StashInfoUnparsed(line: string)
    requires ':' !in line
    ensures ParseStashInfo(line) == line
  {
    IndexAbsent(line, ": ");
  }

  /** The smaller of two numbers. */
  function Min(a: int, b: int): (r: int)
    ensures r <= a && r <= b && (r == a || r == b)
  {
    if a < b then a else b
  }

  /** The greater of two numbers. */
  function Max(a: int, b: int): (r: int)
    ensures r >= a && r >= b && (r == a || r == b)
  {
    if a > b then a else b
  }

  /** Lines of the commit graph on screen at once. */
  const LogGraphViewport := 15

  /** Repositories on screen at once. */
  const RepositoryViewport := 12

  /** The lines `[start, end)` on screen: the selection is placed half a
      window below the top where it can be, and the window is pulled back when
      it would run past the end. */
  function Window(selected: int, total: nat, viewport: nat): (w: (int, int))
    requires viewport > 0
    ensures 0 <= w.0 <= w.1 <= total
    ensures w.1 - w.0 <= viewport
    ensures total >= viewport ==> w.1 - w.0 == viewport
    ensures total < viewport ==> w == (0, total)
    ensures 0 <= selected < total ==> w.0 <= selected < w.1
  {
    var start := if selected >= viewport / 2 then selected - viewport / 2 else 0;
    var start := if start + viewport > total then Max(0, total - viewport) else start;
    (start, Min(total, start + viewport))
  }

  /** What the commit-graph screen lists: nothing but a notice when there are
      no lines, otherwise a window of lines. */
  datatype Listing = NoLines | Lines(start: int, end: int)

  /** The listing of `RenderLogGraphView`: at most 15 lines, always showing the
      cursor's line, and exactly 15 once there are that many. */
  function LogGraphListing(m: Model): (l: Listing)
    ensures l.NoLines? <==> |m.logLines| == 0
    ensures l.Lines? ==> 0 <= l.start <= l.end <= |m.logLines| && l.end - l.start <= LogGraphViewport
    ensures l.Lines? && 0 <= m.cursor < |m.logLines| ==> l.start <= m.cursor < l.end
    ensures |m.logLines| >= LogGraphViewport ==> l.Lines? && l.end - l.start == LogGraphViewport
  {
    if |m.logLines| == 0 then NoLines
    else
      var w := Window(m.cursor, |m.logLines|, LogGraphViewport);
      Lines(w.0, w.1)
  }

  /** The position shown under the graph: the cursor counted from one, and
      the number of lines. */
  function LogGraphPosition(m: Model): (p: (int, int))
    ensures p.1 == |m.logLines|
    ensures 0 <= m.cursor < |m.logLines| ==> 1 <= p.0 <= p.1
  {
    (m.cursor + 1, |m.logLines|)
  }

  /** The "(i/n)" counter of the repository list header: present exactly
      when there are repositories, the selection counted from one. */
  function RepositoryCounter(m: Model): (c: Option<(int, int)>)
    ensures c.Some? <==> |m.repositories| > 0
    ensures c.Some? && 0 <= m.selectedRepoIndex < |m.repositories| ==> 1 <= c.value.0 <= c.value.1
    ensures c.Some? ==> c.value.1 == |m.repositories|
  {
    if |m.repositories| > 0 then Some((m.selectedRepoIndex + 1, |m.repositories|)) else None
  }

  /** A row of the repository list: a repository, or the description printed
      under the selected one. */
  datatype RepositoryRow = RepoRow(index: nat, selected: bool) | DescriptionRow(index: nat)

  /** The rows written for repository `i`: its own, and its description
      when it is the selected one and has a description. */
  function RowsOf(repos: seq<Repository>, selected: int, i: nat): (rows: seq<RepositoryRow>)
    requires i < |repos|
  {
    [RepoRow(i, i == selected)] + (if i == selected && repos[i].description != "" then [DescriptionRow(i)] else [])
  }

  /** The rows written for repositories `start` up to `end`, in order. */
  function RowsBetween(repos: seq<Repository>, selected: int, start: nat, end: nat): (rows: seq<RepositoryRow>)
    requires start <= end <= |repos|
    decreases end - start
  {
    if start == end then [] else RowsBetween(repos, selected, start, end - 1) + RowsOf(repos, selected, end - 1)
  }

  /** A description row appears for a repository exactly when it is the
      selected one, lies in the window and has a description. */
  lemma {:induction false} DescriptionRowOnlyForSelected(repos: seq<Repository>, selected: int, start: nat, end: nat, i: nat)
    requires start <= end <= |repos|
    ensures DescriptionRow(i) in RowsBetween(repos, selected, start, end)
      <==> i == selected && start <= i < end && repos[i].description != ""
  {
    if start < end {
      DescriptionRowOnlyForSelected(repos, selected, start, end - 1, i);
    }
  }

  /** Every repository of the window, and no other, gets a row of its own,
      marked selected exactly when it is the selected one. */
  lemma {:induction false} RepoRowsOfWindow(repos: seq<Repository>, selected: int, start: nat, end: nat, i: nat, marked: bool)
    requires start <= end <= |repos|
    ensures RepoRow(i, marked) in RowsBetween(repos, selected, start, end)
      <==> start <= i < end && marked == (i == selected)
  {
    if start < end {
      RepoRowsOfWindow(repos, selected, start, end - 1, i, marked);
    }
  }

  /** The loop of `RenderRepositoryListView` over the window, writing one row
      per repository and the description under the selected one. An empty
      list writes no rows. */
  method RepositoryRows(m: Model) returns (rows: seq<RepositoryRow>)
    ensures |m.repositories| == 0 ==> rows == []
    ensures |m.repositories| > 0 ==>
      rows == RowsBetween(m.repositories, m.selectedRepoIndex,
                          Window(m.selectedRepoIndex, |m.repositories|, RepositoryViewport).0,
                          Window(m.selectedRepoIndex, |m.repositories|, RepositoryViewport).1)
  {
    rows := [];
    if |m.repositories| == 0 {
      return;
    }
    var w := Window(m.selectedRepoIndex, |m.repositories|, RepositoryViewport);
    var i := w.0;
    while i < w.1
      invariant w.0 <= i <= w.1
      invariant rows == RowsBetween(m.repositories, m.selectedRepoIndex, w.0, i)
    {
      rows := rows + [RepoRow(i, i == m.selectedRepoIndex)];
      if i == m.selectedRepoIndex && m.repositories[i].description != "" {
        rows := rows + [DescriptionRow(i)];
      }
      i := i + 1;
    }
  }
}
