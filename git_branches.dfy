/** The branch list: `GitClient.GetBranches` parses the output of `git branch`,
    where the checked-out branch is the line marked with "* ". */
module GitBranches {
  import opened Wrappers
  import opened Text

  /** The trimmed line starts with the marker "* ". */
  predicate Marked(t: string) {
    |t| >= 2 && t[0] == '*' && t[1] == ' '
  }

  /** The line names the checked-out branch. */
  predicate IsCurrentLine(line: string) {
    Marked(TrimSpace(line))
  }

  /** The branch a `git branch` line names: the trimmed line, without the
      marker when it carries one. */
  function BranchName(line: string): (name: string)
    ensures IsCurrentLine(line) ==> name == TrimSpace(line)[2..]
    ensures !IsCurrentLine(line) ==> name == TrimSpace(line)
  {
    var t := TrimSpace(line);
    if Marked(t) then t[2..] else t
  }

  /** The branch of the last marked line among the first `n` lines, or "" when
      none of them is marked. */
  function CurrentOf(lines: seq<string>, n: nat): string
    requires n <= |lines|
  {
    if n == 0 then ""
    else if IsCurrentLine(lines[n - 1]) then BranchName(lines[n - 1])
    else CurrentOf(lines, n - 1)
  }

  /** The lines of the trimmed output, as `GetBranches` reads them. */
  function BranchLines(out: string): seq<string> {
    Split(TrimSpace(out), '\n')
  }

  /** The body of the loop of `GitClient.GetBranches`: the trimmed line, and
      whether it carries the marker, which is then cut off. */
  method ReadLine(line: string) returns (name: string, marked: bool)
    ensures marked == IsCurrentLine(line) && name == BranchName(line)
  {
    var t := TrimSpace(line);
    marked := HasPrefix(t, "* ");
    assert marked ==> t[..2][1] == ' ';
    if marked {
      name := t[2..];
    } else {
      name := t;
    }
  }

  /** `GitClient.GetBranches`: a failed command yields no branches and no
      current branch; otherwise one branch per line of the trimmed output, in
      order, and the branch of the last marked line as the current one. */
  method GetBranches(output: Result<string>) returns (branches: seq<string>, current: string)
    ensures output.Err? ==> branches == [] && current == ""
    ensures output.Ok? ==> |branches| == |BranchLines(output.value)|
    ensures output.Ok? ==> forall k :: 0 <= k < |branches| ==> branches[k] == BranchName(BranchLines(output.value)[k])
    ensures output.Ok? ==> current == CurrentOf(BranchLines(output.value), |BranchLines(output.value)|)
  {
    if output.Err? {
      return [], "";
    }
    branches, current := ReadLines(BranchLines(output.value));
  }

  /** The loop of `GitClient.GetBranches` over the lines. */
  method ReadLines(lines: seq<string>) returns (branches: seq<string>, current: string)
    ensures |branches| == |lines|
    ensures forall k :: 0 <= k < |lines| ==> branches[k] == BranchName(lines[k])
    ensures current == CurrentOf(lines, |lines|)
  {
    branches := [];
    current := "";
    var i := 0;
    while i < |lines|
      invariant 0 <= i <= |lines|
      invariant |branches| == i
      invariant forall k :: 0 <= k < i ==> branches[k] == BranchName(lines[k])
      invariant current == CurrentOf(lines, i)
    {
      branches, current := ReadStep(lines, i, branches, current);
      i := i + 1;
    }
  }

  /** One pass of that loop: line `i` adds its branch, and becomes the
      current one when it is marked. */
  method ReadStep(lines: seq<string>, i: nat, branches: seq<string>, current: string)
    returns (branches': seq<string>, current': string)
    requires i < |lines| && |branches| == i
    requires forall k :: 0 <= k < i ==> branches[k] == BranchName(lines[k])
    requires current == CurrentOf(lines, i)
    ensures |branches'| == i + 1
    ensures forall k :: 0 <= k < i + 1 ==> branches'[k] == BranchName(lines[k])
    ensures current' == CurrentOf(lines, i + 1)
  {
    var name, marked := ReadLine(lines[i]);
    current' := if marked then name else current;
    branches' := branches + [name];
    forall k | 0 <= k < i + 1
      ensures branches'[k] == BranchName(lines[k])
    {
      if k < i {
        assert branches'[k] == branches[k];
      }
    }
  }

  /** With no marked line there is no current branch. */
  lemma {:induction false} CurrentOfUnmarked(lines: seq<string>, n: nat)
    requires n <= |lines|
    requires forall k :: 0 <= k < n ==> !IsCurrentLine(lines[k])
    ensures CurrentOf(lines, n) == ""
  {
    if n > 0 {
      CurrentOfUnmarked(lines, n - 1);
    }
  }

  /** The current branch is the one of the last marked line. */
  lemma {:induction false} CurrentOfLastMarked(lines: seq<string>, n: nat, j: int)
    requires n <= |lines|
    requires 0 <= j < n && IsCurrentLine(lines[j])
    requires forall k :: j < k < n ==> !IsCurrentLine(lines[k])
    ensures CurrentOf(lines, n) == BranchName(lines[j])
  {
    if j < n - 1 {
      CurrentOfLastMarked(lines, n - 1, j);
    }
  }

  /** A marked line always names a non-empty branch. */
  lemma MarkedNameNonEmpty(line: string)
    requires IsCurrentLine(line)
    ensures BranchName(line) != ""
  {
    var t := TrimSpace(line);
    TrimEnds(line, WhiteSpace);
    assert t[..2] == "* ";
    assert |t| != 2;
  }

  /** The empty output of a repository without commits gives one empty branch
      name and no current branch. */
  lemma EmptyOutput()
    ensures Split(TrimSpace(""), '\n') == [""]
    ensures BranchName("") == "" && CurrentOf([""], 1) == ""
  {
    assert TrimSpace("") == "";
    assert !IsCurrentLine("");
  }

  /** The two line shapes `git branch` prints give back the branch name. */
  lemma BranchLineRoundTrip(w: string)
    requires IsWord(w)
    ensures IsCurrentLine("* " + w) && BranchName("* " + w) == w
    ensures !IsCurrentLine("  " + w) && BranchName("  " + w) == w
  {
    MarkedWordTrimmed(w);
    IndentedWordTrimmed(w);
    assert ("* " + w)[2..] == w;
    assert ("* " + w)[..2] == "* ";
    if |w| >= 2 {
      assert w[..2][1] == w[1] != ' ';
    }
  }

  lemma MarkedWordTrimmed(w: string)
    requires IsWord(w)
    ensures TrimSpace("* " + w) == "* " + w
  {
    var s := "* " + w;
    assert TrimLeft(s, WhiteSpace) == s;
    assert s[|s| - 1] == w[|w| - 1];
    assert TrimRight(s, WhiteSpace) == s;
  }

  lemma IndentedWordTrimmed(w: string)
    requires IsWord(w)
    ensures TrimSpace("  " + w) == w
  {
    var s := "  " + w;
    assert s[1..] == " " + w;
    assert (" " + w)[1..] == w;
    assert TrimLeft(w, WhiteSpace) == w;
    assert TrimLeft(s, WhiteSpace) == w;
    assert TrimRight(w, WhiteSpace) == w;
  }
}
