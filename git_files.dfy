/** The working-tree file list: `GitClient.GetModifiedFiles` parses the output of
    `git status --porcelain` and marks the entries that
    `git diff --cached --name-status` lists as staged. Both outputs are inputs
    here; running the commands is not part of the model. */
module GitFiles {
  import opened Wrappers
  import opened Text

  /** One changed path of the working tree. */
  datatype FileItem = FileItem(name: string, status: string, staged: bool, selected: bool)

  /** The lines of a command output as the parser sees them: none for an empty
      output, otherwise the white-space-trimmed output split at each newline. */
  function OutputLines(out: string): (lines: seq<string>)
    ensures out == [] ==> lines == []
    ensures out != [] ==> |lines| >= 1 && Join(lines, "\n") == TrimSpace(out)
    ensures forall k :: 0 <= k < |lines| ==> '\n' !in lines[k]
  {
    if out == [] then []
    else
      JoinSplit(TrimSpace(out), '\n');
      Split(TrimSpace(out), '\n')
  }

  /** The path a `--name-status` line marks as staged: its second field. */
  function StagedName(line: string): (r: Option<string>)
    ensures r.Some? <==> |Fields(line)| >= 2
    ensures r.Some? ==> IsWord(r.value)
  {
    var parts := Fields(line);
    FieldsAreWords(line);
    if |parts| >= 2 then Some(parts[1]) else None
  }

  /** Some line of the staged diff names `name` as its second field. */
  predicate MarkedStaged(stagedLines: seq<string>, name: string) {
    exists k :: 0 <= k < |stagedLines| && StagedName(stagedLines[k]) == Some(name)
  }

  /** The paths the staged diff names, gathered line by line. */
  function StagedSet(stagedLines: seq<string>): set<string> {
    if stagedLines == [] then {}
    else
      var init := stagedLines[..|stagedLines| - 1];
      match StagedName(stagedLines[|stagedLines| - 1])
      case Some(n) => StagedSet(init) + {n}
      case None => StagedSet(init)
  }

  /** A path is in the staged set exactly when some staged-diff line names it. */
  lemma {:induction false} StagedSetMembers(stagedLines: seq<string>, name: string)
    ensures name in StagedSet(stagedLines) <==> MarkedStaged(stagedLines, name)
  {
    if stagedLines != [] {
      var init := stagedLines[..|stagedLines| - 1];
      var last := |stagedLines| - 1;
      StagedSetMembers(init, name);
      if MarkedStaged(init, name) {
        var k :| 0 <= k < |init| && StagedName(init[k]) == Some(name);
        assert StagedName(stagedLines[k]) == Some(name);
      }
      if MarkedStaged(stagedLines, name) {
        var k :| 0 <= k < |stagedLines| && StagedName(stagedLines[k]) == Some(name);
        if k < last {
          assert StagedName(init[k]) == Some(name);
        }
      }
    }
  }

  /** The porcelain lines long enough to hold a two-letter status, a blank and a
      path, in their original order. Go's `len` counts bytes, so a line is
      measured in UTF-8 bytes. */
  function Kept(lines: seq<string>): (r: seq<string>)
    ensures |r| <= |lines|
    ensures forall k :: 0 <= k < |r| ==> ByteLength(r[k]) >= 4
  {
    if lines == [] then []
    else
      var last := lines[|lines| - 1];
      Kept(lines[..|lines| - 1]) + (if ByteLength(last) >= 4 then [last] else [])
  }

  /** Exactly the lines of at least four bytes are kept. */
  lemma {:induction false} KeptMembers(lines: seq<string>, x: string)
    ensures x in Kept(lines) <==> x in lines && ByteLength(x) >= 4
  {
    if lines != [] {
      var init := lines[..|lines| - 1];
      KeptMembers(init, x);
      assert lines == init + [lines[|lines| - 1]];
    }
  }

  /** The status and path a kept porcelain line holds: the status letters
      without blanks, and the fields after the first joined by single spaces
      (or the text after column 3 when there is only one field). Columns are
      counted in characters; they are Go's byte columns whenever the status
      letters and the blank after them are ASCII. */
  function StatusAndPath(line: string): (r: (string, string))
    ensures |r.0| <= 2
  {
    var fields := Fields(line);
    var name := if |fields| >= 2 then Join(fields[1..], " ")
                else if |line| < 3 then "" else TrimSpace(line[3..]);
    (TrimSpace(if |line| < 2 then line else line[..2]), name)
  }

  /** The entry one kept porcelain line becomes, given the set of staged
      paths. */
  function EntryOf(line: string, staged: set<string>): FileItem
  {
    FileItem(StatusAndPath(line).1, StatusAndPath(line).0, StatusAndPath(line).1 in staged, false)
  }

  /** The first loop of `GitClient.GetModifiedFiles`: the set of paths the
      staged diff names. */
  method CollectStaged(stagedOutput: string) returns (staged: set<string>)
    ensures staged == StagedSet(OutputLines(stagedOutput))
  {
    var lines := OutputLines(stagedOutput);
    staged := {};
    var i := 0;
    while i < |lines|
      invariant 0 <= i <= |lines|
      invariant staged == StagedSet(lines[..i])
    {
      assert lines[..i + 1][..i] == lines[..i];
      var parts := Fields(lines[i]);
      if |parts| >= 2 {
        staged := staged + {parts[1]};
      }
      i := i + 1;
    }
    assert lines[..|lines|] == lines;
  }

  /** One more line of the output adds it to the kept lines when it is long enough. */
  lemma KeptPrefix(lines: seq<string>, i: nat)
    requires i < |lines|
    ensures Kept(lines[..i + 1]) == Kept(lines[..i]) + (if ByteLength(lines[i]) >= 4 then [lines[i]] else [])
  {
    assert lines[..i + 1][..i] == lines[..i];
  }

  /** The second loop of `GitClient.GetModifiedFiles`: one entry per porcelain
      line of at least four bytes, in order. */
  method EntriesOf(lines: seq<string>, staged: set<string>) returns (files: seq<FileItem>)
    ensures |files| == |Kept(lines)|
    ensures forall k :: 0 <= k < |files| ==> files[k] == EntryOf(Kept(lines)[k], staged)
  {
    files := [];
    ghost var kept: seq<string> := [];
    var i := 0;
    while i < |lines|
      invariant 0 <= i <= |lines|
      invariant kept == Kept(lines[..i])
      invariant |files| == |kept|
      invariant forall k :: 0 <= k < |files| ==> files[k] == EntryOf(kept[k], staged)
    {
      var line := lines[i];
      KeptPrefix(lines, i);
      if ByteLength(line) >= 4 {
        var (status, name) := StatusAndPath(line);
        var item := FileItem(name, status, name in staged, false);
        assert item == EntryOf(line, staged);
        files := files + [item];
        kept := kept + [line];
      }
      i := i + 1;
    }
    assert lines[..|lines|] == lines;
  }

  /** `GitClient.GetModifiedFiles`: a failed status command yields no files and
      its error; a failed staged diff is ignored (its output is used as is).
      Otherwise there is one entry per kept porcelain line, in order, staged
      exactly when some staged-diff line names its path. */
  method GetModifiedFiles(stagedOutput: string, status: Result<string>)
    returns (files: seq<FileItem>, err: Option<string>)
    ensures status.Err? ==> files == [] && err == Some(status.error)
    ensures status.Ok? ==> err == None
    ensures status.Ok? ==>
      var kept := Kept(OutputLines(status.value));
      |files| == |kept| &&
      forall k :: 0 <= k < |files| ==>
        files[k] == EntryOf(kept[k], StagedSet(OutputLines(stagedOutput))) &&
        (files[k].staged <==> MarkedStaged(OutputLines(stagedOutput), files[k].name))
  {
    var staged := CollectStaged(stagedOutput);
    if status.Err? {
      return [], Some(status.error);
    }
    files := EntriesOf(OutputLines(status.value), staged);
    forall k | 0 <= k < |files|
      ensures files[k].staged <==> MarkedStaged(OutputLines(stagedOutput), files[k].name)
    {
      StagedSetMembers(OutputLines(stagedOutput), files[k].name);
    }
    err := None;
  }

  /** A porcelain line made of a status whose letters form one field, a blank
      and a path whose words are separated by single spaces yields exactly that
      status and that path. */
  lemma PorcelainLineRoundTrip(xy: string, words: seq<string>, staged: set<string>)
    requires |xy| == 2 && |Fields(xy)| == 1
    requires words != [] && forall k :: 0 <= k < |words| ==> IsWord(words[k])
    ensures var line := xy + " " + Join(words, " ");
      ByteLength(line) >= 4 &&
      EntryOf(line, staged).name == Join(words, " ") &&
      EntryOf(line, staged).status == TrimSpace(xy)
  {
    var path := Join(words, " ");
    var line := xy + " " + path;
    FieldsOfJoin(words);
    assert |path| >= 1 by { JoinLength(words); }
    assert line == xy + [' '] + path;
    FieldsAppendSpace(xy, ' ', path);
    assert StatusAndPath(line).1 == Join(Fields(line)[1..], " ");
    assert Fields(line) == Fields(xy) + words;
    assert Fields(line)[1..] == words;
    assert line[..2] == xy;
  }

  lemma JoinLength(words: seq<string>)
    requires words != [] && forall k :: 0 <= k < |words| ==> IsWord(words[k])
    ensures |Join(words, " ")| >= |words[0]| >= 1
  {
  }

  /** The `--name-status` line of a one-word path names that path. */
  lemma StagedNameOfWord(st: string, path: string)
    requires IsWord(st) && IsWord(path)
    ensures StagedName(st + "\t" + path) == Some(path)
  {
    FieldsOfWord(st);
    FieldsOfWord(path);
    assert st + "\t" + path == st + ['\t'] + path;
    FieldsAppendSpace(st, '\t', path);
  }

  /** A one-word path that the staged diff lists after its status is staged. */
  lemma StagedRoundTrip(st: string, path: string, xy: string)
    requires IsWord(st) && IsWord(path)
    requires |xy| == 2 && |Fields(xy)| == 1
    ensures var line := xy + " " + path;
      ByteLength(line) >= 4 && EntryOf(line, StagedSet([st + "\t" + path])).staged
  {
    var stagedLines := [st + "\t" + path];
    StagedNameOfWord(st, path);
    assert Join([path], " ") == path;
    PorcelainLineRoundTrip(xy, [path], StagedSet(stagedLines));
    assert stagedLines[..0] == [];
  }

  /** The staged diff contributes only the first word of a path that holds
      blanks, so such a file is never shown as staged through its own line. */
  lemma StagedNameFirstWordOnly(st: string, words: seq<string>)
    requires IsWord(st) && |words| >= 2 && forall k :: 0 <= k < |words| ==> IsWord(words[k])
    ensures StagedName(st + "\t" + Join(words, " ")) == Some(words[0])
    ensures words[0] != Join(words, " ")
  {
    var path := Join(words, " ");
    FieldsOfWord(st);
    FieldsOfJoin(words);
    assert st + "\t" + path == st + ['\t'] + path;
    FieldsAppendSpace(st, '\t', path);
    JoinLength(words[1..]);
    assert |path| > |words[0]|;
  }

  /** " M é" trims to "M é": three characters, but four bytes. */
  lemma AccentedLineLength()
    ensures ByteLength("M \U{00E9}") == 4
  {
    var line := "M \U{00E9}";
    assert line[..2][..1] == "M";
    assert line[..2] == "M ";
  }

  /** "M é" splits into the status "M" and the name "é". */
  lemma AccentedLineFields()
    ensures Fields("M \U{00E9}") == ["M", "\U{00E9}"]
  {
    FieldsOfWord("M");
    FieldsOfWord("\U{00E9}");
    assert "M \U{00E9}" == "M" + [' '] + "\U{00E9}";
    FieldsAppendSpace("M", ' ', "\U{00E9}");
  }

  /** A short line with a character beyond ASCII is kept, since Go measures
      it in bytes, and it names the file "é". */
  lemma AccentedLineKept()
    ensures Kept(["M \U{00E9}"]) == ["M \U{00E9}"]
    ensures EntryOf("M \U{00E9}", {}).name == "\U{00E9}"
  {
    var line := "M \U{00E9}";
    AccentedLineLength();
    assert Kept([line]) == Kept([]) + [line];
    AccentedLineFields();
    assert Fields(line)[1..] == ["\U{00E9}"];
  }
}
