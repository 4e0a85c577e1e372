/** The commit-graph screen: opening it with the output of `git log --graph`
    and scrolling through its lines. */
module LogGraph {
  import opened Wrappers
  import opened Text
  import opened TuiModel
  import opened Messages
  import opened Utils

  /** The lines the screen shows for a graph: the trimmed output cut at each
      newline. There is always at least one line, and joining them gives the
      trimmed output back. */
  function GraphLines(graph: string): (lines: seq<string>)
    ensures |lines| >= 1
    ensures forall k :: 0 <= k < |lines| ==> '\n' !in lines[k]
    ensures Join(lines, "\n") == TrimSpace(graph)
  {
    JoinSplit(TrimSpace(graph), '\n');
    Split(TrimSpace(graph), '\n')
  }

  /** A graph of white space only, the empty one included, is shown as one
      empty line. */
  lemma BlankGraphIsOneEmptyLine(graph: string)
    requires forall k :: 0 <= k < |graph| ==> IsSpace(graph[k])
    ensures GraphLines(graph) == [""]
  {
    TrimLeftMaximal(graph, WhiteSpace);
    TrimLeftSuffix(graph, WhiteSpace);
  }

  /** `HandleLogGraphKey`: esc goes back to the file list and keeps the lines
      and the cursor; up and down walk the lines without wrapping; any other
      key changes nothing. No command is scheduled. */
  method HandleLogGraphKey(m: Model, key: string) returns (r: Model)
    requires WellFormed(m)
    ensures WellFormed(r)
    ensures key == "esc" ==> r == m.(currentView := FileView)
    ensures key in {"up", "down"} ==> r == m.(cursor := CursorStep(m.cursor, |m.logLines|, key == "up"))
    ensures key !in {"esc", "up", "down"} ==> r == m
    ensures 0 <= m.cursor < |m.logLines| ==> 0 <= r.cursor < |m.logLines|
  {
    r := m;
    if key == "esc" {
      r := r.(currentView := FileView);
    } else if key == "up" || key == "down" {
      r := r.(cursor := CursorStep(r.cursor, |r.logLines|, key == "up"));
    }
  }

  /** `OpenLogGraphView`: on success the graph's lines are shown from the
      top with the message cleared; on failure only the message changes. */
  method OpenLogGraphView(m: Model, env: Env) returns (r: Model, calls: seq<Call>)
    requires WellFormed(m)
    ensures WellFormed(r)
    ensures calls == [LogsGraph]
    ensures env.logGraph.Err? ==>
      r == m.(message := "✗ Error retrieving log graph: " + env.logGraph.error, messageType := Error)
    ensures env.logGraph.Ok? ==>
      r == m.(logLines := GraphLines(env.logGraph.value), cursor := 0, currentView := LogGraphView, message := "")
    ensures env.logGraph.Ok? ==> |r.logLines| >= 1 && 0 <= r.cursor < |r.logLines|
  {
    calls := [LogsGraph];
    if env.logGraph.Err? {
      r := m.(message := "✗ Error retrieving log graph: " + env.logGraph.error, messageType := Error);
      return;
    }
    var lines := Split(TrimSpace(env.logGraph.value), '\n');
    r := m.(logLines := lines, cursor := 0, currentView := LogGraphView, message := "");
  }
}
