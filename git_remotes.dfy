/** Remotes and the commands that talk to them: `GitClient.GetRemotes` parses
    `git remote -v`, and `Push`, `Fetch` and `Pull` turn the outcome of the git
    commands they run into an error value. The outcomes are inputs here. */
module GitRemotes {
  import opened Wrappers
  import opened Text

  /** What a git command run with combined output reports: the text it printed
      and, when it failed, the text of its error. */
  datatype Outcome = Outcome(output: string, failure: Option<string>)

  /** A remote: its name and the URL of its first `git remote -v` line. */
  datatype Remote = Remote(name: string, url: string)

  /** The entry the remote list shows. */
  function Arrow(r: Remote): (s: string)
    ensures |s| == |r.name| + 4 + |r.url| && s[..|r.name|] == r.name && s[|r.name| + 4..] == r.url
  {
    r.name + " -> " + r.url
  }

  /** The names of a list of remotes. */
  function Names(rs: seq<Remote>): set<string> {
    if rs == [] then {} else Names(rs[..|rs| - 1]) + {rs[|rs| - 1].name}
  }

  lemma {:induction false} NamesMembers(rs: seq<Remote>, name: string)
    ensures name in Names(rs) <==> exists k :: 0 <= k < |rs| && rs[k].name == name
  {
    if rs != [] {
      var init := rs[..|rs| - 1];
      NamesMembers(init, name);
      if exists k :: 0 <= k < |init| && init[k].name == name {
        var k :| 0 <= k < |init| && init[k].name == name;
        assert rs[k].name == name;
      }
    }
  }

  /** The remotes the first `n` lines name, each from the first line that
      names it with at least a URL after it, in order. */
  function RemotesOf(lines: seq<string>, n: nat): seq<Remote>
    requires n <= |lines|
  {
    if n == 0 then []
    else
      var rs := RemotesOf(lines, n - 1);
      var parts := Fields(lines[n - 1]);
      if |parts| >= 2 && parts[0] !in Names(rs) then rs + [Remote(parts[0], parts[1])] else rs
  }

  /** The lines of the trimmed output, as `GetRemotes` reads them. */
  function RemoteLines(out: string): seq<string> {
    Split(TrimSpace(out), '\n')
  }

  /** `GitClient.GetRemotes`: a failed command yields no remotes and its
      error; otherwise one "name -> url" entry per remote of the trimmed
      output's lines. */
  method GetRemotes(output: Result<string>) returns (remotes: seq<string>, err: Option<string>)
    ensures output.Err? ==> remotes == [] && err == Some(output.error)
    ensures output.Ok? ==> err == None
    ensures output.Ok? ==> |remotes| == |RemotesOf(RemoteLines(output.value), |RemoteLines(output.value)|)|
    ensures output.Ok? ==> forall k :: 0 <= k < |remotes| ==>
      remotes[k] == Arrow(RemotesOf(RemoteLines(output.value), |RemoteLines(output.value)|)[k])
  {
    if output.Err? {
      return [], Some(output.error);
    }
    remotes := ReadRemotes(RemoteLines(output.value));
    err := None;
  }

  /** The loop of `GitClient.GetRemotes`: the `seen` map holds the names
      listed so far, each mapped to true. */
  method ReadRemotes(lines: seq<string>) returns (remotes: seq<string>)
    ensures |remotes| == |RemotesOf(lines, |lines|)|
    ensures forall k :: 0 <= k < |remotes| ==> remotes[k] == Arrow(RemotesOf(lines, |lines|)[k])
  {
    var seen: map<string, bool> := map[];
    remotes := [];
    ghost var rs: seq<Remote> := [];
    var i := 0;
    while i < |lines|
      invariant 0 <= i <= |lines|
      invariant rs == RemotesOf(lines, i)
      invariant seen.Keys == Names(rs) && forall name :: name in seen ==> seen[name]
      invariant |remotes| == |rs| && forall k :: 0 <= k < |rs| ==> remotes[k] == Arrow(rs[k])
    {
      var parts := Fields(lines[i]);
      if |parts| >= 2 && !(parts[0] in seen && seen[parts[0]]) {
        remotes := remotes + [parts[0] + " -> " + parts[1]];
        rs := rs + [Remote(parts[0], parts[1])];
        seen := seen[parts[0] := true];
      }
      i := i + 1;
    }
  }

  /** No two remotes in `rs` share a name. */
  predicate DistinctNames(rs: seq<Remote>) {
    forall i, j :: 0 <= i < j < |rs| ==> rs[i].name != rs[j].name
  }

  /** No two remotes in the list share a name. */
  lemma {:induction false} RemotesDistinct(lines: seq<string>, n: nat)
    requires n <= |lines|
    ensures DistinctNames(RemotesOf(lines, n))
  {
    if n > 0 {
      RemotesDistinct(lines, n - 1);
      var rs := RemotesOf(lines, n - 1);
      var parts := Fields(lines[n - 1]);
      if |parts| >= 2 && parts[0] !in Names(rs) {
        NamesMembers(rs, parts[0]);
        var rs' := rs + [Remote(parts[0], parts[1])];
        assert RemotesOf(lines, n) == rs';
        forall i, j | 0 <= i < j < |rs'| ensures rs'[i].name != rs'[j].name {
          assert rs'[i] == rs[i];
          if j < |rs| {
            assert rs'[j] == rs[j];
          } else {
            assert rs'[j].name == parts[0];
            assert rs[i].name != parts[0];
          }
        }
      } else {
        assert RemotesOf(lines, n) == rs;
      }
    }
  }

  /** Line `j` holds a name and a URL, and they make up `r`. */
  predicate FromLine(lines: seq<string>, j: int, r: Remote)
    requires 0 <= j < |lines|
  {
    var parts := Fields(lines[j]);
    |parts| >= 2 && r == Remote(parts[0], parts[1])
  }

  /** Every remote in the list is made of the name and URL of one of the
      lines. */
  lemma {:induction false} RemoteFromLine(lines: seq<string>, n: nat, k: nat)
    requires n <= |lines| && k < |RemotesOf(lines, n)|
    ensures exists j :: 0 <= j < n && FromLine(lines, j, RemotesOf(lines, n)[k])
  {
    var rs := RemotesOf(lines, n - 1);
    var parts := Fields(lines[n - 1]);
    if |parts| >= 2 && parts[0] !in Names(rs) {
      assert RemotesOf(lines, n) == rs + [Remote(parts[0], parts[1])];
      if k < |rs| {
        RemoteFromLine(lines, n - 1, k);
        var j :| 0 <= j < n - 1 && FromLine(lines, j, rs[k]);
        assert RemotesOf(lines, n)[k] == rs[k];
        assert FromLine(lines, j, RemotesOf(lines, n)[k]);
      } else {
        assert FromLine(lines, n - 1, RemotesOf(lines, n)[k]);
      }
    } else {
      RemoteFromLine(lines, n - 1, k);
    }
  }

  /** A line whose name no earlier line with a URL has used contributes its
      name and URL. */
  lemma {:induction false} FirstLineKept(lines: seq<string>, n: nat, j: nat)
    requires j < n <= |lines| && |Fields(lines[j])| >= 2
    requires forall i :: 0 <= i < j && |Fields(lines[i])| >= 2 ==> Fields(lines[i])[0] != Fields(lines[j])[0]
    ensures Remote(Fields(lines[j])[0], Fields(lines[j])[1]) in RemotesOf(lines, n)
  {
    var parts := Fields(lines[j]);
    if j == n - 1 {
      var rs := RemotesOf(lines, n - 1);
      forall k | 0 <= k < |rs| ensures rs[k].name != parts[0] {
        RemoteFromLine(lines, n - 1, k);
      }
      NamesMembers(rs, parts[0]);
      assert RemotesOf(lines, n) == rs + [Remote(parts[0], parts[1])];
    } else {
      FirstLineKept(lines, n - 1, j);
      var rs := RemotesOf(lines, n - 1);
      assert RemotesOf(lines, n)[..|rs|] == rs;
    }
  }

  /** `GitClient.Fetch`: nothing on success, otherwise an error embedding the
      command's error and output. */
  function Fetch(o: Outcome): (err: Option<string>)
    ensures err.None? <==> o.failure.None?
    ensures err.Some? ==> HasPrefix(err.value, "fetch failed: ") && EndsWith(err.value, o.output)
  {
    if o.failure.Some? then Some("fetch failed: " + o.failure.value + " - " + o.output) else None
  }

  /** `GitClient.Pull`: nothing on success, otherwise an error embedding the
      command's error and output. */
  function Pull(o: Outcome): (err: Option<string>)
    ensures err.None? <==> o.failure.None?
    ensures err.Some? ==> HasPrefix(err.value, "pull failed: ") && EndsWith(err.value, o.output)
  {
    if o.failure.Some? then Some("pull failed: " + o.failure.value + " - " + o.output) else None
  }

  /** `s` ends with `suffix`. */
  predicate EndsWith(s: string, suffix: string) {
    |suffix| <= |s| && s[|s| - |suffix|..] == suffix
  }

  /** The git commands `Push` may run. */
  datatype PushCall = PlainPush | ShowCurrentBranch | PushSetUpstream(remote: string, branch: string)

  /** The push output says the branch has no upstream yet. */
  predicate NoUpstream(output: string) {
    Contains(output, "set the remote as upstream")
    || Contains(output, "have no upstream branch")
    || Contains(output, "no upstream branch")
  }

  /** `GitClient.Push`: the plain push; when it fails for want of an upstream,
      the current-branch query and one push that sets the upstream on
      "origin". Returns the error (if any) and the commands run, in order.
      `push` is the outcome of the plain push, `current` that of
      `git branch --show-current` and `retry` that of the second push. */
  function Push(push: Outcome, current: Result<string>, retry: Outcome): (r: (Option<string>, seq<PushCall>))
    ensures 1 <= |r.1| <= 3 && r.1[0] == PlainPush
    ensures |r.1| == 3 ==> current.Ok? && r.1[2] == PushSetUpstream("origin", TrimSpace(current.value))
  {
    if push.failure.None? then (None, [PlainPush])
    else if NoUpstream(push.output) then
      if current.Err? then
        (Some("push failed and could not determine current branch: " + current.error), [PlainPush, ShowCurrentBranch])
      else
        var branch := TrimSpace(current.value);
        if branch == "" then
          (Some("push failed and could not determine current branch name"), [PlainPush, ShowCurrentBranch])
        else
          var calls := [PlainPush, ShowCurrentBranch, PushSetUpstream("origin", branch)];
          if retry.failure.Some? then
            (Some("push failed and could not set upstream: " + retry.failure.value + " - " + retry.output), calls)
          else (None, calls)
    else (Some("push failed: " + push.failure.value + " - " + push.output), [PlainPush])
  }

  /** A push that succeeds at once runs no other command. */
  lemma PushFirstSuccess(push: Outcome, current: Result<string>, retry: Outcome)
    requires push.failure.None?
    ensures Push(push, current, retry) == (None, [PlainPush])
  {
  }

  /** The upstream retry happens exactly when the plain push failed for want
      of an upstream and the current branch is known and non-empty. */
  lemma PushRetryExactly(push: Outcome, current: Result<string>, retry: Outcome)
    ensures var r := Push(push, current, retry);
      (exists b :: PushSetUpstream("origin", b) in r.1) <==>
        push.failure.Some? && NoUpstream(push.output) && current.Ok? && TrimSpace(current.value) != ""
  {
    var r := Push(push, current, retry);
    if push.failure.Some? && NoUpstream(push.output) && current.Ok? && TrimSpace(current.value) != "" {
      assert r.1[2] == PushSetUpstream("origin", TrimSpace(current.value));
    }
  }

  /** A push succeeds exactly when the plain push does, or when the upstream
      retry is made and succeeds. */
  lemma PushSucceeds(push: Outcome, current: Result<string>, retry: Outcome)
    ensures Push(push, current, retry).0.None? <==>
      push.failure.None? ||
      (NoUpstream(push.output) && current.Ok? && TrimSpace(current.value) != "" && retry.failure.None?)
  {
  }

  /** A failure unrelated to the upstream is reported with the push output
      and no further command. */
  lemma PushOtherFailure(push: Outcome, current: Result<string>, retry: Outcome)
    requires push.failure.Some? && !NoUpstream(push.output)
    ensures var r := Push(push, current, retry);
      r.1 == [PlainPush] && r.0.Some? && HasPrefix(r.0.value, "push failed: ") && EndsWith(r.0.value, push.output)
  {
    var e := Push(push, current, retry).0.value;
    assert e == "push failed: " + push.failure.value + " - " + push.output;
    assert e[..|"push failed: "|] == "push failed: ";
  }

  /** The "have no upstream branch" test adds nothing: every output it
      accepts also contains "no upstream branch". */
  lemma NoUpstreamMarkerSubsumed(output: string)
    ensures NoUpstream(output) <==>
      Contains(output, "set the remote as upstream") || Contains(output, "no upstream branch")
  {
    var long := "have no upstream branch";
    var short := "no upstream branch";
    if Contains(output, long) {
      var k := Index(output, long);
      ContainsMatch(output, long, k);
      assert output[k + 5..k + 5 + |short|] == output[k..k + |long|][5..];
      ContainsMatch(output, short, k + 5);
    }
  }
}
