/** What the reducers receive and what they hand back besides the record: the
    events, the scheduled commands, the collaborator calls a step makes, and
    the results those calls return. Git and GitHub are not run: `Env` holds
    the result each call would give. */
module Messages {
  import opened Wrappers
  import opened TuiModel

  /** A key press: Bubble Tea's `KeyMsg.String()` and its runes. */
  datatype Key = Key(name: string, runes: seq<int>)

  /** The events `Update` handles. */
  datatype Msg =
    | KeyPress(key: Key)
    | SwitchBranch(err: Option<string>, targetBranch: string, nextAction: string, sourceBranch: string)
    | SpinnerTick
    | PushDone(err: Option<string>)
    | FetchDone(err: Option<string>)
    | PullDone(err: Option<string>)
    | OtherMsg

  /** The asynchronous work a command starts: a push, fetch or pull, the
      spinner timer, or a checkout that reports back with a `SwitchBranch`
      event whose next action is a merge. */
  datatype Task = PushTask | FetchTask | PullTask | SpinnerTask | SwitchAndMerge(target: string, source: string)

  /** The command a step returns: none, quitting, or a batch of tasks. */
  datatype Cmd = NoCmd | Quit | Run(tasks: seq<Task>)

  /** `tea.Batch(performPush(), spinner())` and its fetch and pull siblings. */
  const PushWithSpinner: Cmd := Run([PushTask, SpinnerTask])
  const FetchWithSpinner: Cmd := Run([FetchTask, SpinnerTask])
  const PullWithSpinner: Cmd := Run([PullTask, SpinnerTask])

  /** The git and GitHub calls a step makes, in order. */
  datatype Call =
    | Refresh
    | ConflictFiles
    | Merge(branch: string)
    | Rebase(onto: string)
    | MergeContinue | MergeAbort | RebaseContinue | RebaseAbort
    | Checkout(branch: string)
    | DeleteBranch(name: string)
    | DiscardChanges(path: string)
    | Commit(msg: Bytes)
    | CreateBranch(newName: Bytes)
    | Add(path: string)
    | Reset(path: string)
    | LogsGraph
    | StashRef(line: string)
    | StashApply(ref: string)
    | StashPop
    | StashShow(ref: string)
    | SaveStash(msg: Bytes)
    | CloneRepository(fullName: string)
    | ListRepositories

  /** The result each call returns in this step. A step makes each kind of
      call at most once, except `RefreshData`, which the rebase that follows a
      checkout runs twice: the second run reads `laterSnapshot`. Errors are
      given as the text Go's `%s` prints for them. */
  datatype Env = Env(
    snapshot: Snapshot,
    laterSnapshot: Snapshot,
    conflicts: seq<string>,
    mergeErr: Option<string>,
    rebaseErr: Option<string>,
    continueErr: Option<string>,
    abortErr: Option<string>,
    checkoutErr: Option<string>,
    deleteBranchErr: Option<string>,
    discardErr: Option<string>,
    commitErr: Option<string>,
    createBranchErr: Option<string>,
    logGraph: Result<string>,
    stashRef: string,
    stashErr: Option<string>,
    stashDiff: Result<string>,
    cloneErr: Option<string>,
    repositories: Result<seq<Repository>>)
}
