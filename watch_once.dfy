/** The `watch` command's one-shot check: no stability window, just the threshold and the mode,
    an auto commit, and afterwards an optional summary-and-push step. */
module WatchOnce {
  import opened Wrappers
  import opened JsString
  import opened Config
  import opened Git
  import opened Automation

  /** What one check reports. */
  datatype Outcome =
    | NoChanges                                               // `{hadChanges: false}`
    | BelowThreshold(size: int)                               // `{hadChanges, belowThreshold, size}`
    | ManualAction(size: int)                                 // `action: 'manual'`
    | Skipped(size: int)                                      // `action: 'skipped'` (confirm mode)
    | CommittedAction(size: int, unpushedCount: nat, needsSummary: bool)
    | CommitError(size: int, error: string)                   // `action: 'error'`

  /** The values one check reads: the settings, git's answers, the AI outcome, the
      `<date> <time>` stamp of the fallback message, and the upstream state read after a commit. */
  datatype OnceInput = OnceInput(
    cfg: Settings,
    changes: bool,
    size: Result<int>,
    generated: Result<string>,
    stamp: string,
    commit: CommitProbe,
    upstream: Upstream)

  /** The message of the one-shot auto commit: the AI message as it is, or the fallback with the
      date and time after it. */
  function OnceCommitMessage(x: OnceInput): (m: string)
    ensures UsesAi(x.cfg) && x.generated.Success? ==> m == x.generated.value
    ensures !UsesAi(x.cfg) || x.generated.Failure? ==> m == "chore(auto): update " + x.stamp
  {
    if UsesAi(x.cfg) && x.generated.Success? then x.generated.value else AutoFallback + " " + x.stamp
  }

  /** `watchOnce()`; a failing size read is not caught and propagates to the caller. */
  function Check(x: OnceInput): Result<Outcome> {
    if !x.changes then Success(NoChanges)
    else if x.size.Failure? then Failure(x.size.error)
    else
      var size := x.size.value;
      if size < x.cfg.commitThreshold then Success(BelowThreshold(size))
      else match x.cfg.autoMode
        case Manual => Success(ManualAction(size))
        case Confirm => Success(Skipped(size))
        case Auto =>
          match CommitChanges(x.commit, OnceCommitMessage(x))
          case Failure(e) => Success(CommitError(size, e))
          case Success(result) =>
            if !result.committed then Success(NoChanges)
            else
              var n := UnpushedCommitsCount(x.upstream);
              Success(CommittedAction(size, n, NeedsSummary(x.cfg, n)))
  }

  /** The commit a check makes, if any. */
  function CheckCommits(x: OnceInput): seq<string> {
    if x.changes && x.size.Success? && x.size.value >= x.cfg.commitThreshold && x.cfg.autoMode == Auto
       && x.commit == Commits
    then [OnceCommitMessage(x)] else []
  }

  /** A quiet tree reports no changes, and a change below the threshold is reported with its
      size and never committed. */
  lemma QuietAndSmall(x: OnceInput)
    ensures !x.changes ==> Check(x) == Success(NoChanges) && CheckCommits(x) == []
    ensures x.changes && x.size.Success? && x.size.value < x.cfg.commitThreshold ==>
      Check(x) == Success(BelowThreshold(x.size.value)) && CheckCommits(x) == []
    ensures x.changes && x.size.Failure? ==> Check(x) == Failure(x.size.error)
  {
  }

  /** Only auto mode commits; manual mode reports `manual` and confirm mode `skipped`. */
  lemma OnlyAutoModeCommits(x: OnceInput)
    requires x.changes && x.size.Success? && x.size.value >= x.cfg.commitThreshold
    ensures x.cfg.autoMode == Manual ==> Check(x) == Success(ManualAction(x.size.value)) && CheckCommits(x) == []
    ensures x.cfg.autoMode == Confirm ==> Check(x) == Success(Skipped(x.size.value)) && CheckCommits(x) == []
  {
  }

  /** A check reports a commit exactly when it made one; a commit that finds nothing staged
      reads as "no changes", and one that throws is reported as an error with the size. */
  lemma CommittedIffCommit(x: OnceInput)
    ensures (Check(x).Success? && Check(x).value.CommittedAction?) <==> CheckCommits(x) != []
    ensures x.changes && x.size.Success? && x.size.value >= x.cfg.commitThreshold && x.cfg.autoMode == Auto ==>
      (x.commit == NothingStaged ==> Check(x) == Success(NoChanges))
      && (x.commit.AddFails? ==> Check(x) == Success(CommitError(x.size.value, x.commit.addError)))
      && (x.commit.CommitFails? ==> Check(x) == Success(CommitError(x.size.value, x.commit.commitError)))
  {
  }

  /** `needsSummary` is set exactly when summaries are on and enough commits are unpushed; with
      no upstream the count is 0 and no summary is asked for. */
  lemma NeedsSummaryIff(x: OnceInput)
    requires Check(x).Success? && Check(x).value.CommittedAction?
    ensures Check(x).value.needsSummary <==>
      x.cfg.autoSummaryAndPush && Check(x).value.unpushedCount >= x.cfg.commitsBeforeSummary
    ensures Check(x).value.unpushedCount == UnpushedCommitsCount(x.upstream)
    ensures x.upstream == NoUpstream && x.cfg.commitsBeforeSummary >= 1 ==> !Check(x).value.needsSummary
  {
  }

  // ---------------------------------------------------------------- summary and push

  /** How the summary-and-push step ends. */
  datatype PushOutcome =
    | NothingToPush
    | Declined(summary: string)
    | PushAttempted(summary: string, branch: string, result: PushResult)

  /** The values the step reads: the upstream state, the AI summary, the answer to the push
      question, `getCurrentBranch()` and the error of `git push`, if any. */
  datatype PushInput = PushInput(
    upstream: Upstream,
    summary: Result<string>,
    approve: bool,
    branch: Result<string>,
    pushError: Option<string>)

  /** The summary shown: the AI one, or the count when the AI fails. */
  function SummaryText(count: nat, summary: Result<string>): (s: string)
    ensures summary.Success? ==> s == summary.value
    ensures summary.Failure? ==> s == NatToString(count) + " commits ready to push"
  {
    if summary.Success? then summary.value else NatToString(count) + " commits ready to push"
  }

  /** `handleSummaryAndPush()`: the commits listed before the summary are returned in `listed`;
      a failing `getCurrentBranch` propagates. */
  method HandleSummaryAndPush(y: PushInput) returns (r: Result<PushOutcome>, listed: seq<string>)
    ensures UnpushedCommitsCount(y.upstream) == 0 ==> r == Success(NothingToPush) && listed == []
    ensures UnpushedCommitsCount(y.upstream) > 0 ==> listed == UnpushedCommits(y.upstream)
    ensures UnpushedCommitsCount(y.upstream) > 0 && !y.approve ==>
      r == Success(Declined(SummaryText(UnpushedCommitsCount(y.upstream), y.summary)))
    ensures UnpushedCommitsCount(y.upstream) > 0 && y.approve && y.branch.Failure? ==> r == Failure(y.branch.error)
    ensures UnpushedCommitsCount(y.upstream) > 0 && y.approve && y.branch.Success? ==>
      r == Success(PushAttempted(SummaryText(UnpushedCommitsCount(y.upstream), y.summary), y.branch.value,
                                 PushChanges(y.pushError)))
    // a push is only ever attempted after the person agreed
    ensures r.Success? && r.value.PushAttempted? ==> y.approve && UnpushedCommitsCount(y.upstream) > 0
  {
    listed := [];
    var unpushedCount := UnpushedCommitsCount(y.upstream);
    if unpushedCount == 0 {
      r := Success(NothingToPush);
      return;
    }
    listed := UnpushedCommits(y.upstream);

    var summary;
    if y.summary.Success? {
      summary := y.summary.value;
    } else {
      summary := NatToString(unpushedCount) + " commits ready to push";
    }

    if !y.approve {
      r := Success(Declined(summary));
      return;
    }

    if y.branch.Failure? {
      r := Failure(y.branch.error);
      return;
    }
    var pushResult := PushChanges(y.pushError);
    r := Success(PushAttempted(summary, y.branch.value, pushResult));
  }
}
