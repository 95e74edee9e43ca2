/** The compact control panel of the AI workspace: a status-only watch tick, the mode cycle and
    the "Commit Now" action. */
module MiniTui {
  import opened Wrappers
  import opened Config
  import opened Git
  import Stability
  import opened Automation

  class MiniTuiState {
    var lastChangeDetected: Option<int>
    var lastChangeSize: int
    /** `currentWatchStatus`: empty (`None`) until a tick sets it. */
    var currentWatchStatus: Option<Stability.Status>

    constructor ()
      ensures lastChangeDetected == None && lastChangeSize == 0 && currentWatchStatus == None
    {
      lastChangeDetected := None;
      lastChangeSize := 0;
      currentWatchStatus := None;
    }

    function Tracked(): Stability.Tracker
      reads this
    {
      Stability.Tracker(lastChangeDetected, lastChangeSize)
    }

    /** `updateWatchStatus()`: a throwing `hasChanges` ends the tick at once and a throwing size
        read is swallowed, both leaving everything as it was; otherwise the tracker moves as the
        shared rule says and the status line shows the verdict. It never commits. */
    method UpdateWatchStatus(cfg: Settings, changes: Result<bool>, size: Result<int>, now: int)
      modifies this
      ensures changes.Failure? || (changes.value && size.Failure?) ==> unchanged(this)
      ensures changes.Success? && !changes.value ==>
        Tracked() == Stability.Cleared && currentWatchStatus == Some(Stability.Watching)
      ensures changes.Success? && changes.value && size.Success? ==>
        var x := Stability.Sample(true, size.value, now);
        var v := Stability.Classify(old(Tracked()), x, cfg.commitThreshold);
        Tracked() == Stability.Track(old(Tracked()), x, cfg.commitThreshold)
        && currentWatchStatus == Some(Stability.StatusOf(v, size.value, cfg))
    {
      if changes.Failure? {
        return;
      }
      if !changes.value {
        currentWatchStatus := Some(Stability.Watching);
        lastChangeDetected := None;
        lastChangeSize := 0;
        return;
      }
      if size.Failure? {
        return;
      }
      var z := size.value;
      if !Stability.Detected(Tracked()) || z != lastChangeSize {
        lastChangeDetected := Some(now);
        lastChangeSize := z;
        currentWatchStatus := Some(Stability.ChangeDetected(z));
      } else {
        var timeSinceLastChange := now - lastChangeDetected.value;
        if timeSinceLastChange < Stability.StabilityWindowMs {
          currentWatchStatus := Some(Stability.Stabilizing(Stability.Seconds(timeSinceLastChange), z));
        } else if z < cfg.commitThreshold {
          currentWatchStatus := Some(Stability.BelowThreshold(z, cfg.commitThreshold));
          lastChangeDetected := None;
          lastChangeSize := 0;
        } else if cfg.autoMode == Auto {
          currentWatchStatus := Some(Stability.Processing(z));
        } else {
          currentWatchStatus := Some(Stability.ReadyToCommit(z));
        }
      }
    }
  }

  // ---------------------------------------------------------------- the mode cycle

  /** `modes.indexOf(currentMode)`: the position of the stored value among the mode names, or -1
      when it is none of them. */
  function IndexOfMode(current: Option<Value>): (i: int)
    ensures -1 <= i < |Modes|
    ensures i >= 0 ==> current == Some(Str(Modes[i]))
    ensures i == -1 <==> !(current.Some? && current.value.Str? && current.value.s in Modes)
  {
    if current == Some(Str("manual")) then 0
    else if current == Some(Str("confirm")) then 1
    else if current == Some(Str("auto")) then 2
    else -1
  }

  /** `modes[(currentIndex + 1) % modes.length]`. */
  function NextMode(current: Option<Value>): (next: string)
    ensures next in Modes
  {
    Modes[(IndexOfMode(current) + 1) % |Modes|]
  }

  /** The cycle goes manual, confirm, auto and back to manual, and anything unrecognised moves to
      manual. */
  lemma ModeCycle(current: Option<Value>)
    ensures NextMode(Some(Str("manual"))) == "confirm"
    ensures NextMode(Some(Str("confirm"))) == "auto"
    ensures NextMode(Some(Str("auto"))) == "manual"
    ensures !(current.Some? && current.value.Str? && current.value.s in Modes) ==> NextMode(current) == "manual"
  {
  }

  /** Three presses of the key bring any mode back. */
  lemma CycleOfThree(m: string)
    requires m in Modes
    ensures NextMode(Some(Str(NextMode(Some(Str(NextMode(Some(Str(m))))))))) == m
  {
    ModeCycle(Some(Str(m)));
  }

  /** The `mode` action: read the stored mode, write its successor. The write always fits the
      schema, so it never throws. */
  method CycleMode(config: ConfigStore) returns (next: string)
    requires config.Valid()
    modifies config
    ensures config.Valid()
    ensures next == NextMode(old(config.Get("autoMode")))
    ensures config.store == old(config.store)["autoMode" := Str(next)]
  {
    var currentMode := config.Get("autoMode");
    var currentIndex := IndexOfMode(currentMode);
    next := Modes[(currentIndex + 1) % |Modes|];
    var r := config.Set("autoMode", Str(next));
    assert ValueFits("autoMode", Str(next));
  }

  // ---------------------------------------------------------------- commit now

  /** What the action reads: the settings, the AI outcome, the local time string of the fallback,
      git's commit outcome, `getCurrentBranch()` and the error of `git push`, if any. */
  datatype NowInput = NowInput(
    cfg: Settings,
    generated: Result<string>,
    time: string,
    commit: CommitProbe,
    branch: Result<string>,
    pushError: Option<string>)

  /** How the action ends: committed (and pushed when `pushOnCommit` is set), nothing to commit,
      or a throw caught by the action, possibly after the commit was already made. */
  datatype NowOutcome =
    | NowCommitted(message: string, push: Option<PushResult>)
    | NothingCommitted(reason: string)
    | NowFailed(afterCommit: bool)

  /** The message: the AI one as it is, or `chore: update` with the time when AI is off or fails. */
  function NowMessage(x: NowInput): (m: string)
    ensures UsesAi(x.cfg) && x.generated.Success? ==> m == x.generated.value
    ensures !UsesAi(x.cfg) || x.generated.Failure? ==> m == "chore: update " + x.time
  {
    if UsesAi(x.cfg) && x.generated.Success? then x.generated.value else "chore: update " + x.time
  }

  /** The `commit` action. */
  function CommitNow(x: NowInput): NowOutcome {
    match CommitChanges(x.commit, NowMessage(x))
    case Failure(_) => NowFailed(false)
    case Success(result) =>
      if !result.committed then NothingCommitted(result.message)
      else if !x.cfg.pushOnCommit then NowCommitted(NowMessage(x), None)
      else if x.branch.Failure? then NowFailed(true)
      else NowCommitted(NowMessage(x), Some(PushChanges(x.pushError)))
  }

  /** A commit is made exactly when git commits; a push follows exactly when `pushOnCommit` is
      set and the branch is known; a branch read that throws reports a failure although the
      commit was made. */
  lemma CommitNowOutcomes(x: NowInput)
    ensures CommitNow(x).NowCommitted? || CommitNow(x) == NowFailed(true) <==> x.commit == Commits
    ensures CommitNow(x).NowCommitted? ==> CommitNow(x).message == NowMessage(x)
    ensures (CommitNow(x).NowCommitted? && CommitNow(x).push.Some?) <==>
      x.commit == Commits && x.cfg.pushOnCommit && x.branch.Success?
    ensures x.commit == NothingStaged ==> CommitNow(x) == NothingCommitted("No changes to commit")
    ensures CommitNow(x) == NowFailed(true) <==> x.commit == Commits && x.cfg.pushOnCommit && x.branch.Failure?
  {
  }
}
