/** The terminal interface's background watch: the same once-a-second tick as the web server's,
    except that confirm mode stops the watch and asks at the terminal, and an auto commit leaves
    the tracker to a reset scheduled two seconds later. */
module TuiWatch {
  import opened Wrappers
  import opened Config
  import opened Git
  import Stability
  import opened Automation

  /** The fallback of the confirm branch, which differs from the auto one. */
  const ConfirmFallback := "chore: update"

  /** What the confirm branch learns at the terminal, and how the diff view goes. */
  datatype ConfirmAnswers = ConfirmAnswers(
    viewDiff: bool,          // asked to see the diff first
    diffFails: bool,         // `git diff --color=always` for that view throws
    approve: bool,           // approved the commit (a cancelled prompt declines)
    useAi: bool,             // asked for an AI message; only asked when AI is on
    custom: Option<string>)  // the message typed in; `None` when that prompt was cancelled

  /** Everything one tick reads from the outside world: whether the directory is a repository,
      the settings, git's answers, the clock (`now` when the size is read, `resumedAt` when the
      watch resumes after a confirm), whether the confirm branch's header redraw throws, the
      time-of-day stamp, the terminal answers and the AI and commit outcomes. */
  datatype TuiTick = TuiTick(
    isRepo: bool,
    cfg: Settings,
    changes: bool,
    size: Result<int>,
    now: int,
    headerFails: bool,       // `showHeader()` throws: its `getRepoName` or `getCurrentBranch` fails
    answers: ConfirmAnswers,
    timestamp: string,
    generated: Result<string>,
    commit: CommitProbe,
    resumedAt: int)

  /** What the tick writes: the status line, and the console lines of the confirm branch. */
  datatype TuiLine =
    | Watching(elapsed: int)
    | ChangeDetected(size: int)
    | Stabilizing(elapsed: int, size: int)
    | BelowThreshold(size: int, threshold: int)
    | Processing(size: int)
    | GeneratingAi
    | Committed(shown: string)
    | ManualReady(size: int, mode: Mode)
    | CommitReady(size: int, mode: Mode)
    | DiffShown
    | CommitCancelled
    | ConfirmCommitted(message: string)
    | NotCommitted(reason: string)

  /** `message.substring(0, 50)`. */
  function Shorten(message: string): (r: string)
    ensures |r| <= 50 && |r| <= |message| && r == message[..|r|]
    ensures |message| <= 50 ==> r == message
  {
    if |message| <= 50 then message else message[..50]
  }

  /** `if (watchStartTime)`. */
  predicate Started(start: Option<int>) {
    start.Some? && start.value != 0
  }

  // ---------------------------------------------------------------- confirm mode

  /** The message an approved confirm commits: the AI one (or the confirm fallback when it
      fails) if AI is on and wanted, otherwise the typed one (or the fallback if cancelled). */
  function ConfirmMessage(x: TuiTick): (m: string)
    ensures UsesAi(x.cfg) && x.answers.useAi && x.generated.Success? ==> m == x.timestamp + " " + x.generated.value
    ensures UsesAi(x.cfg) && x.answers.useAi && x.generated.Failure? ==> m == x.timestamp + " " + ConfirmFallback
    ensures !(UsesAi(x.cfg) && x.answers.useAi) && x.answers.custom.Some? ==> m == x.answers.custom.value
    ensures !(UsesAi(x.cfg) && x.answers.useAi) && x.answers.custom.None? ==> m == x.timestamp + " " + ConfirmFallback
  {
    if UsesAi(x.cfg) && x.answers.useAi then
      x.timestamp + " " + (if x.generated.Success? then x.generated.value else ConfirmFallback)
    else if x.answers.custom.Some? then x.answers.custom.value
    else x.timestamp + " " + ConfirmFallback
  }

  /** The diff view throws before the question about committing is asked. */
  predicate DiffThrows(x: TuiTick) {
    x.answers.viewDiff && x.answers.diffFails
  }

  /** The confirm branch throws before it asks whether to commit: the header redraw fails
      (`git rev-parse --abbrev-ref HEAD` in a repository without a commit), or the diff view
      does. */
  predicate ThrowsBeforeAsking(x: TuiTick) {
    x.headerFails || DiffThrows(x)
  }

  /** The commit attempt of an approved confirm. */
  function ConfirmResult(x: TuiTick): Result<CommitResult> {
    CommitChanges(x.commit, ConfirmMessage(x))
  }

  /** The confirm branch reaches its end, resets the tracker and resumes the watch: it is
      declined, or approved and the commit attempt does not throw. */
  predicate ConfirmResumes(x: TuiTick) {
    !ThrowsBeforeAsking(x) && (!x.answers.approve || ConfirmResult(x).Success?)
  }

  /** The commits of the confirm branch. */
  function ConfirmCommits(x: TuiTick): seq<string> {
    if !ThrowsBeforeAsking(x) && x.answers.approve && ConfirmResult(x).Success? && ConfirmResult(x).value.committed
    then [ConfirmMessage(x)] else []
  }

  /** The lines the confirm branch writes. */
  function ConfirmLines(x: TuiTick, size: int): seq<TuiLine> {
    if x.headerFails then []
    else
      [CommitReady(size, x.cfg.autoMode)]
      + (if DiffThrows(x) then []
         else (if x.answers.viewDiff then [DiffShown] else [])
              + (if !x.answers.approve then [CommitCancelled]
                 else if ConfirmResult(x).Failure? then []
                 else if ConfirmResult(x).value.committed then [ConfirmCommitted(ConfirmMessage(x))]
                 else [NotCommitted(ConfirmResult(x).value.message)]))
  }

  /** A declined confirm makes no commit and resumes the watch with a cleared tracker. */
  lemma DeclineRestarts(x: TuiTick)
    requires !x.answers.approve && !ThrowsBeforeAsking(x)
    ensures ConfirmResumes(x) && ConfirmCommits(x) == []
    ensures CommitCancelled in ConfirmLines(x, 0)
  {
  }

  /** A confirm commits only with the person's approval, and then exactly the message the
      prompts produced. */
  lemma ConfirmCommitsOnlyApproved(x: TuiTick)
    ensures ConfirmCommits(x) != [] <==> x.answers.approve && !ThrowsBeforeAsking(x) && x.commit == Commits
    ensures ConfirmCommits(x) != [] ==> ConfirmCommits(x) == [ConfirmMessage(x)]
  {
  }

  /** A throw inside the confirm branch (the header redraw, the diff view or `commitChanges`)
      leaves the watch stopped: only reaching the end of the branch resumes it. */
  lemma ConfirmThrowLeavesWatchStopped(x: TuiTick)
    ensures !ConfirmResumes(x) <==>
      x.headerFails || DiffThrows(x) || (x.answers.approve && (x.commit.AddFails? || x.commit.CommitFails?))
  {
  }

  /** A header redraw that throws leaves the watch stopped with nothing asked, shown or
      committed, since every question comes after the header. */
  lemma HeaderThrowStopsWatch(x: TuiTick)
    requires x.headerFails
    ensures !ConfirmResumes(x) && ConfirmCommits(x) == [] && ConfirmLines(x, 0) == []
  {
  }

  // ---------------------------------------------------------------- auto mode

  /** The auto commit message: the same rule as the web watch. */
  function AutoMessage(x: TuiTick): string {
    AutoCommitMessage(x.timestamp, x.cfg, x.generated)
  }

  function AutoResult(x: TuiTick): Result<CommitResult> {
    CommitChanges(x.commit, AutoMessage(x))
  }

  /** An auto commit that is made, and so schedules the delayed reset. */
  predicate AutoCommits(x: TuiTick) {
    AutoResult(x).Success? && AutoResult(x).value.committed
  }

  function AutoLines(x: TuiTick, size: int): seq<TuiLine> {
    [Processing(size)] + (if UsesAi(x.cfg) then [GeneratingAi] else [])
    + (if AutoCommits(x) then [Committed(Shorten(AutoMessage(x)))] else [])
  }

  /** The auto fallback is the timestamp and `chore(auto): update`, and a commit is made exactly
      when git stages and commits something. */
  lemma AutoFallbackMessage(x: TuiTick)
    ensures !UsesAi(x.cfg) || x.generated.Failure? ==> AutoMessage(x) == x.timestamp + " chore(auto): update"
    ensures AutoCommits(x) <==> x.commit == Commits
  {
  }

  class TuiWatchState {
    var watchInterval: bool
    var watchStartTime: Option<int>
    var lastChangeDetected: Option<int>
    var lastChangeSize: int
    var isProcessing: bool
    /** Every status-line and console write so far. */
    var shown: seq<TuiLine>
    /** The messages of the commits made so far. */
    var commits: seq<string>
    /** Resets scheduled by auto commits whose two-second timer has not fired yet. */
    var pendingResets: nat

    constructor ()
      ensures !watchInterval && watchStartTime == None && lastChangeDetected == None && lastChangeSize == 0
      ensures !isProcessing && shown == [] && commits == [] && pendingResets == 0
    {
      watchInterval := false;
      watchStartTime := None;
      lastChangeDetected := None;
      lastChangeSize := 0;
      isProcessing := false;
      shown := [];
      commits := [];
      pendingResets := 0;
    }

    function Tracked(): Stability.Tracker
      reads this
    {
      Stability.Tracker(lastChangeDetected, lastChangeSize)
    }

    /** `backgroundWatch()`: one tick. */
    method BackgroundWatch(x: TuiTick)
      modifies this
      // a tick while processing, outside a repository, or whose size read throws changes nothing
      ensures old(isProcessing) || !x.isRepo || (x.changes && x.size.Failure?) ==> unchanged(this)
      // every path that sets `isProcessing`, the catch included, clears it again
      ensures isProcessing == old(isProcessing)
      // the tracker moves as the shared classifier says until the change is ready
      ensures !old(isProcessing) && x.isRepo && !x.changes ==>
        Tracked() == Stability.Cleared && commits == old(commits) && watchInterval == old(watchInterval)
        && watchStartTime == old(watchStartTime) && pendingResets == old(pendingResets)
        && shown == old(shown) + (if Started(old(watchStartTime))
                                  then [Watching(Stability.Seconds(x.now - old(watchStartTime).value))] else [])
      ensures !old(isProcessing) && x.isRepo && x.changes && x.size.Success? ==>
        var z := x.size.value;
        var v := Stability.Classify(old(Tracked()), Stability.Sample(true, z, x.now), x.cfg.commitThreshold);
        (v == Stability.Restarted ==>
           Tracked() == Stability.Tracker(Some(x.now), z) && shown == old(shown) + [ChangeDetected(z)])
        && (v.Settling? ==>
              Tracked() == old(Tracked()) && shown == old(shown) + [Stabilizing(Stability.Seconds(v.sinceMs), z)])
        && (v == Stability.Small ==>
              Tracked() == Stability.Cleared && shown == old(shown) + [BelowThreshold(z, x.cfg.commitThreshold)])
        && (v != Stability.Ready ==>
              commits == old(commits) && watchInterval == old(watchInterval)
              && watchStartTime == old(watchStartTime) && pendingResets == old(pendingResets))
        // ready: the mode decides
        && (v == Stability.Ready && x.cfg.autoMode == Manual ==>
              Tracked() == Stability.Cleared && shown == old(shown) + [ManualReady(z, Manual)]
              && commits == old(commits) && watchInterval == old(watchInterval)
              && watchStartTime == old(watchStartTime) && pendingResets == old(pendingResets))
        && (v == Stability.Ready && x.cfg.autoMode == Confirm ==>
              shown == old(shown) + ConfirmLines(x, z) && commits == old(commits) + ConfirmCommits(x)
              && watchInterval == ConfirmResumes(x) && pendingResets == old(pendingResets)
              && (ConfirmResumes(x) ==> Tracked() == Stability.Cleared && watchStartTime == Some(x.resumedAt))
              && (!ConfirmResumes(x) ==> Tracked() == old(Tracked()) && watchStartTime == old(watchStartTime)))
        && (v == Stability.Ready && x.cfg.autoMode == Auto ==>
              Tracked() == old(Tracked()) && shown == old(shown) + AutoLines(x, z)
              && commits == old(commits) + (if AutoCommits(x) then [AutoMessage(x)] else [])
              && pendingResets == old(pendingResets) + (if AutoCommits(x) then 1 else 0)
              && watchInterval == old(watchInterval) && watchStartTime == old(watchStartTime))
    {
      if isProcessing || !x.isRepo {
        return;
      }
      if !x.changes {
        if Started(watchStartTime) {
          shown := shown + [Watching(Stability.Seconds(x.now - watchStartTime.value))];
        }
        lastChangeDetected := None;
        lastChangeSize := 0;
        return;
      }
      if x.size.Failure? {
        // the catch only clears `isProcessing`, which is already clear here
        isProcessing := false;
        return;
      }
      var size := x.size.value;
      var now := x.now;

      if !Stability.Detected(Tracked()) || size != lastChangeSize {
        lastChangeDetected := Some(now);
        lastChangeSize := size;
        shown := shown + [ChangeDetected(size)];
        return;
      }

      var timeSinceLastChange := now - lastChangeDetected.value;
      if timeSinceLastChange < Stability.StabilityWindowMs {
        shown := shown + [Stabilizing(Stability.Seconds(timeSinceLastChange), size)];
        return;
      }

      if size < x.cfg.commitThreshold {
        shown := shown + [BelowThreshold(size, x.cfg.commitThreshold)];
        lastChangeDetected := None;
        lastChangeSize := 0;
        return;
      }

      isProcessing := true;
      if x.cfg.autoMode == Confirm {
        ConfirmBranch(x, size);
      } else if x.cfg.autoMode == Auto {
        AutoBranch(x, size);
      } else {
        shown := shown + [ManualReady(size, x.cfg.autoMode)];
        lastChangeDetected := None;
        lastChangeSize := 0;
        isProcessing := false;
      }
    }

    /** The confirm branch: stop the watch, show the change, optionally the diff, ask, and
        commit; reaching the end resets the tracker and resumes the watch, while a throw only
        clears `isProcessing`. */
    method ConfirmBranch(x: TuiTick, size: int)
      modifies this
      ensures !isProcessing && pendingResets == old(pendingResets)
      ensures shown == old(shown) + ConfirmLines(x, size)
      ensures commits == old(commits) + ConfirmCommits(x)
      ensures watchInterval == ConfirmResumes(x)
      ensures ConfirmResumes(x) ==> Tracked() == Stability.Cleared && watchStartTime == Some(x.resumedAt)
      ensures !ConfirmResumes(x) ==> Tracked() == old(Tracked()) && watchStartTime == old(watchStartTime)
    {
      StopBackgroundWatch();
      if x.headerFails {
        isProcessing := false;
        return;
      }
      shown := shown + [CommitReady(size, x.cfg.autoMode)];
      if x.answers.viewDiff {
        if x.answers.diffFails {
          isProcessing := false;
          return;
        }
        shown := shown + [DiffShown];
      }

      if !x.answers.approve {
        shown := shown + [CommitCancelled];
        lastChangeDetected := None;
        lastChangeSize := 0;
        isProcessing := false;
        StartBackgroundWatch(x.resumedAt);
        return;
      }

      var message := ConfirmMessage(x);
      var result := CommitChanges(x.commit, message);
      if result.Failure? {
        isProcessing := false;
        return;
      }
      if result.value.committed {
        commits := commits + [message];
        shown := shown + [ConfirmCommitted(message)];
      } else {
        shown := shown + [NotCommitted(result.value.message)];
      }

      watchStartTime := Some(x.resumedAt);
      lastChangeDetected := None;
      lastChangeSize := 0;
      isProcessing := false;
      StartBackgroundWatch(x.resumedAt);
    }

    /** The auto branch: build the message, commit, and on success schedule the reset; the
        tracker itself is left as it is. */
    method AutoBranch(x: TuiTick, size: int)
      requires x.cfg.autoMode == Auto
      modifies this`shown, this`commits, this`pendingResets, this`isProcessing
      ensures !isProcessing
      ensures shown == old(shown) + AutoLines(x, size)
      ensures commits == old(commits) + (if AutoCommits(x) then [AutoMessage(x)] else [])
      ensures pendingResets == old(pendingResets) + (if AutoCommits(x) then 1 else 0)
    {
      shown := shown + [Processing(size)];
      var message;
      if UsesAi(x.cfg) {
        shown := shown + [GeneratingAi];
        message := if x.generated.Success? then x.timestamp + " " + x.generated.value
                   else x.timestamp + " " + AutoFallback;
      } else {
        message := x.timestamp + " " + AutoFallback;
      }
      var result := CommitChanges(x.commit, message);
      if result.Failure? {
        isProcessing := false;
        return;
      }
      if result.value.committed {
        commits := commits + [message];
        shown := shown + [Committed(Shorten(message))];
        pendingResets := pendingResets + 1;
      }
      isProcessing := false;
    }

    /** The two-second timer an auto commit scheduled: restarts the watch timer and clears the
        tracker. */
    method DelayedReset(now: int)
      requires pendingResets > 0
      modifies this`pendingResets, this`watchStartTime, this`lastChangeDetected, this`lastChangeSize
      ensures pendingResets == old(pendingResets) - 1
      ensures watchStartTime == Some(now) && Tracked() == Stability.Cleared
    {
      watchStartTime := Some(now);
      lastChangeDetected := None;
      lastChangeSize := 0;
      pendingResets := pendingResets - 1;
    }

    /** `startBackgroundWatch()`: does nothing while the interval runs; otherwise starts the watch
        timer and the interval. */
    method StartBackgroundWatch(now: int)
      modifies this`watchInterval, this`watchStartTime
      ensures old(watchInterval) ==> watchInterval && watchStartTime == old(watchStartTime)
      ensures !old(watchInterval) ==> watchInterval && watchStartTime == Some(now)
    {
      if watchInterval {
        return;
      }
      watchStartTime := Some(now);
      watchInterval := true;
    }

    /** `stopBackgroundWatch()`: cancels the interval if there is one. */
    method StopBackgroundWatch()
      modifies this`watchInterval
      ensures !watchInterval
    {
      if watchInterval {
        watchInterval := false;
      }
    }
  }
}
