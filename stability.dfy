/** The stability rule every watch loop shares: a change is acted on only once its size has stayed
    the same for the stability window, and only when it reaches the commit threshold. */
module Stability {
  import opened Wrappers
  import opened Config

  const StabilityWindowMs: int := 3000

  /** The module-level `lastChangeDetected` (a clock reading or null) and `lastChangeSize`. */
  datatype Tracker = Tracker(lastChangeDetected: Option<int>, lastChangeSize: int)

  /** The tracker after `lastChangeDetected = null; lastChangeSize = 0`. */
  const Cleared: Tracker := Tracker(None, 0)

  /** `!lastChangeDetected` is false: a reading is recorded and it is not the falsy 0. */
  predicate Detected(t: Tracker) {
    t.lastChangeDetected.Some? && t.lastChangeDetected.value != 0
  }

  /** `Math.floor(ms / 1000)`. */
  function Seconds(ms: int): (s: int)
    ensures 1000 * s <= ms < 1000 * s + 1000
  {
    ms / 1000
  }

  /** How one tick classifies the working tree. */
  datatype Verdict =
    | Quiet                  // no changes
    | Restarted              // first detection, or the size moved: the timer starts over
    | Settling(sinceMs: int) // same size, but the window has not passed
    | Small                  // settled below the commit threshold
    | Ready                  // settled at or above the commit threshold

  /** One tick's sample of the tree: `hasChanges()`, `getChangeSize()` (read only when there are
      changes) and `Date.now()`. */
  datatype Sample = Sample(changes: bool, size: int, now: int)

  function Classify(t: Tracker, x: Sample, threshold: int): (v: Verdict)
    ensures v == Quiet <==> !x.changes
    ensures v == Restarted <==> x.changes && (!Detected(t) || x.size != t.lastChangeSize)
    ensures v.Settling? ==> Detected(t) && v.sinceMs == x.now - t.lastChangeDetected.value
    ensures v.Settling? || v == Small || v == Ready <==>
      x.changes && Detected(t) && x.size == t.lastChangeSize
    ensures v.Settling? <==>
      x.changes && Detected(t) && x.size == t.lastChangeSize && x.now - t.lastChangeDetected.value < StabilityWindowMs
    ensures v == Ready ==> x.size >= threshold && x.now - t.lastChangeDetected.value >= StabilityWindowMs
    ensures v == Small ==> x.size < threshold && x.now - t.lastChangeDetected.value >= StabilityWindowMs
  {
    if !x.changes then Quiet
    else if !Detected(t) || x.size != t.lastChangeSize then Restarted
    else if x.now - t.lastChangeDetected.value < StabilityWindowMs then Settling(x.now - t.lastChangeDetected.value)
    else if x.size < threshold then Small
    else Ready
  }

  /** The tracker after a tick of a status-only loop: cleared when the tree is quiet or settled
      below the threshold, restarted on a new size, and otherwise left alone. */
  function Track(t: Tracker, x: Sample, threshold: int): (r: Tracker)
    ensures Classify(t, x, threshold) == Restarted ==> r == Tracker(Some(x.now), x.size)
    ensures Classify(t, x, threshold) in {Quiet, Small} ==> r == Cleared
    ensures Classify(t, x, threshold).Settling? || Classify(t, x, threshold) == Ready ==> r == t
  {
    match Classify(t, x, threshold)
    case Quiet => Cleared
    case Small => Cleared
    case Restarted => Tracker(Some(x.now), x.size)
    case _ => t
  }

  /** The tracker after a run of ticks. */
  function Run(t: Tracker, xs: seq<Sample>, threshold: int): Tracker
  {
    if xs == [] then t else Track(Run(t, xs[..|xs| - 1], threshold), xs[|xs| - 1], threshold)
  }

  /** The verdict of tick `k` of a run. */
  function VerdictAt(t: Tracker, xs: seq<Sample>, k: nat, threshold: int): Verdict
    requires k < |xs|
  {
    Classify(Run(t, xs[..k], threshold), xs[k], threshold)
  }

  lemma RunStep(t: Tracker, xs: seq<Sample>, k: nat, threshold: int)
    requires k < |xs|
    ensures Run(t, xs[..k + 1], threshold) == Track(Run(t, xs[..k], threshold), xs[k], threshold)
  {
    assert xs[..k + 1][..k] == xs[..k];
  }

  /** Tick `j` of the run restarted the timer, and every later tick saw changes of the size it
      recorded. */
  predicate OriginAt(xs: seq<Sample>, j: nat, threshold: int)
    requires j < |xs|
  {
    VerdictAt(Cleared, xs, j, threshold) == Restarted
    && forall i :: j < i < |xs| ==> xs[i].changes && xs[i].size == xs[j].size
  }

  /** A tick's verdict depends only on the ticks before it. */
  lemma VerdictOfPrefix(xs: seq<Sample>, n: nat, j: nat, threshold: int)
    requires j < n <= |xs|
    ensures VerdictAt(Cleared, xs[..n], j, threshold) == VerdictAt(Cleared, xs, j, threshold)
  {
    assert xs[..n][..j] == xs[..j];
  }

  /** Whenever a run that started cleared has a recorded detection, some earlier tick restarted
      the timer with exactly that time and size, and every tick since saw changes of that same
      size. */
  lemma {:induction false} DetectionHasOrigin(xs: seq<Sample>, threshold: int)
    requires Detected(Run(Cleared, xs, threshold))
    ensures exists j :: (0 <= j < |xs| && OriginAt(xs, j, threshold)
                         && Run(Cleared, xs, threshold) == Tracker(Some(xs[j].now), xs[j].size))
  {
    var n := |xs| - 1;
    var init := xs[..n];
    RunStep(Cleared, xs, n, threshold);
    assert xs[..n + 1] == xs;
    var t := Run(Cleared, init, threshold);
    var v := Classify(t, xs[n], threshold);
    if v == Restarted {
      assert OriginAt(xs, n, threshold);
    } else {
      DetectionHasOrigin(init, threshold);
      var j :| 0 <= j < |init| && OriginAt(init, j, threshold)
        && t == Tracker(Some(init[j].now), init[j].size);
      VerdictOfPrefix(xs, n, j, threshold);
      assert OriginAt(xs, j, threshold);
    }
  }

  /** A tick is ready only after the same size was seen continuously for the whole stability
      window: some earlier tick restarted the timer with this size at least 3000 ms before, and
      every tick in between saw changes of this size. */
  lemma ReadyMeansSettled(xs: seq<Sample>, k: nat, threshold: int)
    requires k < |xs| && VerdictAt(Cleared, xs, k, threshold) == Ready
    ensures xs[k].size >= threshold
    ensures exists j :: (0 <= j < k && OriginAt(xs[..k + 1], j, threshold)
                         && xs[j].size == xs[k].size && xs[k].now - xs[j].now >= StabilityWindowMs)
  {
    var pre := xs[..k];
    DetectionHasOrigin(pre, threshold);
    var j :| 0 <= j < |pre| && OriginAt(pre, j, threshold)
      && Run(Cleared, pre, threshold) == Tracker(Some(pre[j].now), pre[j].size);
    VerdictOfPrefix(xs, k, j, threshold);
    VerdictOfPrefix(xs, k + 1, j, threshold);
    assert OriginAt(xs[..k + 1], j, threshold);
  }

  /** Ticks that see the same size before the window has passed keep the tracker as it is. */
  lemma {:induction false} SettlingKeepsTracker(t0: int, size: int, xs: seq<Sample>, threshold: int)
    requires t0 != 0
    requires forall i :: 0 <= i < |xs| ==> xs[i].changes && xs[i].size == size && xs[i].now - t0 < StabilityWindowMs
    ensures Run(Tracker(Some(t0), size), xs, threshold) == Tracker(Some(t0), size)
  {
    if xs != [] {
      SettlingKeepsTracker(t0, size, xs[..|xs| - 1], threshold);
    }
  }

  /** A burst of changes that stops growing settles: once the timer was restarted at `t0` with
      some size, further ticks with that size stay `Settling` until the window has passed, and the
      first tick after it is `Ready` exactly when the size reaches the threshold. */
  lemma ConstantBurstSettles(t0: int, size: int, xs: seq<Sample>, last: Sample, threshold: int)
    requires t0 != 0
    requires forall i :: 0 <= i < |xs| ==> xs[i].changes && xs[i].size == size && xs[i].now - t0 < StabilityWindowMs
    requires last.changes && last.size == size && last.now - t0 >= StabilityWindowMs
    ensures forall k :: 0 <= k < |xs| ==> VerdictAt(Tracker(Some(t0), size), xs, k, threshold).Settling?
    ensures Classify(Run(Tracker(Some(t0), size), xs, threshold), last, threshold)
         == if size >= threshold then Ready else Small
  {
    forall k | 0 <= k < |xs|
      ensures VerdictAt(Tracker(Some(t0), size), xs, k, threshold).Settling?
    {
      SettlingKeepsTracker(t0, size, xs[..k], threshold);
    }
    SettlingKeepsTracker(t0, size, xs, threshold);
  }

  /** A quiet tree leaves nothing behind: the tracker is cleared whatever it held. */
  lemma QuietClears(t: Tracker, x: Sample, threshold: int)
    requires !x.changes
    ensures Track(t, x, threshold) == Cleared && !Detected(Cleared)
  {
  }

  /** A tick can only settle on the size the timer was restarted with, so a size that moves on
      every tick never reaches the threshold check. */
  lemma {:induction false} MovingSizeNeverSettles(xs: seq<Sample>, threshold: int)
    requires forall i :: 0 <= i < |xs| ==> xs[i].changes
    requires forall i :: 0 < i < |xs| ==> xs[i].size != xs[i - 1].size
    requires forall i :: 0 <= i < |xs| ==> xs[i].now != 0
    ensures forall k :: 0 <= k < |xs| ==> Run(Cleared, xs[..k + 1], threshold) == Tracker(Some(xs[k].now), xs[k].size)
    ensures forall k :: 0 <= k < |xs| ==> VerdictAt(Cleared, xs, k, threshold) == Restarted
  {
    forall k | 0 <= k < |xs|
      ensures Run(Cleared, xs[..k + 1], threshold) == Tracker(Some(xs[k].now), xs[k].size)
      ensures VerdictAt(Cleared, xs, k, threshold) == Restarted
    {
      MovingStep(xs, k, threshold);
    }
  }

  lemma {:induction false} MovingStep(xs: seq<Sample>, k: nat, threshold: int)
    requires k < |xs|
    requires forall i :: 0 <= i < |xs| ==> xs[i].changes
    requires forall i :: 0 < i < |xs| ==> xs[i].size != xs[i - 1].size
    requires forall i :: 0 <= i < |xs| ==> xs[i].now != 0
    ensures VerdictAt(Cleared, xs, k, threshold) == Restarted
    ensures Run(Cleared, xs[..k + 1], threshold) == Tracker(Some(xs[k].now), xs[k].size)
  {
    RunStep(Cleared, xs, k, threshold);
    if k > 0 {
      MovingStep(xs, k - 1, threshold);
    }
  }

  /** The status-only loops never reset a ready tracker, so once a change has settled at or
      above the threshold every later tick that sees the same size is ready again, and the tracker
      keeps its original detection time. */
  lemma {:induction false} ReadyStaysReady(t: Tracker, xs: seq<Sample>, threshold: int)
    requires Detected(t) && t.lastChangeSize >= threshold
    requires forall i :: 0 <= i < |xs| ==>
      xs[i].changes && xs[i].size == t.lastChangeSize && xs[i].now - t.lastChangeDetected.value >= StabilityWindowMs
    ensures Run(t, xs, threshold) == t
    ensures forall k :: 0 <= k < |xs| ==> VerdictAt(t, xs, k, threshold) == Ready
  {
    if xs != [] {
      var init := xs[..|xs| - 1];
      ReadyStaysReady(t, init, threshold);
      forall k | 0 <= k < |xs|
        ensures VerdictAt(t, xs, k, threshold) == Ready
      {
        if k < |xs| - 1 {
          assert xs[..k] == init[..k];
          assert VerdictAt(t, init, k, threshold) == Ready;
        }
      }
    }
  }

  /** What a status-only loop shows for a verdict. */
  datatype Status =
    | Watching
    | ChangeDetected(size: int)
    | Stabilizing(seconds: int, size: int)
    | BelowThreshold(size: int, threshold: int)
    | Processing(size: int)
    | ReadyToCommit(size: int)

  /** The status line for a verdict: a settled change at the threshold reads as being processed
      in auto mode and as waiting for a manual commit otherwise. */
  function StatusOf(v: Verdict, size: int, cfg: Settings): (s: Status)
    ensures s.Processing? <==> v == Ready && cfg.autoMode == Auto
    ensures s.ReadyToCommit? <==> v == Ready && cfg.autoMode != Auto
    ensures s == Watching <==> v == Quiet
  {
    match v
    case Quiet => Watching
    case Restarted => ChangeDetected(size)
    case Settling(ms) => Stabilizing(Seconds(ms), size)
    case Small => BelowThreshold(size, cfg.commitThreshold)
    case Ready => if cfg.autoMode == Auto then Processing(size) else ReadyToCommit(size)
  }
}
