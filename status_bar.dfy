/** The simple AI workspace: an AI command-line tool in the foreground with a status bar at the
    bottom that a once-a-second tick rewrites; it never commits. */
module StatusBar {
  import opened Wrappers
  import opened Config
  import Stability

  /** One write of the bar: the status and the settings summary beside it. */
  datatype BarLine = BarLine(status: Stability.Status, mode: Mode, threshold: int, provider: string)

  /** The command-line tool started for an AI type. */
  function GetAICommand(aiType: string): (cmd: string)
    ensures cmd in {"claude", "codex", "github-copilot-cli", "gemini"}
    ensures aiType == "copilot" <==> cmd == "github-copilot-cli"
    ensures aiType in {"claude", "codex", "gemini"} ==> cmd == aiType
    ensures aiType !in {"claude", "codex", "copilot", "gemini"} ==> cmd == "gemini"
  {
    if aiType == "claude" then "claude"
    else if aiType == "codex" then "codex"
    else if aiType == "copilot" then "github-copilot-cli"
    else "gemini"
  }

  class StatusBarState {
    var watchInterval: bool
    var lastChangeDetected: Option<int>
    var lastChangeSize: int
    /** Every bar written so far. */
    var written: seq<BarLine>

    constructor ()
      ensures !watchInterval && lastChangeDetected == None && lastChangeSize == 0 && written == []
    {
      watchInterval := false;
      lastChangeDetected := None;
      lastChangeSize := 0;
      written := [];
    }

    function Tracked(): Stability.Tracker
      reads this
    {
      Stability.Tracker(lastChangeDetected, lastChangeSize)
    }

    /** `updateStatusBar()`: git errors from `hasChanges` are ignored, so they count as a clean
        tree; a throwing size read is swallowed before anything is written. */
    method UpdateStatusBar(cfg: Settings, changes: Result<bool>, size: Result<int>, now: int)
      modifies this`lastChangeDetected, this`lastChangeSize, this`written
      ensures changes.Failure? || !changes.value ==>
        Tracked() == Stability.Cleared && written == old(written) + [Bar(cfg, Stability.Watching)]
      ensures changes.Success? && changes.value && size.Failure? ==>
        Tracked() == old(Tracked()) && written == old(written)
      ensures changes.Success? && changes.value && size.Success? ==>
        var x := Stability.Sample(true, size.value, now);
        var v := Stability.Classify(old(Tracked()), x, cfg.commitThreshold);
        Tracked() == Stability.Track(old(Tracked()), x, cfg.commitThreshold)
        && written == old(written) + [Bar(cfg, Stability.StatusOf(v, size.value, cfg))]
    {
      var changed := false;
      if changes.Success? {
        changed := changes.value;
      }

      var statusText;
      if !changed {
        statusText := Stability.Watching;
        lastChangeDetected := None;
        lastChangeSize := 0;
      } else {
        if size.Failure? {
          return;
        }
        var z := size.value;
        if !Stability.Detected(Tracked()) || z != lastChangeSize {
          lastChangeDetected := Some(now);
          lastChangeSize := z;
          statusText := Stability.ChangeDetected(z);
        } else {
          var timeSinceLastChange := now - lastChangeDetected.value;
          if timeSinceLastChange < Stability.StabilityWindowMs {
            statusText := Stability.Stabilizing(Stability.Seconds(timeSinceLastChange), z);
          } else if z < cfg.commitThreshold {
            statusText := Stability.BelowThreshold(z, cfg.commitThreshold);
            lastChangeDetected := None;
            lastChangeSize := 0;
          } else if cfg.autoMode == Auto {
            statusText := Stability.Processing(z);
          } else {
            statusText := Stability.ReadyToCommit(z);
          }
        }
      }
      written := written + [Bar(cfg, statusText)];
    }

    /** What `launchAIWorkspace` does before starting the tool: one tick at once, then the
        interval, set without checking for an earlier one. */
    method StartUpdates(cfg: Settings, changes: Result<bool>, size: Result<int>, now: int)
      modifies this
      ensures watchInterval
      ensures changes.Success? && changes.value && size.Failure? ==>
        Tracked() == old(Tracked()) && written == old(written)
      ensures changes.Failure? || !changes.value ==>
        Tracked() == Stability.Cleared && written == old(written) + [Bar(cfg, Stability.Watching)]
      ensures changes.Success? && changes.value && size.Success? ==>
        var x := Stability.Sample(true, size.value, now);
        var v := Stability.Classify(old(Tracked()), x, cfg.commitThreshold);
        Tracked() == Stability.Track(old(Tracked()), x, cfg.commitThreshold)
        && written == old(written) + [Bar(cfg, Stability.StatusOf(v, size.value, cfg))]
    {
      UpdateStatusBar(cfg, changes, size, now);
      watchInterval := true;
    }

    /** `cleanup()` when the tool exits: clears the interval if there is one. */
    method Cleanup()
      modifies this`watchInterval
      ensures !watchInterval
    {
      if watchInterval {
        watchInterval := false;
      }
    }
  }

  /** The bar for a status under the given settings. */
  function Bar(cfg: Settings, s: Stability.Status): (b: BarLine)
    ensures b.status == s && b.mode == cfg.autoMode && b.threshold == cfg.commitThreshold
  {
    BarLine(s, cfg.autoMode, cfg.commitThreshold, cfg.aiProvider)
  }
}
