/** The watch status panel: a once-a-second tick that classifies the working tree with the shared
    stability rule and redraws a panel of text lines built afresh each time; it never commits. */
module WatchPanel {
  import opened Wrappers
  import opened JsString
  import opened Config
  import Stability

  /** The fixed top of the panel: the banner, the settings, a rule, and the status heading. */
  function PanelHeader(cfg: Settings): (r: seq<string>)
    ensures |r| == 12 && r[4] == "CONFIG:" && r[11] == "STATUS:"
  {
    ["╔══════════════════════════════╗",
     "║   GTA - WATCH STATUS PANEL   ║",
     "╚══════════════════════════════╝",
     "",
     "CONFIG:",
     "  Mode: " + ModeName(cfg.autoMode),
     "  Threshold: " + IntToString(cfg.commitThreshold) + " lines",
     "  AI: " + cfg.aiProvider,
     "",
     Repeat("─", 30),
     "",
     "STATUS:"]
  }

  /** The status section for a classified tick. */
  function PanelStatusLines(s: Stability.Status): (r: seq<string>)
    ensures 2 <= |r| <= 3
    ensures |r| == 3 <==> s.Processing?
  {
    match s
    case Watching => ["  👁️  Watching...", "  No changes detected"]
    case ChangeDetected(n) => ["  📝 " + IntToString(n) + " lines changed", "  Waiting for stability..."]
    case Stabilizing(e, n) => ["  ⏳ Stabilizing " + IntToString(e) + "s", "  " + IntToString(n) + " lines"]
    case BelowThreshold(n, t) => ["  Below threshold", "  " + IntToString(n) + "/" + IntToString(t) + " lines"]
    case Processing(n) => ["  🚀 Processing...", "  " + IntToString(n) + " lines", "  🤖 Generating message..."]
    case ReadyToCommit(n) => ["  ⚠️  " + IntToString(n) + " lines ready", "  Manual commit needed"]
  }

  /** The fixed bottom of the panel, with the time of the update. */
  function PanelFooter(time: string): (r: seq<string>)
    ensures |r| == 7 && r[4] == time
  {
    ["", Repeat("─", 30), "", "Last update:", time, "", "Press Ctrl+C to exit"]
  }

  /** A panel as drawn after a tick that got through: header, status section, footer. */
  function Panel(cfg: Settings, s: Stability.Status, time: string): (r: seq<string>)
    ensures |r| == 21 || |r| == 22
    ensures r[..12] == PanelHeader(cfg) && r[|r| - 7..] == PanelFooter(time)
    ensures r[12..|r| - 7] == PanelStatusLines(s)
  {
    PanelHeader(cfg) + PanelStatusLines(s) + PanelFooter(time)
  }

  class WatchPanelState {
    var lastChangeDetected: Option<int>
    var lastChangeSize: int
    /** The lines the next redraw prints. */
    var lines: seq<string>

    constructor ()
      ensures lastChangeDetected == None && lastChangeSize == 0 && lines == []
    {
      lastChangeDetected := None;
      lastChangeSize := 0;
      lines := [];
    }

    function Tracked(): Stability.Tracker
      reads this
    {
      Stability.Tracker(lastChangeDetected, lastChangeSize)
    }

    /** `updateStatus()`: a failing `hasChanges` counts as no changes; a failing size read
        replaces the whole panel by one error line and leaves the tracker alone. The lines never
        depend on what the previous tick drew. */
    method UpdateStatus(cfg: Settings, changes: Result<bool>, size: Result<int>, now: int, time: string)
      modifies this
      ensures changes.Failure? || !changes.value ==>
        Tracked() == Stability.Cleared && lines == Panel(cfg, Stability.Watching, time)
      ensures changes.Success? && changes.value && size.Failure? ==>
        Tracked() == old(Tracked()) && lines == ["Error: " + size.error]
      ensures changes.Success? && changes.value && size.Success? ==>
        var x := Stability.Sample(true, size.value, now);
        var v := Stability.Classify(old(Tracked()), x, cfg.commitThreshold);
        Tracked() == Stability.Track(old(Tracked()), x, cfg.commitThreshold)
        && lines == Panel(cfg, Stability.StatusOf(v, size.value, cfg), time)
    {
      var changed := false;
      if changes.Success? {
        changed := changes.value;
      }

      var status := Stability.Watching;
      if !changed {
        lastChangeDetected := None;
        lastChangeSize := 0;
      } else {
        if size.Failure? {
          lines := ["Error: " + size.error];
          return;
        }
        status := ClassifyChange(cfg, size.value, now);
      }
      lines := Panel(cfg, status, time);
    }

    /** The branches of `updateStatus` for a tree with changes of `z` lines: the tracker moves as
        the shared rule says and the status section shows the verdict. */
    method ClassifyChange(cfg: Settings, z: int, now: int) returns (status: Stability.Status)
      modifies this`lastChangeDetected, this`lastChangeSize
      ensures var x := Stability.Sample(true, z, now);
        Tracked() == Stability.Track(old(Tracked()), x, cfg.commitThreshold)
        && status == Stability.StatusOf(Stability.Classify(old(Tracked()), x, cfg.commitThreshold), z, cfg)
    {
      if !Stability.Detected(Tracked()) || z != lastChangeSize {
        lastChangeDetected := Some(now);
        lastChangeSize := z;
        status := Stability.ChangeDetected(z);
      } else {
        var timeSinceLastChange := now - lastChangeDetected.value;
        if timeSinceLastChange < Stability.StabilityWindowMs {
          status := Stability.Stabilizing(Stability.Seconds(timeSinceLastChange), z);
        } else if z < cfg.commitThreshold {
          status := Stability.BelowThreshold(z, cfg.commitThreshold);
          lastChangeDetected := None;
          lastChangeSize := 0;
        } else if cfg.autoMode == Auto {
          status := Stability.Processing(z);
        } else {
          status := Stability.ReadyToCommit(z);
        }
      }
    }
  }

  /** Whatever the previous tick drew, a git error on `hasChanges` shows the quiet panel and
      clears the tracker, exactly as a clean tree does. */
  lemma GitErrorReadsAsQuiet(cfg: Settings, t: Stability.Tracker, now: int)
    ensures Stability.Track(t, Stability.Sample(false, 0, now), cfg.commitThreshold) == Stability.Cleared
    ensures Stability.StatusOf(Stability.Classify(t, Stability.Sample(false, 0, now), cfg.commitThreshold), 0, cfg)
         == Stability.Watching
  {
  }

  /** The status section tells the states apart: the quiet, ready and processing panels differ. */
  lemma PanelsDiffer(cfg: Settings, n: int, time: string)
    ensures Panel(cfg, Stability.Watching, time) != Panel(cfg, Stability.ReadyToCommit(n), time)
    ensures Panel(cfg, Stability.Processing(n), time) != Panel(cfg, Stability.ReadyToCommit(n), time)
  {
    var q := Panel(cfg, Stability.Watching, time);
    var r := Panel(cfg, Stability.ReadyToCommit(n), time);
    assert q[13] == "  No changes detected" && r[13] == "  Manual commit needed";
    assert |Panel(cfg, Stability.Processing(n), time)| == 22 && |r| == 21;
  }
}
