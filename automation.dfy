/** The decisions the watch loops share once a change has settled: whether an AI message is
    asked for, the message committed in auto mode, and when a summary-and-push is due. */
module Automation {
  import opened Wrappers
  import opened Config

  /** `cfg.aiCommitMessages && cfg.aiProvider !== 'none'`. */
  predicate UsesAi(cfg: Settings) {
    cfg.aiCommitMessages && cfg.aiProvider != "none"
  }

  const AutoFallback := "chore(auto): update"

  /** The auto-mode commit message of the web and TUI loops: the time of day, a space, and the
      AI message, or the fixed fallback when AI is off or generating it failed. */
  function AutoCommitMessage(timestamp: string, cfg: Settings, generated: Result<string>): (m: string)
    ensures UsesAi(cfg) && generated.Success? ==> m == timestamp + " " + generated.value
    ensures !UsesAi(cfg) || generated.Failure? ==> m == timestamp + " " + AutoFallback
  {
    timestamp + " " + (if UsesAi(cfg) && generated.Success? then generated.value else AutoFallback)
  }

  /** The AI outcome never stops a commit: the message always starts with the timestamp and is
      longer than it. */
  lemma AutoMessageAlwaysStamped(timestamp: string, cfg: Settings, generated: Result<string>)
    ensures var m := AutoCommitMessage(timestamp, cfg, generated);
      |m| > |timestamp| && m[..|timestamp| + 1] == timestamp + " "
  {
  }

  /** A summary-and-push is due once enough commits are unpushed and the option is on. */
  predicate NeedsSummary(cfg: Settings, unpushedCount: int) {
    cfg.autoSummaryAndPush && unpushedCount >= cfg.commitsBeforeSummary
  }

  /** With a configuration the schema accepts, a summary is never asked for before two commits
      are waiting, and always by the time ten are. */
  lemma SummaryBounds(store: Store, unpushedCount: int)
    requires Conforms(store)
    ensures NeedsSummary(SettingsOf(store), unpushedCount) ==> unpushedCount >= 2
    ensures SettingsOf(store).autoSummaryAndPush && unpushedCount >= 10 ==>
      NeedsSummary(SettingsOf(store), unpushedCount)
  {
  }
}
