# gta: the watch / auto-commit engine, modelled in Dafny

gta is a Node.js command-line companion for git. Its heart is a change watcher. On every
tick it:
- asks git whether the working tree has changes and how many lines they touch;
- waits until that count has stayed the same for 3000 ms;
- compares the settled count with the configured `commitThreshold`;
- then acts according to `autoMode`: `manual` only reports, `confirm` asks, and `auto`
  commits with a timestamped AI message (or a fixed fallback) and may ask for a
  summary-and-push.

The engine is written several times over, once per front end. This project models each copy:
- the web interface's `smartWatch` (module `WebWatch`);
- the terminal UI's `backgroundWatch` (`TuiWatch`);
- the one-shot `watch` command (`WatchOnce`);
- three status-only panels (`MiniTui`, `WatchPanel`, `StatusBar`).

It also models the helpers the engine acts through:
- git output parsing (`Git`);
- AI prompt building and reply cleanup (`Ai`);
- GitHub remote normalisation (`GitHub`);
- the activity log (`Logger`);
- the process lock (`Lock`);
- the configuration schema (`Config`).

The tick rule the copies share is stated once, in `Stability`:
- `Classify` says what a sample means for the tracker: quiet, restarted, settling, small or
  ready.
- `Track` says how the tracker (`lastChangeDetected`, `lastChangeSize`) moves.

Each front end's tick is an imperative method over a class with the front end's own
module-level variables as fields. Its `ensures` ties the new tracker and the emitted
events, lines or commits to `Classify`/`Track` and to the mode. The lemmas in `Stability`
then prove what the rule promises over whole runs of ticks:
- a ready verdict means the size really held still for the whole window;
- a size that keeps moving never settles;
- a steady burst settles exactly when the window has passed.

Everything outside the process is a parameter of the operation that reads it:
- git's answers, and the errors git throws (`Result` values);
- the clock, as an integer `now` and opaque timestamp strings;
- AI replies;
- the person's answers to prompts;
- the set of live process ids and listeners that throw.

Modules: `Wrappers` (Option/Result), `JsString` (the JavaScript string built-ins used:
`trim`, `split`, `indexOf`, `parseInt`, …), `Config`, `Git`, `Ai`, `GitHub`, `Logger`,
`Lock`, `Automation` (the auto-mode message and the summary rule the loops share),
`Stability`, `WebWatch`, `TuiWatch`, `WatchOnce`, `MiniTui`, `WatchPanel`, `StatusBar`.

## Model

| member | source | states |
|---|---|---|
| Stability.Seconds | commands/ai-workspace-simple.js:45 | the elapsed seconds shown are the floor of the milliseconds: `1000*s <= ms < 1000*s + 1000` |
| Stability.Classify | commands/web.js:159-214 | the verdict is quiet exactly when there are no changes; restarted exactly when the timer is unset or the size differs; settling exactly when the size is unchanged and under 3000 ms have passed, with the elapsed time measured from the recorded detection; ready only at or above the threshold after the window, and small only below it |
| Stability.Track | commands/tui.js:52-88 | a restart records `now` and the new size; quiet and below-threshold clear the tracker; settling and ready leave it as it was |
| Stability.DetectionHasOrigin | commands/web.js:179-190 | over any run of ticks from a cleared tracker, a set timer was started by some earlier tick with exactly that time and size, and every tick since saw changes of that same size |
| Stability.ReadyMeansSettled | commands/web.js:193-214 | a ready verdict implies the size is at or above the threshold, and some earlier tick restarted the timer with this same size at least 3000 ms before |
| Stability.SettlingKeepsTracker | commands/tui.js:74-80 | ticks with the same size inside the window never move the tracker |
| Stability.ConstantBurstSettles | commands/tui.js:67-88 | a steady size stays settling throughout the window; the first tick after it is ready when the size reaches the threshold (equality included) and small otherwise |
| Stability.QuietClears | commands/web.js:159-172 | a quiet sample always clears the tracker |
| Stability.MovingSizeNeverSettles | commands/web.js:179-190 | when every tick sees a different size from the one before, every tick restarts the timer and none reaches the threshold check |
| Stability.ReadyStaysReady | scripts/gta-mini-tui.js:62-66 | in the status-only panels, which do not reset on ready, every later tick with the same size is ready again and the detection time is kept |
| Stability.StatusOf | scripts/gta-mini-tui.js:40-66 | the status reads "processing" exactly for a ready change in auto mode, "ready to commit" exactly for a ready change in the other modes, and "watching" exactly for a quiet tree |
| WebWatch.WebWatchState.SmartWatch | commands/web.js:151-308 | a tick while processing changes nothing; a quiet tree clears the tracker and reports only the watch timer; a failing size read is caught, logged, and drops only the timer; otherwise the tracker follows `Classify`, and only a ready change emits mode events, commits or resets the watch start; the interval and clients are never touched |
| WebWatch.WebWatchState.ProcessReady | commands/web.js:217-301 | a ready change ends with `isProcessing` false and the tracker cleared (a throwing auto commit only drops the timer), with the mode's events and at most the auto commit recorded; the watch timer restarts only after an auto commit attempt that did not throw |
| WebWatch.WebWatchState.AutoCommit | commands/web.js:247-293 | auto mode builds the message, commits it and, after a commit, asks for a summary when due; tracker reset and watch restart follow whatever the commit outcome |
| WebWatch.WebWatchState.BuildAutoMessage | commands/web.js:248-263 | the message is the one `AutoCommitMessage` defines, with the AI log events for the AI path |
| WebWatch.WebWatchState.ReportCommitted | commands/web.js:266-287 | after a commit, a push request is emitted only when a summary is due and succeeds; a failing summary is logged |
| WebWatch.WebWatchState.ScanStep | commands/web.js:216-227 | the step logs the size, runs the sensitive-file scan, and broadcasts recommendations only when the scan found any |
| WebWatch.WebWatchState.LeaveToPerson | commands/web.js:230-245 | in confirm and manual modes nothing is committed: confirm mode asks for approval with the scan's warnings, manual mode only notifies, and both clear the tracker and `isProcessing` |
| WebWatch.AutoEventsAskNothing | commands/web.js:246-300 | the auto path never emits a commit request |
| WebWatch.OnlyAutoCommits | commands/web.js:231-245 | manual and confirm modes never commit and leave the tracker cleared; a commit request is emitted exactly in confirm mode |
| WebWatch.PushRequestWhenDue | commands/web.js:265-287 | a push request is emitted exactly when a commit was made, summaries are on, enough commits are unpushed, and the summary succeeded; a failing summary is reported instead |
| WebWatch.AutoCommitMessageUsed | commands/web.js:248-265 | the committed message is `timestamp + " " + AI message`, or `timestamp + " chore(auto): update"` when AI is off or fails |
| WebWatch.SensitiveWarnings | commands/web.js:319-327 | at most one warning per file, since the inner loop stops at the first matching pattern |
| WebWatch.SensitiveWarningsExactly | commands/web.js:311-333 | a warning is produced exactly for each file whose lower-cased name contains one of the seven patterns |
| WebWatch.MatchesPattern | commands/web.js:320-326 | the pattern loop reports a hit exactly when the lower-cased name contains one of the seven patterns |
| WebWatch.CheckSensitiveFiles | commands/web.js:311-333 | a failing git command gives no warnings; otherwise the warnings are those of the listed file names |
| WebWatch.UpperCaseEnvFlagged | commands/web.js:319-322 | the pattern match is case-insensitive: any name containing `.ENV` is flagged |
| WebWatch.WebWatchState.StartWatchMode | commands/web.js:336-349 | no effect when the interval already runs; otherwise the watch starts with the timer unset, not processing, and one "started" event |
| WebWatch.WebWatchState.StopWatchMode | commands/web.js:352-362 | no effect unless the interval runs; otherwise the watch state is cleared (the last size is kept) with one "stopped" event |
| WebWatch.WebWatchState.BroadcastSSE | commands/web.js:134-143 | every client not failing receives the message once, in order, and exactly the failing clients are dropped |
| WebWatch.KeepMembers | commands/web.js:134-143 | the kept clients are exactly the old clients that did not fail |
| WebWatch.WebWatchState.constructor | commands/web.js:126-131 | the watch state starts idle: no interval, timer unset, size 0, not processing |
| TuiWatch.Shorten | commands/tui.js:206 | the shown message is a prefix of the commit message of at most 50 characters, the whole message when it fits |
| TuiWatch.ConfirmMessage | commands/tui.js:133-166 | with AI chosen the message is the timestamped AI message or the timestamped `chore: update`; otherwise the custom message as typed (an empty answer included), or the timestamped fallback when that prompt is cancelled |
| TuiWatch.DeclineRestarts | commands/tui.js:119-129 | a declined confirm makes no commit, shows "cancelled" and restarts the watch |
| TuiWatch.ConfirmCommitsOnlyApproved | commands/tui.js:93-184 | a confirm commit happens exactly when the person approves, neither the header redraw nor the diff view throws, and git commits; the message committed is `ConfirmMessage` |
| TuiWatch.ConfirmThrowLeavesWatchStopped | commands/tui.js:93-183 | the watch is left stopped exactly when a step throws (the header redraw, the diff view, or `git add` or `git commit` after approval) |
| TuiWatch.HeaderThrowStopsWatch | commands/tui.js:95-97 | when `showHeader` throws (as `getCurrentBranch` does in a repository without a commit), nothing is shown, asked or committed and the watch stays stopped |
| TuiWatch.AutoFallbackMessage | commands/tui.js:185-206 | the auto fallback is `timestamp + " chore(auto): update"`; a commit is recorded exactly when git commits |
| TuiWatch.TuiWatchState.BackgroundWatch | commands/tui.js:44-226 | a tick while processing, outside a repository, or with a throwing size read changes nothing; `isProcessing` is always restored; the tracker follows `Classify`; manual mode clears the tracker; confirm and auto act as their branches state |
| TuiWatch.TuiWatchState.ConfirmBranch | commands/tui.js:93-184 | the confirm dialogue shows its lines and makes at most the approved commit; the watch restarts with a cleared tracker exactly when nothing threw, the header redraw included |
| TuiWatch.TuiWatchState.AutoBranch | commands/tui.js:185-214 | `isProcessing` is cleared whatever the commit result; the tracker is left for the delayed reset, which is scheduled exactly when the commit was made |
| TuiWatch.TuiWatchState.DelayedReset | commands/tui.js:207-211 | the delayed reset clears the tracker and restarts the watch timer |
| TuiWatch.TuiWatchState.StartBackgroundWatch | commands/tui.js:229-233 | no effect on the start time when an interval exists; otherwise the interval is set and the start time recorded |
| TuiWatch.TuiWatchState.StopBackgroundWatch | commands/tui.js:236-240 | afterwards no interval runs |
| TuiWatch.TuiWatchState.constructor | commands/tui.js:25-30 | the watch state starts idle |
| WatchOnce.OnceCommitMessage | commands/watch.js:47-56 | the message is the AI one, or `chore(auto): update` followed by the date and time when AI is off or fails |
| WatchOnce.QuietAndSmall | commands/watch.js:19-27 | a quiet tree reports no changes and a change below the threshold reports its size; neither commits; a failing size read propagates |
| WatchOnce.OnlyAutoModeCommits | commands/watch.js:30-38 | manual mode reports `manual`, confirm mode `skipped`, and neither commits |
| WatchOnce.CommittedIffCommit | commands/watch.js:47-79 | a commit is reported exactly when one was made; nothing staged reads as "no changes"; a throwing `git add` or `git commit` is reported as an error with the size |
| WatchOnce.NeedsSummaryIff | commands/watch.js:68-74 | `needsSummary` holds exactly when summaries are on and the unpushed count reaches `commitsBeforeSummary`; without an upstream it never holds |
| WatchOnce.SummaryText | commands/watch.js:105-112 | the summary is the AI one, or `"<N> commits ready to push"` when the AI fails |
| WatchOnce.HandleSummaryAndPush | commands/watch.js:84-145 | nothing happens when no commit is unpushed; otherwise the commits are listed, a declined push pushes nothing, a failing branch read propagates, and a push is only attempted after approval |
| MiniTui.MiniTuiState.UpdateWatchStatus | scripts/gta-mini-tui.js:29-72 | a throwing `hasChanges` or size read leaves everything as it was; a quiet tree clears the tracker; otherwise the tracker follows `Track` and the status is `StatusOf` the verdict, never a commit |
| MiniTui.IndexOfMode | scripts/gta-mini-tui.js:183-185 | the index is the stored mode's position among manual, confirm and auto, and -1 exactly when the stored value is none of them |
| MiniTui.NextMode | scripts/gta-mini-tui.js:186 | the next mode is always one of the three modes |
| MiniTui.ModeCycle | scripts/gta-mini-tui.js:182-188 | the cycle is manual, confirm, auto, manual, and an unrecognised mode moves to manual |
| MiniTui.CycleOfThree | scripts/gta-mini-tui.js:182-188 | three presses bring any mode back |
| MiniTui.CycleMode | scripts/gta-mini-tui.js:182-188 | the stored mode becomes the successor of the old one, and the store still satisfies the schema |
| MiniTui.NowMessage | scripts/gta-mini-tui.js:145-154 | the message is the AI one, or `chore: update <time>` when AI is off or fails |
| MiniTui.CommitNowOutcomes | scripts/gta-mini-tui.js:135-180 | a commit happens exactly when git commits; a push follows exactly when push-on-commit is on and the branch is known; nothing staged reports "No changes to commit"; a branch read that throws reports failure after the commit |
| WatchPanel.PanelHeader | scripts/watch-panel.js:39-54 | the header has twelve lines, with the config heading at line 5 and the status heading last |
| WatchPanel.PanelStatusLines | scripts/watch-panel.js:56-90 | the status block has two lines, or three exactly while processing |
| WatchPanel.PanelFooter | scripts/watch-panel.js:93-99 | the footer has seven lines, with the update time at line 5 |
| WatchPanel.Panel | scripts/watch-panel.js:37-99 | the panel is rebuilt from empty as header, status block and footer |
| WatchPanel.WatchPanelState.ClassifyChange | scripts/watch-panel.js:62-89 | for a dirty tree the tracker moves as `Track` says and the status shown is `StatusOf` `Classify`'s verdict |
| WatchPanel.WatchPanelState.UpdateStatus | scripts/watch-panel.js:23-107 | a git error reads as a quiet tree and clears the tracker; a throwing size read replaces the panel by one error line and keeps the tracker; otherwise the tracker follows `Track` and the panel shows `StatusOf` the verdict |
| WatchPanel.GitErrorReadsAsQuiet | scripts/watch-panel.js:28-34 | a sample counted as no changes clears any tracker and shows "watching" |
| WatchPanel.PanelsDiffer | scripts/watch-panel.js:82-89 | the ready panel differs from both the watching panel and the processing panel |
| StatusBar.GetAICommand | commands/ai-workspace-simple.js:74-83 | `copilot` maps to `github-copilot-cli`, the other three known types to themselves, and anything else to `gemini` |
| StatusBar.StatusBarState.UpdateStatusBar | commands/ai-workspace-simple.js:16-71 | git errors count as a quiet tree and clear the tracker; a throwing size read writes nothing; otherwise the tracker follows `Track` and one bar with `StatusOf` the verdict is written |
| StatusBar.StatusBarState.StartUpdates | commands/ai-workspace-simple.js:102-104 | one tick runs at once, with every outcome of `UpdateStatusBar` (quiet tree, throwing size read, and `Track` with one bar of `StatusOf` the verdict), and then the interval is set |
| StatusBar.StatusBarState.Cleanup | commands/ai-workspace-simple.js:112-117 | afterwards no interval is set |
| StatusBar.Bar | commands/ai-workspace-simple.js:60 | each bar carries the status beside the configured mode and threshold |
| Automation.AutoCommitMessage | commands/web.js:248-263 | the auto message is `timestamp + " " + AI message`, or the timestamp and `chore(auto): update` when AI is off or fails |
| Automation.AutoMessageAlwaysStamped | commands/tui.js:185-200 | whatever the AI does, the message starts with the timestamp and a space, and has text after it |
| Automation.SummaryBounds | lib/config.js:60-65 | under a configuration the schema accepts, a summary is never due before two commits and always due by ten |
| Git.HasChanges | lib/git.js:54-62 | the tree reads as unchanged exactly when both the unstaged and the staged diff are quiet |
| Git.ChangeSize | lib/git.js:64-75 | the corrected count of the first finding (a binary entry counts 0, where the source's total is NaN): the loop's total equals the added-plus-deleted sum over the non-empty numstat lines |
| Git.ChangeSizeOfListing | lib/git.js:64-75 | reading back the listing git prints for any files gives the lines they changed, binary files counting 0 |
| Git.NumstatAgreesWhenFinite | lib/git.js:64-75 | wherever the source's loop yields a number, the corrected count yields that same number |
| Git.BinaryEntryMakesNaN | lib/git.js:70-72 | as written, one binary file in the listing makes the total NaN |
| Git.CommitChanges | lib/git.js:77-87 | a commit is reported exactly when git commits, with the given message; nothing staged gives `No changes to commit`; a failing `git add` or `git commit` throws |
| Git.PushChanges | lib/git.js:89-96 | success exactly when `git push` succeeds, otherwise the error is reported and nothing throws |
| Git.CheckoutTarget | lib/git.js:121-129 | `prev` checks out `HEAD~1`, `next` checks out `@{-1}`, and any other ref passes through |
| Git.CleanBranches | lib/git.js:131-138 | cleaning never adds lines |
| Git.ListBranchesOfListing | lib/git.js:131-138 | reading back the `git branch -a` listing gives the branch names in order, without the current marker, the `remotes/origin/` prefix or the HEAD pointer |
| Git.LastSegment | lib/git.js:145-148 | the result contains no `/`, ends the path, and is either the whole path or preceded by a `/` |
| Git.RepoName | lib/git.js:145-148 | the repository name contains no `/` and ends the trimmed top-level path |
| Git.UnpushedCommitsCount | lib/git.js:164-176 | the count is 0 without an upstream or on error, and otherwise the count git reports |
| Git.UnpushedCommits | lib/git.js:181-191 | the list is empty without an upstream or on error; each entry is one non-empty line |
| Git.UnpushedCommitsOfLog | lib/git.js:181-191 | with an upstream, a log of one-line commits (not starting or ending in white space) reads back as exactly those commits, in order; an empty log gives none |
| Ai.GenerateWithAI | lib/ai.js:7-31 | success exactly when the provider has a back end and that back end succeeds; provider `none` raises the not-configured error; other failures carry the `AI generation failed: ` prefix |
| Ai.StripQuotes | lib/ai.js:162 | at most one leading and one trailing quote are removed, and text without quotes at its ends is kept as it is |
| Ai.StripQuotesOfQuoted | lib/ai.js:162 | a text wrapped in quotes is given back without them |
| Ai.CleanCommitMessage | lib/ai.js:162 | the cleaned message is a single line |
| Ai.CleanCommitMessageOfReply | lib/ai.js:162 | a reply whose first line is a quoted message, after leading white space, gives back exactly that message |
| Ai.CleanBranchName | lib/ai.js:183 | the cleaned branch name contains no white space |
| Ai.CleanBranchNameOfReply | lib/ai.js:183 | a reply holding one unquoted name between white space gives back exactly that name |
| Ai.CleanDescription | lib/ai.js:215 | the cleaned description is no longer than the trimmed reply |
| Ai.CleanDescriptionOfReply | lib/ai.js:215 | a quoted description between white space is given back without its quotes |
| Ai.CommitContext | lib/ai.js:150 | the context is `Changes:` and a newline, then a prefix of the diff of at most 3000 characters, the whole diff when it fits |
| Ai.CommitPrompt | lib/ai.js:152-157 | the prompt ends with the context and starts with the custom prompt and a blank line, or with the built-in instructions when none is set |
| Ai.PromptDiff | lib/ai.js:139-150 | the corrected prompt diff is the staged diff, or the unstaged one when nothing is staged |
| Ai.UnstagedOnlyPromptIsEmpty | lib/ai.js:139-150 | with only unstaged changes the prompt as written has an empty diff, while the corrected one carries the start of the unstaged diff |
| Ai.GenerateCommitMessage | lib/ai.js:135-163 | the corrected prompt of the second finding (the unstaged diff when nothing is staged, where the source always sends the staged diff); with no staged and no unstaged changes it fails with `No changes to commit`; a generated message is one line; otherwise it succeeds exactly when generation succeeds |
| Ai.BranchPrompt | lib/ai.js:171-180 | the prompt ends with the description and starts with the custom prompt or the built-in instructions |
| Ai.GenerateBranchName | lib/ai.js:168-184 | succeeds exactly when generation succeeds, with the cleaned reply, which has no white space |
| Ai.FileClause | lib/ai.js:210 | the file clause is empty exactly when there are no files |
| Ai.DescriptionPromptListsFiles | lib/ai.js:210 | the prompt lists the files, comma-separated, only when the list is non-empty |
| Ai.GenerateProjectDescription | lib/ai.js:209-216 | succeeds exactly when generation succeeds, with the cleaned reply |
| Ai.SummaryPrompt | lib/ai.js:231-236 | the prompt contains the commit log between blank lines |
| Ai.SummarizeCommits | lib/ai.js:221-240 | an empty log fails with `No commits found`; otherwise success exactly when generation succeeds, and the summary is the trimmed reply |
| GitHub.RemoteToHttps | utils/github.js:1-17 | a missing or empty remote gives none; an https remote loses one trailing `.git`; an ssh remote becomes the https form; any other remote is unchanged |
| GitHub.HttpsRemoteLosesOneSuffix | utils/github.js:12-14 | an https remote is changed only by dropping one trailing `.git` |
| GitHub.SshAndHttpsAgree | utils/github.js:1-17 | the ssh and https remotes of the same repository normalise to the same URL |
| GitHub.FirstMatch | utils/github.js:23 | the match found is the first position where `github.com/<owner>/<repo>` occurs |
| GitHub.Captures | utils/github.js:23-29 | the owner and repository captured are non-empty, contain no `/`, and occur at the match |
| GitHub.ExtractRepoInfo | utils/github.js:19-30 | a result is only given for a normalised URL; it is the captures of a match with no match at any earlier position, and none means no match exists |
| GitHub.ExtractFromSshRemote | utils/github.js:19-30 | an ssh remote gives back its owner and repository |
| GitHub.ExtractFromHttps | utils/github.js:19-30 | an https remote gives back its owner and repository |
| Logger.Pushed | lib/logger.js:21-26 | the new entry comes first, followed by the newest older entries, and the log never exceeds 1000 entries |
| Logger.Notified | lib/logger.js:29-35 | every listener is called in order with the entry; a throwing one is recorded and does not stop the rest |
| Logger.EachListenerOnce | lib/logger.js:29-35 | each registered listener receives an entry exactly once |
| Logger.NewestFirst | lib/logger.js:21 | of two entries logged in turn, the later one is first |
| Logger.SliceFromStart | lib/logger.js:77-79 | the result is a prefix of the log, of `limit` entries (or all) for a non-negative limit and all but the last `-limit` for a negative one |
| Logger.Added | lib/logger.js:68-71 | after adding, the listener set is the old one with the listener |
| Logger.Removed | lib/logger.js:73-75 | after removing, the listener set is the old one without the listener |
| Logger.RemoveUndoesAdd | lib/logger.js:68-75 | the remover that adding returns undoes the addition |
| Logger.ActivityLogger.Log | lib/logger.js:12-38 | the entry is pushed newest first within the bound and every listener is notified once |
| Logger.ActivityLogger.AddListener | lib/logger.js:68-71 | the listener is added, and the remover returned names it |
| Logger.ActivityLogger.RemoveListener | lib/logger.js:73-75 | the listener is removed and nothing else changes |
| Logger.ActivityLogger.GetLogs | lib/logger.js:77-79 | the entries returned are the newest ones: exactly `limit` of them (100 by default) when there are that many, all of them otherwise, and all but the `-limit` oldest for a negative limit |
| Logger.ActivityLogger.Clear | lib/logger.js:81-84 | afterwards the log holds exactly one info entry, "Activity log cleared", and the listeners hear of it |
| Logger.ActivityLogger.constructor | lib/logger.js:6-10 | the log starts empty, with no listeners |
| Lock.InfoFor | lib/lock.js:39-47 | the lock info is `GTA Web Interface` exactly for scope `web`, and `GTA TUI Mode` otherwise |
| Lock.ForceTakes | lib/lock.js:13-14 | a forced acquire replaces any lock by the caller's |
| Lock.LiveHolderBlocks | lib/lock.js:15-27 | a lock whose holder is alive blocks, reporting that pid and info, and is left intact |
| Lock.StaleLockReplaced | lib/lock.js:28-32 | a lock whose holder is dead, or a corrupt lock, is replaced by the caller's |
| Lock.HeldOnlyForLiveHolder | lib/lock.js:9-55 | an acquire is refused exactly when not forced and a live holder's lock can be read; every filesystem error otherwise fails open |
| Lock.AcquireWritesOwnLock | lib/lock.js:39-47 | a successful acquire writes the caller's lock, and other scopes are never touched |
| Lock.SecondAcquireBlocked | lib/lock.js:15-27 | once a live caller has taken a scope, a later unforced acquire by anyone is refused with the caller's pid and info |
| Lock.ReleaseOnlyOwn | lib/lock.js:60-75 | release deletes the lock only when it records the caller's pid; errors are ignored |
| Lock.AcquireThenRelease | lib/lock.js:9-75 | acquiring and then releasing leaves the scope without a lock |
| Lock.LockDir.AcquireLock | lib/lock.js:9-55 | the step-by-step acquire ends with the outcome and files the decision rule gives |
| Lock.LockDir.ReleaseLock | lib/lock.js:60-75 | the step-by-step release ends with the files the release rule gives |
| Config.ModeOf | lib/config.js:21-25 | a mode name is recognised exactly when it is manual, confirm or auto, and names the mode read |
| Config.SettingsOf | lib/config.js:20-70 | settings the schema accepts have a threshold of at least 1, a summary interval in [2, 10] and a known provider |
| Config.DefaultsConform | lib/config.js:20-70 | every default value fits its key's schema entry |
| Config.DefaultSettings | lib/config.js:20-70 | the defaults satisfy the schema: auto mode, threshold 20, gemini, AI messages on, a summary every 3 commits, auto summary on, push on commit off |
| Config.WriteConforms | lib/config.js:84-86 | a write keeps the store valid exactly when the value fits its key's schema entry |
| Config.ConfigStore.Get | lib/config.js:80-82 | a stored key reads its value, and any value read fits the schema |
| Config.ConfigStore.Set | lib/config.js:84-86 | a fitting value is stored and nothing else changes; any other write is refused and leaves the store |
| Config.ConfigStore.Validate | lib/config.js:92-99 | success exactly when the stored record satisfies the schema |
| Config.ConfigStore.Reset | lib/config.js:101-103 | the store goes back to the defaults |
| Config.ConfigStore.constructor | lib/config.js:72-78 | a fresh store holds the defaults |

## Left out

- Timers: `setInterval` and the tick scheduling are not modelled. Each tick is one method call, and `now` is an integer parameter. The TUI's 2-second `setTimeout` reset is a counter of pending resets plus the `DelayedReset` method.
- `Date.now()` and `toLocaleTimeString` are parameters. The TUI confirm branch reads the clock several times; the model uses one `resumedAt` value.
- The HTTP server, the SSE response streams and `JSON.stringify` are not modelled. A broadcast writes an opaque JSON string, and a client that throws is given as a set of failing clients.
- Colours, emoji, terminal escape codes, interactive prompts and the menu loops are not modelled. Prompt answers are parameters. The menu loop restarts the watch after a throw in the TUI's confirm branch; that restart is outside the model.
- Git and AI processes are not run. Their outputs or thrown errors are parameters, as are the provider CLIs' replies. The back end for each provider is a reply oracle.
- The logger's random id and ISO time are a parameter (a stamp). The console error printed for a throwing listener is left out.
- `Conf` persistence is not modelled. The store is an in-memory map with the schema's defaults. `aiModel` and `aiCommitMaxChars` are kept only as stored values.
- Numbers are integers. Configuration values are never fractional in the model, and `parseInt` is modelled for decimal digits with an optional sign.
- Strings are sequences of Unicode scalar values rather than UTF-16 code units. Lower-casing in the sensitive-file scan is ASCII only.
- StatusBar.GetAICommand: object prototype keys such as `constructor` would be looked up on the JavaScript object; the model maps them to `gemini`.
- `showHeader`'s printing is not modelled; whether its git reads throw is the TUI tick's `headerFails`. `isGitRepo` is a boolean parameter of the TUI tick. `getCurrentBranch` is a `Result` parameter where the mini TUI and the summary-and-push step read the branch.
- Git.ChangeSize: models the corrected count of the first finding (a binary entry counts 0); the source's NaN total is modelled only by `NumstatTotalAsWritten` and `BinaryEntryMakesNaN`.
- Ai.GenerateCommitMessage: builds its prompt from the corrected `PromptDiff` of the second finding; the source's staged-only prompt is modelled only by `PromptDiffAsWritten` and `UnstagedOnlyPromptIsEmpty`.
- commands/ai-workspace.js is not part of this model: its `getAICommand` duplicates the one modelled here.

## Findings

| source | as written | input that shows it | evidently intended | confidence | as-written member | corrected member |
|---|---|---|---|---|---|---|
| lib/git.js:64-75 | each numstat column is read with `parseInt`, and git prints `-` for both counts of a binary file, so the whole sum becomes NaN; the watch loops then see `size !== lastChangeSize` on every tick and never settle | a working tree whose diff includes a binary file (`-\t-\tlogo.png`) | a binary file counts 0 changed lines and the others are summed | not executed | Git.BinaryEntryMakesNaN | Git.ChangeSizeOfListing |
| lib/ai.js:139-150 | the diff fetched when nothing is staged is checked for emptiness but never put in the prompt, which always uses the staged diff | staged diff empty, unstaged diff non-empty | the prompt carries the unstaged diff when nothing is staged | not executed | Ai.UnstagedOnlyPromptIsEmpty | Ai.PromptDiff |
