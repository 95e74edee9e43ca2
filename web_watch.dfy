/** The web server's watch mode: a once-a-second tick that waits for a change to settle, checks
    it against the threshold, and then asks for confirmation, notifies, or commits, depending on
    the mode; plus the scan for sensitive staged files and the fan-out to event-stream clients. */
module WebWatch {
  import opened Wrappers
  import opened JsString
  import opened Config
  import opened Git
  import Stability
  import opened Automation

  // ---------------------------------------------------------------- sensitive files

  const SensitivePatterns: seq<string> := [".env", "credentials", "secrets", "password", "private", ".pem", ".key"]

  /** Some pattern among `ps` occurs in `lower`. */
  predicate MatchesSome(lower: string, ps: seq<string>) {
    exists k :: 0 <= k < |ps| && Includes(lower, ps[k])
  }

  /** A staged path is flagged when its ASCII-lower-cased form contains one of the patterns. */
  predicate IsSensitive(file: string) {
    MatchesSome(LowerAscii(file), SensitivePatterns)
  }

  function SensitiveWarning(file: string): string {
    "Sensitive file detected: " + file
  }

  /** One warning per flagged path, in the order of the listing. */
  function SensitiveWarnings(files: seq<string>): (ws: seq<string>)
    ensures |ws| <= |files|
  {
    if files == [] then []
    else
      var f := files[|files| - 1];
      SensitiveWarnings(files[..|files| - 1]) + (if IsSensitive(f) then [SensitiveWarning(f)] else [])
  }

  /** A warning is given exactly for each flagged path. */
  lemma {:induction false} SensitiveWarningsExactly(files: seq<string>)
    ensures forall w :: w in SensitiveWarnings(files) <==>
      exists f :: f in files && IsSensitive(f) && w == SensitiveWarning(f)
  {
    if files != [] {
      var init := files[..|files| - 1];
      var f := files[|files| - 1];
      assert files == init + [f];
      SensitiveWarningsExactly(init);
    }
  }

  /** `checkSensitiveFiles()`: scans `git diff --cached --name-only`; a failing git call yields
      no warnings. */
  method CheckSensitiveFiles(nameOnly: Result<string>) returns (warnings: seq<string>)
    ensures nameOnly.Failure? ==> warnings == []
    ensures nameOnly.Success? ==> warnings == SensitiveWarnings(Lines(nameOnly.value))
  {
    warnings := [];
    if nameOnly.Failure? {
      return;
    }
    var files := Lines(nameOnly.value);
    for i := 0 to |files|
      invariant warnings == SensitiveWarnings(files[..i])
    {
      var file := files[i];
      assert files[..i + 1][..i] == files[..i];
      var hit := MatchesPattern(file);
      if hit {
        warnings := warnings + [SensitiveWarning(file)];
      }
    }
    assert files[..|files|] == files;
  }

  /** The inner loop: tries the patterns in order and stops at the first one that occurs in the
      lower-cased path. */
  method MatchesPattern(file: string) returns (hit: bool)
    ensures hit <==> IsSensitive(file)
  {
    var lower := LowerAscii(file);
    hit := false;
    var j := 0;
    while j < |SensitivePatterns| && !hit
      invariant 0 <= j <= |SensitivePatterns|
      invariant hit <==> MatchesSome(lower, SensitivePatterns[..j])
    {
      if Includes(lower, SensitivePatterns[j]) {
        assert SensitivePatterns[..j + 1][j] == SensitivePatterns[j];
        hit := true;
      } else {
        assert SensitivePatterns[..j + 1] == SensitivePatterns[..j] + [SensitivePatterns[j]];
      }
      j := j + 1;
    }
    if !hit {
      assert SensitivePatterns[..j] == SensitivePatterns;
    } else {
      var k :| 0 <= k < j && Includes(lower, SensitivePatterns[..j][k]);
      assert SensitivePatterns[..j][k] == SensitivePatterns[k];
    }
  }

  /** Lower-casing distributes over concatenation. */
  lemma {:induction false} LowerAsciiAppend(a: string, b: string)
    ensures LowerAscii(a + b) == LowerAscii(a) + LowerAscii(b)
    decreases |a|
  {
    if a == [] {
      assert a + b == b;
    } else {
      assert (a + b)[1..] == a[1..] + b;
      LowerAsciiAppend(a[1..], b);
    }
  }

  lemma LowerEnv()
    ensures LowerAscii(".ENV") == ".env"
  {
    var l := LowerAscii(".ENV");
    assert l[0] == '.' && l[1] == 'e' && l[2] == 'n' && l[3] == 'v';
  }

  /** The scan ignores case: a path with `.ENV` anywhere in it is flagged. */
  lemma UpperCaseEnvFlagged(before: string, after: string)
    ensures IsSensitive(before + ".ENV" + after)
  {
    LowerAsciiAppend(before + ".ENV", after);
    LowerAsciiAppend(before, ".ENV");
    LowerEnv();
    var low := LowerAscii(before + ".ENV" + after);
    assert low == LowerAscii(before) + ".env" + LowerAscii(after);
    assert OccursAt(low, ".env", |LowerAscii(before)|);
    IncludesExactly(low, ".env");
    assert Includes(low, SensitivePatterns[0]);
  }

  // ---------------------------------------------------------------- event-stream clients

  type ClientId = nat

  /** The clients whose write does not throw, in order. */
  function Keep(clients: seq<ClientId>, failing: set<ClientId>): seq<ClientId>
  {
    if clients == [] then []
    else
      var init := clients[..|clients| - 1];
      var c := clients[|clients| - 1];
      assert clients == init + [c];
      Keep(init, failing) + (if c in failing then [] else [c])
  }

  /** The writes `broadcastSSE` performs: the message to every client that accepts it. */
  function Writes(clients: seq<ClientId>, failing: set<ClientId>, message: string): seq<(ClientId, string)>
  {
    if clients == [] then []
    else
      var init := clients[..|clients| - 1];
      var c := clients[|clients| - 1];
      assert clients == init + [c];
      Writes(init, failing, message) + (if c in failing then [] else [(c, message)])
  }

  /** After a broadcast, the clients left are exactly those whose write succeeded, and nobody
      else gets added. */
  lemma {:induction false} KeepMembers(clients: seq<ClientId>, failing: set<ClientId>)
    ensures |Keep(clients, failing)| <= |clients|
    ensures forall c :: c in Keep(clients, failing) <==> c in clients && c !in failing
  {
    if clients != [] {
      var init := clients[..|clients| - 1];
      assert clients == init + [clients[|clients| - 1]];
      KeepMembers(init, failing);
    }
  }

  /** Every client that accepts the write gets the message, and only those do. */
  lemma {:induction false} WritesMembers(clients: seq<ClientId>, failing: set<ClientId>, message: string)
    ensures forall c :: (c, message) in Writes(clients, failing, message) <==> c in clients && c !in failing
    ensures forall w :: w in Writes(clients, failing, message) ==> w.1 == message
  {
    if clients != [] {
      var init := clients[..|clients| - 1];
      assert clients == init + [clients[|clients| - 1]];
      WritesMembers(init, failing, message);
    }
  }

  lemma KeepStep(clients: seq<ClientId>, c: ClientId, failing: set<ClientId>)
    ensures Keep(clients + [c], failing) == Keep(clients, failing) + (if c in failing then [] else [c])
  {
    assert (clients + [c])[..|clients|] == clients;
  }

  lemma WritesStep(clients: seq<ClientId>, c: ClientId, failing: set<ClientId>, message: string)
    ensures Writes(clients + [c], failing, message)
         == Writes(clients, failing, message) + (if c in failing then [] else [(c, message)])
  {
    assert (clients + [c])[..|clients|] == clients;
  }

  lemma SplitAt(s: seq<ClientId>, i: nat)
    requires i < |s|
    ensures s[i..] == [s[i]] + s[i + 1..]
  {
  }

  lemma RemoveAt(pre: seq<ClientId>, c: ClientId, rest: seq<ClientId>)
    ensures (pre + [c] + rest)[|pre|] == c
    ensures (pre + [c] + rest)[..|pre|] + (pre + [c] + rest)[|pre| + 1..] == pre + rest
  {
    var s := pre + [c] + rest;
    assert s[..|pre|] == pre;
    assert s[|pre| + 1..] == rest;
  }

  /** One client of the broadcast loop: the client sits just after the kept ones; dropping it
      when it fails, or keeping it, gives the state after it. */
  lemma BroadcastStep(snapshot: seq<ClientId>, i: nat, failing: set<ClientId>, message: string)
    requires i < |snapshot|
    ensures var done := Keep(snapshot[..i], failing);
      var cur := done + snapshot[i..];
      |done| < |cur| && cur[|done|] == snapshot[i]
      && (snapshot[i] in failing ==> cur[..|done|] + cur[|done| + 1..] == Keep(snapshot[..i + 1], failing) + snapshot[i + 1..])
      && (snapshot[i] !in failing ==> cur == Keep(snapshot[..i + 1], failing) + snapshot[i + 1..])
      && Writes(snapshot[..i + 1], failing, message)
         == Writes(snapshot[..i], failing, message) + (if snapshot[i] in failing then [] else [(snapshot[i], message)])
  {
    var client := snapshot[i];
    assert snapshot[..i + 1] == snapshot[..i] + [client];
    KeepStep(snapshot[..i], client, failing);
    WritesStep(snapshot[..i], client, failing, message);
    var done := Keep(snapshot[..i], failing);
    var rest := snapshot[i + 1..];
    SplitAt(snapshot, i);
    RemoveAt(done, client, rest);
    assert done + ([client] + rest) == done + [client] + rest;
  }

  /** The wire form of an event: `data: <json>` and a blank line. */
  function SseMessage(json: string): string {
    "data: " + json + "\n\n"
  }

  // ---------------------------------------------------------------- the watch tick

  /** What the watch loop logs (through the activity log, which is also streamed) and broadcasts. */
  datatype WebEvent =
    | Watching(elapsed: int)
    | ChangeDetected(size: int)
    | Unstable(size: int, elapsed: int)
    | BelowThreshold(size: int, threshold: int)
    | Processing(size: int)
    | Recommendations(warnings: seq<string>)
    | AwaitingConfirmation(size: int)
    | CommitRequest(size: int, warnings: seq<string>)
    | ManualReady(size: int)
    | GeneratingMessage
    | GeneratedMessage(message: string)
    | AiFallback
    | Committed(message: string)
    | CreatingSummary(unpushedCount: nat)
    | SummaryReady
    | PushRequest(unpushedCount: nat, summary: string, commits: seq<string>)
    | SummaryFailed(error: string)
    | WatchError(error: string)
    | WatchStarted
    | WatchStopped

  /** Everything one tick reads from the outside world: the settings, git's answers, the clock
      (`now` when the size is read, `finishedAt` after an auto commit), the time-of-day stamp, and
      the outcomes of the AI calls. */
  datatype WebTick = WebTick(
    cfg: Settings,
    changes: bool,
    size: Result<int>,
    now: int,
    stagedNames: Result<string>,
    timestamp: string,
    generated: Result<string>,
    commit: CommitProbe,
    unpushedCount: nat,
    summary: Result<string>,
    unpushedCommits: seq<string>,
    finishedAt: int)

  /** The warnings the sensitive-file scan gives for a tick. */
  function ScanOf(x: WebTick): seq<string> {
    if x.stagedNames.Failure? then [] else SensitiveWarnings(Lines(x.stagedNames.value))
  }

  /** `if (watchStartTime)`. */
  predicate Started(start: Option<int>) {
    start.Some? && start.value != 0
  }

  function RecommendationEvents(warnings: seq<string>): seq<WebEvent> {
    if |warnings| > 0 then [Recommendations(warnings)] else []
  }

  /** The log lines of the AI step in auto mode. */
  function AiEvents(x: WebTick): seq<WebEvent> {
    if !UsesAi(x.cfg) then []
    else if x.generated.Success? then [GeneratingMessage, GeneratedMessage(AutoCommitMessage(x.timestamp, x.cfg, x.generated))]
    else [GeneratingMessage, AiFallback]
  }

  /** The events after a commit was made: the success line and, when due, the summary step. */
  function CommittedEvents(x: WebTick, message: string): seq<WebEvent> {
    [Committed(message)]
    + (if !NeedsSummary(x.cfg, x.unpushedCount) then []
       else if x.summary.Success? then [CreatingSummary(x.unpushedCount), SummaryReady,
                                        PushRequest(x.unpushedCount, x.summary.value, x.unpushedCommits)]
       else [CreatingSummary(x.unpushedCount), SummaryFailed(x.summary.error)])
  }

  /** The message an auto commit uses, and what committing it gives. */
  function AutoMessage(x: WebTick): string {
    AutoCommitMessage(x.timestamp, x.cfg, x.generated)
  }

  function AutoResult(x: WebTick): Result<CommitResult> {
    CommitChanges(x.commit, AutoMessage(x))
  }

  /** A commit is made exactly in auto mode when `commitChanges` stages something and commits it. */
  predicate MakesCommit(x: WebTick) {
    x.cfg.autoMode == Auto && AutoResult(x).Success? && AutoResult(x).value.committed
  }

  /** What a settled tick at or above the threshold logs and broadcasts. */
  function ReadyEvents(x: WebTick, size: int): seq<WebEvent> {
    [Processing(size)] + RecommendationEvents(ScanOf(x)) + ModeEvents(x, size)
  }

  /** The part of those events the mode decides. */
  function ModeEvents(x: WebTick, size: int): seq<WebEvent> {
    match x.cfg.autoMode
    case Confirm => [AwaitingConfirmation(size), CommitRequest(size, ScanOf(x))]
    case Manual => [ManualReady(size)]
    case Auto => AutoEvents(x)
  }

  /** The events of the auto branch: the AI step, then the commit's outcome. */
  function AutoEvents(x: WebTick): seq<WebEvent> {
    AiEvents(x)
    + (if AutoResult(x).Failure? then [WatchError(AutoResult(x).error)]
       else if AutoResult(x).value.committed then CommittedEvents(x, AutoMessage(x))
       else [])
  }

  /** Appending the three parts in turn appends the ready events. */
  lemma ReadyEventsAfter(before: seq<WebEvent>, x: WebTick, size: int)
    ensures before + [Processing(size)] + RecommendationEvents(ScanOf(x)) + ModeEvents(x, size)
         == before + ReadyEvents(x, size)
  {
  }

  /** The commits a settled tick at or above the threshold makes. */
  function ReadyCommits(x: WebTick): seq<string> {
    if MakesCommit(x) then [AutoMessage(x)] else []
  }

  /** The tracker after such a tick: cleared, except that a throwing commit only drops the timer. */
  function ReadyTracker(x: WebTick, size: int): Stability.Tracker {
    if x.cfg.autoMode == Auto && AutoResult(x).Failure? then Stability.Tracker(None, size)
    else Stability.Cleared
  }

  /** The watch start after such a tick: restarted after a completed auto commit attempt. */
  function ReadyStart(x: WebTick, start: Option<int>): Option<int> {
    if x.cfg.autoMode == Auto && AutoResult(x).Success? then Some(x.finishedAt) else start
  }

  /** Confirm mode asks the web page for approval and never commits; manual mode only reports. */
  lemma OnlyAutoCommits(x: WebTick, size: int)
    ensures x.cfg.autoMode != Auto ==> ReadyCommits(x) == [] && ReadyTracker(x, size) == Stability.Cleared
    ensures CommitRequest(size, ScanOf(x)) in ReadyEvents(x, size) <==> x.cfg.autoMode == Confirm
  {
    var w := ScanOf(x);
    var head := [Processing(size)] + RecommendationEvents(w);
    var m := ModeEvents(x, size);
    assert ReadyEvents(x, size) == head + m;
    assert CommitRequest(size, w) !in head;
    if x.cfg.autoMode == Confirm {
      assert m[1] == CommitRequest(size, w);
    } else if x.cfg.autoMode == Auto {
      AutoEventsAskNothing(x);
    }
  }

  /** The auto branch never asks the page for approval. */
  lemma AutoEventsAskNothing(x: WebTick)
    ensures forall e :: e in AutoEvents(x) ==> !e.CommitRequest?
  {
    var tail := if AutoResult(x).Failure? then [WatchError(AutoResult(x).error)]
                else if AutoResult(x).value.committed then CommittedEvents(x, AutoMessage(x))
                else [];
    assert AutoEvents(x) == AiEvents(x) + tail;
  }

  /** A push request is broadcast exactly when a commit was made, summaries are due, and the
      summary was written; a failing summary is only logged. */
  lemma PushRequestWhenDue(x: WebTick, size: int)
    ensures (exists e :: e in ReadyEvents(x, size) && e.PushRequest?) <==>
      MakesCommit(x) && NeedsSummary(x.cfg, x.unpushedCount) && x.summary.Success?
    ensures MakesCommit(x) && NeedsSummary(x.cfg, x.unpushedCount) && x.summary.Failure? ==>
      SummaryFailed(x.summary.error) in ReadyEvents(x, size)
  {
    var w := ScanOf(x);
    var head := [Processing(size)] + RecommendationEvents(w);
    assert forall e :: e in head ==> !e.PushRequest?;
    if MakesCommit(x) && NeedsSummary(x.cfg, x.unpushedCount) && x.summary.Success? {
      var e := PushRequest(x.unpushedCount, x.summary.value, x.unpushedCommits);
      assert e in CommittedEvents(x, AutoMessage(x));
      assert e in ReadyEvents(x, size);
    }
  }

  /** The auto commit message carries the time of day, and the AI text when there is one. */
  lemma AutoCommitMessageUsed(x: WebTick)
    requires MakesCommit(x)
    ensures ReadyCommits(x) == [AutoCommitMessage(x.timestamp, x.cfg, x.generated)]
    ensures UsesAi(x.cfg) && x.generated.Success? ==> ReadyCommits(x)[0] == x.timestamp + " " + x.generated.value
    ensures !UsesAi(x.cfg) || x.generated.Failure? ==> ReadyCommits(x)[0] == x.timestamp + " chore(auto): update"
  {
  }

  class WebWatchState {
    var watchInterval: bool
    var isWatchMode: bool
    var watchStartTime: Option<int>
    var lastChangeDetected: Option<int>
    var lastChangeSize: int
    var isProcessing: bool
    /** Everything logged or broadcast so far. */
    var events: seq<WebEvent>
    /** The messages of the commits made so far. */
    var commits: seq<string>
    /** The connected event-stream clients, and every write made to them. */
    var clients: seq<ClientId>
    var writes: seq<(ClientId, string)>

    constructor ()
      ensures !watchInterval && !isWatchMode && watchStartTime == None && !isProcessing
      ensures lastChangeDetected == None && lastChangeSize == 0
      ensures events == [] && commits == [] && clients == [] && writes == []
    {
      watchInterval := false;
      isWatchMode := false;
      watchStartTime := None;
      lastChangeDetected := None;
      lastChangeSize := 0;
      isProcessing := false;
      events := [];
      commits := [];
      clients := [];
      writes := [];
    }

    function Tracked(): Stability.Tracker
      reads this
    {
      Stability.Tracker(lastChangeDetected, lastChangeSize)
    }

    /** `smartWatch()`: one tick of the watch loop. */
    method SmartWatch(x: WebTick)
      modifies this
      // a tick that finds an earlier one still processing does nothing
      ensures old(isProcessing) ==> unchanged(this)
      ensures watchInterval == old(watchInterval) && isWatchMode == old(isWatchMode)
      ensures clients == old(clients) && writes == old(writes)
      ensures !isProcessing || old(isProcessing)
      // a quiet tree clears the tracker and at most reports the watch timer
      ensures !old(isProcessing) && !x.changes ==>
        Tracked() == Stability.Cleared && commits == old(commits) && watchStartTime == old(watchStartTime)
        && events == old(events) + (if Started(old(watchStartTime))
                                    then [Watching(Stability.Seconds(x.now - old(watchStartTime).value))] else [])
      // a failing size read is caught: the timer is dropped but the size is kept
      ensures !old(isProcessing) && x.changes && x.size.Failure? ==>
        lastChangeDetected == None && lastChangeSize == old(lastChangeSize) && commits == old(commits)
        && watchStartTime == old(watchStartTime) && events == old(events) + [WatchError(x.size.error)]
      ensures !old(isProcessing) && x.changes && x.size.Success? ==>
        var z := x.size.value;
        var v := Stability.Classify(old(Tracked()), Stability.Sample(true, z, x.now), x.cfg.commitThreshold);
        (v == Stability.Restarted ==>
           Tracked() == Stability.Tracker(Some(x.now), z) && events == old(events) + [ChangeDetected(z)])
        && (v.Settling? ==>
              Tracked() == old(Tracked()) && events == old(events) + [Unstable(z, Stability.Seconds(v.sinceMs))])
        && (v == Stability.Small ==>
              Tracked() == Stability.Cleared && events == old(events) + [BelowThreshold(z, x.cfg.commitThreshold)])
        && (v != Stability.Ready ==> commits == old(commits) && watchStartTime == old(watchStartTime))
        && (v == Stability.Ready ==>
              Tracked() == ReadyTracker(x, z) && events == old(events) + ReadyEvents(x, z)
              && commits == old(commits) + ReadyCommits(x) && watchStartTime == ReadyStart(x, old(watchStartTime)))
    {
      if isProcessing {
        return;
      }
      if !x.changes {
        if Started(watchStartTime) {
          events := events + [Watching(Stability.Seconds(x.now - watchStartTime.value))];
        }
        lastChangeDetected := None;
        lastChangeSize := 0;
        return;
      }
      if x.size.Failure? {
        events := events + [WatchError(x.size.error)];
        isProcessing := false;
        lastChangeDetected := None;
        return;
      }
      var size := x.size.value;
      var now := x.now;

      if !Stability.Detected(Tracked()) || size != lastChangeSize {
        lastChangeDetected := Some(now);
        lastChangeSize := size;
        events := events + [ChangeDetected(size)];
        return;
      }

      var timeSinceLastChange := now - lastChangeDetected.value;
      if timeSinceLastChange < Stability.StabilityWindowMs {
        events := events + [Unstable(size, Stability.Seconds(timeSinceLastChange))];
        return;
      }

      if size < x.cfg.commitThreshold {
        events := events + [BelowThreshold(size, x.cfg.commitThreshold)];
        lastChangeDetected := None;
        lastChangeSize := 0;
        return;
      }

      isProcessing := true;
      ProcessReady(x, size);
    }

    /** The rest of a tick once the change has settled at or above the threshold: the
        sensitive-file scan, then the mode's action. */
    method ProcessReady(x: WebTick, size: int)
      requires lastChangeSize == size
      modifies this`events, this`commits, this`lastChangeDetected, this`lastChangeSize, this`isProcessing,
        this`watchStartTime
      ensures Tracked() == ReadyTracker(x, size) && !isProcessing
      ensures events == old(events) + ReadyEvents(x, size)
      ensures commits == old(commits) + ReadyCommits(x)
      ensures watchStartTime == ReadyStart(x, old(watchStartTime))
    {
      ghost var before := events;
      var warnings := ScanStep(x, size);
      if x.cfg.autoMode == Auto {
        AutoCommit(x, size);
      } else {
        LeaveToPerson(x, size, warnings);
      }
      ReadyEventsAfter(before, x, size);
    }

    /** The confirm and manual branches: ask the page for approval, or only report; either way
        the tracker is cleared and nothing is committed. */
    method LeaveToPerson(x: WebTick, size: int, warnings: seq<string>)
      requires x.cfg.autoMode != Auto && warnings == ScanOf(x)
      modifies this`events, this`lastChangeDetected, this`lastChangeSize, this`isProcessing
      ensures events == old(events) + ModeEvents(x, size)
      ensures Tracked() == Stability.Cleared && !isProcessing
    {
      if x.cfg.autoMode == Confirm {
        events := events + [AwaitingConfirmation(size), CommitRequest(size, warnings)];
      } else {
        events := events + [ManualReady(size)];
      }
      lastChangeDetected := None;
      lastChangeSize := 0;
      isProcessing := false;
    }

    /** The start of that rest: the processing line, then the scan and its recommendations. */
    method ScanStep(x: WebTick, size: int) returns (warnings: seq<string>)
      modifies this`events
      ensures warnings == ScanOf(x)
      ensures events == old(events) + [Processing(size)] + RecommendationEvents(warnings)
    {
      events := events + [Processing(size)];
      warnings := CheckSensitiveFiles(x.stagedNames);
      if |warnings| > 0 {
        events := events + [Recommendations(warnings)];
      }
    }

    /** The auto-mode branch: build the message, commit, and ask for a summary and push when due. */
    method AutoCommit(x: WebTick, size: int)
      requires x.cfg.autoMode == Auto && lastChangeSize == size
      modifies this`events, this`commits, this`lastChangeDetected, this`lastChangeSize, this`isProcessing,
        this`watchStartTime
      ensures Tracked() == ReadyTracker(x, size) && !isProcessing
      ensures events == old(events) + AutoEvents(x)
      ensures commits == old(commits) + ReadyCommits(x)
      ensures watchStartTime == ReadyStart(x, old(watchStartTime))
    {
      var message := BuildAutoMessage(x);
      var result := CommitChanges(x.commit, message);
      if result.Failure? {
        events := events + [WatchError(result.error)];
        isProcessing := false;
        lastChangeDetected := None;
        return;
      }
      if result.value.committed {
        commits := commits + [message];
        ReportCommitted(x, message);
      }
      lastChangeDetected := None;
      lastChangeSize := 0;
      isProcessing := false;
      watchStartTime := Some(x.finishedAt);
    }

    /** The message step of the auto branch: the AI message when AI is on and answers, the
        fallback otherwise. */
    method BuildAutoMessage(x: WebTick) returns (message: string)
      modifies this`events
      ensures message == AutoMessage(x)
      ensures events == old(events) + AiEvents(x)
    {
      if UsesAi(x.cfg) {
        events := events + [GeneratingMessage];
        if x.generated.Success? {
          message := x.timestamp + " " + x.generated.value;
          events := events + [GeneratedMessage(message)];
        } else {
          events := events + [AiFallback];
          message := x.timestamp + " " + AutoFallback;
        }
      } else {
        message := x.timestamp + " " + AutoFallback;
      }
    }

    /** The report after a commit: the success line, then the summary step when it is due. */
    method ReportCommitted(x: WebTick, message: string)
      modifies this`events
      ensures events == old(events) + CommittedEvents(x, message)
    {
      events := events + [Committed(message)];
      if NeedsSummary(x.cfg, x.unpushedCount) {
        events := events + [CreatingSummary(x.unpushedCount)];
        if x.summary.Success? {
          events := events + [SummaryReady, PushRequest(x.unpushedCount, x.summary.value, x.unpushedCommits)];
        } else {
          events := events + [SummaryFailed(x.summary.error)];
        }
      }
    }

    /** `startWatchMode()`: does nothing while the interval runs; otherwise starts the timer
        afresh (the last size is kept) and schedules the tick. */
    method StartWatchMode(now: int)
      modifies this
      ensures old(watchInterval) ==> unchanged(this)
      ensures !old(watchInterval) ==>
        watchInterval && isWatchMode && watchStartTime == Some(now) && lastChangeDetected == None
        && lastChangeSize == old(lastChangeSize) && !isProcessing
        && events == old(events) + [WatchStarted] && commits == old(commits)
        && clients == old(clients) && writes == old(writes)
    {
      if watchInterval {
        return;
      }
      isWatchMode := true;
      watchStartTime := Some(now);
      lastChangeDetected := None;
      isProcessing := false;
      events := events + [WatchStarted];
      watchInterval := true;
    }

    /** `stopWatchMode()`: does nothing unless the interval runs; otherwise cancels it and
        clears the watch state (the last size is kept). */
    method StopWatchMode()
      modifies this
      ensures !old(watchInterval) ==> unchanged(this)
      ensures old(watchInterval) ==>
        !watchInterval && !isWatchMode && watchStartTime == None && lastChangeDetected == None
        && lastChangeSize == old(lastChangeSize) && !isProcessing
        && events == old(events) + [WatchStopped] && commits == old(commits)
        && clients == old(clients) && writes == old(writes)
    {
      if watchInterval {
        watchInterval := false;
        isWatchMode := false;
        watchStartTime := None;
        lastChangeDetected := None;
        isProcessing := false;
        events := events + [WatchStopped];
      }
    }

    /** `broadcastSSE(data)`: writes the message to every client; a client whose write throws is
        dropped from the set as the loop reaches it. */
    method BroadcastSSE(json: string, failing: set<ClientId>)
      modifies this`clients, this`writes
      ensures clients == Keep(old(clients), failing)
      ensures writes == old(writes) + Writes(old(clients), failing, SseMessage(json))
    {
      var message := SseMessage(json);
      var snapshot := clients;
      var kept := 0;
      for i := 0 to |snapshot|
        invariant clients == Keep(snapshot[..i], failing) + snapshot[i..]
        invariant kept == |Keep(snapshot[..i], failing)|
        invariant writes == old(writes) + Writes(snapshot[..i], failing, message)
      {
        var client := snapshot[i];
        BroadcastStep(snapshot, i, failing, message);
        if client in failing {
          clients := clients[..kept] + clients[kept + 1..];
        } else {
          writes := writes + [(client, message)];
          kept := kept + 1;
        }
      }
      assert snapshot[..|snapshot|] == snapshot;
    }
  }
}
