/** Per-scope process locks kept as files `.gta/<scope>.lock`. */
module Lock {

  /** What a lock file holds: the JSON record written by `acquireLock`, or content that does not
      parse into one. */
  datatype LockFile = Record(pid: int, timestamp: string, info: string) | Corrupt

  /** The filesystem step that raises, if it is reached: removing the old lock, reading it, or
      creating the directory and writing the new lock. */
  datatype FsFault = NoFault | RemoveFails | ReadFails | WriteFails

  /** `{acquired: true}` or `{acquired: false, pid, info}`. */
  datatype Acquire = Acquired | Held(pid: int, info: string)

  /** The label written into a lock for its scope. */
  function InfoFor(scope: string): (info: string)
    ensures info == "GTA Web Interface" <==> scope == "web"
    ensures info == "GTA TUI Mode" <==> scope != "web"
  {
    if scope == "web" then "GTA Web Interface" else "GTA TUI Mode"
  }

  /** The lock the caller writes. */
  function Mine(scope: string, me: int, now: string): LockFile {
    Record(me, now, InfoFor(scope))
  }

  /** A lock that blocks others: a parsed record whose pid `process.kill(pid, 0)` reaches;
      `signalable` is the set of such pids. */
  predicate LiveHolder(files: map<string, LockFile>, scope: string, signalable: set<int>) {
    scope in files && files[scope].Record? && files[scope].pid in signalable
  }

  /** The outcome of `acquireLock(scope, force)` and the lock files afterwards. */
  datatype AcquireOutcome = AcquireOutcome(result: Acquire, files: map<string, LockFile>)

  function AcquireSpec(files: map<string, LockFile>, scope: string, force: bool, me: int, now: string,
                       signalable: set<int>, fault: FsFault): AcquireOutcome
  {
    var present := scope in files;
    if !force && present && fault == ReadFails then AcquireOutcome(Acquired, files)
    else if !force && LiveHolder(files, scope, signalable) then
      AcquireOutcome(Held(files[scope].pid, files[scope].info), files)
    else if present && fault == RemoveFails then AcquireOutcome(Acquired, files)
    else if fault == WriteFails then AcquireOutcome(Acquired, files - {scope})
    else AcquireOutcome(Acquired, (files - {scope})[scope := Mine(scope, me, now)])
  }

  /** The lock files after `releaseLock(scope)`; `readFails` stands for any error raised while
      reading the lock, which is ignored. */
  function ReleaseSpec(files: map<string, LockFile>, scope: string, me: int, readFails: bool): map<string, LockFile> {
    if !readFails && scope in files && files[scope].Record? && files[scope].pid == me then files - {scope}
    else files
  }

  /** `force` removes whatever lock there is and takes the scope. */
  lemma ForceTakes(files: map<string, LockFile>, scope: string, me: int, now: string, signalable: set<int>)
    ensures AcquireSpec(files, scope, true, me, now, signalable, NoFault)
         == AcquireOutcome(Acquired, files[scope := Mine(scope, me, now)])
  {
    assert (files - {scope})[scope := Mine(scope, me, now)] == files[scope := Mine(scope, me, now)];
  }

  /** A lock held by a live process is reported with its pid and label and left in place. */
  lemma LiveHolderBlocks(files: map<string, LockFile>, scope: string, me: int, now: string,
                         signalable: set<int>, fault: FsFault)
    requires LiveHolder(files, scope, signalable) && fault != ReadFails
    ensures AcquireSpec(files, scope, false, me, now, signalable, fault)
         == AcquireOutcome(Held(files[scope].pid, files[scope].info), files)
  {
  }

  /** A corrupt lock or one whose holder is gone is replaced by the caller's. */
  lemma StaleLockReplaced(files: map<string, LockFile>, scope: string, me: int, now: string, signalable: set<int>)
    requires scope in files && !LiveHolder(files, scope, signalable)
    ensures AcquireSpec(files, scope, false, me, now, signalable, NoFault)
         == AcquireOutcome(Acquired, files[scope := Mine(scope, me, now)])
  {
    assert (files - {scope})[scope := Mine(scope, me, now)] == files[scope := Mine(scope, me, now)];
  }

  /** `acquired: false` only ever reports a live holder, found without `force`, and changes
      nothing; every filesystem error otherwise ends in `acquired: true`. */
  lemma HeldOnlyForLiveHolder(files: map<string, LockFile>, scope: string, force: bool, me: int, now: string,
                              signalable: set<int>, fault: FsFault)
    ensures var o := AcquireSpec(files, scope, force, me, now, signalable, fault);
      o.result.Held? <==> !force && LiveHolder(files, scope, signalable) && fault != ReadFails
    ensures var o := AcquireSpec(files, scope, force, me, now, signalable, fault);
      o.result.Held? ==> o.files == files && o.result == Held(files[scope].pid, files[scope].info)
  {
  }

  /** A successful acquire without errors leaves the caller's lock in the scope; other scopes are
      never touched. */
  lemma AcquireWritesOwnLock(files: map<string, LockFile>, scope: string, force: bool, me: int, now: string,
                             signalable: set<int>, fault: FsFault)
    ensures var o := AcquireSpec(files, scope, force, me, now, signalable, fault);
      fault == NoFault && o.result == Acquired ==> scope in o.files && o.files[scope] == Mine(scope, me, now)
    ensures var o := AcquireSpec(files, scope, force, me, now, signalable, fault);
      forall s :: s != scope ==> (s in o.files <==> s in files) && (s in files ==> o.files[s] == files[s])
  {
  }

  /** Once the caller holds the scope and is alive, another caller without `force` is told so. */
  lemma SecondAcquireBlocked(files: map<string, LockFile>, scope: string, me: int, now: string,
                             other: int, later: string, signalable: set<int>, fault: FsFault)
    requires me in signalable && fault != ReadFails
    ensures var first := AcquireSpec(files, scope, true, me, now, signalable, NoFault);
      AcquireSpec(first.files, scope, false, other, later, signalable, fault).result
        == Held(me, InfoFor(scope))
  {
    ForceTakes(files, scope, me, now, signalable);
  }

  /** Releasing removes the lock only when the caller's pid is recorded in it. */
  lemma ReleaseOnlyOwn(files: map<string, LockFile>, scope: string, me: int)
    ensures scope in files && files[scope].Record? && files[scope].pid == me ==>
      ReleaseSpec(files, scope, me, false) == files - {scope}
    ensures scope in files && (files[scope].Corrupt? || files[scope].pid != me) ==>
      ReleaseSpec(files, scope, me, false) == files
    ensures ReleaseSpec(files, scope, me, true) == files
  {
  }

  /** Acquiring and then releasing frees the scope and restores every other lock. */
  lemma AcquireThenRelease(files: map<string, LockFile>, scope: string, force: bool, me: int, now: string,
                           signalable: set<int>)
    requires force || !LiveHolder(files, scope, signalable)
    ensures var o := AcquireSpec(files, scope, force, me, now, signalable, NoFault);
      o.result == Acquired && ReleaseSpec(o.files, scope, me, false) == files - {scope}
  {
    var o := AcquireSpec(files, scope, force, me, now, signalable, NoFault);
    assert o.files == (files - {scope})[scope := Mine(scope, me, now)];
    assert o.files - {scope} == files - {scope};
  }

  /** The lock directory. */
  class LockDir {
    var files: map<string, LockFile>

    constructor (files0: map<string, LockFile>)
      ensures files == files0
    {
      files := files0;
    }

    /** `acquireLock(scope, force)` for the process `me` at time `now`. */
    method AcquireLock(scope: string, force: bool, me: int, now: string, signalable: set<int>, fault: FsFault)
      returns (r: Acquire)
      modifies this
      ensures AcquireOutcome(r, files) == AcquireSpec(old(files), scope, force, me, now, signalable, fault)
    {
      r := Acquired;
      if force {
        if scope in files {
          if fault == RemoveFails {
            return;
          }
          files := files - {scope};
        }
      } else if scope in files {
        if fault == ReadFails {
          return;
        }
        var content := files[scope];
        if content.Record? && content.pid in signalable {
          r := Held(content.pid, content.info);
          return;
        }
        if fault == RemoveFails {
          return;
        }
        files := files - {scope};
      }
      if fault == WriteFails {
        return;
      }
      files := files[scope := Record(me, now, InfoFor(scope))];
    }

    /** `releaseLock(scope)` for the process `me`. */
    method ReleaseLock(scope: string, me: int, readFails: bool)
      modifies this
      ensures files == ReleaseSpec(old(files), scope, me, readFails)
    {
      if scope in files {
        if readFails {
          return;
        }
        var content := files[scope];
        if content.Record? && content.pid == me {
          files := files - {scope};
        }
      }
    }
  }
}
