/**
 * Model of object_database/service_manager/SubprocessServiceManager.py: the
 * supervisor that keeps one worker process per service instance on a host.
 * It names a log file per worker, keeps the map from instance identity to
 * process handle, reaps exited workers, kills workers whose shutdown is
 * overdue, and retires log files that no live worker owns into `old/`.
 *
 * Processes are abstract handles (a pid); whether a process has exited is the
 * set of pids `poll()` reports as finished; the object store's view of an
 * instance is an oracle; clock readings are integer milliseconds; the log
 * directory is the set of file names at its top level and in `old/`.
 */
module ServiceManager {
  import opened Wrappers
  import opened Text

  /** The fields of `time.localtime(timestamp)` the file name uses. */
  datatype BrokenDownTime = BrokenDownTime(year: nat, month: nat, day: nat, hour: nat, minute: nat, second: nat)

  /** `"%4d%02d%02d_%02d%02d%02d_%03d"` applied to the local time and the millisecond part. */
  function TimestampToFileString(local: BrokenDownTime, timestampMs: nat): (s: string)
    ensures '-' !in s
  {
    var r7 := "_" + ZeroPadded(timestampMs % 1000, 3);
    var r6 := ZeroPadded(local.second, 2) + r7;
    var r5 := ZeroPadded(local.minute, 2) + r6;
    var r4 := ZeroPadded(local.hour, 2) + r5;
    var r3 := "_" + r4;
    var r2 := ZeroPadded(local.day, 2) + r3;
    var r1 := ZeroPadded(local.month, 2) + r2;
    NoDash(ZeroPadded(local.second, 2), r7);
    NoDash(ZeroPadded(local.minute, 2), r6);
    NoDash(ZeroPadded(local.hour, 2), r5);
    NoDash(ZeroPadded(local.day, 2), r3);
    NoDash(ZeroPadded(local.month, 2), r2);
    SpacePadded(local.year, 4) + r1
  }

  lemma NoDash(digits: string, rest: string)
    requires forall i :: 0 <= i < |digits| ==> IsDigit(digits[i])
    requires '-' !in rest
    ensures '-' !in digits + rest
  {
  }

  /**
   * For a four-digit year and two-digit fields the stamp is `YYYYMMDD_HHMMSS_mmm`:
   * 19 characters, underscores at 8 and 15, and each field a run of digits that
   * reads back as the value it was made from; the millisecond field is below 1000.
   */
  lemma TimestampFields(local: BrokenDownTime, timestampMs: nat)
    requires 1000 <= local.year < 10000 && local.month < 100 && local.day < 100
    requires local.hour < 100 && local.minute < 100 && local.second < 100
    ensures var s := TimestampToFileString(local, timestampMs);
      && |s| == 19 && s[8] == '_' && s[15] == '_'
      && FieldIs(s, 0, 4, local.year)
      && FieldIs(s, 4, 6, local.month)
      && FieldIs(s, 6, 8, local.day)
      && FieldIs(s, 9, 11, local.hour)
      && FieldIs(s, 11, 13, local.minute)
      && FieldIs(s, 13, 15, local.second)
      && FieldIs(s, 16, 19, timestampMs % 1000)
      && timestampMs % 1000 < 1000
  {
    var year := SpacePadded(local.year, 4);
    DecimalLength(local.year, 4);
    DecimalRoundTrip(local.year);
    assert year == Decimal(local.year);
    ZeroPaddedField(local.month, 2);
    ZeroPaddedField(local.day, 2);
    ZeroPaddedField(local.hour, 2);
    ZeroPaddedField(local.minute, 2);
    ZeroPaddedField(local.second, 2);
    ZeroPaddedField(timestampMs % 1000, 3);
    var time := ZeroPadded(local.hour, 2) + (ZeroPadded(local.minute, 2) +
                (ZeroPadded(local.second, 2) + ("_" + ZeroPadded(timestampMs % 1000, 3))));
    var s := TimestampToFileString(local, timestampMs);
    assert s[0..] == year + (ZeroPadded(local.month, 2) + (ZeroPadded(local.day, 2) + ("_" + time)));
    DateFields(s, year, ZeroPadded(local.month, 2), ZeroPadded(local.day, 2), "_" + time,
               local.year, local.month, local.day);
    Underscore(s, 8, time);
    TimeFields(s, ZeroPadded(local.hour, 2), ZeroPadded(local.minute, 2), ZeroPadded(local.second, 2),
               ZeroPadded(timestampMs % 1000, 3), local.hour, local.minute, local.second, timestampMs % 1000);
  }

  /** A run of `width` digits that denotes `value`. */
  predicate DigitRun(field: string, width: nat, value: nat) {
    && |field| == width
    && (forall i :: 0 <= i < |field| ==> IsDigit(field[i]))
    && DecimalValue(field) == value
  }

  /** A digit run found at `k` is a field of `s`, and what follows it is found past it. */
  lemma FieldThen(s: string, k: nat, field: string, rest: string, width: nat, value: nat)
    requires k <= |s| && s[k..] == field + rest
    requires DigitRun(field, width, value)
    ensures k + width <= |s| && s[k + width..] == rest
    ensures FieldIs(s, k, k + width, value)
  {
    assert s[k + width..] == (field + rest)[width..];
    assert s[k..k + width] == (field + rest)[..width] == field;
  }

  /** An underscore found at `k`, and what follows it found past it. */
  lemma Underscore(s: string, k: nat, rest: string)
    requires k <= |s| && s[k..] == "_" + rest
    ensures k < |s| && s[k] == '_' && s[k + 1..] == rest
  {
    assert s[k] == s[k..][0];
    assert s[k + 1..] == ("_" + rest)[1..];
  }

  /** `YYYYMMDD` at the start of `s`: where the date fields lie. */
  lemma DateFields(s: string, year: string, mo: string, d: string, rest: string, vy: nat, vmo: nat, vd: nat)
    requires s[0..] == year + (mo + (d + rest))
    requires DigitRun(year, 4, vy) && DigitRun(mo, 2, vmo) && DigitRun(d, 2, vd)
    ensures 8 <= |s| && s[8..] == rest
    ensures FieldIs(s, 0, 4, vy) && FieldIs(s, 4, 6, vmo) && FieldIs(s, 6, 8, vd)
  {
    FieldThen(s, 0, year, mo + (d + rest), 4, vy);
    FieldThen(s, 4, mo, d + rest, 2, vmo);
    FieldThen(s, 6, d, rest, 2, vd);
  }

  /** `HHMMSS_mmm` from position 9 to the end of `s`: where the time fields lie. */
  lemma TimeFields(s: string, h: string, mi: string, se: string, ms: string, vh: nat, vmi: nat, vse: nat, vms: nat)
    requires 9 <= |s| && s[9..] == h + (mi + (se + ("_" + ms)))
    requires DigitRun(h, 2, vh) && DigitRun(mi, 2, vmi) && DigitRun(se, 2, vse) && DigitRun(ms, 3, vms)
    ensures |s| == 19 && s[15] == '_'
    ensures FieldIs(s, 9, 11, vh) && FieldIs(s, 11, 13, vmi) && FieldIs(s, 13, 15, vse) && FieldIs(s, 16, 19, vms)
  {
    FieldThen(s, 9, h, mi + (se + ("_" + ms)), 2, vh);
    FieldThen(s, 11, mi, se + ("_" + ms), 2, vmi);
    FieldThen(s, 13, se, "_" + ms, 2, vse);
    Underscore(s, 15, ms);
    FieldThen(s, 16, ms, [], 3, vms);
  }

  const LogSuffix: string := ".log.txt"

  /** The log file name `_startServiceWorker` creates for a worker. */
  function LogfileName(serviceName: string, stamp: string, instanceIdentity: string): string {
    serviceName + "-" + stamp + "-" + instanceIdentity + LogSuffix
  }

  /**
   * The instance identity a log file name carries: nothing for a name that does
   * not end in `.log.txt` or has no `-`, otherwise the text between the last `-`
   * and the suffix.
   */
  function ParseLogfileToInstanceid(fname: string): (id: Option<string>)
    ensures id.None? <==> !EndsWith(fname, LogSuffix) || '-' !in fname
    ensures id.Some? ==> '-' !in id.value && EndsWith(fname, "-" + id.value + LogSuffix)
  {
    if !EndsWith(fname, LogSuffix) || '-' !in fname then None
    else
      var last := AfterLast(fname, '-');
      assert |last| >= 8;
      var id := DropLast(last, 8);
      assert last == id + LogSuffix;
      assert fname[|fname| - |last| - 1..] == "-" + id + LogSuffix;
      Some(id)
  }

  /** A worker's log file name gives back its identity, whatever the service name and time stamp. */
  lemma LogfileNameRoundTrip(serviceName: string, stamp: string, instanceIdentity: string)
    requires '-' !in instanceIdentity
    ensures ParseLogfileToInstanceid(LogfileName(serviceName, stamp, instanceIdentity)) == Some(instanceIdentity)
  {
    ParseJoined(serviceName + "-" + stamp, instanceIdentity);
  }

  /** A dash-free identity after the last dash of a name ending in the suffix is what the parse gives. */
  lemma ParseJoined(p: string, id: string)
    requires '-' !in id
    ensures ParseLogfileToInstanceid(p + "-" + id + LogSuffix) == Some(id)
  {
    var q := id + LogSuffix;
    var name := p + "-" + id + LogSuffix;
    assert name == p + ['-'] + q;
    assert '-' !in q by {
      assert forall i :: 0 <= i < |q| ==> q[i] == if i < |id| then id[i] else LogSuffix[i - |id|];
    }
    AfterLastOfJoin(p, '-', q);
    assert EndsWith(name, LogSuffix);
    assert name[|p|] == '-';
    assert DropLast(q, 8) == id by {
      assert q[..|q| - 8] == id;
    }
  }

  /** A spawned worker process. */
  datatype ProcessHandle = ProcessHandle(pid: nat)

  /** What the object store says about a service instance. */
  datatype InstanceView = InstanceView(shouldShutdown: bool, shutdownTimestampMs: int)

  /** The handles whose process `poll()` does not report as finished. */
  function Reap(procs: map<string, ProcessHandle>, exitedPids: set<nat>): (live: map<string, ProcessHandle>)
    ensures forall k :: k in live <==> k in procs && procs[k].pid !in exitedPids
    ensures forall k :: k in live ==> live[k] == procs[k]
  {
    map k | k in procs && procs[k].pid !in exitedPids :: procs[k]
  }

  /** An instance asked to shut down longer ago than the grace period. */
  predicate Overdue(view: InstanceView, nowMs: int, shutdownTimeoutMs: int) {
    view.shouldShutdown && nowMs - view.shutdownTimestampMs > shutdownTimeoutMs
  }

  /**
   * The handles that survive the forced shutdown of overdue instances;
   * `readingMs(k)` is the clock reading taken when instance `k` is checked
   * (the clock is read afresh for every instance, after any earlier kill).
   */
  function DropOverdue(procs: map<string, ProcessHandle>, instances: string -> InstanceView, readingMs: string -> int, shutdownTimeoutMs: int)
    : (kept: map<string, ProcessHandle>)
    ensures forall k :: k in kept <==> k in procs && !Overdue(instances(k), readingMs(k), shutdownTimeoutMs)
    ensures forall k :: k in kept ==> kept[k] == procs[k]
  {
    map k | k in procs && !Overdue(instances(k), readingMs(k), shutdownTimeoutMs) :: procs[k]
  }

  /** A log file that names an instance with no handle. */
  predicate ShouldRetire(fname: string, procs: map<string, ProcessHandle>) {
    var id := ParseLogfileToInstanceid(fname);
    id.Some? && id.value != "" && id.value !in procs
  }

  /** The log files `cleanupOldLogfiles` moves into `old/`. */
  function Retired(files: set<string>, procs: map<string, ProcessHandle>): set<string> {
    set f | f in files && ShouldRetire(f, procs)
  }

  class SubprocessServiceManager {
    var serviceProcesses: map<string, ProcessHandle>
    /** Whether a log directory is configured. */
    const logToDirectory: bool
    /** File names at the top level of the log directory. */
    var logFiles: set<string>
    /** File names under `old/` in the log directory. */
    var oldLogFiles: set<string>
    const shutdownTimeoutMs: int

    constructor (logToDirectory: bool, existingLogFiles: set<string>, existingOldLogFiles: set<string>, shutdownTimeoutMs: int)
      ensures serviceProcesses == map[]
      ensures this.logToDirectory == logToDirectory && this.shutdownTimeoutMs == shutdownTimeoutMs
      ensures logFiles == existingLogFiles && oldLogFiles == existingOldLogFiles
    {
      serviceProcesses := map[];
      this.logToDirectory := logToDirectory;
      this.shutdownTimeoutMs := shutdownTimeoutMs;
      logFiles := existingLogFiles;
      oldLogFiles := existingOldLogFiles;
    }

    /**
     * Starts a worker for `instanceIdentity` unless one is already recorded.
     * `local` and `nowMs` are the clock readings; `spawned` is the pid of the
     * new process, or None when launching it raised.
     */
    method StartServiceWorker(serviceName: string, instanceIdentity: string, local: BrokenDownTime, nowMs: nat, spawned: Option<nat>)
      modifies this
      ensures instanceIdentity in old(serviceProcesses) ==>
        serviceProcesses == old(serviceProcesses) && logFiles == old(logFiles)
      ensures instanceIdentity !in old(serviceProcesses) ==>
        && logFiles == old(logFiles) +
             (if logToDirectory then {LogfileName(serviceName, TimestampToFileString(local, nowMs), instanceIdentity)} else {})
        && serviceProcesses ==
             (if spawned.Some? then old(serviceProcesses)[instanceIdentity := ProcessHandle(spawned.value)]
              else old(serviceProcesses))
      ensures oldLogFiles == old(oldLogFiles)
    {
      if instanceIdentity in serviceProcesses {
        return;
      }
      var logfileName := serviceName + "-" + TimestampToFileString(local, nowMs) + "-" + instanceIdentity + ".log.txt";
      if logToDirectory {
        logFiles := logFiles + {logfileName};
      }
      if spawned.Some? {
        serviceProcesses := serviceProcesses[instanceIdentity := ProcessHandle(spawned.value)];
      }
    }

    /** Terminates and forgets every worker. */
    method Stop()
      modifies this
      ensures serviceProcesses == map[]
      ensures logFiles == old(logFiles) && oldLogFiles == old(oldLogFiles)
    {
      serviceProcesses := map[];
    }

    /**
     * The periodic sweep: forget exited workers, then kill and forget workers
     * whose shutdown is overdue, then retire orphaned log files.  `readingMs`
     * gives the clock reading taken when each instance is checked.
     */
    method Cleanup(exitedPids: set<nat>, instances: string -> InstanceView, readingMs: string -> int)
      modifies this
      ensures serviceProcesses ==
        DropOverdue(Reap(old(serviceProcesses), exitedPids), instances, readingMs, shutdownTimeoutMs)
      ensures logToDirectory ==>
        && logFiles == old(logFiles) - Retired(old(logFiles), serviceProcesses)
        && oldLogFiles == old(oldLogFiles) + Retired(old(logFiles), serviceProcesses)
      ensures !logToDirectory ==> logFiles == old(logFiles) && oldLogFiles == old(oldLogFiles)
    {
      ghost var start := serviceProcesses;
      var pending := serviceProcesses.Keys;
      while pending != {}
        invariant pending <= start.Keys
        invariant logFiles == old(logFiles) && oldLogFiles == old(oldLogFiles)
        invariant serviceProcesses ==
          map k | k in start && (k in pending || start[k].pid !in exitedPids) :: start[k]
        decreases pending
      {
        var identity :| identity in pending;
        if serviceProcesses[identity].pid in exitedPids {
          serviceProcesses := serviceProcesses - {identity};
        }
        pending := pending - {identity};
      }
      assert serviceProcesses == Reap(start, exitedPids);

      ghost var reaped := serviceProcesses;
      pending := serviceProcesses.Keys;
      while pending != {}
        invariant pending <= reaped.Keys
        invariant logFiles == old(logFiles) && oldLogFiles == old(oldLogFiles)
        invariant serviceProcesses ==
          map k | k in reaped && (k in pending || !Overdue(instances(k), readingMs(k), shutdownTimeoutMs)) :: reaped[k]
        decreases pending
      {
        var identity :| identity in pending;
        if Overdue(instances(identity), readingMs(identity), shutdownTimeoutMs) {
          serviceProcesses := serviceProcesses - {identity};
        }
        pending := pending - {identity};
      }
      assert serviceProcesses == DropOverdue(reaped, instances, readingMs, shutdownTimeoutMs);

      CleanupOldLogfiles();
    }

    /** Moves into `old/` every log file whose instance has no handle. */
    method CleanupOldLogfiles()
      modifies this`logFiles, this`oldLogFiles
      ensures logToDirectory ==>
        && logFiles == old(logFiles) - Retired(old(logFiles), serviceProcesses)
        && oldLogFiles == old(oldLogFiles) + Retired(old(logFiles), serviceProcesses)
      ensures !logToDirectory ==> logFiles == old(logFiles) && oldLogFiles == old(oldLogFiles)
    {
      if !logToDirectory {
        return;
      }
      ghost var retire := Retired(logFiles, serviceProcesses);
      var listing := logFiles;
      while listing != {}
        invariant listing <= old(logFiles)
        invariant forall f :: f in logFiles <==> f in old(logFiles) && (f in listing || f !in retire)
        invariant forall f :: f in oldLogFiles <==> f in old(oldLogFiles) || (f in retire && f !in listing)
        decreases listing
      {
        var file :| file in listing;
        var instanceId := ParseLogfileToInstanceid(file);
        if instanceId.Some? && instanceId.value != "" && instanceId.value !in serviceProcesses {
          assert file in retire;
          logFiles := logFiles - {file};
          oldLogFiles := oldLogFiles + {file};
        } else {
          assert file !in retire;
        }
        listing := listing - {file};
      }
      SweepResult(old(logFiles), old(oldLogFiles), retire, logFiles, oldLogFiles);
    }
  }

  /** Sets described element by element after a sweep that moved `retire`. */
  lemma SweepResult(files: set<string>, oldFiles: set<string>, retire: set<string>, kept: set<string>, moved: set<string>)
    requires forall f :: f in kept <==> f in files && f !in retire
    requires forall f :: f in moved <==> f in oldFiles || f in retire
    ensures kept == files - retire && moved == oldFiles + retire
  {
  }

  /** After a sweep no handle belongs to an exited process or an overdue instance. */
  lemma CleanupLeavesNoStaleHandle(procs: map<string, ProcessHandle>, exitedPids: set<nat>,
                                   instances: string -> InstanceView, readingMs: string -> int, shutdownTimeoutMs: int)
    ensures var after := DropOverdue(Reap(procs, exitedPids), instances, readingMs, shutdownTimeoutMs);
      && after.Keys <= procs.Keys
      && (forall k :: k in after ==>
            after[k] == procs[k] && after[k].pid !in exitedPids && !Overdue(instances(k), readingMs(k), shutdownTimeoutMs))
      && forall k :: k in procs && procs[k].pid !in exitedPids && !Overdue(instances(k), readingMs(k), shutdownTimeoutMs) ==> k in after
  {
  }

  /** A second sweep with the same observations changes nothing. */
  lemma CleanupIdempotent(procs: map<string, ProcessHandle>, exitedPids: set<nat>,
                          instances: string -> InstanceView, readingMs: string -> int, shutdownTimeoutMs: int, files: set<string>)
    ensures var after := DropOverdue(Reap(procs, exitedPids), instances, readingMs, shutdownTimeoutMs);
      && DropOverdue(Reap(after, exitedPids), instances, readingMs, shutdownTimeoutMs) == after
      && Retired(files - Retired(files, after), after) == {}
  {
    var after := DropOverdue(Reap(procs, exitedPids), instances, readingMs, shutdownTimeoutMs);
    assert Reap(after, exitedPids) == after;
    assert DropOverdue(after, instances, readingMs, shutdownTimeoutMs) == after;
  }

  /** The log file of a worker that still has a handle stays at the top level. */
  lemma LiveWorkerLogKept(serviceName: string, stamp: string, instanceIdentity: string, procs: map<string, ProcessHandle>)
    requires '-' !in instanceIdentity && instanceIdentity in procs
    ensures !ShouldRetire(LogfileName(serviceName, stamp, instanceIdentity), procs)
  {
    LogfileNameRoundTrip(serviceName, stamp, instanceIdentity);
  }

  /** Every log file of a worker without a handle is retired, whatever its service name and time stamp. */
  lemma OrphanLogsRetired(files: set<string>, serviceName: string, stamp: string, instanceIdentity: string,
                          procs: map<string, ProcessHandle>)
    requires '-' !in instanceIdentity && instanceIdentity != "" && instanceIdentity !in procs
    requires LogfileName(serviceName, stamp, instanceIdentity) in files
    ensures LogfileName(serviceName, stamp, instanceIdentity) in Retired(files, procs)
    ensures LogfileName(serviceName, stamp, instanceIdentity) !in files - Retired(files, procs)
  {
    LogfileNameRoundTrip(serviceName, stamp, instanceIdentity);
  }
}
