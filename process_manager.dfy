/** The PID-file and lock lifecycle of src/talkat/process_manager.py.

    The operating system is an abstract `World`: a file system (path to content, plus the
    paths whose reads fail), the set of PIDs to which `os.kill(pid, 0)` succeeds, the
    `/proc/<pid>/cmdline` contents, the log of real signals sent, and the lock files this
    process holds with `flock`. Wall-clock polling becomes a bounded number of poll attempts,
    and what other processes do meanwhile is given as parameters: how many lock attempts find
    the lock still held elsewhere, and at which poll a signalled process is found gone. */
module ProcessManager {
  import opened Wrappers
  import opened Seqs
  import opened Text

  /** The real signals `stop_process` sends (signal 0 probes change nothing and are not
      logged). */
  datatype Sig = SIGINT | SIGTERM | SIGKILL

  /** `Path.home() / ".cache" / "talkat"`. */
  function RuntimeDir(home: string): string
  {
    home + "/.cache/talkat"
  }

  function PidPath(home: string, name: string): string
  {
    RuntimeDir(home) + "/" + name + ".pid"
  }

  function LockPath(home: string, name: string): string
  {
    RuntimeDir(home) + "/" + name + ".lock"
  }

  /** `pid_file.with_suffix(".tmp")`: the last suffix ".pid" becomes ".tmp", except for the
      empty name, where ".pid" is a hidden file's stem with no suffix and ".tmp" is appended. */
  function TempPath(home: string, name: string): string
  {
    if name == "" then PidPath(home, name) + ".tmp" else RuntimeDir(home) + "/" + name + ".tmp"
  }

  /** The three files of one managed name are pairwise distinct. */
  lemma PathsDistinct(home: string, name: string)
    ensures PidPath(home, name) != LockPath(home, name)
    ensures TempPath(home, name) != PidPath(home, name)
    ensures TempPath(home, name) != LockPath(home, name)
  {
    var p := PidPath(home, name);
    var t := TempPath(home, name);
    assert |p| != |LockPath(home, name)|;
    if name != "" {
      assert p[|p| - 3] == 'p' && t[|t| - 3] == 't';
    }
  }

  /** The content of `/proc/<pid>/cmdline` for a process started with argument vector `cmd`:
      each argument followed by a NUL. */
  function CmdlineOf(cmd: seq<string>): string
  {
    if cmd == [] then "" else cmd[0] + "\0" + CmdlineOf(cmd[1..])
  }

  lemma {:induction false} ContainsInPrefix(a: string, b: string, sub: string)
    requires Contains(a, sub)
    ensures Contains(a + b, sub)
  {
    var i :| 0 <= i <= |a| - |sub| && OccursAt(a, sub, i);
    assert (a + b)[i..i + |sub|] == a[i..i + |sub|];
    assert OccursAt(a + b, sub, i);
  }

  lemma {:induction false} ContainsInSuffix(a: string, b: string, sub: string)
    requires Contains(b, sub)
    ensures Contains(a + b, sub)
  {
    var i :| 0 <= i <= |b| - |sub| && OccursAt(b, sub, i);
    assert (a + b)[|a| + i..|a| + i + |sub|] == b[i..i + |sub|];
    assert OccursAt(a + b, sub, |a| + i);
  }

  /** A word found in any argument is found in the process's cmdline. */
  lemma {:induction false} CmdlineContains(cmd: seq<string>, k: int, word: string)
    requires 0 <= k < |cmd| && Contains(cmd[k], word)
    ensures Contains(CmdlineOf(cmd), word)
  {
    if k == 0 {
      ContainsInPrefix(cmd[0], "\0" + CmdlineOf(cmd[1..]), word);
      assert cmd[0] + ("\0" + CmdlineOf(cmd[1..])) == CmdlineOf(cmd);
    } else {
      CmdlineContains(cmd[1..], k - 1, word);
      ContainsInSuffix(cmd[0] + "\0", CmdlineOf(cmd[1..]), word);
    }
  }

  /** The PID that `is_running` reports, from the state of the world: the PID file exists and
      reads, its stripped content is an integer, `os.kill(pid, 0)` succeeds, and the process's
      cmdline exists and contains "talkat". */
  function RunningPid(files: map<string, string>, unreadable: set<string>, alive: set<int>,
                      cmdlines: map<int, string>, pidFile: string): (r: Option<int>)
    ensures r.Some? <==>
      pidFile in files && pidFile !in unreadable && ParseInt(files[pidFile]).Some? &&
      ParseInt(files[pidFile]).value in alive && ParseInt(files[pidFile]).value in cmdlines &&
      Contains(cmdlines[ParseInt(files[pidFile]).value], "talkat")
    ensures r.Some? ==> ParseInt(files[pidFile]) == r && r.value in alive
  {
    if pidFile !in files || pidFile in unreadable then None
    else match ParseInt(files[pidFile])
      case None => None
      case Some(pid) => if pid in alive && pid in cmdlines && Contains(cmdlines[pid], "talkat") then Some(pid) else None
  }

  /** The file system after `is_running`: the PID file stays only when it names a running
      talkat process. */
  function AfterProbe(files: map<string, string>, unreadable: set<string>, alive: set<int>,
                      cmdlines: map<int, string>, pidFile: string): map<string, string>
  {
    if RunningPid(files, unreadable, alive, cmdlines, pidFile).Some? then files else files - {pidFile}
  }

  /** Probing is idempotent: the second `is_running` reports what the first did and changes
      nothing more; when nothing runs, the PID file is gone afterwards. */
  lemma ProbeIdempotent(files: map<string, string>, unreadable: set<string>, alive: set<int>,
                        cmdlines: map<int, string>, pidFile: string)
    ensures var f := AfterProbe(files, unreadable, alive, cmdlines, pidFile);
      RunningPid(f, unreadable, alive, cmdlines, pidFile) == RunningPid(files, unreadable, alive, cmdlines, pidFile) &&
      AfterProbe(f, unreadable, alive, cmdlines, pidFile) == f &&
      (RunningPid(files, unreadable, alive, cmdlines, pidFile).None? ==> pidFile !in f)
  {
  }

  /** A process started with `talkat` in its arguments, whose PID was written to a readable PID
      file, is reported running by the next probe. */
  lemma StartedIsRunning(files: map<string, string>, unreadable: set<string>, alive: set<int>,
                         cmdlines: map<int, string>, pidFile: string, pid: int, cmd: seq<string>, k: int)
    requires 0 <= k < |cmd| && Contains(cmd[k], "talkat")
    requires pidFile !in unreadable
    ensures RunningPid(files[pidFile := IntToString(pid)], unreadable, alive + {pid},
                       cmdlines[pid := CmdlineOf(cmd)], pidFile) == Some(pid)
  {
    ParseIntOfString(pid);
    CmdlineContains(cmd, k, "talkat");
  }

  /** The pairs (pid, signal) for a sequence of signals sent to one process. */
  function Tagged(pid: int, sigs: seq<Sig>): (r: seq<(int, Sig)>)
    ensures |r| == |sigs|
    ensures forall i | 0 <= i < |r| :: r[i] == (pid, sigs[i])
  {
    if sigs == [] then [] else [(pid, sigs[0])] + Tagged(pid, sigs[1..])
  }

  /** What `stop_process` does to a running process: the signals sent, and whether it returns
      True (then the PID file has been removed). */
  datatype Escalated = Escalated(signals: seq<Sig>, stopped: bool)

  /** `stop_process` on a running process, for `polls` liveness probes within the timeout and a
      process first found gone at probe `exitAfter` (None: it never exits on its own). A process
      gone after the last probe makes the SIGTERM `os.kill` raise ProcessLookupError. */
  function Escalation(polls: nat, exitAfter: Option<nat>, termKills: bool): (e: Escalated)
    ensures |e.signals| >= 1 && e.signals[0] == SIGINT
    ensures |e.signals| <= 3 && e.signals == [SIGINT, SIGTERM, SIGKILL][..|e.signals|]
    ensures (SIGTERM in e.signals) <==> (exitAfter.None? || exitAfter.value > polls)
    ensures (SIGKILL in e.signals) <==> (SIGTERM in e.signals && !termKills)
    ensures !e.stopped <==> exitAfter == Some(polls)
  {
    if exitAfter.Some? && exitAfter.value < polls then Escalated([SIGINT], true)
    else if exitAfter == Some(polls) then Escalated([SIGINT], false)
    else if termKills then Escalated([SIGINT, SIGTERM], true)
    else Escalated([SIGINT, SIGTERM, SIGKILL], true)
  }

  /** Writing a file other than the PID file does not change what `is_running` reports. */
  lemma ProbeIgnoresOtherFile(files: map<string, string>, path: string, content: string, unreadable: set<string>,
                              alive: set<int>, cmdlines: map<int, string>, pidFile: string)
    requires path != pidFile
    ensures RunningPid(files[path := content], unreadable, alive, cmdlines, pidFile) == RunningPid(files, unreadable, alive, cmdlines, pidFile)
  {
    var f := files[path := content];
    assert (pidFile in f) == (pidFile in files);
    if pidFile in files {
      assert f[pidFile] == files[pidFile];
    }
  }

  /** The value `toggle` returns: whether the process is running afterwards, and the message. */
  function ToggleReply(name: string, acquired: bool, running: Option<int>, e: Escalated): (r: (bool, string))
    ensures !r.0 <==> !acquired || (running.Some? && e.stopped)
  {
    if !acquired then (false, "Another operation is in progress")
    else if running.None? then (true, "No " + name + " process running, starting new one")
    else if e.stopped then (false, "Stopped " + name + " process")
    else (true, "Failed to stop " + name + " process")
  }

  /** How a managed process reacts to a signal once `setup_signal_handlers` has run. */
  datatype Disposition = Ignored | CleanExit(runsCleanup: bool, code: int) | DefaultAction

  datatype HostSignal = HUP | INT | TERM | Other(signum: int)

  /** `setup_signal_handlers(cleanup_func)`: SIGHUP is ignored; SIGINT and SIGTERM run the
      cleanup (when one is given) and then `exit(0)`; other signals keep their default. */
  function SignalPolicy(s: HostSignal, hasCleanup: bool): (d: Disposition)
    ensures d.Ignored? <==> s.HUP?
    ensures d.CleanExit? <==> (s.INT? || s.TERM?)
    ensures d.CleanExit? ==> d.code == 0 && d.runsCleanup == hasCleanup
  {
    match s
    case HUP => Ignored
    case INT => CleanExit(hasCleanup, 0)
    case TERM => CleanExit(hasCleanup, 0)
    case Other(_) => DefaultAction
  }

  /** How the write of the temporary PID file goes. */
  datatype WriteFault = Healthy | CannotOpen | CannotWrite | CannotRename

  /** The operating system as the process manager sees it. */
  class World {
    var files: map<string, string>
    var unreadable: set<string>
    var alive: set<int>
    var cmdlines: map<int, string>
    var sent: seq<(int, Sig)>
    var locked: set<string>
    var nextFd: int

    constructor (files: map<string, string>, unreadable: set<string>, alive: set<int>, cmdlines: map<int, string>)
      ensures this.files == files && this.unreadable == unreadable && this.alive == alive
      ensures this.cmdlines == cmdlines && sent == [] && locked == {}
    {
      this.files := files;
      this.unreadable := unreadable;
      this.alive := alive;
      this.cmdlines := cmdlines;
      sent := [];
      locked := {};
      nextFd := 3;
    }

    /** `path.unlink()` after `path.exists()`. */
    method Unlink(path: string)
      modifies this`files
      ensures files == old(files) - {path}
    {
      files := files - {path};
    }
  }

  /** `ProcessManager(process_name)`. */
  class Manager {
    const name: string
    const pidFile: string
    const lockFile: string
    const tempFile: string
    const w: World
    var lockFd: Option<int>

    ghost predicate Valid()
      reads this, w
    {
      pidFile != lockFile && tempFile != pidFile && tempFile != lockFile
    }

    /** `is_running`, read from the current state of the world. */
    function Running(): Option<int>
      reads this, w
    {
      RunningPid(w.files, w.unreadable, w.alive, w.cmdlines, pidFile)
    }

    constructor (home: string, name: string, w: World)
      ensures this.name == name && this.w == w && lockFd == None
      ensures pidFile == PidPath(home, name) && lockFile == LockPath(home, name) && tempFile == TempPath(home, name)
      ensures Valid()
    {
      PathsDistinct(home, name);
      this.name := name;
      pidFile := PidPath(home, name);
      lockFile := LockPath(home, name);
      tempFile := TempPath(home, name);
      this.w := w;
      lockFd := None;
    }

    /** `acquire_lock`: open (creating) the lock file, then try a non-blocking exclusive `flock`
        up to `attempts` times; the first `busyFor` attempts find the lock held elsewhere. An
        open error returns False and leaves `_lock_fd` as it was; a timeout returns False with
        the new descriptor kept in `_lock_fd`. */
    method AcquireLock(attempts: nat, busyFor: nat, openFails: bool) returns (ok: bool)
      requires Valid()
      modifies this`lockFd, w`files, w`locked, w`nextFd
      ensures Valid()
      ensures ok == (!openFails && busyFor < attempts)
      ensures lockFd == if openFails then old(lockFd) else Some(old(w.nextFd))
      ensures w.locked == if ok then old(w.locked) + {lockFile} else old(w.locked)
      ensures w.files == if openFails || lockFile in old(w.files) then old(w.files) else old(w.files)[lockFile := ""]
    {
      if openFails {
        return false;
      }
      lockFd := Some(w.nextFd);
      w.nextFd := w.nextFd + 1;
      if lockFile !in w.files {
        w.files := w.files[lockFile := ""];
      }
      var i := 0;
      while i < attempts
        invariant 0 <= i <= attempts && i <= busyFor
        invariant w.locked == old(w.locked)
        invariant lockFd == Some(old(w.nextFd))
      {
        if i >= busyFor {
          w.locked := w.locked + {lockFile};
          return true;
        }
        i := i + 1;
      }
      return false;
    }

    /** `release_lock`: unlock and close the descriptor, if there is one. */
    method ReleaseLock()
      requires Valid()
      modifies this`lockFd, w`locked
      ensures Valid()
      ensures lockFd == None && w.locked == if old(lockFd).Some? then old(w.locked) - {lockFile} else old(w.locked)
    {
      if lockFd.Some? {
        w.locked := w.locked - {lockFile};
        lockFd := None;
      }
    }

    /** `cleanup_pid_file`: afterwards there is no PID file; without one nothing changes. */
    method CleanupPidFile()
      modifies w`files
      ensures w.files == old(w.files) - {pidFile}
    {
      if pidFile in w.files {
        w.Unlink(pidFile);
      }
    }

    /** `is_running`: reports the running PID, and removes a PID file that names no running
        talkat process (dead or foreign PID, no cmdline, unreadable or non-integer file). */
    method IsRunning() returns (running: bool, pid: Option<int>)
      modifies w`files
      ensures pid == old(Running()) && running == pid.Some?
      ensures w.files == AfterProbe(old(w.files), w.unreadable, w.alive, w.cmdlines, pidFile)
    {
      if pidFile !in w.files {
        return false, None;
      }
      if pidFile in w.unreadable {
        CleanupPidFile();
        return false, None;
      }
      var parsed := ParseInt(w.files[pidFile]);
      if parsed.None? {
        CleanupPidFile();
        return false, None;
      }
      var p := parsed.value;
      if p !in w.alive {
        CleanupPidFile();
        return false, None;
      }
      if p in w.cmdlines && Contains(w.cmdlines[p], "talkat") {
        return true, Some(p);
      }
      CleanupPidFile();
      return false, None;
    }

    /** `write_pid`: write `str(pid)` to the temporary sibling and rename it over the PID file;
        on any failure the temporary file is removed and the PID file is left as it was. */
    method WritePid(pid: int, fault: WriteFault)
      requires Valid()
      modifies w`files, w`unreadable
      ensures Valid()
      ensures w.files == if fault.Healthy? then (old(w.files) - {tempFile})[pidFile := IntToString(pid)]
                         else old(w.files) - {tempFile}
      ensures w.unreadable == if fault.Healthy? then old(w.unreadable) - {pidFile} else old(w.unreadable)
    {
      if !fault.CannotOpen? {
        w.files := w.files[tempFile := if fault.CannotWrite? then "" else IntToString(pid)];
        if fault.Healthy? {
          w.files := (w.files - {tempFile})[pidFile := IntToString(pid)];
          w.unreadable := w.unreadable - {pidFile};
          return;
        }
      }
      if tempFile in w.files {
        w.Unlink(tempFile);
      }
    }

    /** The signalling part of `stop_process` for the running process `p`: SIGINT, up to
        `polls` probes, then SIGTERM and, if it is still alive 1 s later, SIGKILL. */
    method Escalate(p: int, polls: nat, exitAfter: Option<nat>, termKills: bool) returns (ok: bool)
      modifies w`files, w`alive, w`sent
      ensures var e := Escalation(polls, exitAfter, termKills);
        ok == e.stopped && w.sent == old(w.sent) + Tagged(p, e.signals) && w.alive == old(w.alive) - {p} &&
        w.files == if e.stopped then old(w.files) - {pidFile} else old(w.files)
    {
      ghost var e := Escalation(polls, exitAfter, termKills);
      w.sent := w.sent + [(p, SIGINT)];
      var i := 0;
      while i < polls
        invariant 0 <= i <= polls
        invariant exitAfter.Some? ==> i <= exitAfter.value
        invariant w.files == old(w.files) && w.alive == old(w.alive) && w.sent == old(w.sent) + [(p, SIGINT)]
      {
        if exitAfter == Some(i) {
          w.alive := w.alive - {p};
          CleanupPidFile();
          assert e.signals == [SIGINT];
          assert Tagged(p, e.signals) == [(p, SIGINT)];
          return true;
        }
        i := i + 1;
      }
      if exitAfter == Some(polls) {
        // The process left after the last probe: `os.kill(pid, SIGTERM)` raises.
        w.alive := w.alive - {p};
        assert Tagged(p, e.signals) == [(p, SIGINT)];
        return false;
      }
      if termKills {
        assert e.signals == [SIGINT, SIGTERM];
        w.sent := w.sent + [(p, SIGTERM)];
      } else {
        assert e.signals == [SIGINT, SIGTERM, SIGKILL];
        w.sent := w.sent + [(p, SIGTERM), (p, SIGKILL)];
      }
      w.alive := w.alive - {p};
      CleanupPidFile();
      assert Tagged(p, e.signals) == w.sent[|old(w.sent)|..];
      return true;
    }

    /** `stop_process` with `polls` liveness probes inside the timeout; the process reacts as
        in `Escalation`. A name that is not running returns True and sends no signal. */
    method StopProcess(polls: nat, exitAfter: Option<nat>, termKills: bool) returns (ok: bool)
      modifies w`files, w`alive, w`sent
      ensures old(Running()).None? ==>
        ok && w.files == old(w.files) - {pidFile} && w.alive == old(w.alive) && w.sent == old(w.sent)
      ensures old(Running()).Some? ==>
        var p := old(Running()).value;
        var e := Escalation(polls, exitAfter, termKills);
        ok == e.stopped && w.sent == old(w.sent) + Tagged(p, e.signals) && w.alive == old(w.alive) - {p} &&
        w.files == if e.stopped then old(w.files) - {pidFile} else old(w.files)
    {
      var running, pid := IsRunning();
      if !running || pid.None? {
        return true;
      }
      ok := Escalate(pid.value, polls, exitAfter, termKills);
    }

    /** `start_background_process(cmd)`: `spawned` is the PID `Popen` gives, or None when it
        raises; the new process runs with `cmd` as its cmdline, and its PID is written with
        `write_pid` (whose failure is only logged). */
    method StartBackgroundProcess(cmd: seq<string>, spawned: Option<int>, fault: WriteFault) returns (pid: Option<int>)
      requires Valid()
      modifies w`files, w`unreadable, w`alive, w`cmdlines
      ensures Valid()
      ensures pid == spawned
      ensures spawned.None? ==> w.files == old(w.files) && w.alive == old(w.alive) && w.cmdlines == old(w.cmdlines) && w.unreadable == old(w.unreadable)
      ensures spawned.Some? ==>
        w.alive == old(w.alive) + {spawned.value} && w.cmdlines == old(w.cmdlines)[spawned.value := CmdlineOf(cmd)] &&
        w.files == (if fault.Healthy? then (old(w.files) - {tempFile})[pidFile := IntToString(spawned.value)] else old(w.files) - {tempFile})
      ensures spawned.Some? && fault.Healthy? && (exists k | 0 <= k < |cmd| :: Contains(cmd[k], "talkat")) ==> Running() == spawned
    {
      if spawned.None? {
        return None;
      }
      var p := spawned.value;
      w.alive := w.alive + {p};
      w.cmdlines := w.cmdlines[p := CmdlineOf(cmd)];
      WritePid(p, fault);
      if fault.Healthy? && (exists k | 0 <= k < |cmd| :: Contains(cmd[k], "talkat")) {
        var k :| 0 <= k < |cmd| && Contains(cmd[k], "talkat");
        StartedIsRunning(old(w.files) - {tempFile}, w.unreadable, old(w.alive), old(w.cmdlines), pidFile, p, cmd, k);
      }
      return spawned;
    }

    /** The part of `toggle` that runs once the lock is held: probe, stop a running process,
        and release the lock in the `finally`. */
    method ToggleLocked(polls: nat, exitAfter: Option<nat>, termKills: bool) returns (nowRunning: bool, msg: string)
      requires Valid() && lockFd.Some?
      modifies this`lockFd, w`files, w`locked, w`alive, w`sent
      ensures Valid()
      ensures (nowRunning, msg) == ToggleReply(name, true, old(Running()), Escalation(polls, exitAfter, termKills))
      ensures lockFd == None && w.locked == old(w.locked) - {lockFile}
      ensures old(Running()).None? ==> w.files == old(w.files) - {pidFile} && w.alive == old(w.alive) && w.sent == old(w.sent)
      ensures old(Running()).Some? ==>
        var e := Escalation(polls, exitAfter, termKills);
        w.sent == old(w.sent) + Tagged(old(Running()).value, e.signals) && w.alive == old(w.alive) - {old(Running()).value} &&
        w.files == if e.stopped then old(w.files) - {pidFile} else old(w.files)
    {
      var running, pid := IsRunning();
      if running {
        var stopped := StopProcess(polls, exitAfter, termKills);
        if stopped {
          nowRunning, msg := false, "Stopped " + name + " process";
        } else {
          nowRunning, msg := true, "Failed to stop " + name + " process";
        }
      } else {
        nowRunning, msg := true, "No " + name + " process running, starting new one";
      }
      ReleaseLock();
    }

    /** `toggle`: under the lock, stop a running process or report that a new one should be
        started; the lock is released on every path that acquired it, and a failed acquisition
        returns before anything is probed. */
    method Toggle(attempts: nat, busyFor: nat, openFails: bool, polls: nat, exitAfter: Option<nat>, termKills: bool)
      returns (nowRunning: bool, msg: string)
      requires Valid()
      modifies this`lockFd, w`files, w`locked, w`nextFd, w`alive, w`sent
      ensures Valid()
      ensures (nowRunning, msg) == ToggleReply(name, !openFails && busyFor < attempts, old(Running()), Escalation(polls, exitAfter, termKills))
      ensures var created := if openFails || lockFile in old(w.files) then old(w.files) else old(w.files)[lockFile := ""];
        if !(!openFails && busyFor < attempts) then
          w.files == created && w.alive == old(w.alive) && w.sent == old(w.sent) && w.locked == old(w.locked)
        else
          lockFd == None && w.locked == old(w.locked) - {lockFile} &&
          match old(Running())
          case None =>
            w.files == created - {pidFile} && w.alive == old(w.alive) && w.sent == old(w.sent)
          case Some(p) =>
            var e := Escalation(polls, exitAfter, termKills);
            w.sent == old(w.sent) + Tagged(p, e.signals) && w.alive == old(w.alive) - {p} &&
            w.files == if e.stopped then created - {pidFile} else created
    {
      ghost var r0 := Running();
      ghost var files0 := w.files;
      var acquired := AcquireLock(attempts, busyFor, openFails);
      if !acquired {
        return false, "Another operation is in progress";
      }
      if lockFile !in files0 {
        ProbeIgnoresOtherFile(files0, lockFile, "", w.unreadable, w.alive, w.cmdlines, pidFile);
      }
      assert Running() == r0;
      nowRunning, msg := ToggleLocked(polls, exitAfter, termKills);
    }

    /** `__enter__`: take the lock, ignoring whether that succeeded. */
    method Enter(attempts: nat, busyFor: nat, openFails: bool)
      requires Valid()
      modifies this`lockFd, w`files, w`locked, w`nextFd
      ensures Valid()
      ensures lockFd == if openFails then old(lockFd) else Some(old(w.nextFd))
      ensures w.locked == if !openFails && busyFor < attempts then old(w.locked) + {lockFile} else old(w.locked)
      ensures w.files == if openFails || lockFile in old(w.files) then old(w.files) else old(w.files)[lockFile := ""]
    {
      var _ := AcquireLock(attempts, busyFor, openFails);
    }

    /** `__exit__`: release the lock. */
    method Exit()
      requires Valid()
      modifies this`lockFd, w`locked
      ensures Valid()
      ensures lockFd == None && w.locked == if old(lockFd).Some? then old(w.locked) - {lockFile} else old(w.locked)
    {
      ReleaseLock();
    }
  }
}
