/** The command layer of src/talkat/cli.py: start, stop and toggle decisions taken on top of the
    process manager's state, and the sub-command dispatch. */
module Cli {
  import opened Wrappers
  import opened Text
  import opened ProcessManager

  const LONG: string := "long_dictation"
  const LISTEN: string := "listen"

  /** `if pid:` on an `int | None`: None and 0 are both false. */
  predicate Truthy(pid: Option<int>)
  {
    pid.Some? && pid.value != 0
  }

  /** How one `acquire_lock` call goes (see `Manager.AcquireLock`). */
  datatype LockTry = LockTry(attempts: nat, busyFor: nat, openFails: bool)

  /** How the signalled process behaves during one `stop_process` (see `Escalation`). */
  datatype StopTry = StopTry(polls: nat, exitAfter: Option<nat>, termKills: bool)

  /** The command `start_long_background` launches: `python -m talkat.cli long`. */
  function LongCommand(executable: string): (cmd: seq<string>)
    ensures |cmd| == 4 && Contains(cmd[2], "talkat")
  {
    assert OccursAt("talkat.cli", "talkat", 0);
    [executable, "-m", "talkat.cli", "long"]
  }

  /** Whether `stop_process` returns True for a process in state `running`. */
  function StopSucceeds(running: Option<int>, s: StopTry): bool
  {
    running.None? || Escalation(s.polls, s.exitAfter, s.termKills).stopped
  }

  /** `get_long_pid` and `get_listen_pid`: the PID exactly when `is_running` reports True. */
  method GetPid(home: string, name: string, w: World) returns (pid: Option<int>)
    modifies w`files
    ensures pid == old(RunningPid(w.files, w.unreadable, w.alive, w.cmdlines, PidPath(home, name)))
    ensures w.files == AfterProbe(old(w.files), w.unreadable, w.alive, w.cmdlines, PidPath(home, name))
  {
    var pm := new Manager(home, name, w);
    var running, p := pm.IsRunning();
    pid := if running then p else None;
  }

  /** The body of `start_long_background`'s `with pm:` block. */
  method StartLongLocked(pm: Manager, home: string, executable: string, spawned: Option<int>, fault: WriteFault)
    returns (code: int)
    requires pm.Valid() && pm.name == LONG && pm.pidFile == PidPath(home, LONG)
    modifies pm.w`files, pm.w`unreadable, pm.w`alive, pm.w`cmdlines
    ensures pm.Valid()
    ensures code == (if Truthy(old(pm.Running())) || !Truthy(spawned) then 1 else 0)
    ensures Truthy(old(pm.Running())) || spawned.None? ==> pm.w.alive == old(pm.w.alive) && pm.w.cmdlines == old(pm.w.cmdlines)
    ensures !Truthy(old(pm.Running())) && spawned.Some? && fault.Healthy? ==> pm.Running() == spawned
  {
    var existing := GetPid(home, LONG, pm.w);
    if Truthy(existing) {
      return 1;
    }
    var pid := pm.StartBackgroundProcess(LongCommand(executable), spawned, fault);
    code := if Truthy(pid) then 0 else 1;
  }

  /** `start_long_background`: under `with pm:`, refuse with 1 when a long-dictation process is
      already running; otherwise start one and return 0 iff a PID was obtained. */
  method StartLongBackground(home: string, w: World, lock: LockTry, executable: string, spawned: Option<int>, fault: WriteFault)
    returns (code: int)
    modifies w`files, w`unreadable, w`alive, w`cmdlines, w`locked, w`nextFd
    ensures var r := old(RunningPid(w.files, w.unreadable, w.alive, w.cmdlines, PidPath(home, LONG)));
      code == (if Truthy(r) || !Truthy(spawned) then 1 else 0)
    ensures var r := old(RunningPid(w.files, w.unreadable, w.alive, w.cmdlines, PidPath(home, LONG)));
      Truthy(r) || spawned.None? ==> w.alive == old(w.alive) && w.cmdlines == old(w.cmdlines)
    ensures var r := old(RunningPid(w.files, w.unreadable, w.alive, w.cmdlines, PidPath(home, LONG)));
      !Truthy(r) && spawned.Some? && fault.Healthy? ==>
        RunningPid(w.files, w.unreadable, w.alive, w.cmdlines, PidPath(home, LONG)) == spawned
    ensures LockPath(home, LONG) !in old(w.locked) ==> LockPath(home, LONG) !in w.locked
  {
    ghost var r0 := RunningPid(w.files, w.unreadable, w.alive, w.cmdlines, PidPath(home, LONG));
    ghost var f0 := w.files;
    var pm := new Manager(home, LONG, w);
    pm.Enter(lock.attempts, lock.busyFor, lock.openFails);
    if w.files != f0 {
      ProbeIgnoresOtherFile(f0, pm.lockFile, "", w.unreadable, w.alive, w.cmdlines, pm.pidFile);
    }
    assert pm.Running() == r0;
    code := StartLongLocked(pm, home, executable, spawned, fault);
    pm.Exit();
  }

  /** `stop_long_background` and `stop_listen_process` share this shape: under `with pm:`,
      return 0 iff `stop_process` returned True. */
  method StopBackground(home: string, name: string, w: World, lock: LockTry, stop: StopTry) returns (code: int)
    modifies w`files, w`alive, w`sent, w`locked, w`nextFd
    ensures var r := old(RunningPid(w.files, w.unreadable, w.alive, w.cmdlines, PidPath(home, name)));
      code == (if StopSucceeds(r, stop) then 0 else 1) &&
      w.sent == old(w.sent) + (if r.Some? then Tagged(r.value, Escalation(stop.polls, stop.exitAfter, stop.termKills).signals) else [])
    ensures LockPath(home, name) !in old(w.locked) ==> LockPath(home, name) !in w.locked
  {
    ghost var r0 := RunningPid(w.files, w.unreadable, w.alive, w.cmdlines, PidPath(home, name));
    ghost var f0 := w.files;
    var pm := new Manager(home, name, w);
    pm.Enter(lock.attempts, lock.busyFor, lock.openFails);
    if w.files != f0 {
      ProbeIgnoresOtherFile(f0, pm.lockFile, "", w.unreadable, w.alive, w.cmdlines, pm.pidFile);
    }
    assert pm.Running() == r0;
    var stopped := pm.StopProcess(stop.polls, stop.exitAfter, stop.termKills);
    pm.Exit();
    code := if stopped then 0 else 1;
  }

  /** `stop_long_background`. */
  method StopLongBackground(home: string, w: World, lock: LockTry, stop: StopTry) returns (code: int)
    modifies w`files, w`alive, w`sent, w`locked, w`nextFd
    ensures code == if StopSucceeds(old(RunningPid(w.files, w.unreadable, w.alive, w.cmdlines, PidPath(home, LONG))), stop) then 0 else 1
    ensures var r := old(RunningPid(w.files, w.unreadable, w.alive, w.cmdlines, PidPath(home, LONG)));
      w.sent == old(w.sent) + (if r.Some? then Tagged(r.value, Escalation(stop.polls, stop.exitAfter, stop.termKills).signals) else [])
  {
    code := StopBackground(home, LONG, w, lock, stop);
  }

  /** `stop_listen_process`. */
  method StopListenProcess(home: string, w: World, lock: LockTry, stop: StopTry) returns (code: int)
    modifies w`files, w`alive, w`sent, w`locked, w`nextFd
    ensures code == if StopSucceeds(old(RunningPid(w.files, w.unreadable, w.alive, w.cmdlines, PidPath(home, LISTEN))), stop) then 0 else 1
    ensures var r := old(RunningPid(w.files, w.unreadable, w.alive, w.cmdlines, PidPath(home, LISTEN)));
      w.sent == old(w.sent) + (if r.Some? then Tagged(r.value, Escalation(stop.polls, stop.exitAfter, stop.termKills).signals) else [])
  {
    code := StopBackground(home, LISTEN, w, lock, stop);
  }

  /** `toggle_long_background`: stop the process when `is_running` reports it, start one
      otherwise. */
  method ToggleLongBackground(home: string, w: World, lock: LockTry, stop: StopTry, executable: string,
                              spawned: Option<int>, fault: WriteFault) returns (code: int)
    modifies w`files, w`unreadable, w`alive, w`cmdlines, w`sent, w`locked, w`nextFd
    ensures var r := old(RunningPid(w.files, w.unreadable, w.alive, w.cmdlines, PidPath(home, LONG)));
      r.Some? ==>
        code == (if Escalation(stop.polls, stop.exitAfter, stop.termKills).stopped then 0 else 1) &&
        w.sent == old(w.sent) + Tagged(r.value, Escalation(stop.polls, stop.exitAfter, stop.termKills).signals)
    ensures var r := old(RunningPid(w.files, w.unreadable, w.alive, w.cmdlines, PidPath(home, LONG)));
      r.None? ==> code == (if Truthy(spawned) then 0 else 1) && w.sent == old(w.sent)
    ensures var r := old(RunningPid(w.files, w.unreadable, w.alive, w.cmdlines, PidPath(home, LONG)));
      r.None? && spawned.Some? && fault.Healthy? ==> RunningPid(w.files, w.unreadable, w.alive, w.cmdlines, PidPath(home, LONG)) == spawned
  {
    ghost var f0 := w.files;
    ghost var r0 := RunningPid(f0, w.unreadable, w.alive, w.cmdlines, PidPath(home, LONG));
    var existing := GetPid(home, LONG, w);
    assert existing == r0;
    if existing.Some? {
      assert w.files == f0;
      code := StopLongBackground(home, w, lock, stop);
    } else {
      ProbeIdempotent(f0, w.unreadable, w.alive, w.cmdlines, PidPath(home, LONG));
      assert RunningPid(w.files, w.unreadable, w.alive, w.cmdlines, PidPath(home, LONG)).None?;
      code := StartLongBackground(home, w, lock, executable, spawned, fault);
    }
  }

  /** What the `talkat` entry point goes on to do. */
  datatype CliAction = Exit(code: int) | RunClient(mode: string)

  /** The `listen` sub-command: stop a live listen process and exit with the stop's code, or
      run the client when none is running. */
  method ListenCommand(home: string, w: World, lock: LockTry, stop: StopTry) returns (out: CliAction)
    modifies w`files, w`alive, w`sent, w`locked, w`nextFd
    ensures var r := old(RunningPid(w.files, w.unreadable, w.alive, w.cmdlines, PidPath(home, LISTEN)));
      if Truthy(r) then
        out == Exit(if Escalation(stop.polls, stop.exitAfter, stop.termKills).stopped then 0 else 1)
      else
        out == RunClient("listen") && w.sent == old(w.sent) && w.alive == old(w.alive)
  {
    ghost var f0 := w.files;
    ghost var r0 := RunningPid(f0, w.unreadable, w.alive, w.cmdlines, PidPath(home, LISTEN));
    var existing := GetPid(home, LISTEN, w);
    assert existing == r0;
    if Truthy(existing) {
      assert w.files == f0;
      var code := StopListenProcess(home, w, lock, stop);
      out := Exit(code);
    } else {
      out := RunClient("listen");
    }
  }

  /** The sub-commands of `talkat`, the help `main` prints when none is given, and argparse's
      own rejection of a word that is not a sub-command. */
  datatype Dispatch =
    | ListenToggle | LongMode | StartLong | StopLong | ToggleLong | Server | Calibrate
    | TranscribeFile | Batch | Help(exitCode: int) | Rejected(exitCode: int)

  const COMMANDS: seq<string> :=
    ["listen", "long", "start-long", "stop-long", "toggle-long", "server", "calibrate", "file", "batch"]

  /** `parse_args` followed by the dispatch in `main`: an unknown word never reaches `main`, since
      the sub-parsers reject it with exit status 2; with no sub-command `main` prints the help and
      exits with 1; each known sub-command has its own branch. */
  function Route(command: Option<string>): (d: Dispatch)
    ensures d.Help? <==> command.None?
    ensures d.Rejected? <==> (command.Some? && command.value !in COMMANDS)
    ensures d.Help? ==> d.exitCode == 1
    ensures d.Rejected? ==> d.exitCode == 2
    ensures command == Some("listen") <==> d == ListenToggle
  {
    if command.None? then Help(1)
    else match command.value
      case "listen" => ListenToggle
      case "long" => LongMode
      case "start-long" => StartLong
      case "stop-long" => StopLong
      case "toggle-long" => ToggleLong
      case "server" => Server
      case "calibrate" => Calibrate
      case "file" => TranscribeFile
      case "batch" => Batch
      case _ => Rejected(2)
  }

  /** Distinct sub-commands reach distinct branches. */
  lemma RouteInjective(a: string, b: string)
    requires a in COMMANDS && b in COMMANDS && a != b
    ensures Route(Some(a)) != Route(Some(b))
  {
  }
}
