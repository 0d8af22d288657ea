/** The main process's IPC handlers over its two global maps: the tracked
    children (`runningProcesses`, keyed by app path) and the settings
    (`appSettings`, keyed by app name). Spawning, shortcut resolution, exit
    codes and the restart timer are inputs and events of the methods. */
module Supervision {
  import opened Wrappers
  import opened Text
  import opened AppModel
  import opened Catalog

  /** The delay of the auto-restart timer, in milliseconds. */
  const RESTART_DELAY_MS: nat := 3000

  /** A spawned child: `id` tells apart the children of one session, `pid` is
      `child.pid`, absent when the spawn produced none. */
  datatype Child = Child(id: nat, pid: Option<int>)

  /** The exit observer registered by `launch-app`, with what its closure captured:
      the app path, the executable spawned, the app name and `settings.autoRestart`
      as read at launch time. */
  datatype ExitObserver = ExitObserver(path: string, exe: string, appName: string, autoRestart: bool)

  /** A pending `setTimeout` of the auto-restart. */
  datatype RestartTimer = RestartTimer(path: string, exe: string, appName: string, delayMs: nat)

  datatype Status = Running | Stopped | RunningRestarted

  /** An `app-status-change` message to the window. */
  datatype StatusChange = StatusChange(path: string, status: Status)

  /** The object `launch-app` returns to the renderer. */
  datatype LaunchReply = LaunchReply(success: bool, pid: Option<int>, message: Option<string>)

  const ALREADY_RUNNING := LaunchReply(false, None, Some("App already running"))
  const OPENED_VIA_SHELL := LaunchReply(true, None, Some("Launched via Shell. Monitoring restricted to exe files."))

  /** What a launch asked of the operating system. */
  datatype LaunchEffect = NoEffect | Spawn(exe: string) | OpenPath(path: string)

  /** What a kill asked of the operating system: `treeKill(pid, 'SIGKILL')`
      or `taskkill /IM name /F`. */
  datatype KillAction = TreeKill(pid: int) | TaskKill(imageName: string)

  /** The app name derived from a path: its basename without the extension. */
  function AppName(path: string): (name: string)
    ensures NoSeparator(name)
    ensures var b := Basename(path);
      && (HasAppExt(b) ==> name + b[|b| - 4..] == b)
      && (!HasAppExt(b) ==> name == b)
  {
    var b := Basename(path);
    assert StripAppExt(b) == b[..|StripAppExt(b)|];
    StripAppExt(b)
  }

  /** Whether a `child.pid` value is truthy. */
  function PidKnown(pid: Option<int>): (known: bool)
    ensures pid == None ==> !known
    ensures pid == Some(0) ==> !known
    ensures pid.Some? && pid.value != 0 ==> known
  {
    pid.Some? && pid.value != 0
  }

  /** The executable `launch-app` spawns for `path`, given what reading the
      shortcut produced (`None` when it threw), or `None` when the path is
      opened through the shell instead. */
  function LaunchTarget(path: string, shortcut: Option<string>): (exe: Option<string>)
    ensures exe.Some? <==> IsExePath(path) || (IsLnkPath(path) && shortcut.Some? && IsExePath(shortcut.value))
    ensures exe.Some? && IsLnkPath(path) ==> exe.value == shortcut.value
    ensures exe.Some? && !IsLnkPath(path) ==> exe.value == path
  {
    if IsLnkPath(path) && shortcut.Some? && IsExePath(shortcut.value) then shortcut
    else if IsExePath(path) then Some(path)
    else None
  }

  /** No path ends in both `.exe` and `.lnk`. */
  lemma ExeIsNotLnk(p: string)
    ensures !(IsExePath(p) && IsLnkPath(p))
  {
    if IsExePath(p) {
      var l := ToLower(p);
      assert l[|l| - 3] == 'e';
    }
  }

  /** The exit observer restarts the app iff the exit code is neither 0 nor
      null and auto-restart was on when the app was launched. */
  function RestartDue(code: Option<int>, autoRestart: bool): (due: bool)
    ensures code == None ==> !due
    ensures code == Some(0) ==> !due
    ensures !autoRestart ==> !due
    ensures code.Some? && code.value != 0 && autoRestart ==> due
  {
    code.Some? && code.value != 0 && autoRestart
  }

  /** The step-by-step choice in `launch-app` of what to spawn: the path when
      it ends in `.exe`, replaced by the shortcut's target when the path is a
      `.lnk` whose target ends in `.exe`. */
  method ResolveExecutable(path: string, shortcut: Option<string>) returns (executablePath: string, isExecutable: bool)
    ensures isExecutable <==> LaunchTarget(path, shortcut).Some?
    ensures isExecutable ==> executablePath == LaunchTarget(path, shortcut).value
  {
    executablePath := path;
    isExecutable := IsExePath(path);
    if IsLnkPath(path) {
      if shortcut.Some? && shortcut.value != "" && IsExePath(shortcut.value) {
        executablePath := shortcut.value;
        isExecutable := true;
      }
    }
    ExeIsNotLnk(path);
  }

  /** The observer `launch-app` registers when it spawns `exe` for `path`: it
      captures the app name and auto-restart as the settings hold them at launch. */
  function ObserverFor(path: string, exe: string, settings: map<string, Settings>): (o: ExitObserver)
    ensures o.path == path && o.exe == exe && o.appName == AppName(path)
    ensures o.autoRestart <==> Lookup(settings, AppName(path)).autoRestart == Some(true)
  {
    var appName := AppName(path);
    ExitObserver(path, exe, appName, AutoRestartOn(Lookup(settings, appName)))
  }

  class Supervisor {
    /** `runningProcesses` */
    var running: map<string, Child>
    /** `appSettings` */
    var settings: map<string, Settings>
    /** Exit observers of children that have not exited yet, by child id. */
    var observers: map<nat, ExitObserver>
    /** Restart timers not yet fired; all share one delay, so they fire in this order. */
    var timers: seq<RestartTimer>
    /** The status messages sent to the window so far. */
    var statusLog: seq<StatusChange>
    /** The id the next spawned child gets. */
    var nextId: nat
    /** The children spawned by a restart: none of them has an exit observer. */
    ghost var restarted: set<nat>

    ghost predicate Valid()
      reads this
    {
      && (forall p :: p in running ==> running[p].id < nextId)
      && (forall k :: k in observers ==> k < nextId)
      && (forall k :: k in restarted ==> k < nextId && k !in observers)
    }

    /** The state when the window is created: `loaded` are the settings read from disk. */
    constructor (loaded: map<string, Settings>)
      ensures Valid()
      ensures running == map[] && settings == loaded && observers == map[]
      ensures timers == [] && statusLog == [] && nextId == 0 && restarted == {}
    {
      running := map[];
      settings := loaded;
      observers := map[];
      timers := [];
      statusLog := [];
      nextId := 0;
      restarted := {};
    }

    /** `get-apps`: the catalog for the listing `files`, read against the current settings. */
    method GetApps(folder: string, files: seq<string>) returns (apps: seq<AppData>)
      ensures apps == ScanApps(folder, files, settings)
    {
      apps := ScanApps(folder, files, settings);
    }

    /** `update-app-settings`: the entry for the app's name becomes exactly its
        four settings fields; whatever the entry held before is dropped. */
    method UpdateAppSettings(appData: AppData) returns (ack: bool)
      requires Valid()
      modifies this`settings
      ensures Valid()
      ensures ack
      ensures appData.name in settings && settings[appData.name] == SettingsRecord(appData)
      ensures forall n :: n != appData.name ==> Lookup(settings, n) == Lookup(old(settings), n)
      ensures settings.Keys == old(settings).Keys + {appData.name}
    {
      settings := settings[appData.name := SettingsRecord(appData)];
      ack := true;
    }

    /** `save-app-orders`: the loop over `names` that renumbers each listed
        app's `order` by its position and keeps its other fields. */
    method SaveAppOrders(names: seq<string>) returns (ack: bool)
      requires Valid()
      modifies this`settings
      ensures Valid()
      ensures ack
      ensures settings == Reordered(old(settings), names)
    {
      var i := 0;
      while i < |names|
        invariant 0 <= i <= |names|
        invariant settings == Reordered(old(settings), names[..i])
      {
        var current := Lookup(settings, names[i]);
        settings := settings[names[i] := current.(order := Some(i + 1))];
        assert names[..i + 1][..i] == names[..i];
        i := i + 1;
      }
      assert names[..i] == names;
      ack := true;
    }

    /** `launch-app`. `shortcut` is what reading the shortcut returned (`None`
        when it threw; only consulted for a `.lnk` path) and `pid` is the pid of
        the child a spawn produces. */
    method Launch(path: string, shortcut: Option<string>, pid: Option<int>)
      returns (reply: LaunchReply, effect: LaunchEffect)
      requires Valid()
      modifies this
      ensures Valid()
      ensures settings == old(settings) && timers == old(timers) && restarted == old(restarted)
      ensures old(path in running) ==>
        && reply == ALREADY_RUNNING && effect == NoEffect
        && running == old(running) && observers == old(observers)
        && statusLog == old(statusLog) && nextId == old(nextId)
      ensures !old(path in running) && LaunchTarget(path, shortcut).None? ==>
        && reply == OPENED_VIA_SHELL && effect == OpenPath(path)
        && running == old(running) && observers == old(observers)
        && statusLog == old(statusLog) && nextId == old(nextId)
      ensures !old(path in running) && LaunchTarget(path, shortcut).Some? ==>
        var exe := LaunchTarget(path, shortcut).value;
        var observer := ObserverFor(path, exe, old(settings));
        && reply == LaunchReply(true, pid, None) && effect == Spawn(exe)
        && running == old(running)[path := Child(old(nextId), pid)]
        && observers == old(observers)[old(nextId) := observer]
        && statusLog == old(statusLog) + [StatusChange(path, Running)]
        && nextId == old(nextId) + 1
    {
      if path in running {
        return ALREADY_RUNNING, NoEffect;
      }
      var executablePath, isExecutable := ResolveExecutable(path, shortcut);
      if isExecutable {
        Track(path, pid, ObserverFor(path, executablePath, settings));
        reply, effect := LaunchReply(true, pid, None), Spawn(executablePath);
      } else {
        reply, effect := OPENED_VIA_SHELL, OpenPath(path);
      }
    }

    /** The spawn branch of `launch-app`: the new child is tracked under `path`,
        reported as running, and given the exit observer `observer`. */
    method Track(path: string, pid: Option<int>, observer: ExitObserver)
      requires Valid()
      modifies this`running, this`observers, this`statusLog, this`nextId
      ensures Valid()
      ensures running == old(running)[path := Child(old(nextId), pid)]
      ensures observers == old(observers)[old(nextId) := observer]
      ensures statusLog == old(statusLog) + [StatusChange(path, Running)]
      ensures nextId == old(nextId) + 1
    {
      var child := Child(nextId, pid);
      nextId := nextId + 1;
      running := running[path := child];
      statusLog := statusLog + [StatusChange(path, Running)];
      observers := observers[child.id := observer];
    }

    /** The child `id` exits with `code` (`None` for a null code). Only a child
        with an observer reacts: it drops its path from the tracked set and, on
        a crash with auto-restart on, schedules one restart. */
    method ChildExited(id: nat, code: Option<int>)
      requires Valid()
      modifies this
      ensures Valid()
      ensures settings == old(settings) && nextId == old(nextId) && restarted == old(restarted)
      ensures id in restarted ==> running == old(running) && timers == old(timers)
      ensures id !in old(observers) ==>
        && running == old(running) && observers == old(observers)
        && timers == old(timers) && statusLog == old(statusLog)
      ensures id in old(observers) ==>
        var o := old(observers)[id];
        && running == old(running) - {o.path}
        && observers == old(observers) - {id}
        && statusLog == old(statusLog) + [StatusChange(o.path, Stopped)]
        && timers == old(timers) + (if RestartDue(code, o.autoRestart) then [RestartTimer(o.path, o.exe, o.appName, RESTART_DELAY_MS)] else [])
    {
      if id in observers {
        var o := observers[id];
        observers := observers - {id};
        running := running - {o.path};
        statusLog := statusLog + [StatusChange(o.path, Stopped)];
        if code.Some? && code.value != 0 {
          if o.autoRestart {
            timers := timers + [RestartTimer(o.path, o.exe, o.appName, RESTART_DELAY_MS)];
          }
        }
      }
    }

    /** The oldest pending restart timer fires: the same executable is spawned
        again and its child is tracked under the path, replacing any entry there,
        without an exit observer. `pid` is the new child's pid. */
    method RestartTimerFired(pid: Option<int>) returns (effect: LaunchEffect)
      requires Valid()
      modifies this
      ensures Valid()
      ensures settings == old(settings) && observers == old(observers)
      ensures old(timers) == [] ==> effect == NoEffect && unchanged(this)
      ensures old(timers) != [] ==>
        var t := old(timers)[0];
        && effect == Spawn(t.exe)
        && timers == old(timers)[1..]
        && running == old(running)[t.path := Child(old(nextId), pid)]
        && old(nextId) !in observers
        && restarted == old(restarted) + {old(nextId)}
        && statusLog == old(statusLog) + [StatusChange(t.path, RunningRestarted)]
        && nextId == old(nextId) + 1
    {
      if timers == [] {
        return NoEffect;
      }
      var t := timers[0];
      timers := timers[1..];
      var child := Child(nextId, pid);
      nextId := nextId + 1;
      running := running[t.path := child];
      restarted := restarted + {child.id};
      statusLog := statusLog + [StatusChange(t.path, RunningRestarted)];
      effect := Spawn(t.exe);
    }

    /** `kill-app`: kills through the tracked pid and through the configured
        process name, each when available, and reports whether either applied.
        It changes neither map: removal is left to the exit observer. */
    method Kill(path: string) returns (killed: bool, actions: seq<KillAction>)
      ensures killed <==> (path in running && PidKnown(running[path].pid)) || HasProcessName(Lookup(settings, AppName(path)))
      ensures actions ==
        (if path in running && PidKnown(running[path].pid) then [TreeKill(running[path].pid.value)] else []) +
        (if HasProcessName(Lookup(settings, AppName(path))) then [TaskKill(Lookup(settings, AppName(path)).processName.value)] else [])
    {
      killed := false;
      actions := [];
      if path in running && PidKnown(running[path].pid) {
        actions := actions + [TreeKill(running[path].pid.value)];
        killed := true;
      }
      var appSettings := Lookup(settings, AppName(path));
      if HasProcessName(appSettings) {
        actions := actions + [TaskKill(appSettings.processName.value)];
        killed := true;
      }
    }
  }

  /** A crash of an auto-restarted app: launch, crash, the timer fires, the
      restarted child crashes too. Nothing removes the restarted child's
      entry, so a later launch of the same path is refused. */
  method RestartedAppStaysTracked(path: string, code: int, firstPid: Option<int>, secondPid: Option<int>)
    returns (reply: LaunchReply, stillTracked: bool)
    requires IsExePath(path) && code != 0
    ensures stillTracked && reply == ALREADY_RUNNING
  {
    var supervisor := new Supervisor(map[AppName(path) := Settings(None, Some(true), None, None)]);
    var first, effect := supervisor.Launch(path, None, firstPid);
    assert effect == Spawn(path) && 0 in supervisor.observers;
    supervisor.ChildExited(0, Some(code));
    assert |supervisor.timers| == 1;
    effect := supervisor.RestartTimerFired(secondPid);
    assert effect == Spawn(path);
    supervisor.ChildExited(1, Some(code));
    stillTracked := path in supervisor.running;
    reply, effect := supervisor.Launch(path, None, firstPid);
  }

  /** What `save-app-orders` leaves in the settings: one update per listed
      name, in list order, setting `order` to the position plus one. */
  function Reordered(m: map<string, Settings>, names: seq<string>): map<string, Settings>
    decreases |names|
  {
    if names == [] then m
    else
      var before := Reordered(m, names[..|names| - 1]);
      var last := names[|names| - 1];
      before[last := Lookup(before, last).(order := Some(|names|))]
  }

  /** Names not in the list keep their settings entry, or lack of one. */
  lemma {:induction false} ReorderedUntouched(m: map<string, Settings>, names: seq<string>, n: string)
    requires n !in names
    ensures (n in Reordered(m, names)) == (n in m)
    ensures n in m ==> Reordered(m, names)[n] == m[n]
    decreases |names|
  {
    if names != [] {
      assert n !in names[..|names| - 1];
      ReorderedUntouched(m, names[..|names| - 1], n);
    }
  }

  /** A listed name's fields other than `order` are those it had before. */
  lemma {:induction false} ReorderedKeepsFields(m: map<string, Settings>, names: seq<string>, n: string)
    requires n in names
    ensures n in Reordered(m, names)
    ensures Reordered(m, names)[n].(order := None) == Lookup(m, n).(order := None)
    decreases |names|
  {
    var init := names[..|names| - 1];
    if n in init {
      ReorderedKeepsFields(m, init, n);
    } else {
      ReorderedUntouched(m, init, n);
    }
  }

  /** A listed name's `order` is one more than its position in the list
      (its last position, should it be listed twice). */
  lemma {:induction false} ReorderedOrder(m: map<string, Settings>, names: seq<string>, i: nat)
    requires i < |names| && names[i] !in names[i + 1..]
    ensures names[i] in Reordered(m, names)
    ensures Reordered(m, names)[names[i]].order == Some(i + 1)
    decreases |names|
  {
    if i < |names| - 1 {
      var init := names[..|names| - 1];
      assert names[|names| - 1] in names[i + 1..];
      assert init[i + 1..] == names[i + 1..|names| - 1];
      ReorderedOrder(m, init, i);
    }
  }
}
