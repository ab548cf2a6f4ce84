/** System control (tools/system_control.py): each tool picks a command for the
    platform `platform.system()` names, starts it and confirms. Whether a command can be
    started is the parameter `runs`; a command that cannot be started raises, and the
    tool replies with its failure prefix followed by the error. */
module SystemControl {
  import opened Text
  import opened Outcomes

  /** What a tool asks of the machine: a process, a media key, or a page in the
      browser. */
  datatype Command = Spawn(argv: seq<string>) | PressKey(key: string) | OpenUrl(url: string)

  /** The command a tool attempted, if any, and its reply. */
  datatype Effect = Effect(command: Option<Command>, reply: Answer)

  /** Attempt `c`: `ok` when it starts, the failure prefix when it raises. */
  function Attempt(c: Command, runs: Command -> bool, ok: string, failure: string): (r: Effect)
    ensures r.command == Some(c)
    ensures runs(c) <==> r.reply == Says(ok)
    ensures !runs(c) <==> r.reply == Failed(failure)
  {
    Effect(Some(c), if runs(c) then Says(ok) else Failed(failure))
  }

  /** A reply given without running anything. */
  function Refusal(reply: string): (r: Effect)
    ensures r.command.None? && r.reply == Says(reply)
  {
    Effect(None, Says(reply))
  }

  predicate Supported(system: string) {
    system == "Windows" || system == "Darwin" || system == "Linux"
  }

  /** `max(0, min(100, level))` */
  function Clamp(level: int): (r: int)
    ensures 0 <= r <= 100
    ensures 0 <= level <= 100 ==> r == level
    ensures level < 0 ==> r == 0
    ensures level > 100 ==> r == 100
  {
    if level < 0 then 0 else if level > 100 then 100 else level
  }

  /** The PowerShell script `set_volume` runs on Windows: fifty volume-down presses, then
      `[math]::Round(level / 2)` volume-up presses. */
  function VolumeScript(level: int): string
  {
    "\n$obj = New-Object -ComObject WScript.Shell\n"
    + "for ($i=0; $i -lt 50; $i++) {\n"
    + "    $obj.SendKeys([char]174)  # Volume down key\n"
    + "}\n"
    + "$targetVolume = " + IntToString(level) + "\n"
    + "$steps = [math]::Round($targetVolume / 2)\n"
    + "for ($i=0; $i -lt $steps; $i++) {\n"
    + "    $obj.SendKeys([char]175)  # Volume up key\n"
    + "}\n"
  }

  /** `[math]::Round(level / 2)`: .NET rounds a half to the even neighbour. */
  function VolumeUpPresses(level: int): (n: int)
    requires 0 <= level <= 100
    ensures 0 <= n <= 50
  {
    if level % 2 == 0 then level / 2
    else if (level / 2) % 2 == 0 then level / 2
    else level / 2 + 1
  }

  /** Each key press moves the volume by 2 points, so after the fifty presses down the
      script leaves the volume within one point of the requested level. */
  lemma VolumeScriptLandsNearLevel(level: int)
    requires 0 <= level <= 100
    ensures level - 1 <= 2 * VolumeUpPresses(level) <= level + 1
    ensures level % 2 == 0 ==> 2 * VolumeUpPresses(level) == level
  {
  }

  /** `set_volume(level)`: the clamped level is used and reported. */
  function SetVolume(level: int, system: string, runs: Command -> bool): (r: Effect)
    ensures !Supported(system) ==> r == Refusal("Volume control not supported on " + system)
    ensures Supported(system) ==> r.command.Some? && r.command.value.Spawn?
    ensures Supported(system) ==>
              (r.reply.Says? <==> runs(r.command.value))
              && (r.reply.Says? ==> r.reply.text == "Volume set to " + IntToString(Clamp(level)) + "%")
              && (r.reply.Failed? ==> r.reply.prefix == "Failed to set volume: ")
  {
    var l := Clamp(level);
    var ok := "Volume set to " + IntToString(l) + "%";
    var failure := "Failed to set volume: ";
    if system == "Windows" then Attempt(Spawn(["powershell", "-Command", VolumeScript(l)]), runs, ok, failure)
    else if system == "Darwin" then Attempt(Spawn(["osascript", "-e", "set volume output volume " + IntToString(l)]), runs, ok, failure)
    else if system == "Linux" then Attempt(Spawn(["amixer", "set", "Master", IntToString(l) + "%"]), runs, ok, failure)
    else Refusal("Volume control not supported on " + system)
  }

  /** Every command `set_volume` issues carries the clamped level. */
  lemma SetVolumeUsesClampedLevel(level: int, system: string, runs: Command -> bool)
    ensures system == "Linux" ==> SetVolume(level, system, runs).command == Some(Spawn(["amixer", "set", "Master", IntToString(Clamp(level)) + "%"]))
    ensures system == "Darwin" ==> SetVolume(level, system, runs).command == Some(Spawn(["osascript", "-e", "set volume output volume " + IntToString(Clamp(level))]))
    ensures system == "Windows" ==> SetVolume(level, system, runs).command == Some(Spawn(["powershell", "-Command", VolumeScript(Clamp(level))]))
  {
  }

  /** How `subprocess.Popen` ends: the process starts, the program is missing
      (FileNotFoundError), or starting it raises some other error. */
  datatype Start = Started | NotFound | StartFailed

  const GnomeLock := Spawn(["gnome-screensaver-command", "-l"])
  const XdgLock := Spawn(["xdg-screensaver", "lock"])

  /** `lock_computer()`: on Linux a missing program moves on to the next lock command,
      while any other error starting one ends the tool with its failure reply. */
  function LockComputer(system: string, start: Command -> Start): (r: Effect)
    ensures !Supported(system) ==> r == Refusal("Lock not supported on " + system)
    ensures system == "Windows" || system == "Darwin" ==>
              r.command.Some? && (r.reply == Says("Computer locked") <==> start(r.command.value).Started?)
              && (r.reply != Says("Computer locked") ==> r.reply == Failed("Failed to lock computer: "))
    ensures system == "Linux" ==>
              (r.reply == Says("Computer locked") <==>
                 start(GnomeLock).Started? || (start(GnomeLock).NotFound? && start(XdgLock).Started?))
    ensures system == "Linux" ==>
              (r.reply == Failed("Failed to lock computer: ") <==>
                 start(GnomeLock).StartFailed? || (start(GnomeLock).NotFound? && start(XdgLock).StartFailed?))
    ensures system == "Linux" ==>
              (r.reply == Says("Could not find screen lock command") <==>
                 start(GnomeLock).NotFound? && start(XdgLock).NotFound?)
    ensures system == "Linux" && start(GnomeLock).NotFound? ==> r.command != Some(GnomeLock)
  {
    var failure := "Failed to lock computer: ";
    var runs := (c: Command) => start(c).Started?;
    if system == "Windows" then Attempt(Spawn(["rundll32.exe", "user32.dll,LockWorkStation"]), runs, "Computer locked", failure)
    else if system == "Darwin" then
      Attempt(Spawn(["/System/Library/CoreServices/Menu Extras/User.menu/Contents/Resources/CGSession", "-suspend"]),
              runs, "Computer locked", failure)
    else if system == "Linux" then
      match start(GnomeLock)
      case Started => Effect(Some(GnomeLock), Says("Computer locked"))
      case StartFailed => Effect(Some(GnomeLock), Failed(failure))
      case NotFound =>
        match start(XdgLock)
        case Started => Effect(Some(XdgLock), Says("Computer locked"))
        case StartFailed => Effect(Some(XdgLock), Failed(failure))
        case NotFound => Refusal("Could not find screen lock command")
    else Refusal("Lock not supported on " + system)
  }

  datatype Power = Shutdown | Restart

  /** The flag for `kind`: Windows' `shutdown` takes `/s` or `/r`, Unix's `-h` or `-r`. */
  function PowerFlag(kind: Power, windows: bool): string
  {
    match kind
    case Shutdown => if windows then "/s" else "-h"
    case Restart => if windows then "/r" else "-r"
  }

  function NowMessage(kind: Power): string
  {
    match kind
    case Shutdown => "Shutting down now..."
    case Restart => "Restarting now..."
  }

  function LaterMessage(kind: Power, minutes: int): string
  {
    match kind
    case Shutdown => "Computer will shut down in " + IntToString(minutes) + " minutes"
    case Restart => "Computer will restart in " + IntToString(minutes) + " minutes"
  }

  /** `shutdown_computer(minutes)` and `restart_computer(minutes)`. */
  function Schedule(kind: Power, minutes: int, system: string, runs: Command -> bool): (r: Effect)
    ensures !Supported(system) ==>
              r == Refusal((if kind == Shutdown then "Shutdown" else "Restart") + " not supported on " + system)
    ensures Supported(system) ==> r.command.Some? && (r.reply.Says? <==> runs(r.command.value))
    ensures Supported(system) && r.reply.Says? ==>
              r.reply.text == if minutes == 0 then NowMessage(kind) else LaterMessage(kind, minutes)
    ensures r.reply.Failed? ==>
              r.reply.prefix == if kind == Shutdown then "Failed to schedule shutdown: " else "Failed to schedule restart: "
  {
    var ok := if minutes == 0 then NowMessage(kind) else LaterMessage(kind, minutes);
    var failure := if kind == Shutdown then "Failed to schedule shutdown: " else "Failed to schedule restart: ";
    if system == "Windows" then
      Attempt(Spawn(["shutdown", PowerFlag(kind, true), "/t", IntToString(minutes * 60)]), runs, ok, failure)
    else if system == "Darwin" then
      Attempt(Spawn(["sudo", "shutdown", PowerFlag(kind, false), if minutes == 0 then "now" else "+" + IntToString(minutes)]),
              runs, ok, failure)
    else if system == "Linux" then
      Attempt(Spawn(["shutdown", PowerFlag(kind, false), if minutes == 0 then "now" else "+" + IntToString(minutes)]),
              runs, ok, failure)
    else Refusal((if kind == Shutdown then "Shutdown" else "Restart") + " not supported on " + system)
  }

  /** `shutdown_computer(minutes)` */
  function ShutdownComputer(minutes: int, system: string, runs: Command -> bool): (r: Effect)
    ensures !Supported(system) ==> r == Refusal("Shutdown not supported on " + system)
    ensures Supported(system) ==> r.command.Some? && (r.reply.Says? <==> runs(r.command.value))
    ensures Supported(system) && r.reply.Says? && minutes == 0 ==> r.reply.text == "Shutting down now..."
    ensures Supported(system) && r.reply.Says? && minutes != 0 ==>
              r.reply.text == "Computer will shut down in " + IntToString(minutes) + " minutes"
    ensures r.reply.Failed? ==> r.reply.prefix == "Failed to schedule shutdown: "
  {
    Schedule(Shutdown, minutes, system, runs)
  }

  /** `restart_computer(minutes)` */
  function RestartComputer(minutes: int, system: string, runs: Command -> bool): (r: Effect)
    ensures !Supported(system) ==> r == Refusal("Restart not supported on " + system)
    ensures Supported(system) ==> r.command.Some? && (r.reply.Says? <==> runs(r.command.value))
    ensures Supported(system) && r.reply.Says? && minutes == 0 ==> r.reply.text == "Restarting now..."
    ensures Supported(system) && r.reply.Says? && minutes != 0 ==>
              r.reply.text == "Computer will restart in " + IntToString(minutes) + " minutes"
    ensures r.reply.Failed? ==> r.reply.prefix == "Failed to schedule restart: "
  {
    Schedule(Restart, minutes, system, runs)
  }

  /** Windows is given the delay in seconds; the Unix commands get `now` for no delay and
      `+minutes` otherwise. */
  lemma ScheduleCommands(kind: Power, minutes: int, runs: Command -> bool)
    ensures Schedule(kind, minutes, "Windows", runs).command
            == Some(Spawn(["shutdown", PowerFlag(kind, true), "/t", IntToString(minutes * 60)]))
    ensures Schedule(kind, minutes, "Linux", runs).command
            == Some(Spawn(["shutdown", PowerFlag(kind, false), if minutes == 0 then "now" else "+" + IntToString(minutes)]))
  {
  }

  /** The reply says "now" exactly when there is no delay. */
  lemma NowIffNoDelay(kind: Power, minutes: int, system: string, runs: Command -> bool)
    requires Supported(system) && Schedule(kind, minutes, system, runs).reply.Says?
    ensures Schedule(kind, minutes, system, runs).reply.text == NowMessage(kind) <==> minutes == 0
  {
    var later := LaterMessage(kind, minutes);
    assert later[0] == 'C';
    assert NowMessage(kind)[0] != 'C';
  }

  /** `cancel_shutdown()` */
  function CancelShutdown(system: string, runs: Command -> bool): (r: Effect)
    ensures !Supported(system) ==> r == Refusal("Cancel not supported on " + system)
    ensures Supported(system) ==> r.command.Some? && (r.reply == Says("Shutdown cancelled") <==> runs(r.command.value))
  {
    if system == "Windows" then Attempt(Spawn(["shutdown", "/a"]), runs, "Shutdown cancelled", "Failed to cancel shutdown: ")
    else if system == "Darwin" || system == "Linux" then
      Attempt(Spawn(["sudo", "shutdown", "-c"]), runs, "Shutdown cancelled", "Failed to cancel shutdown: ")
    else Refusal("Cancel not supported on " + system)
  }
}
