/** Reminders and timers (tools/reminders.py): each tool checks its argument's bounds,
    then starts a background thread that sleeps and raises a notification, and confirms.
    The thread is modelled by what it will do; whether it could be started is a
    parameter. */
module Reminders {
  import opened Text

  /** A background thread: sleep `seconds`, then notify with `title` and `message`. */
  datatype Sleeper = Sleeper(seconds: int, title: string, message: string)

  /** A tool's outcome: refused before any thread exists, a thread started with the
      confirmation, or the reply `prefix` + the error when starting it raised. */
  datatype Launch = Refused(reply: string) | Launched(thread: Sleeper, reply: string) | LaunchFailed(prefix: string)

  /** `'s' if n != 1 else ''` */
  function Plural(n: int): (r: string)
    ensures r == "" <==> n == 1
    ensures r != "" ==> r == "s"
  {
    if n != 1 then "s" else ""
  }

  /** `set_reminder`: 1 to 1440 minutes. */
  function SetReminder(message: string, minutes: int, startOk: bool): (r: Launch)
    ensures r.Refused? <==> minutes < 1 || minutes > 1440
    ensures minutes < 1 ==> r == Refused("Reminder must be at least 1 minute")
    ensures minutes > 1440 ==> r == Refused("Reminder cannot be more than 24 hours")
    ensures r.Launched? <==> 1 <= minutes <= 1440 && startOk
    ensures r.Launched? ==> 60 <= r.thread.seconds <= 24 * 60 * 60 && r.thread.seconds == minutes * 60
                            && r.thread.message == message
  {
    if minutes < 1 then Refused("Reminder must be at least 1 minute")
    else if minutes > 1440 then Refused("Reminder cannot be more than 24 hours")
    else if !startOk then LaunchFailed("Failed to set reminder: ")
    else Launched(Sleeper(minutes * 60, "Jarvis Reminder", message),
                  "Reminder set: '" + message + "' in " + IntToString(minutes) + " minute" + Plural(minutes))
  }

  /** `set_timer`: 1 to 180 minutes, slept as `minutes * 60` seconds. */
  function SetTimer(minutes: int, timerLabel: string, startOk: bool): (r: Launch)
    ensures r.Refused? <==> minutes < 1 || minutes > 180
    ensures minutes < 1 ==> r == Refused("Timer must be at least 1 minute")
    ensures minutes > 180 ==> r == Refused("Timer cannot be more than 3 hours")
    ensures r.Launched? <==> 1 <= minutes <= 180 && startOk
    ensures r.Launched? ==> 60 <= r.thread.seconds <= 3 * 60 * 60 && r.thread.seconds == minutes * 60
                            && r.thread.message == timerLabel + " completed!"
  {
    if minutes < 1 then Refused("Timer must be at least 1 minute")
    else if minutes > 180 then Refused("Timer cannot be more than 3 hours")
    else if !startOk then LaunchFailed("Failed to set timer: ")
    else Launched(Sleeper(minutes * 60, "Jarvis Timer", timerLabel + " completed!"),
                  "Timer set for " + IntToString(minutes) + " minute" + Plural(minutes) + ": " + timerLabel)
  }

  /** `quick_timer`: 1 to 300 seconds, labelled `"{seconds}s timer"`. */
  function QuickTimer(seconds: int, startOk: bool): (r: Launch)
    ensures r.Refused? <==> seconds < 1 || seconds > 300
    ensures seconds < 1 ==> r == Refused("Timer must be at least 1 second")
    ensures seconds > 300 ==> r == Refused("For timers over 5 minutes, use set_timer with minutes")
    ensures r.Launched? <==> 1 <= seconds <= 300 && startOk
    ensures r.Launched? ==> 1 <= r.thread.seconds <= 300 && r.thread.seconds == seconds
                            && r.thread.message == IntToString(seconds) + "s timer completed!"
  {
    if seconds < 1 then Refused("Timer must be at least 1 second")
    else if seconds > 300 then Refused("For timers over 5 minutes, use set_timer with minutes")
    else if !startOk then LaunchFailed("Failed to set timer: ")
    else Launched(Sleeper(seconds, "Jarvis Timer", IntToString(seconds) + "s timer completed!"),
                  "Timer set for " + IntToString(seconds) + " second" + Plural(seconds))
  }

  /** The two timers meet without a gap: every wait from 1 second to 3 hours that is a
      whole number of seconds up to 300, or a whole number of minutes, can be set by one
      of them. */
  lemma TimersCoverUpToThreeHours(seconds: int)
    requires 1 <= seconds <= 3 * 60 * 60
    requires seconds <= 300 || seconds % 60 == 0
    ensures seconds <= 300 ==> QuickTimer(seconds, true).Launched? && QuickTimer(seconds, true).thread.seconds == seconds
    ensures seconds % 60 == 0 ==> SetTimer(seconds / 60, "Timer", true).Launched?
                                  && SetTimer(seconds / 60, "Timer", true).thread.seconds == seconds
  {
  }
}
