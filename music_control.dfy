/** Music control (tools/music_control.py): a Spotify search page, playback actions
    through per-platform tables, and the music volume. Opening the browser, pressing a
    media key and running a command are commands the `runs` parameter says succeed or
    raise. */
module MusicControl {
  import opened Text
  import opened Outcomes
  import opened SystemControl

  const SearchPrefix := "https://open.spotify.com/search/"

  /** `song_name.replace(' ', '%20')` */
  function EscapeSpaces(song: string): (r: string)
    ensures ' ' !in r
    ensures |r| == |song| + 2 * Count(song, ' ')
  {
    ReplaceCharRemoves(song, ' ', "%20");
    ReplaceChar(song, ' ', "%20")
  }

  /** How the search page reads its path back: each `%20` is a space. */
  function DecodeSpaces(s: string): string
  {
    if s == [] then []
    else if |s| >= 3 && s[..3] == "%20" then [' '] + DecodeSpaces(s[3..])
    else [s[0]] + DecodeSpaces(s[1..])
  }

  /** The song name comes back out of the URL whenever it has no `%` of its own. */
  lemma {:induction false} EscapeSpacesDecodes(song: string)
    requires '%' !in song
    ensures DecodeSpaces(EscapeSpaces(song)) == song
  {
    if song != [] {
      EscapeSpacesDecodes(song[1..]);
      var rest := ReplaceChar(song[1..], ' ', "%20");
      if song[0] == ' ' {
        assert ReplaceChar(song, ' ', "%20") == "%20" + rest;
        assert ("%20" + rest)[3..] == rest;
        assert song == [' '] + song[1..];
      } else {
        var e := [song[0]] + rest;
        assert ReplaceChar(song, ' ', "%20") == e;
        assert e[0] != '%';
        assert e[1..] == rest;
        assert song == [song[0]] + song[1..];
      }
    }
  }

  /** `play_spotify_song(song_name)` */
  function PlaySpotifySong(song: string, runs: Command -> bool): (r: Effect)
    ensures r.command == Some(OpenUrl(SearchPrefix + EscapeSpaces(song)))
    ensures runs(r.command.value) <==> r.reply == Says("🎵 Opened Spotify search for '" + song + "'")
    ensures !runs(r.command.value) <==> r.reply == Failed("❌ Could not open Spotify: ")
  {
    Attempt(OpenUrl(SearchPrefix + EscapeSpaces(song)), runs,
            "🎵 Opened Spotify search for '" + song + "'", "❌ Could not open Spotify: ")
  }

  /** The media key pressed on Windows for an action. */
  function WindowsKey(action: string): Option<string>
  {
    match action
    case "pause" => Some("playpause")
    case "play" => Some("playpause")
    case "next" => Some("nexttrack")
    case "previous" => Some("prevtrack")
    case "stop" => Some("stop")
    case _ => None
  }

  /** `scripts`, the AppleScript sent to Spotify on macOS. */
  function AppleScript(action: string): Option<string>
  {
    match action
    case "play" => Some("tell application \"Spotify\" to play")
    case "pause" => Some("tell application \"Spotify\" to pause")
    case "next" => Some("tell application \"Spotify\" to next track")
    case "previous" => Some("tell application \"Spotify\" to previous track")
    case _ => None
  }

  /** `dbus_commands`, the MPRIS method called on Linux. */
  function DbusMethod(action: string): Option<string>
  {
    match action
    case "play" => Some("Play")
    case "pause" => Some("Pause")
    case "next" => Some("Next")
    case "previous" => Some("Previous")
    case _ => None
  }

  /** The three tables know the same actions, except that `stop` is Windows' alone;
      play and pause share one key there. */
  lemma ActionTablesAgree(action: string)
    ensures AppleScript(action).Some? <==> DbusMethod(action).Some?
    ensures WindowsKey(action).Some? <==> AppleScript(action).Some? || action == "stop"
    ensures AppleScript("stop").None? && DbusMethod("stop").None?
    ensures WindowsKey("play") == WindowsKey("pause") == Some("playpause")
  {
  }

  /** What `control_music_playback` replies on Windows once the key is pressed. */
  function WindowsReply(action: string): string
  {
    if action == "next" then "🎵 Skipped to next track"
    else if action == "previous" then "🎵 Back to previous track"
    else if action == "stop" then "🎵 Music stopped"
    else "🎵 " + Title(action) + " command sent"
  }

  const PlaybackFailure := "❌ Could not control music: "

  /** `control_music_playback(action)`: the action is lower-cased first; on Windows
      `pyautogui` is imported before the action is looked at, so when it does not import
      (`pyautoguiImports` false) every action, known or not, gets the failure reply. */
  function ControlMusicPlayback(action: string, system: string, pyautoguiImports: bool, runs: Command -> bool): (r: Effect)
    ensures !Supported(system) ==> r == Refusal("❌ Music control not supported on " + system)
    ensures system == "Windows" && !pyautoguiImports ==> r == Effect(None, Failed(PlaybackFailure))
    ensures system == "Windows" ==>
              (r.command.Some? <==> pyautoguiImports && WindowsKey(Lower(action)).Some?)
              && (r.command.Some? ==> r.command.value == PressKey(WindowsKey(Lower(action)).value))
    ensures system == "Darwin" ==>
              (r.command.Some? <==> AppleScript(Lower(action)).Some?)
              && (r.command.Some? ==> r.command.value == Spawn(["osascript", "-e", AppleScript(Lower(action)).value]))
    ensures system == "Linux" ==>
              (r.command.Some? <==> DbusMethod(Lower(action)).Some?)
              && (r.command.Some? ==> r.command.value == Spawn(["dbus-send", "--print-reply",
                    "--dest=org.mpris.MediaPlayer2.spotify", "/org/mpris/MediaPlayer2",
                    "org.mpris.MediaPlayer2.Player." + DbusMethod(Lower(action)).value]))
    ensures r.command.Some? && runs(r.command.value) ==>
              r.reply == Says(if system == "Windows" then WindowsReply(Lower(action))
                              else if system == "Darwin" then "🎵 " + Title(Lower(action)) + " command sent to Spotify"
                              else "🎵 " + Title(Lower(action)) + " command sent")
    ensures Supported(system) && !(system == "Windows" && !pyautoguiImports) && r.command.None? ==>
              r.reply == Says("❌ Unknown action: " + Lower(action))
    ensures r.command.Some? ==> (r.reply.Failed? <==> !runs(r.command.value))
    ensures r.reply.Failed? ==> r.reply.prefix == PlaybackFailure
  {
    var a := Lower(action);
    if system == "Windows" then
      if !pyautoguiImports then Effect(None, Failed(PlaybackFailure))
      else match WindowsKey(a)
      case None => Refusal("❌ Unknown action: " + a)
      case Some(key) => Attempt(PressKey(key), runs, WindowsReply(a), PlaybackFailure)
    else if system == "Darwin" then
      match AppleScript(a)
      case None => Refusal("❌ Unknown action: " + a)
      case Some(script) =>
        Attempt(Spawn(["osascript", "-e", script]), runs, "🎵 " + Title(a) + " command sent to Spotify", PlaybackFailure)
    else if system == "Linux" then
      match DbusMethod(a)
      case None => Refusal("❌ Unknown action: " + a)
      case Some(m) =>
        Attempt(Spawn(["dbus-send", "--print-reply", "--dest=org.mpris.MediaPlayer2.spotify",
                       "/org/mpris/MediaPlayer2", "org.mpris.MediaPlayer2.Player." + m]),
                runs, "🎵 " + Title(a) + " command sent", PlaybackFailure)
    else Refusal("❌ Music control not supported on " + system)
  }

  /** The case of the action does not matter. */
  lemma PlaybackIgnoresCase(action: string, system: string, pyautoguiImports: bool, runs: Command -> bool)
    ensures ControlMusicPlayback(action, system, pyautoguiImports, runs)
         == ControlMusicPlayback(Lower(action), system, pyautoguiImports, runs)
  {
    LowerIdempotent(action);
  }

  /** `stop` is understood on Windows only. */
  lemma StopOnlyOnWindows(system: string, pyautoguiImports: bool, runs: Command -> bool)
    ensures ControlMusicPlayback("stop", "Windows", true, runs).command == Some(PressKey("stop"))
    ensures system == "Darwin" || system == "Linux" ==>
              ControlMusicPlayback("stop", system, pyautoguiImports, runs) == Refusal("❌ Unknown action: stop")
  {
    assert Lower("stop") == "stop";
  }

  /** `set_music_volume(volume_percent)`: out-of-range values are refused before the
      platform is looked at; off macOS the system volume tool answers. */
  function SetMusicVolume(volume: int, system: string, runs: Command -> bool): (r: Effect)
    ensures !(0 <= volume <= 100) ==> r == Refusal("❌ Volume must be between 0 and 100")
    ensures 0 <= volume <= 100 && system != "Darwin" ==> r == SetVolume(volume, system, runs)
    ensures 0 <= volume <= 100 && system == "Darwin" ==>
              r.command == Some(Spawn(["osascript", "-e", "tell application \"Spotify\" to set sound volume to " + IntToString(volume)]))
              && (runs(r.command.value) <==> r.reply == Says("🎵 Spotify volume set to " + IntToString(volume) + "%"))
              && (!runs(r.command.value) <==> r.reply == Failed("❌ Could not set volume: "))
  {
    if !(0 <= volume <= 100) then Refusal("❌ Volume must be between 0 and 100")
    else if system == "Darwin" then
      Attempt(Spawn(["osascript", "-e", "tell application \"Spotify\" to set sound volume to " + IntToString(volume)]),
              runs, "🎵 Spotify volume set to " + IntToString(volume) + "%", "❌ Could not set volume: ")
    else SetVolume(volume, system, runs)
  }

  /** An in-range volume passed on to the system tool is used as given. */
  lemma MusicVolumeNotClamped(volume: int, system: string, runs: Command -> bool)
    requires 0 <= volume <= 100 && system != "Darwin" && Supported(system)
    requires SetMusicVolume(volume, system, runs).reply.Says?
    ensures SetMusicVolume(volume, system, runs).reply.text == "Volume set to " + IntToString(volume) + "%"
  {
  }
}
