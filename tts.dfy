/** Speech output (main/tts.py): canned acknowledgements go to the local PowerShell
    voice, everything else to the Azure voice when it is configured, with a fall back
    to the local voice when Azure cancels or fails. */
module Speech {
  import opened Text

  /** The default the key takes when `AZURE_SPEECH_KEY` is not set. */
  const PlaceholderKey := "YOUR_KEY"

  /** Acknowledgements that always use the local voice. */
  const QuickResponses: seq<string> := [
    "yes sir",
    "yes sir?",
    "yes sir, how can i help you?",
    "goodbye sir",
    "one moment sir",
    "certainly sir",
    "right away sir",
    "understood sir"
  ]

  /** Seconds the local voice subprocess may run. */
  const LocalTimeoutSeconds := 5

  /** What `speech_synthesizer.speak_text` can end in. */
  datatype SynthesisOutcome =
    | Completed      // ResultReason.SynthesizingAudioCompleted
    | Canceled       // ResultReason.Canceled
    | OtherReason    // any other result reason
    | Raised         // the call raised an exception

  /** One call into a speech engine. */
  datatype SpeechCall =
    | LocalCommand(argv: seq<string>, timeoutSeconds: nat)
    | AzureSynthesis(text: string)

  /** `AZURE_SPEECH_KEY` as read from the environment, with its default. */
  function SpeechKey(env: Option<string>): string
  {
    match env
    case None => PlaceholderKey
    case Some(k) => k
  }

  /** `azure_available` after module initialisation: a real key is configured and the
      synthesizer could be built. */
  function AzureAvailable(env: Option<string>, synthesizerBuilds: bool): (r: bool)
    ensures r <==> env.Some? && env.value != "" && env.value != PlaceholderKey && synthesizerBuilds
  {
    var key := SpeechKey(env);
    key != "" && key != PlaceholderKey && synthesizerBuilds
  }

  /** `text.lower().strip() in QUICK_RESPONSES` */
  predicate IsQuick(text: string) {
    InList(Strip(Lower(text)), QuickResponses)
  }

  // PowerShell's reading of a double-quoted string literal, from just after the
  // opening quote. A backtick escapes the next character, two quote characters in a
  // row stand for one quote, an unescaped `$` starts a variable or subexpression,
  // and any other quote character closes the literal. The reader over-approximates
  // expansion: PowerShell keeps a `$` literal when no name character, `{` or `(`
  // follows it (as in "$ 5"), but here every unescaped `$` counts as an expansion.

  /** The four characters PowerShell takes as a double quote. */
  predicate IsPsQuote(c: char) {
    c == '"' || c == '“' || c == '”' || c == '„'
  }

  /** The value of the escape sequence "`c". */
  function EscapedChar(c: char): char
  {
    match c
    case '0' => '\0'
    case 'a' => '\U{7}'
    case 'b' => '\U{8}'
    case 'f' => '\U{c}'
    case 'n' => '\n'
    case 'r' => '\r'
    case 't' => '\t'
    case 'v' => '\U{b}'
    case _ => c
  }

  datatype PsRead =
    | Literal(value: string, close: nat)  // the literal's value and its closing quote's index
    | Expansion(at: nat)                  // an unescaped `$` at this index
    | Unterminated

  function Shift(c: char, n: nat, r: PsRead): PsRead
  {
    match r
    case Literal(v, e) => Literal([c] + v, e + n)
    case Expansion(at) => Expansion(at + n)
    case Unterminated => Unterminated
  }

  /** How PowerShell reads the body of a double-quoted literal. */
  function ReadPs(b: string): PsRead
    decreases |b|
  {
    if b == [] then Unterminated
    else if b[0] == '`' then
      if |b| < 2 then Unterminated else Shift(EscapedChar(b[1]), 2, ReadPs(b[2..]))
    else if IsPsQuote(b[0]) then
      if |b| >= 2 && IsPsQuote(b[1]) then Shift(b[0], 2, ReadPs(b[2..])) else Literal("", 0)
    else if b[0] == '$' then Expansion(0)
    else Shift(b[0], 1, ReadPs(b[1..]))
  }

  /** `text.replace('"', '`"')`, the escaping the local voice applies. */
  function EscapeQuotes(text: string): (r: string)
    ensures |r| == |text| + Count(text, '"')
  {
    ReplaceChar(text, '"', "`\"")
  }

  /** Whether PowerShell needs a backtick before `c` inside a double-quoted literal. */
  predicate NeedsEscape(c: char) {
    c == '`' || c == '$' || IsPsQuote(c)
  }

  /** Escaping that keeps any text inside the literal: every backtick, dollar sign and
      quote character gets a backtick in front. */
  function EscapeForPowerShell(text: string): (r: string)
    ensures |r| >= |text|
  {
    if text == [] then []
    else (if NeedsEscape(text[0]) then ['`', text[0]] else [text[0]]) + EscapeForPowerShell(text[1..])
  }

  /** What the literal reads as when `$speak.Speak("` is followed by an escaped text and
      then `")`: with the full escaping, exactly the text, closed right after it. */
  lemma {:induction false} EscapeForPowerShellReadsBack(text: string, rest: string)
    requires |rest| >= 2 && rest[0] == '"' && !IsPsQuote(rest[1])
    ensures ReadPs(EscapeForPowerShell(text) + rest) == Literal(text, |EscapeForPowerShell(text)|)
    decreases |text|
  {
    var e := EscapeForPowerShell(text);
    if text != [] {
      var c := text[0];
      var tail := EscapeForPowerShell(text[1..]);
      EscapeForPowerShellReadsBack(text[1..], rest);
      assert text == [c] + text[1..];
      if NeedsEscape(c) {
        assert e + rest == ['`', c] + (tail + rest);
        assert (e + rest)[2..] == tail + rest;
      } else {
        assert e + rest == [c] + (tail + rest);
        assert (e + rest)[1..] == tail + rest;
      }
    }
  }

  /** With the quote-only escaping, a dollar sign still starts an expansion: "costs $5"
      is not read back as itself. */
  lemma EscapeQuotesLetsDollarThrough()
    ensures ReadPs(EscapeQuotes("costs $5") + "\")\n") == Expansion(6)
  {
    var p := "costs ";
    var b := "$5\")\n";
    assert p + "$5" == "costs $5";
    ReplaceCharAbsent(p + "$5", '"', "`\"");
    assert b[0] == '$';
    assert ReadPs(b) == Expansion(0);
    assert forall k :: 0 <= k < |p| ==> !NeedsEscape(p[k]);
    PlainPrefixKeepsExpansion(p, b);
    assert p + "$5" + "\")\n" == p + b;
  }

  /** Characters PowerShell reads as themselves in front of an expansion shift it. */
  lemma {:induction false} PlainPrefixKeepsExpansion(p: string, b: string)
    requires forall k :: 0 <= k < |p| ==> !NeedsEscape(p[k])
    requires ReadPs(b).Expansion?
    ensures ReadPs(p + b) == Expansion(|p| + ReadPs(b).at)
    decreases |p|
  {
    if p != [] {
      PlainPrefixKeepsExpansion(p[1..], b);
      assert (p + b)[0] == p[0];
      assert (p + b)[1..] == p[1..] + b;
    } else {
      assert p + b == b;
    }
  }

  /** With the quote-only escaping, a typographic closing quote ends the literal early:
      the rest of the text is read as PowerShell code. */
  lemma EscapeQuotesLetsSmartQuoteThrough()
    ensures ReadPs(EscapeQuotes("”; x") + "\")\n") == Literal("", 0)
  {
    var t := "”; x";
    assert EscapeQuotes(t) == t by {
      ReplaceCharAbsent(t, '"', "`\"");
    }
    var b := t + "\")\n";
    assert ReadPs(b) == Literal("", 0) by {
      assert b[0] == '”' && b[1] == ';';
    }
  }

  /** The PowerShell script `speak_local` runs for `text`. */
  const ScriptHead := "\nAdd-Type -AssemblyName System.Speech\n$speak = New-Object System.Speech.Synthesis.SpeechSynthesizer\n$speak.Rate = 0\n$speak.Volume = 100\n$speak.Speak(\""
  const ScriptTail := "\")\n"

  function LocalScript(text: string): (r: string)
    ensures |r| >= |ScriptHead| && r[..|ScriptHead|] == ScriptHead
    ensures r[|ScriptHead|..] == EscapeQuotes(text) + ScriptTail
  {
    ScriptHead + EscapeQuotes(text) + ScriptTail
  }

  /** On a text whose only special character is the plain double quote, the quote-only
      escaping is the full escaping. */
  lemma {:induction false} EscapeQuotesIsFullOnPlainText(text: string)
    requires forall k :: 0 <= k < |text| && NeedsEscape(text[k]) ==> text[k] == '"'
    ensures EscapeQuotes(text) == EscapeForPowerShell(text)
    decreases |text|
  {
    if text != [] {
      EscapeQuotesIsFullOnPlainText(text[1..]);
      assert forall k :: 0 <= k < |text[1..]| && NeedsEscape(text[1..][k]) ==> text[1..][k] == '"' by {
        forall k | 0 <= k < |text[1..]| && NeedsEscape(text[1..][k])
          ensures text[1..][k] == '"'
        {
          assert text[1..][k] == text[k + 1];
        }
      }
    }
  }

  /** The script as written speaks the text literally when the text holds no backtick,
      no dollar sign and no typographic quote. */
  lemma LocalScriptSpeaksPlainText(text: string)
    requires forall k :: 0 <= k < |text| && NeedsEscape(text[k]) ==> text[k] == '"'
    ensures ReadPs(LocalScript(text)[|ScriptHead|..]) == Literal(text, |EscapeQuotes(text)|)
  {
    EscapeQuotesIsFullOnPlainText(text);
    EscapeForPowerShellReadsBack(text, ScriptTail);
  }

  /** The script as written does not speak "costs $5": PowerShell expands `$5`. */
  lemma LocalScriptExpandsDollar()
    ensures ReadPs(LocalScript("costs $5")[|ScriptHead|..]) == Expansion(6)
  {
    EscapeQuotesLetsDollarThrough();
  }

  /** The script with the full escaping of `EscapeForPowerShell`. */
  function CorrectedLocalScript(text: string): (r: string)
    ensures |r| >= |ScriptHead| && r[..|ScriptHead|] == ScriptHead
    ensures r[|ScriptHead|..] == EscapeForPowerShell(text) + ScriptTail
  {
    ScriptHead + EscapeForPowerShell(text) + ScriptTail
  }

  /** The literal handed to `$speak.Speak` by the corrected script reads back as the
      text to speak, whatever the text. */
  lemma CorrectedScriptSpeaksText(text: string)
    ensures ReadPs(CorrectedLocalScript(text)[|ScriptHead|..]) == Literal(text, |EscapeForPowerShell(text)|)
  {
    EscapeForPowerShellReadsBack(text, ScriptTail);
  }

  /** The subprocess call `speak_local` makes. */
  function LocalCall(text: string): (r: SpeechCall)
    ensures r.LocalCommand? && r.timeoutSeconds == LocalTimeoutSeconds
    ensures |r.argv| == 3 && r.argv[0] == "powershell" && r.argv[2] == LocalScript(text)
  {
    LocalCommand(["powershell", "-Command", LocalScript(text)], LocalTimeoutSeconds)
  }

  /** The calls `speak_text` makes, given whether Azure is usable and how the Azure call
      ends (the outcome is ignored when Azure is not called). */
  function SpeechPlan(text: string, azureUsable: bool, outcome: SynthesisOutcome): (r: seq<SpeechCall>)
    ensures 1 <= |r| <= 2
    ensures IsQuick(text) || !azureUsable ==> r == [LocalCall(text)]
    ensures !IsQuick(text) && azureUsable ==>
              r[0] == AzureSynthesis(text) && (|r| == 2 <==> outcome == Canceled || outcome == Raised)
    ensures |r| == 2 ==> r[1] == LocalCall(text)
  {
    if IsQuick(text) then [LocalCall(text)]
    else if azureUsable then
      match outcome
      case Completed => [AzureSynthesis(text)]
      case Canceled => [AzureSynthesis(text), LocalCall(text)]
      case OtherReason => [AzureSynthesis(text)]
      case Raised => [AzureSynthesis(text), LocalCall(text)]
    else [LocalCall(text)]
  }

  /** A quick acknowledgement is spoken locally only, whatever the state of Azure. */
  lemma QuickIsLocalOnly(text: string, azureUsable: bool, outcome: SynthesisOutcome)
    requires IsQuick(text)
    ensures SpeechPlan(text, azureUsable, outcome) == [LocalCall(text)]
  {
  }

  /** Azure is called only for a text that is not quick, and only when it is usable;
      then it is called first, with the whole text. */
  lemma AzureOnlyWhenUsable(text: string, azureUsable: bool, outcome: SynthesisOutcome)
    ensures var plan := SpeechPlan(text, azureUsable, outcome);
      (exists k :: 0 <= k < |plan| && plan[k].AzureSynthesis?) <==> (!IsQuick(text) && azureUsable)
    ensures var plan := SpeechPlan(text, azureUsable, outcome);
      !IsQuick(text) && azureUsable ==> plan[0] == AzureSynthesis(text)
  {
    var plan := SpeechPlan(text, azureUsable, outcome);
    if !IsQuick(text) && azureUsable {
      assert plan[0].AzureSynthesis?;
    }
  }

  /** The local voice is used, with the original text, exactly when Azure is not tried,
      or when it cancels or raises; completed and other results make no local call. */
  lemma LocalFallback(text: string, azureUsable: bool, outcome: SynthesisOutcome)
    ensures var plan := SpeechPlan(text, azureUsable, outcome);
      (LocalCall(text) in plan) <==>
        (IsQuick(text) || !azureUsable || outcome == Canceled || outcome == Raised)
    ensures var plan := SpeechPlan(text, azureUsable, outcome);
      forall k :: 0 <= k < |plan| && plan[k].LocalCommand? ==> plan[k] == LocalCall(text)
  {
  }

  /** Module state of main/tts.py: set once at import time, then only the record of
      speech calls grows. */
  class TextToSpeech {
    var azureAvailable: bool
    var synthesizerReady: bool   // `speech_synthesizer` is not None
    var calls: seq<SpeechCall>

    ghost predicate Valid()
      reads this
    {
      azureAvailable == synthesizerReady
    }

    /** Module initialisation: `synthesizerBuilds` says whether building the Azure
        configuration and synthesizer succeeds. */
    constructor(env: Option<string>, synthesizerBuilds: bool)
      ensures Valid()
      ensures azureAvailable == AzureAvailable(env, synthesizerBuilds)
      ensures calls == []
    {
      var key := SpeechKey(env);
      if key != "" && key != PlaceholderKey {
        if synthesizerBuilds {
          azureAvailable := true;
          synthesizerReady := true;
        } else {
          azureAvailable := false;
          synthesizerReady := false;
        }
      } else {
        azureAvailable := false;
        synthesizerReady := false;
      }
      calls := [];
    }

    /** `speak_local(text)`: runs the PowerShell voice; whatever the subprocess does
        (finishes, times out, fails to start) is caught, so the call always returns. */
    method SpeakLocal(text: string)
      modifies this`calls
      ensures calls == old(calls) + [LocalCall(text)]
    {
      calls := calls + [LocalCall(text)];
    }

    /** `speak_text(text)`; `outcome` is what the Azure call ends in if it is made. */
    method SpeakText(text: string, outcome: SynthesisOutcome)
      requires Valid()
      modifies this`calls
      ensures calls == old(calls) + SpeechPlan(text, azureAvailable, outcome)
    {
      if IsQuick(text) {
        SpeakLocal(text);
        return;
      }
      if azureAvailable && synthesizerReady {
        calls := calls + [AzureSynthesis(text)];
        match outcome {
          case Completed =>
          case Canceled => SpeakLocal(text);
          case OtherReason =>
          case Raised => SpeakLocal(text);
        }
      } else {
        SpeakLocal(text);
      }
    }
  }
}
