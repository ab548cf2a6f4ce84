/** The typed interaction loop (main/main_text.py, the loop of `main()`): every line is
    stripped, tested for an exact exit word and for a greeting, and otherwise handed to
    the agent (or, in simple mode, straight to the language model). Only when that yields
    an empty reply does the offline keyword chain run: memory, journal, time, screen
    reading, screenshot, matrix, network scan, help, and a fixed offline answer. */
module TextLoop {
  import opened Text
  import opened Outcomes
  import ResponseSelector
  import VoiceLoop

  const ExitWords: seq<string> := ["exit", "quit", "bye", "goodbye"]
  const GreetingWords: seq<string> := ["hello", "hi", "hey", "jarvis"]

  const Farewell := "Goodbye sir"
  const Greeting := "Yes sir, how can I help you?"
  const NoResponse := "I processed your request but didn't generate a response."
  const ProcessingError := "I encountered an error processing that request."
  const OfflineReply :=
    "LLM backend unavailable. Offline commands available: time, screenshot, read screen, matrix, network scan. Or start Colab for full features."
  const OfflineSpoken := "LLM backend unavailable"
  const HelpSpoken := "Showing available commands"

  /** Replies longer than this many characters of screen text are not read aloud. */
  const ReadAloudLimit := 200

  /** The tools the offline chain calls. */
  datatype ToolCall =
    | RememberFact(fact: string)
    | RecallMemory(query: string)
    | ProjectDay
    | TodaySummary
    | TimeIn(city: string)
    | ReadScreenText
    | Screenshot
    | MatrixMode
    | NetworkScan

  /** What one line does to the outside world, in order. */
  datatype Effect =
    | Shown(text: string)         // the "Jarvis:" line on the console
    | LocalSpeech(text: string)   // speak_local
    | VoicedSpeech(text: string)  // speak_text
    | ToolInvoked(call: ToolCall)
    | AgentInvoked(input: string)
    | LlmInvoked(input: string)

  /** Everything outside the loop a line may consult: the import-time flags, whether an
      agent executor was built, and what the tools, the agent and the model do. */
  datatype World = World(
    memoryAvailable: bool,
    journalAvailable: bool,
    agentMode: bool,
    tools: ToolCall -> ToolOutcome,
    agent: AgentOutcome,
    llm: LlmOutcome)

  /** How a tool's reply is voiced after it is shown. */
  datatype Voicing = SpeakReply | SayLocal(text: string) | SpeakIfShort

  predicate IsSpeech(e: Effect) { e.LocalSpeech? || e.VoicedSpeech? }

  function Spoken(v: Voicing, reply: string): (e: Effect)
    ensures IsSpeech(e)
  {
    match v
    case SpeakReply => VoicedSpeech(reply)
    case SayLocal(t) => LocalSpeech(t)
    case SpeakIfShort => if |reply| < ReadAloudLimit then VoicedSpeech(reply) else LocalSpeech("Text extracted sir")
  }

  /** Invoke a tool; show and voice its reply, or go on with `fallback` if it raises. */
  function TryTool(call: ToolCall, v: Voicing, w: World, fallback: seq<Effect>): seq<Effect>
  {
    [ToolInvoked(call)] +
      match w.tools(call)
      case Returned(r) => [Shown(r), Spoken(v, r)]
      case Raised(_) => fallback
  }

  const OfflineAnswer: seq<Effect> := [Shown(OfflineReply), LocalSpeech(OfflineSpoken)]

  /** The help text: the fixed offline commands, the memory and journal commands when
      those tools loaded, and the pointer to the full backend. */
  function HelpText(w: World): string
  {
    "Offline commands available:\n"
    + "• \"time\" or \"time in [city]\" - Get current time\n"
    + "• \"screenshot\" - Capture screen\n"
    + "• \"read screen\" or \"read text\" - OCR from latest screenshot\n"
    + "• \"matrix\" - Matrix mode effect\n"
    + "• \"network scan\" - Show network devices"
    + (if w.memoryAvailable then
         "\n• \"remember [fact]\" - Store memory" + "\n• \"recall [query]\" - Retrieve memory"
       else "")
    + (if w.journalAvailable then
         "\n• \"what day are we on\" - Project day" + "\n• \"what did we do today\" - Today's summary"
       else "")
    + "\n• Start Colab for full LLM features"
  }

  predicate AsksOcr(low: string) {
    (Contains(low, "read") || Contains(low, "extract") || Contains(low, "ocr"))
    && (Contains(low, "screen") || Contains(low, "text") || Contains(low, "image"))
  }

  predicate AsksScreenshot(low: string) {
    Contains(low, "screenshot") || (Contains(low, "capture") && Contains(low, "screen"))
  }

  predicate AsksNetworkScan(low: string) {
    Contains(low, "network") || Contains(low, "arp") || (Contains(low, "scan") && !Contains(low, "network"))
  }

  /** The keyword handlers after memory and journal (lines 487-573). They form one
      if/elif chain, so a handler whose tool raises skips the rest of the chain and
      ends in the fixed offline answer. */
  function KeywordStage(low: string, w: World): (r: seq<Effect>)
    ensures ReplyLast(r)
  {
    assert ReplyLast(OfflineAnswer);
    TryToolReplyLast(TimeIn(VoiceLoop.TimeCity(low)), SpeakReply, w, OfflineAnswer);
    TryToolReplyLast(ReadScreenText, SpeakIfShort, w, OfflineAnswer);
    TryToolReplyLast(Screenshot, SayLocal("Screenshot captured sir"), w, OfflineAnswer);
    TryToolReplyLast(MatrixMode, SayLocal("Matrix mode activated"), w, OfflineAnswer);
    TryToolReplyLast(NetworkScan, SayLocal("Network scan complete"), w, OfflineAnswer);
    assert ReplyLast([Shown(HelpText(w)), LocalSpeech(HelpSpoken)]);
    if Contains(low, "time") then TryTool(TimeIn(VoiceLoop.TimeCity(low)), SpeakReply, w, OfflineAnswer)
    else if AsksOcr(low) then TryTool(ReadScreenText, SpeakIfShort, w, OfflineAnswer)
    else if AsksScreenshot(low) then TryTool(Screenshot, SayLocal("Screenshot captured sir"), w, OfflineAnswer)
    else if Contains(low, "matrix") then TryTool(MatrixMode, SayLocal("Matrix mode activated"), w, OfflineAnswer)
    else if AsksNetworkScan(low) then TryTool(NetworkScan, SayLocal("Network scan complete"), w, OfflineAnswer)
    else if Contains(low, "help") || Contains(low, "commands") then [Shown(HelpText(w)), LocalSpeech(HelpSpoken)]
    else OfflineAnswer
  }

  /** The journal handlers (lines 467-485). */
  function JournalStage(low: string, w: World): (r: seq<Effect>)
    ensures ReplyLast(r)
  {
    var next := KeywordStage(low, w);
    TryToolReplyLast(ProjectDay, SpeakReply, w, next);
    TryToolReplyLast(TodaySummary, SpeakReply, w, next);
    if !w.journalAvailable then next
    else if Contains(low, "what day") && (Contains(low, "are we") || Contains(low, "is it")) then
      TryTool(ProjectDay, SpeakReply, w, next)
    else if Contains(low, "today") && (Contains(low, "what did") || Contains(low, "summary")) then
      TryTool(TodaySummary, SpeakReply, w, next)
    else next
  }

  /** The fact a "remember" line stores (line 440): the text after "remember" in the
      line as typed, although the keyword was found in the lower-cased line; a line that
      has the word only in another case raises IndexError there and stores nothing. */
  function Fact(u: string): Option<string>
  {
    match AfterFirst(u, "remember")
    case None => None
    case Some(rest) => if Strip(rest) == "" then None else Some(Strip(rest))
  }

  /** The fact with the cut made where the loop found the keyword, in the lower-cased
      line, keeping the case of the text after it. */
  function CaseBlindFact(u: string): (r: Option<string>)
    ensures r.Some? ==> Contains(Lower(u), "remember")
    ensures r.Some? ==> r.value != "" && Strip(r.value) == r.value
    ensures r.Some? ==> Contains(u, r.value)
  {
    match AfterFirstCaseBlind(u, "remember")
    case None => None
    case Some(rest) =>
      var f := Strip(rest);
      StripNoSpace(f);
      StripInside(rest);
      assert u == u[..|u| - |rest|] + rest + "";
      ContainsInContext(u[..|u| - |rest|], rest, "", f);
      if f == "" then None else Some(f)
  }

  /** The recall phrase the query is cut after, in the order the loop tests them. */
  function RecallPhrase(low: string): string
  {
    if Contains(low, "recall") then "recall"
    else if Contains(low, "do you remember") then "do you remember"
    else "what do you know about"
  }

  function Query(u: string, low: string): Option<string>
  {
    match AfterFirst(u, RecallPhrase(low))
    case None => None
    case Some(rest) => if Strip(rest) == "" then None else Some(Strip(rest))
  }

  predicate AsksRecall(low: string) {
    Contains(low, "recall") || Contains(low, "do you remember") || Contains(low, "what do you know about")
  }

  /** The memory handlers (lines 435-465): a remember or recall line with nothing after
      its keyword falls through to the journal. */
  function MemoryStage(u: string, low: string, w: World): (r: seq<Effect>)
    ensures ReplyLast(r)
    ensures !w.memoryAvailable ==> r == JournalStage(low, w)
  {
    var next := JournalStage(low, w);
    var f := Fact(u);
    var q := Query(u, low);
    TryToolReplyLast(RememberFact(if f.Some? then f.value else ""), SayLocal("Memory stored sir"), w, next);
    TryToolReplyLast(RecallMemory(if q.Some? then q.value else ""), SpeakReply, w, next);
    if !w.memoryAvailable then next
    else if Contains(low, "remember") then
      match Fact(u)
      case Some(f) => TryTool(RememberFact(f), SayLocal("Memory stored sir"), w, next)
      case None => next
    else if AsksRecall(low) then
      match Query(u, low)
      case Some(q) => TryTool(RecallMemory(q), SpeakReply, w, next)
      case None => next
    else next
  }

  /** The offline chain for the stripped line `u`. */
  function Offline(u: string, w: World): seq<Effect>
  {
    MemoryStage(u, Lower(u), w)
  }

  /** The backend's reply (lines 387-418): the agent's output, result or rendering with
      a fixed text when that is empty, or the model's content; a fixed apology when
      either raises. */
  function BackendReply(u: string, w: World): (r: string)
    ensures w.agentMode ==> r != ""
    ensures w.agentMode && w.agent.AgentReturned? && AgentReply(w.agent.result) != "" ==> r == AgentReply(w.agent.result)
    ensures r == "" <==> !w.agentMode && w.llm == LlmReturned("")
  {
    if w.agentMode then
      match w.agent
      case AgentReturned(r) => if AgentReply(r) == "" then NoResponse else AgentReply(r)
      case AgentRaised(_) => ProcessingError
    else
      match w.llm
      case LlmReturned(content) => content
      case LlmRaised(_) => ProcessingError
  }

  function BackendCall(u: string, w: World): Effect
  {
    if w.agentMode then AgentInvoked(u) else LlmInvoked(u)
  }

  /** A line that is neither an exit nor a greeting: the backend, then either its reply
      shown in full and its best sentence spoken, or the offline chain. */
  function Handle(u: string, w: World): (r: seq<Effect>)
    ensures ReplyLast(r)
    ensures r[0] == BackendCall(u, w)
  {
    var reply := BackendReply(u, w);
    ReplyLastPrefix(BackendCall(u, w), [Shown(reply), LocalSpeech(ResponseSelector.ChooseBestSentence(reply, []))]);
    ReplyLastPrefix(BackendCall(u, w), Offline(u, w));
    [BackendCall(u, w)] +
      if reply != "" then [Shown(reply), LocalSpeech(ResponseSelector.ChooseBestSentence(reply, []))]
      else Offline(u, w)
  }

  datatype Turn = Turn(effects: seq<Effect>, stop: bool)

  /** One pass of the loop for the typed line `raw`. */
  function TextStep(raw: string, w: World): (r: Turn)
    ensures r.stop <==> Strip(raw) != "" && Lower(Strip(raw)) in ExitWords
    ensures r.effects == [] <==> Strip(raw) == ""
    ensures r.stop ==> r.effects == [LocalSpeech(Farewell)]
    ensures !r.stop && r.effects != [] ==> ReplyLast(r.effects)
  {
    var u := Strip(raw);
    InListIff(Lower(u), ExitWords);
    if u == "" then Turn([], false)
    else if InList(Lower(u), ExitWords) then Turn([LocalSpeech(Farewell)], true)
    else if ContainsAny(Lower(u), GreetingWords) then Turn([Shown(Greeting), LocalSpeech(Greeting)], false)
    else Turn(Handle(u, w), false)
  }

  /** "please quit" is not an exit in the typed loop (the voice loop would stop). */
  lemma ExitWordInsideLineIsHandled(w: World)
    ensures !TextStep("please quit", w).stop && TextStep("please quit", w).effects != []
  {
    PleaseQuitIsNormal();
  }

  lemma PleaseQuitIsNormal()
    ensures Strip("please quit") == "please quit" && Lower("please quit") == "please quit"
  {
    assert Strip("please quit") == "please quit";
    assert Lower("please quit") == "please quit";
  }

  /** A blank line does nothing. */
  lemma BlankLineIgnored(raw: string, w: World)
    requires Strip(raw) == ""
    ensures TextStep(raw, w) == Turn([], false)
  {
  }

  /** A greeting is answered locally and never reaches the backend or a tool. */
  lemma GreetingBeforeBackend(raw: string, w: World)
    requires Strip(raw) != "" && !InList(Lower(Strip(raw)), ExitWords)
    requires ContainsAny(Lower(Strip(raw)), GreetingWords)
    ensures TextStep(raw, w) == Turn([Shown(Greeting), LocalSpeech(Greeting)], false)
  {
  }

  /** The reply is empty, and the offline chain runs, exactly when the loop is in simple
      mode and the model returns empty content; otherwise the reply is shown whole and its
      best sentence spoken. With an agent the offline chain never runs. */
  lemma OfflineOnlyOnEmptyContent(u: string, w: World)
    ensures BackendReply(u, w) == "" <==> !w.agentMode && w.llm == LlmReturned("")
    ensures BackendReply(u, w) == "" ==> Handle(u, w) == [LlmInvoked(u)] + Offline(u, w)
    ensures BackendReply(u, w) != "" ==>
      Handle(u, w) == [BackendCall(u, w), Shown(BackendReply(u, w)),
                       LocalSpeech(ResponseSelector.ChooseBestSentence(BackendReply(u, w), []))]
  {
    var reply := BackendReply(u, w);
    if reply == "" {
      assert !w.agentMode;
      assert BackendCall(u, w) == LlmInvoked(u);
    }
  }

  /** The shape of every handled line: some calls, then one shown reply, then one spoken
      line, and nothing shown or spoken before. */
  predicate ReplyLast(e: seq<Effect>) {
    |e| >= 2 && e[|e| - 2].Shown? && IsSpeech(e[|e| - 1])
    && forall k :: 0 <= k < |e| - 2 ==> !e[k].Shown? && !IsSpeech(e[k])
  }

  lemma ReplyLastPrefix(e: Effect, rest: seq<Effect>)
    requires !e.Shown? && !IsSpeech(e) && ReplyLast(rest)
    ensures ReplyLast([e] + rest)
  {
    var r := [e] + rest;
    forall k | 0 <= k < |r| - 2 ensures !r[k].Shown? && !IsSpeech(r[k]) {
      if k > 0 { assert r[k] == rest[k - 1]; }
    }
  }

  lemma TryToolReplyLast(call: ToolCall, v: Voicing, w: World, fallback: seq<Effect>)
    requires ReplyLast(fallback)
    ensures ReplyLast(TryTool(call, v, w, fallback))
  {
    match w.tools(call)
    case Returned(r) => ReplyLastPrefix(ToolInvoked(call), [Shown(r), Spoken(v, r)]);
    case Raised(_) => ReplyLastPrefix(ToolInvoked(call), fallback);
  }

  /** A time question whose tool raises gets the fixed offline answer: the later
      handlers, help included, are never tried. */
  lemma TimeFailureEndsChain(low: string, w: World)
    requires Contains(low, "time") && w.tools(TimeIn(VoiceLoop.TimeCity(low))).Raised?
    ensures KeywordStage(low, w) == [ToolInvoked(TimeIn(VoiceLoop.TimeCity(low)))] + OfflineAnswer
  {
  }

  /** Screen reading is tested before the screenshot, so "read the screenshot text"
      reads text rather than taking a screenshot. */
  lemma ReadingBeforeScreenshot(low: string, w: World)
    requires !Contains(low, "time") && AsksOcr(low)
    ensures KeywordStage(low, w)[0] == ToolInvoked(ReadScreenText)
    ensures w.tools(ReadScreenText).Returned? ==>
      var r := w.tools(ReadScreenText).text;
      KeywordStage(low, w)[2] == (if |r| < ReadAloudLimit then VoicedSpeech(r) else LocalSpeech("Text extracted sir"))
  {
  }

  /** A "do you remember" question contains "remember", so it is stored as a fact and
      never reaches the recall handler. */
  lemma RememberInsideQuestion(low: string)
    requires Contains(low, "do you remember")
    ensures Contains(low, "remember")
  {
    ContainsIff(low, "do you remember");
    var j :| SliceAt(low, "do you remember", j);
    var t := low[j..j + 15];
    assert t == "do you " + "remember";
    assert low[j + 7..j + 15] == t[7..];
    assert SliceAt(low, "remember", j + 7);
    ContainsIff(low, "remember");
  }

  /** A line whose lower-cased form contains "remember" and whose typed form yields a
      fact has that fact stored first; the recall handler is never tried. */
  lemma RememberIsStored(u: string, w: World, f: string)
    requires w.memoryAvailable && Contains(Lower(u), "remember") && Fact(u) == Some(f)
    ensures Offline(u, w) == TryTool(RememberFact(f), SayLocal("Memory stored sir"), w, JournalStage(Lower(u), w))
    ensures Offline(u, w)[0] == ToolInvoked(RememberFact(f))
  {
    var stored := TryTool(RememberFact(f), SayLocal("Memory stored sir"), w, JournalStage(Lower(u), w));
    assert stored[0] == ToolInvoked(RememberFact(f));
  }

  lemma DoYouRememberIsStored(u: string, w: World, f: string)
    requires w.memoryAvailable && Contains(Lower(u), "do you remember") && Fact(u) == Some(f)
    ensures |Offline(u, w)| > 0 && Offline(u, w)[0] == ToolInvoked(RememberFact(f))
  {
    RememberInsideQuestion(Lower(u));
    RememberIsStored(u, w, f);
  }

  /** As written, "Remember milk" has the keyword only in its lower-cased form, so the
      split of the typed line raises, nothing is stored and the line falls through to
      the journal handlers; the case-blind cut stores "milk". */
  lemma CapitalRememberIsDropped(w: World)
    ensures Contains(Lower("Remember milk"), "remember")
    ensures Fact("Remember milk") == None
    ensures w.memoryAvailable ==> Offline("Remember milk", w) == JournalStage("remember milk", w)
    ensures CaseBlindFact("Remember milk") == Some("milk")
  {
    assert Lower("Remember milk") == "remember milk";
    assert OccursAt("remember milk", "remember", 0);
    assert !Contains("Remember milk", "remember");
    assert FindFrom("remember milk", "remember", 0) == Some(0);
    assert Strip(" milk") == "milk";
  }

  /** Whenever the keyword is in the lower-cased line, the case-blind cut finds it and
      the fact is the stripped text after it, with its case kept. */
  lemma FactFollowsKeyword(u: string)
    requires Contains(Lower(u), "remember")
    ensures AfterFirstCaseBlind(u, "remember").Some?
    ensures CaseBlindFact(u).Some? ==> CaseBlindFact(u).value == Strip(AfterFirstCaseBlind(u, "remember").value)
    ensures CaseBlindFact(u).Some? ==> |AfterFirstCaseBlind(u, "remember").value| == |AfterFirst(Lower(u), "remember").value|
  {
  }

  /** One line of input as the loop reads it: a typed line, end of input, or Ctrl+C. */
  datatype Event = Line(raw: string, world: World) | EndOfInput | Interrupt

  /** The effects of running the loop over `events`: end of input is skipped, Ctrl+C
      says goodbye and stops, and an exit line stops after its farewell. */
  function RunSpec(events: seq<Event>): seq<Effect>
    decreases |events|
  {
    if events == [] then []
    else match events[0]
      case EndOfInput => RunSpec(events[1..])
      case Interrupt => [LocalSpeech(Farewell)]
      case Line(raw, w) =>
        var t := TextStep(raw, w);
        if t.stop then t.effects else t.effects + RunSpec(events[1..])
  }

  predicate Continues(e: Event) {
    e.EndOfInput? || (e.Line? && !TextStep(e.raw, e.world).stop)
  }

  /** Nothing typed after an exit line is read: the session's effects are those up to
      and including the exit. */
  lemma {:induction false} NothingAfterExit(pre: seq<Event>, raw: string, w: World, post: seq<Event>)
    requires forall k :: 0 <= k < |pre| ==> Continues(pre[k])
    requires TextStep(raw, w).stop
    ensures RunSpec(pre + [Line(raw, w)] + post) == RunSpec(pre + [Line(raw, w)])
    decreases |pre|
  {
    if pre == [] {
      assert [Line(raw, w)] + post == [Line(raw, w)] + post;
      assert ([Line(raw, w)] + post)[0] == Line(raw, w);
    } else {
      NothingAfterExit(pre[1..], raw, w, post);
      assert (pre + [Line(raw, w)] + post)[1..] == pre[1..] + [Line(raw, w)] + post;
      assert (pre + [Line(raw, w)])[1..] == pre[1..] + [Line(raw, w)];
      assert Continues(pre[0]);
    }
  }

  /** One step of `RunSpec` at position `i`. */
  lemma RunSpecAt(events: seq<Event>, i: nat)
    requires i < |events|
    ensures events[i].EndOfInput? ==> RunSpec(events[i..]) == RunSpec(events[i + 1..])
    ensures events[i].Interrupt? ==> RunSpec(events[i..]) == [LocalSpeech(Farewell)]
    ensures events[i].Line? && TextStep(events[i].raw, events[i].world).stop ==>
              RunSpec(events[i..]) == TextStep(events[i].raw, events[i].world).effects
    ensures events[i].Line? && !TextStep(events[i].raw, events[i].world).stop ==>
              RunSpec(events[i..]) == TextStep(events[i].raw, events[i].world).effects + RunSpec(events[i + 1..])
  {
    assert events[i..][0] == events[i] && events[i..][1..] == events[i + 1..];
  }

  lemma SeqAssoc(a: seq<Effect>, b: seq<Effect>, c: seq<Effect>)
    ensures a + (b + c) == (a + b) + c
  {
  }

  /** The `while True` loop over the input. */
  method Run(events: seq<Event>) returns (effects: seq<Effect>)
    ensures effects == RunSpec(events)
  {
    effects := [];
    var i := 0;
    while i < |events|
      invariant 0 <= i <= |events|
      invariant effects + RunSpec(events[i..]) == RunSpec(events)
      decreases |events| - i
    {
      RunSpecAt(events, i);
      match events[i] {
        case EndOfInput =>
        case Interrupt =>
          effects := effects + [LocalSpeech(Farewell)];
          return;
        case Line(raw, w) =>
          var t := TextStep(raw, w);
          ghost var before := effects;
          effects := effects + t.effects;
          if t.stop {
            return;
          }
          SeqAssoc(before, t.effects, RunSpec(events[i + 1..]));
      }
      i := i + 1;
    }
    assert events[i..] == [];
  }
}
