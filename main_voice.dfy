/** The voice interaction loop (main/main_voice.py, the body of `main()`): a two-state
    machine, idle or in conversation, driven by what the microphone hears. Each heard
    utterance goes through a fixed order of checks: exit, activation, the direct
    journal, time and camera handlers, a backend probe, and finally the agent. */
module VoiceLoop {
  import opened Text
  import opened Outcomes
  import ResponseSelector

  const ExitWords: seq<string> := ["exit", "quit", "goodbye", "shut down"]
  const ActivationWords: seq<string> := ["hello", "hi", "hey", "jarvis"]
  const DayQueryWords: seq<string> := ["are", "is", "we on", "today"]
  const TimeKeywords: seq<string> := ["what time", "current time", "time in", "time is it"]
  const VisionKeywords: seq<string> := [
    "what am i holding", "what do you see", "what are you seeing",
    "look at me", "analyze camera", "use camera", "take a look",
    "what is this", "describe what you see", "what am i showing"
  ]

  const Farewell := "Goodbye sir"
  const Greeting := "Yes sir, how can I help you?"
  const CameraFailure := "I couldn't access the camera."
  const BackendOfflineProbe := "Backend is offline. Only local features available."
  const BackendOffline := "Backend offline. Use local commands."
  const GenericFailure := "I encountered an error."
  const NoOutput := "I'm not sure how to help with that."

  /** Seconds of silence after which conversation mode ends. */
  const SilenceTimeout: real := 30.0

  /** The tools the loop calls directly. */
  datatype ToolCall =
    | ProjectDay            // get_project_day
    | TodaySummary          // get_today_summary
    | TimeIn(city: string)  // get_time(city)
    | Camera(question: string)

  /** What one turn does to the outside world, in order. */
  datatype Effect =
    | LocalSpeech(text: string)   // speak_local
    | VoicedSpeech(text: string)  // speak_text
    | ToolInvoked(call: ToolCall)
    | ProbeSent(url: string)      // the HEAD request to the backend's health URL
    | AgentInvoked(input: string)

  /** Everything outside the loop that one turn may consult: the import-time flags,
      `OLLAMA_HOST`, whether the health probe gets an answer, what each tool does, and
      what the agent does. */
  datatype World = World(
    journalAvailable: bool,
    visionAvailable: bool,
    ollamaHost: string,
    probeAnswers: bool,
    tools: ToolCall -> ToolOutcome,
    agent: AgentOutcome)

  /** `conversation_mode` and `last_interaction_time` (None until the first activation). */
  datatype VoiceState = VoiceState(conversationMode: bool, lastInteraction: Option<real>)

  datatype Turn = Turn(state: VoiceState, effects: seq<Effect>, stop: bool)

  const Initial := VoiceState(false, None)

  /** The "what day are we on" test: mentions a day, asks about now, and is not a
      "what did/do we do" question. */
  predicate IsProjectDayQuery(low: string) {
    Contains(low, "day") && ContainsAny(low, DayQueryWords)
    && !Contains(low, "did") && !Contains(low, "do")
  }

  /** The city of a time question: the text after the last " in ", stripped of
      `?.,!` and title-cased, or "local". */
  function TimeCity(low: string): string
  {
    if Contains(low, " in ") then Title(StripChars(LastPiece(low, " in "), {'?', '.', ',', '!'}))
    else "local"
  }

  /** The reply to an agent error: backend trouble when the message mentions ngrok or a
      404, a generic apology otherwise. */
  function ClassifyAgentError(message: string): (r: string)
    ensures r == BackendOffline <==> Contains(message, "ngrok") || Contains(message, "404")
    ensures r == GenericFailure <==> !(Contains(message, "ngrok") || Contains(message, "404"))
  {
    if Contains(message, "ngrok") || Contains(message, "404") then BackendOffline else GenericFailure
  }

  /** Invoke a tool; speak what it returns, or go on with `fallback` if it raises. */
  function TryTool(call: ToolCall, w: World, fallback: seq<Effect>): seq<Effect>
  {
    [ToolInvoked(call)] +
      match w.tools(call)
      case Returned(r) => [VoicedSpeech(r)]
      case Raised(_) => fallback
  }

  /** The agent call and the spoken reply (lines 326-346). */
  function AgentCall(u: string, w: World): seq<Effect>
  {
    [AgentInvoked(u)] +
      match w.agent
      case AgentReturned(Mapping(output, _, _)) =>
        var response := if output.Some? then output.value else NoOutput;
        [VoicedSpeech(ResponseSelector.ChooseBestSentence(response, []))]
      case AgentReturned(Other(_)) => [VoicedSpeech(GenericFailure)]
      case AgentRaised(message) => [VoicedSpeech(ClassifyAgentError(message))]
  }

  /** The backend probe, then the agent (lines 308-346): one spoken reply, last, on every
      path (probe failure, answer, error). */
  function AgentStage(u: string, w: World): (r: seq<Effect>)
    ensures OneReplyLast(r)
  {
    var call := AgentCall(u, w);
    assert OneReplyLast(call) by {
      assert |call| == 2 && call[0] == AgentInvoked(u);
    }
    var probe := ProbeSent(ReplaceAll(w.ollamaHost, "/proxy_ollama", "/health"));
    OneReplyLastPrefix(probe, call);
    OneReplyLastPrefix(probe, [VoicedSpeech(BackendOfflineProbe)]);
    if w.ollamaHost != "" && Contains(w.ollamaHost, "ngrok") then
      [ProbeSent(ReplaceAll(w.ollamaHost, "/proxy_ollama", "/health"))]
        + (if w.probeAnswers then AgentCall(u, w) else [VoicedSpeech(BackendOfflineProbe)])
    else AgentCall(u, w)
  }

  function VisionStage(u: string, low: string, w: World): (r: seq<Effect>)
    ensures OneReplyLast(r)
  {
    var seen := w.tools(Camera(u));
    OneReplyLastPrefix(ToolInvoked(Camera(u)), [VoicedSpeech(if seen.Returned? then seen.text else CameraFailure)]);
    if w.visionAvailable && ContainsAny(low, VisionKeywords) then
      [ToolInvoked(Camera(u))] +
        match w.tools(Camera(u))
        case Returned(r) => [VoicedSpeech(r)]
        case Raised(_) => [VoicedSpeech(CameraFailure)]
    else AgentStage(u, w)
  }

  function TimeStage(u: string, low: string, w: World): (r: seq<Effect>)
    ensures OneReplyLast(r)
  {
    TryToolOneReply(TimeIn(TimeCity(low)), w, VisionStage(u, low, w));
    if ContainsAny(low, TimeKeywords) then TryTool(TimeIn(TimeCity(low)), w, VisionStage(u, low, w))
    else VisionStage(u, low, w)
  }

  function JournalStage(u: string, low: string, w: World): (r: seq<Effect>)
    ensures OneReplyLast(r)
  {
    TryToolOneReply(TodaySummary, w, TimeStage(u, low, w));
    var afterDoToday :=
      if Contains(low, "do today") || Contains(low, "you today") then
        TryTool(TodaySummary, w, TimeStage(u, low, w))
      else TimeStage(u, low, w);
    TryToolOneReply(TodaySummary, w, afterDoToday);
    var afterDid :=
      if Contains(low, "did") && Contains(low, "today") then TryTool(TodaySummary, w, afterDoToday)
      else afterDoToday;
    TryToolOneReply(ProjectDay, w, afterDid);
    if IsProjectDayQuery(low) then TryTool(ProjectDay, w, afterDid) else afterDid
  }

  /** Silence changes nothing but, after more than 30 s since the last interaction,
      the conversation mode; and it says nothing. */
  lemma SilenceOnlyTimesOut(st: VoiceState, heard: Option<string>, now: real, w: World)
    requires heard.None? || heard == Some("")
    ensures var t := VoiceStep(st, heard, now, w);
      && t.effects == [] && !t.stop
      && t.state.lastInteraction == st.lastInteraction
      && (t.state.conversationMode <==>
            st.conversationMode && !(st.lastInteraction.Some? && st.lastInteraction.value != 0.0
                                     && now - st.lastInteraction.value > SilenceTimeout))
  {
  }

  /** An exit word ends the loop in either state, with a farewell and nothing else. */
  lemma ExitComesFirst(st: VoiceState, u: string, now: real, w: World)
    requires u != "" && ContainsAny(Lower(u), ExitWords)
    ensures VoiceStep(st, Some(u), now, w) == Turn(st, [LocalSpeech(Farewell)], true)
  {
  }

  /** Only an idle loop is activated, and only by an activation word; activation
      records the time and answers with the local greeting. */
  lemma Activation(st: VoiceState, u: string, now: real, w: World)
    requires u != "" && !ContainsAny(Lower(u), ExitWords)
    ensures var t := VoiceStep(st, Some(u), now, w);
      !st.conversationMode ==>
        (t.state.conversationMode <==> ContainsAny(Lower(u), ActivationWords))
    ensures var t := VoiceStep(st, Some(u), now, w);
      !st.conversationMode && ContainsAny(Lower(u), ActivationWords) ==>
        t == Turn(VoiceState(true, Some(now)), [LocalSpeech(Greeting)], false)
  {
  }

  /** An idle loop ignores everything else: no handler runs and the agent is not asked. */
  lemma IdleIgnores(st: VoiceState, u: string, now: real, w: World)
    requires u != "" && !st.conversationMode
    requires !ContainsAny(Lower(u), ExitWords) && !ContainsAny(Lower(u), ActivationWords)
    ensures VoiceStep(st, Some(u), now, w) == Turn(st, [], false)
  {
  }

  /** Every utterance handled in conversation refreshes the interaction time first. */
  lemma ConversationRefreshesTime(st: VoiceState, u: string, now: real, w: World)
    requires u != "" && st.conversationMode && !ContainsAny(Lower(u), ExitWords)
    ensures VoiceStep(st, Some(u), now, w) == Turn(VoiceState(true, Some(now)), Dispatch(u, w), false)
  {
  }

  /** The shape of every dispatch: exactly one spoken reply, and it comes last. */
  predicate OneReplyLast(effects: seq<Effect>) {
    |effects| > 0 && effects[|effects| - 1].VoicedSpeech?
    && forall k :: 0 <= k < |effects| - 1 ==> !effects[k].VoicedSpeech? && !effects[k].LocalSpeech?
  }

  lemma OneReplyLastPrefix(e: Effect, rest: seq<Effect>)
    requires !e.VoicedSpeech? && !e.LocalSpeech? && OneReplyLast(rest)
    ensures OneReplyLast([e] + rest)
  {
    var r := [e] + rest;
    forall k | 0 <= k < |r| - 1 ensures !r[k].VoicedSpeech? && !r[k].LocalSpeech? {
      if k > 0 { assert r[k] == rest[k - 1]; }
    }
  }

  lemma TryToolOneReply(call: ToolCall, w: World, fallback: seq<Effect>)
    requires OneReplyLast(fallback)
    ensures OneReplyLast(TryTool(call, w, fallback))
  {
    match w.tools(call)
    case Returned(r) => OneReplyLastPrefix(ToolInvoked(call), [VoicedSpeech(r)]);
    case Raised(_) => OneReplyLastPrefix(ToolInvoked(call), fallback);
  }

  /** What a heard utterance leads to once conversation mode is on (lines 233-346).
      Whatever path it takes, it ends in exactly one spoken reply and nothing is spoken
      before it: a successful handler ends the turn. */
  function Dispatch(u: string, w: World): (r: seq<Effect>)
    ensures OneReplyLast(r)
  {
    var low := Lower(u);
    if w.journalAvailable then JournalStage(u, low, w) else TimeStage(u, low, w)
  }

  /** One pass of the loop for the listen result `heard` at clock reading `now`. */
  function VoiceStep(st: VoiceState, heard: Option<string>, now: real, w: World): (r: Turn)
    ensures r.stop <==> heard.Some? && heard.value != "" && ContainsAny(Lower(heard.value), ExitWords)
    ensures r.stop ==> r.state == st && r.effects == [LocalSpeech(Farewell)]
    ensures heard.None? || heard == Some("") ==> r.effects == []
    ensures r.state.lastInteraction != st.lastInteraction ==> r.state == VoiceState(true, Some(now))
    ensures !st.conversationMode && r.state.conversationMode ==> r.effects == [LocalSpeech(Greeting)]
    ensures !st.conversationMode ==> r.effects == [] || |r.effects| == 1
  {
    if heard.None? || heard.value == "" then
      var expired := st.conversationMode && st.lastInteraction.Some? && st.lastInteraction.value != 0.0
        && now - st.lastInteraction.value > SilenceTimeout;
      Turn(if expired then VoiceState(false, st.lastInteraction) else st, [], false)
    else
      var u := heard.value;
      var low := Lower(u);
      if ContainsAny(low, ExitWords) then Turn(st, [LocalSpeech(Farewell)], true)
      else if !st.conversationMode && ContainsAny(low, ActivationWords) then
        Turn(VoiceState(true, Some(now)), [LocalSpeech(Greeting)], false)
      else if !st.conversationMode then Turn(st, [], false)
      else Turn(VoiceState(true, Some(now)), Dispatch(u, w), false)
  }

  /** Handler priority: a project-day question answered by the journal is spoken, and
      nothing after it (time, camera, agent) runs. */
  lemma ProjectDayFirst(u: string, w: World, r: string)
    requires w.journalAvailable && IsProjectDayQuery(Lower(u)) && w.tools(ProjectDay) == Returned(r)
    ensures Dispatch(u, w) == [ToolInvoked(ProjectDay), VoicedSpeech(r)]
  {
  }

  /** A "what did we do today" or "what do/did you do today" question that is not a
      project-day question is answered by the today summary when it returns, and the
      turn ends there. */
  lemma TodaySummaryNext(u: string, w: World, r: string)
    requires w.journalAvailable && !IsProjectDayQuery(Lower(u))
    requires AsksToday(Lower(u))
    requires w.tools(TodaySummary) == Returned(r)
    ensures Dispatch(u, w) == [ToolInvoked(TodaySummary), VoicedSpeech(r)]
  {
  }

  /** The two journal questions about today (lines 249 and 260). */
  predicate AsksToday(low: string) {
    (Contains(low, "did") && Contains(low, "today")) || Contains(low, "do today") || Contains(low, "you today")
  }

  /** A time question the time tool answers is spoken before the camera and the agent
      are considered, whenever no journal question was asked first. */
  lemma TimeBeforeCameraAndAgent(u: string, w: World, r: string)
    requires !w.journalAvailable || (!IsProjectDayQuery(Lower(u)) && !AsksToday(Lower(u)))
    requires ContainsAny(Lower(u), TimeKeywords)
    requires w.tools(TimeIn(TimeCity(Lower(u)))) == Returned(r)
    ensures Dispatch(u, w) == [ToolInvoked(TimeIn(TimeCity(Lower(u)))), VoicedSpeech(r)]
  {
  }

  /** No agent call among the effects. */
  predicate AgentNotCalled(e: seq<Effect>) {
    forall k :: 0 <= k < |e| ==> !e[k].AgentInvoked?
  }

  lemma TryToolAgentNotCalled(call: ToolCall, w: World, fallback: seq<Effect>)
    requires AgentNotCalled(fallback)
    ensures AgentNotCalled(TryTool(call, w, fallback))
  {
    var e := TryTool(call, w, fallback);
    forall k | 0 <= k < |e| ensures !e[k].AgentInvoked? {
      if k > 0 && w.tools(call).Raised? { assert e[k] == fallback[k - 1]; }
    }
  }

  /** With the camera available, a vision question never reaches the agent, whatever the
      journal, time and camera tools do: the camera's answer or its failure notice ends
      the turn. */
  lemma VisionNeverReachesAgent(u: string, w: World)
    requires w.visionAvailable && ContainsAny(Lower(u), VisionKeywords)
    ensures AgentNotCalled(Dispatch(u, w))
  {
    var low := Lower(u);
    var v := VisionStage(u, low, w);
    assert AgentNotCalled(v) by {
      assert |v| == 2 && v[0] == ToolInvoked(Camera(u)) && v[1].VoicedSpeech?;
    }
    TryToolAgentNotCalled(TimeIn(TimeCity(low)), w, v);
    var t := TimeStage(u, low, w);
    assert AgentNotCalled(t);
    TryToolAgentNotCalled(TodaySummary, w, t);
    var afterDoToday :=
      if Contains(low, "do today") || Contains(low, "you today") then TryTool(TodaySummary, w, t) else t;
    TryToolAgentNotCalled(TodaySummary, w, afterDoToday);
    var afterDid :=
      if Contains(low, "did") && Contains(low, "today") then TryTool(TodaySummary, w, afterDoToday) else afterDoToday;
    TryToolAgentNotCalled(ProjectDay, w, afterDid);
    assert AgentNotCalled(JournalStage(u, low, w));
  }

  /** With an ngrok host that does not answer the probe, the fixed offline reply is
      given and the agent is never called. */
  lemma ProbeFailureSkipsAgent(u: string, w: World)
    requires w.ollamaHost != "" && Contains(w.ollamaHost, "ngrok") && !w.probeAnswers
    ensures AgentStage(u, w)
         == [ProbeSent(ReplaceAll(w.ollamaHost, "/proxy_ollama", "/health")), VoicedSpeech(BackendOfflineProbe)]
    ensures forall k :: 0 <= k < |AgentStage(u, w)| ==> !AgentStage(u, w)[k].AgentInvoked?
  {
  }

  /** An agent error is answered by its classification. */
  lemma AgentErrorClassified(u: string, w: World, message: string)
    requires w.agent == AgentRaised(message)
    requires !(w.ollamaHost != "" && Contains(w.ollamaHost, "ngrok") && !w.probeAnswers)
    ensures var e := AgentStage(u, w);
      e[|e| - 1] == VoicedSpeech(if Contains(message, "ngrok") || Contains(message, "404")
                                 then BackendOffline else GenericFailure)
  {
  }

  /** Activation words are matched as substrings, so "this" wakes an idle loop through
      the "hi" inside it. */
  lemma ActivationBySubstring(now: real, w: World)
    ensures VoiceStep(Initial, Some("is this on"), now, w).state.conversationMode
  {
    assert OccursAt(Lower("is this on"), "hi", 4);
    assert !Contains(Lower("is this on"), "exit");
    assert !Contains(Lower("is this on"), "quit");
    assert !Contains(Lower("is this on"), "goodbye");
    assert !Contains(Lower("is this on"), "shut down");
  }

  /** One iteration of the loop as read by the Run method: an utterance heard at a
      clock reading, or Ctrl+C. */
  datatype Event = Heard(heard: Option<string>, now: real, world: World) | Interrupt

  /** The effects of running the loop over `events` from state `st`, with the final state. */
  function RunSpec(st: VoiceState, events: seq<Event>): (VoiceState, seq<Effect>)
    decreases |events|
  {
    if events == [] then (st, [])
    else match events[0]
      case Interrupt => (st, [LocalSpeech(Farewell)])
      case Heard(heard, now, w) =>
        var t := VoiceStep(st, heard, now, w);
        if t.stop then (t.state, t.effects)
        else
          var (st', rest) := RunSpec(t.state, events[1..]);
          (st', t.effects + rest)
  }

  lemma RunSpecHeard(st: VoiceState, events: seq<Event>)
    requires events != [] && events[0].Heard?
    ensures var t := VoiceStep(st, events[0].heard, events[0].now, events[0].world);
      RunSpec(st, events) ==
        if t.stop then (t.state, t.effects)
        else (RunSpec(t.state, events[1..]).0, t.effects + RunSpec(t.state, events[1..]).1)
  {
  }

  lemma SeqAssoc(a: seq<Effect>, b: seq<Effect>, c: seq<Effect>)
    ensures a + (b + c) == (a + b) + c
  {
  }

  /** The loop's variables and a record of everything it has done. */
  class VoiceSession {
    var conversationMode: bool
    var lastInteraction: Option<real>
    var effects: seq<Effect>

    constructor()
      ensures conversationMode == false && lastInteraction == None && effects == []
    {
      conversationMode := false;
      lastInteraction := None;
      effects := [];
    }

    function State(): VoiceState
      reads this
    {
      VoiceState(conversationMode, lastInteraction)
    }

    /** One pass of the `while True` body; `stop` is the `break`. */
    method Step(heard: Option<string>, now: real, w: World) returns (stop: bool)
      modifies this
      ensures var t := VoiceStep(old(State()), heard, now, w);
        State() == t.state && effects == old(effects) + t.effects && stop == t.stop
    {
      if heard.None? || heard.value == "" {
        if conversationMode && lastInteraction.Some? && lastInteraction.value != 0.0 {
          if now - lastInteraction.value > SilenceTimeout {
            conversationMode := false;
          }
        }
        return false;
      }
      var u := heard.value;
      var low := Lower(u);
      if ContainsAny(low, ExitWords) {
        effects := effects + [LocalSpeech(Farewell)];
        return true;
      }
      if !conversationMode && ContainsAny(low, ActivationWords) {
        conversationMode := true;
        lastInteraction := Some(now);
        effects := effects + [LocalSpeech(Greeting)];
        return false;
      }
      if !conversationMode {
        return false;
      }
      lastInteraction := Some(now);
      effects := effects + Dispatch(u, w);
      return false;
    }

    /** The loop: runs the events in order until an exit word or Ctrl+C. */
    method Run(events: seq<Event>)
      modifies this
      ensures State() == RunSpec(old(State()), events).0
      ensures effects == old(effects) + RunSpec(old(State()), events).1
    {
      ghost var total := RunSpec(State(), events);
      ghost var e0 := effects;
      var i := 0;
      while i < |events|
        invariant 0 <= i <= |events|
        invariant total.0 == RunSpec(State(), events[i..]).0
        invariant e0 + total.1 == effects + RunSpec(State(), events[i..]).1
        decreases |events| - i
      {
        ghost var rest := events[i..];
        assert rest[0] == events[i] && rest[1..] == events[i + 1..];
        match events[i] {
          case Interrupt =>
            effects := effects + [LocalSpeech(Farewell)];
            return;
          case Heard(heard, now, w) =>
            ghost var before := State();
            ghost var effectsBefore := effects;
            ghost var t := VoiceStep(before, heard, now, w);
            RunSpecHeard(before, rest);
            var stop := Step(heard, now, w);
            if stop {
              return;
            }
            ghost var next := RunSpec(t.state, events[i + 1..]);
            assert RunSpec(before, rest) == (next.0, t.effects + next.1);
            assert effects == effectsBefore + t.effects;
            SeqAssoc(effectsBefore, t.effects, next.1);
        }
        i := i + 1;
      }
    }
  }
}
