/** The engine behind the web interface (main/engine.py): `initialize` assembles the
    tool list and chooses how the agent is built, and `process_message` routes one
    message to a greeting, the agent, the bare language model, or an offline sentence. */
module Engine {
  import opened Text
  import opened Outcomes

  /** The optional tool groups, each present when its import succeeded. */
  datatype Group =
    | Memory | Journal | Vision | SystemControl | Clipboard | Weather | Reminders
    | YouTube | Translate | Email | Calendar | Music | CodeExec | DocumentAnalysis

  /** The order in which `initialize` extends the list with the optional groups. */
  const OptionalGroups: seq<Group> := [
    Memory, Journal, Vision, SystemControl, Clipboard, Weather, Reminders,
    YouTube, Translate, Email, Calendar, Music, CodeExec, DocumentAnalysis
  ]

  const BaseTools: seq<string> := [
    "get_time", "duckduckgo_search_tool", "take_screenshot", "read_text_from_latest_image", "arp_scan_terminal"
  ]

  const FileTools: seq<string> := [
    "create_file", "read_file", "write_file", "delete_path", "list_dir", "open_application"
  ]

  function GroupTools(g: Group): seq<string>
  {
    match g
    case Memory => ["remember_fact", "recall_memory", "store_conversation", "get_conversation_context"]
    case Journal => ["log_project_day", "get_project_day", "get_day_accomplishments", "get_today_summary", "get_project_summary"]
    case Vision => ["analyze_screen", "analyze_image"]
    case SystemControl => ["set_volume", "lock_computer", "shutdown_computer", "cancel_shutdown", "restart_computer"]
    case Clipboard => ["read_clipboard", "write_clipboard", "clear_clipboard"]
    case Weather => ["get_weather", "get_detailed_weather"]
    case Reminders => ["set_reminder", "set_timer", "quick_timer"]
    case YouTube => ["search_youtube", "play_youtube", "open_youtube_video", "youtube_music"]
    case Translate => ["translate_text", "detect_language"]
    case Email => ["send_email", "read_latest_emails", "check_unread_count"]
    case Calendar => ["add_calendar_event", "check_schedule", "list_upcoming_events", "delete_calendar_event"]
    case Music => ["play_spotify_song", "control_music_playback", "get_current_track", "set_music_volume"]
    case CodeExec => ["execute_python_code", "calculate_expression", "run_python_script", "create_data_visualization"]
    case DocumentAnalysis => ["read_pdf_document", "read_word_document", "read_text_document", "analyze_document"]
  }

  /** The tools a group contributes: all of them when it is available, none otherwise. */
  function Contribution(g: Group, available: set<Group>): seq<string>
  {
    if g in available then GroupTools(g) else []
  }

  /** The number of optional tools: the sizes of the available groups among the first `n`. */
  function OptionalCount(n: nat, available: set<Group>): nat
    requires n <= |OptionalGroups|
  {
    if n == 0 then 0
    else OptionalCount(n - 1, available)
         + (if OptionalGroups[n - 1] in available then |GroupTools(OptionalGroups[n - 1])| else 0)
  }

  /** `prefix` extended by the contributions of the first `n` optional groups, in order. */
  function Extended(prefix: seq<string>, n: nat, available: set<Group>): (r: seq<string>)
    requires n <= |OptionalGroups|
    ensures |r| == |prefix| + OptionalCount(n, available)
    ensures r[..|prefix|] == prefix
  {
    if n == 0 then prefix else Extended(prefix, n - 1, available) + Contribution(OptionalGroups[n - 1], available)
  }

  lemma ExtendedStep(prefix: seq<string>, n: nat, available: set<Group>)
    requires n < |OptionalGroups|
    ensures Extended(prefix, n + 1, available) == Extended(prefix, n, available) + Contribution(OptionalGroups[n], available)
  {
  }

  /** The whole tool list for the groups that loaded. */
  function ToolList(available: set<Group>): seq<string>
  {
    Extended(BaseTools + FileTools, |OptionalGroups|, available)
  }

  /** The `k`-th optional group is available and has the tool `name`. */
  predicate Provides(k: int, available: set<Group>, name: string) {
    0 <= k < |OptionalGroups| && OptionalGroups[k] in available && name in GroupTools(OptionalGroups[k])
  }

  /** Some available group among the first `n` has the tool `name`. */
  predicate ProvidedBelow(n: nat, available: set<Group>, name: string)
    requires n <= |OptionalGroups|
  {
    n > 0 && (ProvidedBelow(n - 1, available, name) || Provides(n - 1, available, name))
  }

  lemma {:induction false} ProvidedBelowIff(n: nat, available: set<Group>, name: string)
    requires n <= |OptionalGroups|
    ensures ProvidedBelow(n, available, name) <==> exists k :: 0 <= k < n && Provides(k, available, name)
  {
    if n > 0 {
      ProvidedBelowIff(n - 1, available, name);
      if exists k :: 0 <= k < n && Provides(k, available, name) {
        var k :| 0 <= k < n && Provides(k, available, name);
        if k < n - 1 {
          assert exists k :: 0 <= k < n - 1 && Provides(k, available, name);
        }
      }
    }
  }

  /** Extending adds exactly the tools of the available groups among the first `n`. */
  lemma {:induction false} ExtendedMembers(prefix: seq<string>, n: nat, available: set<Group>, name: string)
    requires n <= |OptionalGroups|
    ensures name in Extended(prefix, n, available)[|prefix|..] <==> ProvidedBelow(n, available, name)
  {
    if n > 0 {
      ExtendedMembers(prefix, n - 1, available, name);
      var before := Extended(prefix, n - 1, available)[|prefix|..];
      var c := Contribution(OptionalGroups[n - 1], available);
      ExtendedTail(prefix, n, available);
      InConcat(name, before, c);
      ContributionHas(n - 1, available, name);
    }
  }

  lemma ExtendedTail(prefix: seq<string>, n: nat, available: set<Group>)
    requires 0 < n <= |OptionalGroups|
    ensures Extended(prefix, n, available)[|prefix|..]
         == Extended(prefix, n - 1, available)[|prefix|..] + Contribution(OptionalGroups[n - 1], available)
  {
    var e, c := Extended(prefix, n - 1, available), Contribution(OptionalGroups[n - 1], available);
    assert |e| >= |prefix|;
    assert (e + c)[|prefix|..] == e[|prefix|..] + c;
  }

  lemma InConcat(name: string, a: seq<string>, b: seq<string>)
    ensures name in a + b <==> name in a || name in b
  {
    if name in a + b {
      var i :| 0 <= i < |a + b| && (a + b)[i] == name;
      if i >= |a| { assert b[i - |a|] == name; }
    }
  }

  lemma ContributionHas(k: nat, available: set<Group>, name: string)
    requires k < |OptionalGroups|
    ensures name in Contribution(OptionalGroups[k], available) <==> Provides(k, available, name)
  {
  }

  /** The tool list starts with the five base tools and the six file tools, and after them
      holds a tool exactly when it belongs to an available group. */
  lemma ToolListShape(available: set<Group>, name: string)
    ensures ToolList(available)[..11] == BaseTools + FileTools
    ensures name in ToolList(available)[11..] <==> exists k :: 0 <= k < |OptionalGroups| && Provides(k, available, name)
    ensures |ToolList(available)| == 11 + OptionalCount(|OptionalGroups|, available)
  {
    ExtendedMembers(BaseTools + FileTools, |OptionalGroups|, available, name);
    ProvidedBelowIff(|OptionalGroups|, available, name);
  }

  /** The tool list written out group by group, in the order `initialize` extends it. */
  lemma ToolListUnrolled(available: set<Group>)
    ensures ToolList(available) == BaseTools + FileTools
      + Contribution(Memory, available) + Contribution(Journal, available) + Contribution(Vision, available)
      + Contribution(SystemControl, available) + Contribution(Clipboard, available) + Contribution(Weather, available)
      + Contribution(Reminders, available) + Contribution(YouTube, available) + Contribution(Translate, available)
      + Contribution(Email, available) + Contribution(Calendar, available) + Contribution(Music, available)
      + Contribution(CodeExec, available) + Contribution(DocumentAnalysis, available)
  {
    ExtendedStep(BaseTools + FileTools, 13, available);
    ExtendedStep(BaseTools + FileTools, 12, available);
    ExtendedStep(BaseTools + FileTools, 11, available);
    ExtendedStep(BaseTools + FileTools, 10, available);
    ExtendedStep(BaseTools + FileTools, 9, available);
    ExtendedStep(BaseTools + FileTools, 8, available);
    ExtendedStep(BaseTools + FileTools, 7, available);
    ExtendedStep(BaseTools + FileTools, 6, available);
    ExtendedStep(BaseTools + FileTools, 5, available);
    ExtendedStep(BaseTools + FileTools, 4, available);
    ExtendedStep(BaseTools + FileTools, 3, available);
    ExtendedStep(BaseTools + FileTools, 2, available);
    ExtendedStep(BaseTools + FileTools, 1, available);
    ExtendedStep(BaseTools + FileTools, 0, available);
  }

  /** With no optional group available only the eleven fixed tools are listed. */
  lemma NoGroupsFixedTools()
    ensures ToolList({}) == BaseTools + FileTools
  {
    EmptyExtension(BaseTools + FileTools, |OptionalGroups|);
  }

  lemma {:induction false} EmptyExtension(prefix: seq<string>, n: nat)
    requires n <= |OptionalGroups|
    ensures Extended(prefix, n, {}) == prefix
  {
    if n > 0 { EmptyExtension(prefix, n - 1); }
  }

  /** The language-model handle `init_llm` leaves behind, when there is one: whether it
      binds tools, and whether it is the proxy adapter. */
  datatype LlmHandle = LlmHandle(hasBindTools: bool, isProxyAdapter: bool)

  /** How messages reach a model: no agent (simple mode or none at all), a ReAct agent,
      or a tool-calling agent. */
  datatype AgentKind = NoAgent | ReactAgent | ToolCallingAgent

  /** `os.getenv("OLLAMA_MODEL", "phi")` */
  function ModelName(env: Option<string>): string
  {
    if env.Some? then env.value else "phi"
  }

  /** The agent `initialize` builds. `creationFails` stands for any exception raised
      while the agent is created. */
  function AgentFor(llm: Option<LlmHandle>, env: Option<string>, creationFails: bool): (r: AgentKind)
    ensures r == NoAgent <==> llm.None? || Contains(Lower(ModelName(env)), "phi") || creationFails
    ensures r == ReactAgent <==> llm.Some? && !Contains(Lower(ModelName(env)), "phi") && !creationFails
                                 && (!llm.value.hasBindTools || llm.value.isProxyAdapter)
  {
    if llm.None? then NoAgent
    else if Contains(Lower(ModelName(env)), "phi") then NoAgent
    else if creationFails then NoAgent
    else if !llm.value.hasBindTools || llm.value.isProxyAdapter then ReactAgent
    else ToolCallingAgent
  }

  /** Without `OLLAMA_MODEL` the default model name is "phi", so no agent is built. */
  lemma DefaultModelIsSimple(llm: Option<LlmHandle>, creationFails: bool)
    ensures AgentFor(llm, None, creationFails) == NoAgent
  {
    assert OccursAt(Lower("phi"), "phi", 0);
  }

  const Greeting := "Yes sir, how can I help you?"
  const OfflineSentence := "I am currently offline or unable to access my brain."
  const AgentErrorPrefix := "I encountered an error: "
  const LlmErrorPrefix := "Error: "
  const GreetingWords: seq<string> := ["hello", "hi", "hey", "jarvis"]

  /** A short greeting: a greeting word somewhere in it and fewer than five words. */
  predicate IsShortGreeting(message: string) {
    ContainsAny(Lower(message), GreetingWords) && |Words(message)| < 5
  }

  /** `process_message`: the reply to `message` for the engine's agent and model, given
      what the agent and the model would do if called. */
  function Respond(message: string, agent: AgentKind, hasLlm: bool, agentOut: AgentOutcome, llmOut: LlmOutcome): (r: string)
    ensures message == "" ==> r == ""
    ensures message != "" && IsShortGreeting(message) ==> r == Greeting
    ensures message != "" && !IsShortGreeting(message) && agent != NoAgent && agentOut.AgentRaised? ==>
              StartsWith(r, AgentErrorPrefix) && r[|AgentErrorPrefix|..] == agentOut.message
    ensures message != "" && !IsShortGreeting(message) && agent == NoAgent && hasLlm && llmOut.LlmRaised? ==>
              StartsWith(r, LlmErrorPrefix) && r[|LlmErrorPrefix|..] == llmOut.message
    ensures message != "" && !IsShortGreeting(message) && agent == NoAgent && !hasLlm ==> r == OfflineSentence
  {
    if message == "" then ""
    else if IsShortGreeting(message) then Greeting
    else if agent != NoAgent then
      match agentOut
      case AgentReturned(r) => AgentReply(r)
      case AgentRaised(e) => AgentErrorPrefix + e
    else if hasLlm then
      match llmOut
      case LlmReturned(content) => content
      case LlmRaised(e) => LlmErrorPrefix + e
    else OfflineSentence
  }

  /** An empty message gets an empty reply. */
  lemma EmptyMessage(agent: AgentKind, hasLlm: bool, agentOut: AgentOutcome, llmOut: LlmOutcome)
    ensures Respond("", agent, hasLlm, agentOut, llmOut) == ""
  {
  }

  /** A short greeting is answered without any model, whatever the engine has. */
  lemma ShortGreetingAnswered(message: string, agent: AgentKind, hasLlm: bool, agentOut: AgentOutcome, llmOut: LlmOutcome)
    requires message != "" && IsShortGreeting(message)
    ensures Respond(message, agent, hasLlm, agentOut, llmOut) == Greeting
  {
  }

  /** Routing for a message that is neither empty nor a short greeting: the agent if there
      is one, the model in simple mode, and the offline sentence with neither. An error
      from either is reported with its message. */
  lemma Routing(message: string, agent: AgentKind, hasLlm: bool, agentOut: AgentOutcome, llmOut: LlmOutcome)
    requires message != "" && !IsShortGreeting(message)
    ensures var r := Respond(message, agent, hasLlm, agentOut, llmOut);
      && (agent != NoAgent && agentOut.AgentRaised? ==>
            StartsWith(r, AgentErrorPrefix) && r[|AgentErrorPrefix|..] == agentOut.message)
      && (agent != NoAgent && agentOut.AgentReturned? ==> r == AgentReply(agentOut.result))
      && (agent == NoAgent && hasLlm && llmOut.LlmRaised? ==>
            StartsWith(r, LlmErrorPrefix) && r[|LlmErrorPrefix|..] == llmOut.message)
      && (agent == NoAgent && hasLlm && llmOut.LlmReturned? ==> r == llmOut.content)
      && (r == OfflineSentence <== agent == NoAgent && !hasLlm)
  {
  }

  /** A dictionary reply prefers `output`, then `result`, then the rendering. */
  lemma AgentReplyPreference(output: Option<string>, result: Option<string>, rendered: string)
    ensures Truthy(output) ==> AgentReply(Mapping(output, result, rendered)) == output.value
    ensures !Truthy(output) && Truthy(result) ==> AgentReply(Mapping(output, result, rendered)) == result.value
    ensures !Truthy(output) && !Truthy(result) ==> AgentReply(Mapping(output, result, rendered)) == rendered
  {
  }

  /** `if <GROUP>_AVAILABLE: tools.extend([...])` */
  method ExtendIfAvailable(list: seq<string>, g: Group, available: set<Group>) returns (r: seq<string>)
    ensures r == list + Contribution(g, available)
  {
    r := list;
    if g in available {
      r := r + GroupTools(g);
    }
  }

  /** The engine's state: the model handle, the tool list and the agent. */
  class JarvisEngine {
    var llm: Option<LlmHandle>
    var tools: seq<string>
    var agent: AgentKind

    /** `__init__`: empty fields, then `initialize`. */
    constructor(initialized: Option<LlmHandle>, env: Option<string>, available: set<Group>, creationFails: bool)
      ensures llm == initialized && tools == ToolList(available)
      ensures agent == AgentFor(initialized, env, creationFails)
    {
      llm := None;
      tools := [];
      agent := NoAgent;
      new;
      Initialize(initialized, env, available, creationFails);
    }

    /** Takes the model handle `init_llm` produced, builds the tool list group by group,
        and builds the agent. */
    method Initialize(initialized: Option<LlmHandle>, env: Option<string>, available: set<Group>, creationFails: bool)
      modifies this
      ensures llm == initialized && tools == ToolList(available)
      ensures agent == if initialized.None? then old(agent) else AgentFor(initialized, env, creationFails)
    {
      llm := initialized;
      var list := BaseTools;
      list := list + FileTools;
      list := ExtendIfAvailable(list, Memory, available);
      list := ExtendIfAvailable(list, Journal, available);
      list := ExtendIfAvailable(list, Vision, available);
      list := ExtendIfAvailable(list, SystemControl, available);
      list := ExtendIfAvailable(list, Clipboard, available);
      list := ExtendIfAvailable(list, Weather, available);
      list := ExtendIfAvailable(list, Reminders, available);
      list := ExtendIfAvailable(list, YouTube, available);
      list := ExtendIfAvailable(list, Translate, available);
      list := ExtendIfAvailable(list, Email, available);
      list := ExtendIfAvailable(list, Calendar, available);
      list := ExtendIfAvailable(list, Music, available);
      list := ExtendIfAvailable(list, CodeExec, available);
      list := ExtendIfAvailable(list, DocumentAnalysis, available);
      ToolListUnrolled(available);
      tools := list;

      if initialized.Some? {
        agent := AgentFor(initialized, env, creationFails);
      }
    }

    /** `process_message` on the engine's current handles. */
    function ProcessMessage(message: string, agentOut: AgentOutcome, llmOut: LlmOutcome): (r: string)
      reads this
      ensures message == "" ==> r == ""
      ensures message != "" && IsShortGreeting(message) ==> r == Greeting
      ensures message != "" && !IsShortGreeting(message) && agent != NoAgent && agentOut.AgentRaised? ==>
                r == AgentErrorPrefix + agentOut.message
      ensures message != "" && !IsShortGreeting(message) && agent == NoAgent && llm.None? ==> r == OfflineSentence
    {
      Respond(message, agent, llm.Some?, agentOut, llmOut)
    }
  }
}
