# Jarvis core, modelled in Dafny

Jarvis is a personal assistant that listens (microphone, Azure / Google / Whisper speech
recognition) or reads typed lines, answers through an LLM agent with tools or through a
chain of keyword handlers when no LLM is available, and speaks its answer (Azure neural
voice or the local Windows voice through PowerShell). This project models its core:

- the voice loop (`main/main_voice.py`) and the text loop (`main/main_text.py`) as
  step functions over an explicit state, with the loop itself as a method whose
  postcondition ties it to a recursive specification of the whole transcript;
- the engine (`main/engine.py`): which tools are registered, which agent is built, and how
  one message is routed (empty, short greeting, agent, plain LLM, offline);
- speech output (`main/tts.py`): the choice between Azure and the local voice, the
  PowerShell script and the quoting of the spoken text inside it;
- speech input (`main/input.py`): the Azure → Google → Whisper cascade, the cached Whisper
  model and the temporary WAV files;
- the sentence picker and refusal detector (`main/utils.py`);
- the tools: journal, calendar, reminders and timers, world clock, translation, code
  execution, sandboxed file operations, system control and music control.

Every recogniser, speech service, LLM, clock, thread and operating-system call is an
input of the model: its outcome is a parameter (`AzureResult`, `GoogleResult`,
`LlmOutcome`, `Clock`, ...) and the model states what the program does with each outcome.
Stateful objects (`JarvisEngine`, `TextToSpeech`, `Recognizers`, `VoiceSession`,
`CalendarStore`, `JournalStore`, `Workspace`) are classes whose methods state their new
state; the JSON files behind the journal and the calendar are insertion-ordered
dictionaries (`OrderedDict.Dict`), as Python's `dict` is.

Modules: `Text` (string helpers with Python's semantics), `OrderedDict`, `Sorting`,
`Dates` (`strptime`/`strftime` for `%Y-%m-%d`, ordinals), `Outcomes` (results of external
calls shared by the loops and the engine), then one module per source file.

## Model

| member | source | states |
|---|---|---|
| ResponseSelector.SkipSpace | main/utils.py:12 | the `\s+` after a sentence end is consumed up to the next non-space character or the end of the text |
| ResponseSelector.SplitFrom | main/utils.py:12 | each piece of `re.split(r'(?<=[.!?])\s+')` is a slice of the text starting where the previous cut ended |
| ResponseSelector.SplitFromPieces | main/utils.py:12 | the split pieces are maximal: no piece contains a terminator followed by whitespace, and every piece but the last ends with a terminator |
| ResponseSelector.ConsPiece | main/utils.py:12 | a terminated piece without an inner cut, followed by the pieces of the rest, is again a maximal split |
| ResponseSelector.SplitSentences | main/utils.py:12 | the split always yields at least one piece (the empty text gives `[""]`) |
| ResponseSelector.SplitSentencesPieces | main/utils.py:12 | the split of any text is the maximal split at every terminator followed by whitespace |
| ResponseSelector.NoCutInsideSlice | main/utils.py:12 | a slice of the text between two cuts contains no cut of its own |
| ResponseSelector.CleanSentence | main/utils.py:5-6 | `clean_sent` never lengthens a piece and leaves no quote, space, CR or LF at either end |
| ResponseSelector.CleanPieces | main/utils.py:13-16 | only non-empty cleaned pieces are kept, never more than there were pieces |
| ResponseSelector.TextSentences | main/utils.py:17-22 | every sentence taken from the text is non-empty |
| ResponseSelector.CandidateSentences | main/utils.py:8-16 | every sentence taken from the candidates is non-empty; empty candidates are skipped |
| ResponseSelector.Sentences | main/utils.py:7-22 | the sentence list is the candidates' sentences followed by the text's sentences, all non-empty |
| ResponseSelector.FirstWhere | main/utils.py:30-32 | the first index satisfying the predicate, with none before it; None exactly when no index satisfies it |
| ResponseSelector.LastWhere | main/utils.py:33-35 | the last index below the bound satisfying the predicate, with none after it; None exactly when no index satisfies it |
| ResponseSelector.FirstSubstantiveFrom | main/utils.py:23-32 | the first substantive sentence (not an interjection, at least 8 characters, contains a space); None exactly when there is none |
| ResponseSelector.LastSubstantiveBelow | main/utils.py:33-35 | the reverse scan returns a substantive sentence below the bound with none after it, and nothing exactly when no sentence below the bound is substantive |
| ResponseSelector.LastSubstantiveBelowDead | main/utils.py:33-35 | when no sentence is substantive the reverse scan finds nothing |
| ResponseSelector.LastSubstantiveDead | main/utils.py:30-35 | the reverse scan can only succeed when the forward scan did: it is dead code |
| ResponseSelector.LongestFrom | main/utils.py:36-37 | `max(..., key=len)` returns a longest sentence, the first of equal longest ones |
| ResponseSelector.ChooseBestSentenceSpec | main/utils.py:3-38 | the answer is the first substantive sentence if there is one, else the first longest sentence, else the stripped text |
| ResponseSelector.CandidatesFirst | main/utils.py:8-32 | a substantive candidate sentence wins whatever the text says |
| ResponseSelector.IsRefusalIff | main/utils.py:40-54 | a reply is a refusal exactly when it is non-empty and its lower-case form contains one of the eight refusal patterns |
| ResponseSelector.IsRefusalInContext | main/utils.py:40-54 | a refusal stays a refusal whatever text surrounds it |
| Speech.AzureAvailable | main/tts.py:6-24 | Azure synthesis is used exactly when the key is set, non-empty, not the placeholder `YOUR_KEY`, and the synthesizer could be built |
| Speech.EscapeQuotes | main/tts.py:48 | the quote-only escaping adds exactly one backtick per double quote, as written |
| Speech.EscapeForPowerShell | main/tts.py:48-55 | the corrected escaping never shortens the text: it backtick-escapes every character PowerShell treats specially inside a double-quoted string |
| Speech.EscapeForPowerShellReadsBack | main/tts.py:48-55 | PowerShell reads the corrected escaping back as exactly the original text, as one literal string |
| Speech.EscapeQuotesLetsDollarThrough | main/tts.py:48-55 | with the escaping as written, `costs $5` inside `Speak("...")` is read as a variable expansion, not literal text |
| Speech.PlainPrefixKeepsExpansion | main/tts.py:48-55 | characters that need no escaping in front of an expansion do not stop it being an expansion |
| Speech.EscapeQuotesLetsSmartQuoteThrough | main/tts.py:48-55 | with the escaping as written, a typographic quote ends the PowerShell string early, so the rest of the text would run as script |
| Speech.LocalScript | main/tts.py:48-56 | the script is the fixed prologue (load System.Speech, rate 0, volume 100) and then `$speak.Speak("...")` around the text with only `"` backtick-escaped, as written |
| Speech.EscapeQuotesIsFullOnPlainText | main/tts.py:48 | on a text whose only character special to PowerShell is `"`, the escaping as written is the full escaping |
| Speech.LocalScriptSpeaksPlainText | main/tts.py:48-56 | on such a text the script as written speaks exactly the text, literally |
| Speech.LocalScriptExpandsDollar | main/tts.py:48-56 | the script as written for "costs $5" makes PowerShell expand `$5` as a variable instead of speaking it |
| Speech.CorrectedLocalScript | main/tts.py:48-56 | the corrected script has the same prologue and the fully escaped text inside `Speak(...)` |
| Speech.CorrectedScriptSpeaksText | main/tts.py:48-56 | the corrected script speaks every text literally |
| Speech.LocalCall | main/tts.py:58-64 | the local voice runs `powershell -Command` with the script as written and a 5-second timeout |
| Speech.SpeechPlan | main/tts.py:69-105 | one or two calls: a quick text or unusable Azure gives the local call alone; otherwise Azure synthesis comes first, followed by the local call exactly when Azure was canceled or raised |
| Speech.QuickIsLocalOnly | main/tts.py:75-78 | a quick acknowledgment (lower-cased and stripped, in the set of eight) is spoken by the local voice only, whatever Azure's state |
| Speech.AzureOnlyWhenUsable | main/tts.py:75-87 | Azure is asked exactly when the text is not a quick acknowledgment and Azure is usable, and then it is asked first |
| Speech.LocalFallback | main/tts.py:89-105 | the local voice speaks exactly when the text is quick, Azure is unusable, or Azure was canceled or raised; a completed Azure synthesis is not repeated locally |
| Speech.TextToSpeech.constructor | main/tts.py:6-24 | the module state starts with Azure availability decided by the key and synthesizer, and nothing spoken |
| Speech.TextToSpeech.SpeakLocal | main/tts.py:38-67 | one local PowerShell call, with the script as written, is appended to the calls made |
| Speech.TextToSpeech.SpeakText | main/tts.py:69-105 | the calls made are extended by exactly the speech plan for the text, Azure's availability and its outcome |
| SpeechInput.AzureSttAvailable | main/input.py:8-25 | Azure recognition is on only when the SDK imports and a non-empty key is configured |
| SpeechInput.ListenSpec | main/input.py:49-166 | without speech the result is "no speech", timed out exactly on a wait timeout; a recognised Azure text is returned stripped; a transcript needs speech; speech with no transcript carries Google's failure |
| SpeechInput.LeakedWavFiles | main/input.py:77-151 | a listen leaves at most two WAV files behind, none unless speech was heard and a stage raised, and at least one when Azure is on and raises |
| SpeechInput.AzureWins | main/input.py:77-105 | when Azure is on and recognises speech, the stripped Azure text is returned and Google and Whisper do not matter |
| SpeechInput.GoogleBeforeWhisper | main/input.py:114-118 | when Azure did not recognise anything, a Google transcript is returned stripped, before Whisper is tried |
| SpeechInput.FailureIsGooglesError | main/input.py:119-166 | after Azure and Google fail, a transcript comes back exactly when Whisper is enabled, has a model and yields non-empty text; otherwise the result is "no speech" with Google's error as its reason |
| SpeechInput.Recognizers.constructor | main/input.py:8-36 | the module starts with the Azure and Whisper flags from the imports and the key, no Whisper model and no temporary files |
| SpeechInput.Recognizers.GetWhisperModel | main/input.py:38-47 | the Whisper model is built at most once: a cached model is returned unchanged, otherwise one is built only if Whisper is importable and loading succeeds |
| SpeechInput.Recognizers.CreateTempWav | main/input.py:80-87 | `NamedTemporaryFile(delete=False)` adds one fresh file to the temporary files |
| SpeechInput.Recognizers.TryAzureAsWritten | main/input.py:77-112 | as written, the Azure stage returns the stripped text when recognised, and leaves its temporary WAV file behind when `recognize_once` raises |
| SpeechInput.Recognizers.TryAzure | main/input.py:77-112 | with the removal in a `finally`, the Azure stage returns the same result and leaves no temporary file behind on any outcome |
| SpeechInput.Recognizers.TryWhisper | main/input.py:122-151 | the Whisper stage returns the joined, stripped segments when a model is at hand and they are non-empty; a cached model is kept and nothing is built, otherwise a model is built and cached exactly when loading succeeds; as written, the temporary file stays behind exactly when the model is ready and transcription raises |
| SpeechInput.Recognizers.ListenForSpeech | main/input.py:49-166 | one listen returns exactly the cascade result (timeout and microphone errors give nothing; Azure, then Google, then Whisper); the Whisper model is built only when the listen reaches the Whisper stage with none cached and loading succeeds, and otherwise the cache is unchanged; exactly the WAV files of the stages that raised stay behind |
| VoiceLoop.ClassifyAgentError | main/main_voice.py:335-346 | an agent error is reported as "backend offline" exactly when its message mentions `ngrok` or `404`, and as a generic error otherwise |
| VoiceLoop.SilenceOnlyTimesOut | main/main_voice.py:200-206 | silence says nothing, keeps the last interaction time, and leaves conversation mode exactly when more than 30 seconds passed since a recorded interaction |
| VoiceLoop.ExitComesFirst | main/main_voice.py:210-214 | an utterance containing an exit word stops the loop with "Goodbye sir" in every state |
| VoiceLoop.Activation | main/main_voice.py:216-224 | while idle, conversation mode starts exactly when an activation word occurs in the utterance, and then the greeting is spoken locally and the time recorded |
| VoiceLoop.IdleIgnores | main/main_voice.py:226-228 | while idle, an utterance without exit or activation words changes nothing and says nothing |
| VoiceLoop.ConversationRefreshesTime | main/main_voice.py:230-231 | in conversation mode every non-exit utterance refreshes the interaction time and is dispatched |
| VoiceLoop.OneReplyLastPrefix | main/main_voice.py:233-346 | effects that are not speech in front of a single final reply keep the reply single and last |
| VoiceLoop.TryToolOneReply | main/main_voice.py:240-268 | a tool call followed by its reply or its fallback speaks exactly one reply, last |
| VoiceLoop.AgentStage | main/main_voice.py:306-346 | the agent stage speaks exactly one reply, as its last effect, on every path (probe failure, answer, error) |
| VoiceLoop.VisionStage | main/main_voice.py:286-304 | the camera stage, or the agent after it, speaks exactly one reply, last |
| VoiceLoop.TimeStage | main/main_voice.py:270-284 | the time stage speaks exactly one reply, last, whether the world clock answers, raises or is not asked |
| VoiceLoop.JournalStage | main/main_voice.py:234-268 | the journal questions, and the stages after them, speak exactly one reply, last |
| VoiceLoop.Dispatch | main/main_voice.py:233-346 | every dispatched utterance ends in exactly one spoken reply |
| VoiceLoop.VoiceStep | main/main_voice.py:193-355 | a pass stops exactly on a non-empty utterance with an exit word, saying only "Goodbye sir" and keeping the state; silence says nothing; a changed interaction time means conversation mode at `now`; activation says only the greeting; while idle at most one thing is said |
| VoiceLoop.ProjectDayFirst | main/main_voice.py:234-246 | with the journal available, a project-day question is answered by the journal before time, camera or agent are considered |
| VoiceLoop.TodaySummaryNext | main/main_voice.py:249-268 | a "did ... today" or "do/you today" question that is not a project-day question is answered by the today summary when it returns, and the turn ends there |
| VoiceLoop.TimeBeforeCameraAndAgent | main/main_voice.py:234-284 | when no journal question was asked (or the journal is unavailable), a time question the world clock answers is spoken, with the parsed city, before the camera and the agent are considered |
| VoiceLoop.TryToolAgentNotCalled | main/main_voice.py:234-304 | a direct tool call followed by its answer, or by a fallback that calls no agent, calls no agent |
| VoiceLoop.VisionNeverReachesAgent | main/main_voice.py:286-304 | with the camera available, a vision question never reaches the agent, whatever the journal, time and camera tools do |
| VoiceLoop.ProbeFailureSkipsAgent | main/main_voice.py:311-324 | with an ngrok backend that does not answer the health probe, the probe URL replaces `/proxy_ollama` by `/health`, the offline notice is spoken and the agent is never invoked |
| VoiceLoop.AgentErrorClassified | main/main_voice.py:326-346 | when the agent raises, the last thing spoken is the classification of its error message |
| VoiceLoop.ActivationBySubstring | main/main_voice.py:218 | activation words are matched as substrings: "is this on" starts a conversation because "this" contains "hi" |
| VoiceLoop.RunSpecHeard | main/main_voice.py:190-355 | one heard utterance in the transcript takes one loop step, stopping after an exit and continuing otherwise |
| VoiceLoop.VoiceSession.constructor | main/main_voice.py:175-176 | the loop starts idle, with no interaction time and nothing said |
| VoiceLoop.VoiceSession.Step | main/main_voice.py:191-355 | one iteration moves the session to the step function's state, appends its effects and reports whether the loop stops |
| VoiceLoop.VoiceSession.Run | main/main_voice.py:189-359 | running the loop over a transcript of utterances and Ctrl+C presses ends in the state and effects of the recursive transcript specification |
| TextLoop.Spoken | main/main_text.py:420-573 | every reply the loop voices, through `speak_local` or `speak_text` anywhere in the handler chain, is speech (local or Azure) |
| TextLoop.TextStep | main/main_text.py:347-573 | the loop stops exactly when the stripped, lower-cased line is one of `exit`, `quit`, `bye`, `goodbye`, and then only "Goodbye sir" is said; a line does something exactly when it is not blank; every other handled line ends in a shown reply and a spoken one |
| TextLoop.ExitWordInsideLineIsHandled | main/main_text.py:366-373 | an exit word inside a longer line does not stop the loop: the line is handled |
| TextLoop.BlankLineIgnored | main/main_text.py:362-364 | a line that strips to nothing has no effect and does not stop the loop |
| TextLoop.GreetingBeforeBackend | main/main_text.py:375-384 | a line containing a greeting word is answered with the local greeting and never reaches the agent or the LLM |
| TextLoop.OfflineOnlyOnEmptyContent | main/main_text.py:386-431 | the backend reply is empty only when the plain LLM returned empty content; then the offline chain runs, otherwise the reply is shown and its best sentence spoken locally |
| TextLoop.ReplyLastPrefix | main/main_text.py:420-573 | effects that are neither shown text nor speech in front of a reply-last sequence keep it reply-last |
| TextLoop.TryToolReplyLast | main/main_text.py:468-542 | an offline tool call followed by its reply, or by the rest of the chain when it raises, ends in a reply |
| TextLoop.KeywordStage | main/main_text.py:487-573 | the time / OCR / screenshot / matrix / network / help / default chain always ends in a shown reply and a spoken one |
| TextLoop.JournalStage | main/main_text.py:467-485 | the journal questions, and the chain after them, always end in a reply |
| TextLoop.MemoryStage | main/main_text.py:434-465 | the memory commands, and the chain after them, always end in a reply; without the memory module the chain starts at the journal |
| TextLoop.Handle | main/main_text.py:386-573 | every line that reaches the backend calls it first and ends in a reply |
| TextLoop.TimeFailureEndsChain | main/main_text.py:487-500 | when the time tool raises, no later keyword handler runs: the default offline answer follows, because the others are `elif`s of the time test |
| TextLoop.ReadingBeforeScreenshot | main/main_text.py:501-512 | a reading request is handled by OCR before the screenshot test, and its result is spoken with the Azure voice only when shorter than 200 characters |
| TextLoop.RememberInsideQuestion | main/main_text.py:437-449 | every line containing "do you remember" also contains "remember" |
| TextLoop.RememberIsStored | main/main_text.py:437-444 | with the memory module, a line whose lower-cased form contains "remember" and whose split yields a fact stores that fact first, answered "Memory stored sir" or, if storing raises, by the journal chain |
| TextLoop.DoYouRememberIsStored | main/main_text.py:436-449 | "do you remember X", with the keyword in lower case, is stored as a fact, never recalled: the recall branch for it is unreachable |
| TextLoop.CapitalRememberIsDropped | main/main_text.py:437-447 | with the split as written, "Remember milk" passes the lower-case test but finds no lower-case keyword to split on, so nothing is stored and the chain goes on to the journal; the case-blind cut would store "milk" |
| TextLoop.CaseBlindFact | main/main_text.py:437-444 | the corrected fact cut: present only when the lower-cased line contains "remember"; then non-empty, already stripped, and a piece of the line as typed |
| TextLoop.FactFollowsKeyword | main/main_text.py:437-444 | the corrected fact is the stripped text after the first "remember" in any case, cut at the same place as in the lower-cased line |
| TextLoop.NothingAfterExit | main/main_text.py:344-373 | once a line stops the loop, no later input has any effect |
| TextLoop.RunSpecAt | main/main_text.py:344-360 | end of input is skipped, Ctrl+C says goodbye and stops, an exit line stops after its effects, and any other line continues with the rest of the input |
| TextLoop.Run | main/main_text.py:342-577 | running the loop over the input produces exactly the effects of the recursive specification of the transcript |
| TextLoop.BackendReply | main/main_text.py:386-418 | with an agent the reply is never empty (its output, or the fixed texts for an empty reply and for an error); the reply is empty exactly when the plain LLM returned empty content |
| Engine.Extended | main/engine.py:164-204 | extending a tool list by the optional groups keeps the list as its prefix and adds exactly the tools of the available groups |
| Engine.ExtendedStep | main/engine.py:164-204 | the groups are appended one after another in the source's fixed order |
| Engine.ToolListShape | main/engine.py:147-204 | the tool list starts with the five base tools and the six file tools, and a tool appears after them exactly when one of the available groups provides it |
| Engine.ToolListUnrolled | main/engine.py:147-204 | the tool list is the base and file tools followed by the contribution of each optional group, in the order memory, journal, vision, system control, clipboard, weather, reminders, YouTube, translate, email, calendar, music, code execution, documents |
| Engine.NoGroupsFixedTools | main/engine.py:147-162 | with no optional module importable, only the eleven fixed tools are registered |
| Engine.ExtendIfAvailable | main/engine.py:164-204 | one `if X_AVAILABLE: tools.extend(...)` step appends the group's tools exactly when the group is available |
| Engine.AgentFor | main/engine.py:219-250 | no agent is built exactly when there is no model, the model name contains "phi" or creation raises; a ReAct agent exactly when the model lacks `bind_tools` or is the proxy adapter; a tool-calling agent otherwise |
| Engine.DefaultModelIsSimple | main/engine.py:222-226 | without `OLLAMA_MODEL` the model is "phi" and no agent is built |
| Engine.EmptyMessage | main/engine.py:253-254 | an empty message gets an empty reply |
| Engine.ShortGreetingAnswered | main/engine.py:256-259 | a message with a greeting word and fewer than five words gets the fixed greeting, whatever agent or model there is |
| Engine.Routing | main/engine.py:261-283 | other messages go to the agent if there is one (its reply, or the error after "I encountered an error: "), else to the model (its content, or the error after "Error: "), else get the offline sentence |
| Engine.AgentReplyPreference | main/engine.py:264-266 | the agent's reply is `output` if truthy, else `result` if truthy, else the rendered dictionary |
| Engine.Respond | main/engine.py:252-283 | an empty message gets nothing, a short greeting the greeting; an agent error is reported after "I encountered an error: ", an LLM error after its own prefix, and with neither agent nor LLM the offline sentence |
| Engine.JarvisEngine.constructor | main/engine.py:133-138 | a new engine holds the initialised model, the full tool list and the agent chosen for them |
| Engine.JarvisEngine.Initialize | main/engine.py:140-250 | initialisation stores the model, rebuilds the tool list from the available groups, and replaces the agent only when there is a model |
| Engine.JarvisEngine.ProcessMessage | main/engine.py:252-283 | `process_message` answers an empty message with nothing, a short greeting with the greeting, an agent error with the error prefix, and gives the offline sentence with neither agent nor model |
| Journal.DayKeySplits | tools/journal.py:91 | for a key starting with `day_`, `key.split('_')[1]` is the text after `day_` up to the next underscore |
| Journal.SplitWithoutUnderscore | tools/journal.py:91 | splitting text without an underscore on `_` gives the text itself |
| Journal.IntToStringHasNoUnderscore | tools/journal.py:58 | the decimal form of a day number has no underscore |
| Journal.DayKeyReadsBack | tools/journal.py:91 | the key `day_{n}` written for day n is read back as day n |
| Journal.DayNumbersCount | tools/journal.py:91 | when every day key parses, there is one day number per `day_` key |
| Journal.DayNumbersPut | tools/journal.py:58-64 | after writing day n's key, the day numbers are the old ones plus n |
| Journal.LogThenProjectDay | tools/journal.py:37-102 | after logging day n, the project day reported is the larger of n and the highest day logged before |
| Journal.Shorten | tools/journal.py:126-128 | accomplishments longer than 100 characters are cut to their first 97 plus "...", so the result never exceeds 100; shorter ones are kept |
| Journal.LogThenAccomplishments | tools/journal.py:105-130 | the accomplishments of a day just logged are read back, shortened, under "Archive entry n" |
| Journal.LogThenTodaySummary | tools/journal.py:137-170 | after logging the latest day, today's summary reports its accomplishments as "Today we ..." when it was logged today and "On day n, we ..." otherwise |
| Journal.ProjectSummaryShape | tools/journal.py:177-202 | the summary lists the day numbers in ascending order, a permutation of the day keys' numbers, under a header giving their count |
| Journal.ProjectSummary | tools/journal.py:177-206 | the summary built line by line equals the specified summary, including the error replies for a missing entry or an unparsable key |
| Journal.LinesStep | tools/journal.py:197-200 | each loop iteration appends the line of the next day, or fails when that day's entry is missing |
| Journal.LinesStayMissing | tools/journal.py:197-200 | once a day's entry is missing, the summary stays failed |
| Journal.JournalStore.constructor | tools/journal.py:10-24 | the store holds the journal file as it is on disk |
| Journal.JournalStore.LogProjectDay | tools/journal.py:37-73 | logging day n writes the loaded journal with `day_{n}` set to the new entry and confirms, or leaves the file unchanged and reports the write failure |
| Journal.LogWritesOneKey | tools/journal.py:58-64 | logging sets exactly the key of day n and leaves every other key as it was |
| Journal.ProjectDay | tools/journal.py:76-102 | an empty journal gets the "no project days logged yet" reply, a journal without day keys "No project days found", a malformed day key exactly the "Error retrieving day" reply, and otherwise the highest day number is reported |
| Journal.DayAccomplishments | tools/journal.py:105-134 | a day that was never logged gets "No entry found for Day n"; a logged one gets "Archive entry n: " and its accomplishments cut to at most 100 characters |
| Journal.TodaySummary | tools/journal.py:137-170 | an empty journal gets "No entries logged yet"; a malformed day key gives the error reply; otherwise the latest day is the largest logged, the summary succeeds exactly when its entry exists, and it reads "Today we ..." exactly when that entry is dated today and "On day N, we ..." otherwise |
| Journal.ProjectSummarySpec | tools/journal.py:177-206 | an empty journal gets "No project history yet"; every failure is the error reply, as is a malformed day key; a successful summary of a non-empty journal starts with the header counting its days |
| Calendar.ResolveDate | tools/calendar_tool.py:60-66 | "today" and "tomorrow", in any case, become today's date and the next day in `%Y-%m-%d` form; any other text is kept as given; only the day after 9999-12-31 fails |
| Calendar.CheckDate | tools/calendar_tool.py:108-119 | like the add path, except that a date `strptime` accepts is rewritten in its zero-padded form, which reads back as the same date |
| Calendar.AddedEventReads | tools/calendar_tool.py:70-78 | an added event is stored under its id and every other id keeps its event |
| Calendar.ScheduleLinesIff | tools/calendar_tool.py:125-127 | a line is in the schedule exactly when some stored event has the checked date and that line is its `• time - title (n min)` line |
| Calendar.ScheduleLinesSound | tools/calendar_tool.py:125-127 | every schedule line comes from an event on the checked date |
| Calendar.ScheduleLinesComplete | tools/calendar_tool.py:125-127 | every event on the checked date contributes its line |
| Calendar.CheckScheduleSpec | tools/calendar_tool.py:90-137 | a date that cannot be resolved fails; a day without events gets "📅 No events scheduled for" the day; the only failure is the schedule failure, and it happens exactly when the date cannot be resolved or events exist and the date does not parse |
| Calendar.CheckSchedule | tools/calendar_tool.py:90-137 | the loop over the calendar produces exactly the specified reply |
| Calendar.ScheduleSorted | tools/calendar_tool.py:129-131 | a non-empty schedule is headed by the long name of the date and lists its lines sorted, a permutation of the collected lines |
| Calendar.UnparsableDateFailsSchedule | tools/calendar_tool.py:115-137 | when events carry a date `strptime` rejects and that date is asked for, the reply is the failure, because the date is parsed again to name it |
| Calendar.FutureOrdinal | tools/calendar_tool.py:158-159 | `today + timedelta(days)` exists exactly when it stays within years 1 to 9999 |
| Calendar.UpcomingStep | tools/calendar_tool.py:162-166 | one event is handled when its date parses, and then the items are the old ones plus this event's item when it falls in the window |
| Calendar.SomeEventIff | tools/calendar_tool.py:162-166 | the recursive "some event satisfies it" is the existential over the stored events |
| Calendar.UpcomingItemsListed | tools/calendar_tool.py:161-166 | an item is collected exactly when some event lists it |
| Calendar.UpcomingItemsIff | tools/calendar_tool.py:161-166 | an item is collected exactly when some stored event is in the window and formats to it |
| Calendar.UpcomingKeysInWindow | tools/calendar_tool.py:164 | collected events lie between today and today plus `days`; today itself is excluded once midnight has passed, because `datetime.now()` is compared with the event's midnight |
| Calendar.Texts | tools/calendar_tool.py:172 | the reply lists the text of each item, in the items' order |
| Calendar.ListUpcoming | tools/calendar_tool.py:140-178 | the loop over the calendar produces exactly the specified reply, including the failure when an event's date does not parse |
| Calendar.UpcomingStaysFailed | tools/calendar_tool.py:162-163 | once an event's date fails to parse, the whole listing fails |
| Calendar.UpcomingOrdered | tools/calendar_tool.py:168-169 | the listed items are sorted by date, a permutation of the collected ones, and events on the same date keep their stored order |
| Calendar.MatchingIdsIff | tools/calendar_tool.py:210-213 | an id is collected exactly when its event has the date asked for and the title asked for occurs in its title, ignoring case |
| Calendar.GetRemoveAll | tools/calendar_tool.py:215-216 | after the deletions, a removed id is gone and every other id keeps its event |
| Calendar.RemoveAllDistinct | tools/calendar_tool.py:215-216 | deleting keys keeps the ids of the calendar distinct |
| Calendar.DeleteRemovesExactlyMatches | tools/calendar_tool.py:209-216 | deleting removes exactly the matching events and keeps every other event |
| Calendar.CollectMatching | tools/calendar_tool.py:210-213 | the collecting loop yields exactly the matching ids, in stored order |
| Calendar.DeleteIds | tools/calendar_tool.py:215-217 | the deleting loop removes exactly the given ids |
| Calendar.CalendarStore.constructor | tools/calendar_tool.py:14-26 | the store holds the calendar file as it is on disk |
| Calendar.CalendarStore.AddEvent | tools/calendar_tool.py:40-87 | adding stores the event under `date_time_title` in the loaded calendar and confirms, or leaves the file unchanged and reports the failed write or the failed date |
| Calendar.CalendarStore.DeleteEvent | tools/calendar_tool.py:181-227 | deleting with no match changes nothing and says so; otherwise it confirms and saves the calendar without the matching events, even when the save fails the reply is the confirmation |
| Reminders.Plural | tools/reminders.py:111 | the unit gets an "s" exactly when the count is not 1 |
| Reminders.SetReminder | tools/reminders.py:85-115 | a reminder is refused exactly when it is under 1 minute or over 24 hours, with the matching message; otherwise a thread is started, when starting succeeds, that waits `minutes * 60` seconds and carries the message |
| Reminders.SetTimer | tools/reminders.py:119-151 | a timer is refused exactly when it is under 1 minute or over 3 hours; otherwise it waits `minutes * 60` seconds and announces "label completed!" |
| Reminders.QuickTimer | tools/reminders.py:155-183 | a quick timer is refused exactly when it is under 1 second or over 300 seconds; otherwise it waits that many seconds and announces "Ns timer completed!" |
| Reminders.TimersCoverUpToThreeHours | tools/reminders.py:136-179 | every duration up to 5 minutes is reachable with a quick timer, and every whole number of minutes up to 3 hours with a timer, for exactly that many seconds |
| WorldClock.FirstFuzzy | tools/time.py:114-116 | the fuzzy match is the first table entry whose name contains the key or is contained in it; None exactly when no entry matches |
| WorldClock.ZoneIn | tools/time.py:107-116 | an exact key gives its own zone; otherwise a zone is found exactly when some entry matches fuzzily, and it is the first such entry's zone |
| WorldClock.GetTimeIn | tools/time.py:94-129 | with no zone the reply is the apology naming the city; with a zone it starts "The current time in" followed by the title-cased city |
| WorldClock.GetTime | tools/time.py:94-129 | the tool always answers; the reply is the apology exactly when the city has no zone in the 71-city table, and otherwise starts "The current time in" with the title-cased city |
| WorldClock.ApologyIsNoTime | tools/time.py:117-129 | the apology never looks like a time reply |
| WorldClock.GetTimeApologisesIffNoZone | tools/time.py:107-129 | the apology is returned exactly when the city has no zone |
| WorldClock.BlankKeyGetsFirstZone | tools/time.py:107-116 | a blank city matches every name fuzzily, so it gets the first zone of the table |
| WorldClock.ExactKeyWins | tools/time.py:110-111 | every city of the table gets its own zone |
| WorldClock.UnrelatedKeyHasNoZone | tools/time.py:114-120 | a key that no name contains and that contains no name gets no zone |
| Translate.NameOfInvertsCodeOf | tools/translate.py:84-85 | the reverse map sends a language's code back to the language, because the table has no two languages with the same code |
| Translate.CodeOfInvertsNameOf | tools/translate.py:84-85 | every code of the reverse map is the code of the language it names |
| Translate.Normalise | tools/translate.py:43 | a known language name, in any case, becomes its code; anything else is lower-cased |
| Translate.CodesAreLowerCase | tools/translate.py:11-20 | every code but `zh-CN` is already lower-case |
| Translate.CodesAreNoNames | tools/translate.py:11-20 | no code is itself a language name of the table |
| Translate.NormaliseIdempotent | tools/translate.py:43 | normalising a normalised target again changes nothing, except for Chinese |
| Translate.ChineseNormalisesTwoWays | tools/translate.py:43 | "Chinese" becomes `zh-CN`, but normalising that again gives `zh-cn` |
| Translate.SourceCode | tools/translate.py:44 | the source is "auto" exactly when the given source lower-cases to "auto" |
| Translate.NormalisedIsNotAuto | tools/translate.py:43-44 | a target that is not "auto" never normalises to "auto" |
| Translate.TranslateText | tools/translate.py:24-59 | the reply is the failure exactly when the translator raises; a translation starts with the bare "Translation: " exactly when the source was automatic; when the translator returns v the reply is "Translation: " + v for an automatic source, else "Translation (source → target): " + v with the names as given |
| Translate.LanguageName | tools/translate.py:84-85 | a known code is named by the language it is the code of; an unknown code names itself |
| Translate.DetectLanguage | tools/translate.py:63-91 | detection fails exactly when the detector raises, with the "Could not detect language" reply; a detected code c gets "Detected language: " + the title-cased table name of c (c itself outside the table) + " (c)" |
| Translate.DetectReportsTableName | tools/translate.py:81-87 | a detected code of the table is reported with its language name title-cased and the code in brackets |
| CodeExec.FirstRestricted | tools/code_exec.py:37-46 | the keyword reported is the first restricted keyword, in list order, that occurs in the code; None exactly when none occurs |
| CodeExec.ExecutePythonCode | tools/code_exec.py:14-94 | the security error is returned exactly when a restricted keyword occurs, naming the first one; otherwise a raising run gives the error report, and a completed run is answered with "⚠️ Execution Error:" and its stderr when there is any, else "✅ Output:" and its stripped stdout, else the no-output text |
| CodeExec.RestrictedCodeIsNotRun | tools/code_exec.py:44-46 | code containing a restricted keyword gets the same reply whatever running it would do: it is never run |
| CodeExec.Rewrite | tools/code_exec.py:121 | after `replace('^', '**')` no caret is left, and the expression grows by one character per caret |
| CodeExec.RewriteIdempotent | tools/code_exec.py:121 | rewriting twice is rewriting once, and an expression without carets is left unchanged |
| CodeExec.CalculateExpression | tools/code_exec.py:98-130 | the reply is the failure exactly when evaluating the rewritten expression raises; otherwise it shows the rewritten expression and its value |
| CodeExec.Prefixed | tools/code_exec.py:155-156 | putting the description header in front keeps whether the reply succeeded and prefixes its text |
| CodeExec.RunPythonScript | tools/code_exec.py:134-162 | a script's reply is `execute_python_code`'s reply, headed by "📝 Script: description" when a description is given |
| CodeExec.RunEnd | tools/code_exec.py:183 | a `\d+` match extends over every digit up to the first non-digit |
| CodeExec.DigitRunsEmptyIff | tools/code_exec.py:183-186 | no number is found exactly when the description has no digit |
| CodeExec.BarLength | tools/code_exec.py:195 | a bar is never longer than 40, and the bar of the largest number is exactly 40 |
| CodeExec.BarBound | tools/code_exec.py:195 | scaling by 40 and dividing by the maximum stays within 40 and reaches 40 at the maximum |
| CodeExec.BarLengthMonotone | tools/code_exec.py:195 | a larger number never gets a shorter bar |
| CodeExec.Bar | tools/code_exec.py:196 | the bar is exactly n block characters |
| CodeExec.ChartLines | tools/code_exec.py:194-197 | there is one chart line per number, in input order, numbered from 1 |
| CodeExec.CreateDataVisualization | tools/code_exec.py:166-203 | the loop builds exactly the specified chart, including "no numbers" and the division error when every number is 0 |
| CodeExec.ChartShape | tools/code_exec.py:189-199 | the chart is the two header lines and then the line of each number in order, each bar at most 40 and the largest number's bar exactly 40 |
| FileOps.PathParts | tools/file_operations.py:15 | a relative path splits into at least one component, none containing a slash |
| FileOps.Walk | tools/file_operations.py:15 | resolving components (`.` stays, `..` goes up, stopping at the file-system root) always gives a normalised path |
| FileOps.Resolve | tools/file_operations.py:13-20 | `_safe_resolve` succeeds exactly when the lexical walk of the components from the root (or from `/` for an absolute path) ends at or below the root, so a path such as `a/../b` that leaves and re-enters is accepted; the result is the normalised path relative to the root |
| FileOps.WalkDownStaysBelow | tools/file_operations.py:15-17 | components without `..` only ever descend |
| FileOps.NoParentStepIsInside | tools/file_operations.py:13-20 | a relative path without `..` is always accepted |
| FileOps.ParentStepInsideIsAccepted | tools/file_operations.py:13-20 | `a/../b` leaves and re-enters the root and resolves to `b` below it |
| FileOps.ParentOfRootIsRefused | tools/file_operations.py:16-19 | `..` from the repository root is refused |
| FileOps.LeftJustify | tools/file_operations.py:112 | `{s:w}` pads on the right to width w and never truncates |
| FileOps.Utf8Length | tools/file_operations.py:111 | a file's size in bytes is at least its number of characters |
| FileOps.PyPrefix | tools/file_operations.py:53 | `text[:m]` is Python slicing: the first m characters for m ≥ 0, all but the last −m for negative m |
| FileOps.ReadText | tools/file_operations.py:51-54 | the text is cut to `max_chars` with the truncation note naming its full length exactly when a non-zero limit is exceeded; otherwise it is returned whole |
| FileOps.UniversalNewlines | tools/file_operations.py:51 | reading in text mode leaves no carriage return and never lengthens the text |
| FileOps.UniversalNewlinesKeepsPlain | tools/file_operations.py:51 | a text without carriage returns reads back unchanged |
| FileOps.CrLfReadsAsNewline | tools/file_operations.py:51 | a `\r\n` between two texts without carriage returns reads as one `\n` |
| FileOps.LoneCrReadsAsNewline | tools/file_operations.py:51 | a lone `\r`, not followed by `\n`, between two texts without carriage returns reads as one `\n` |
| FileOps.ReadTextKeepsPrefix | tools/file_operations.py:52-54 | a truncated read starts with the first `max_chars` characters and then the note |
| FileOps.ChildIsInTree | tools/file_operations.py:109 | every listed child is an entry of the tree |
| FileOps.Enumerate | tools/file_operations.py:109 | enumerating a directory yields each child name once |
| FileOps.SortKeepsNames | tools/file_operations.py:109 | sorting the children keeps exactly the same names |
| FileOps.WithParents | tools/file_operations.py:31 | `mkdir(parents=True, exist_ok=True)` adds every missing ancestor as a directory and keeps every existing entry |
| FileOps.WithParentsClosed | tools/file_operations.py:67 | after creating the parents, every ancestor is a directory and the tree is still closed under parents |
| FileOps.PutFileClosed | tools/file_operations.py:69-70 | writing a file inside an existing directory keeps the tree closed |
| FileOps.Without | tools/file_operations.py:86-88 | `rmtree` removes exactly the path and everything below it and keeps every other entry |
| FileOps.WithoutClosed | tools/file_operations.py:86-88 | removing a subtree keeps the tree closed under parents |
| FileOps.RemoveFileClosed | tools/file_operations.py:89-91 | unlinking a file keeps the tree closed under parents |
| FileOps.Entries | tools/file_operations.py:109-112 | the listing has one entry line per child, in the given order |
| FileOps.Lookup | tools/file_operations.py:46-54 | reading a missing path reports it not found, a directory reports it, and a file gives its text, with newlines translated, cut by `max_chars` |
| FileOps.PutFileReadsBack | tools/file_operations.py:51-54 | a file written with some content reads back, with no limit, as that content with newlines translated, and unchanged when it has no carriage return |
| FileOps.DeletedIsNotFound | tools/file_operations.py:86-91 | after a path is deleted, it and everything below it read as not found |
| FileOps.AppendsAccumulate | tools/file_operations.py:68-70 | two appends leave the old content followed by both appended texts |
| FileOps.Workspace.constructor | tools/file_operations.py:10 | the workspace holds the repository root, a directory since the module lies below it, and its tree |
| FileOps.Workspace.CreateFile | tools/file_operations.py:23-36 | creating a file refuses a path outside the root and a parent that is a file; otherwise it creates the parents and writes the file, unless the path is a directory, which fails after the parents exist |
| FileOps.Workspace.WriteFile | tools/file_operations.py:59-73 | writing behaves as creating, except that with `append` the new content follows the old, and the reply reports the mode |
| FileOps.Workspace.ReadFile | tools/file_operations.py:39-56 | reading fails exactly when the path escapes the root, and otherwise answers as the lookup of the resolved path |
| FileOps.Workspace.DeletePath | tools/file_operations.py:76-93 | deleting reports a missing path, removes a directory with everything below it, or removes a file alone, and changes nothing else |
| FileOps.Workspace.ListEntries | tools/file_operations.py:109-112 | the loop builds exactly the entry lines of the given children |
| FileOps.Workspace.ListChildren | tools/file_operations.py:108-116 | a directory's listing has its children once each, sorted, as "(empty)" when there are none and as the header and entry lines otherwise |
| FileOps.Workspace.ListDir | tools/file_operations.py:96-118 | listing refuses a path outside the root, reports a missing path or a file, and otherwise lists the directory's children sorted |
| SystemControl.Attempt | tools/system_control.py:25-63 | a supported platform's command is issued, and the reply is the success text exactly when it runs and the failure otherwise |
| SystemControl.Refusal | tools/system_control.py:58-59 | an unsupported platform gets its refusal and no command is issued |
| SystemControl.Clamp | tools/system_control.py:26 | the level is clamped into 0..100, unchanged when already inside |
| SystemControl.VolumeUpPresses | tools/system_control.py:37-41 | the Windows script presses volume-up at most 50 times |
| SystemControl.VolumeScriptLandsNearLevel | tools/system_control.py:32-41 | after 50 volume-down presses, the volume-up presses (two points each, `[math]::Round` to even) land within one point of the level, exactly on it for even levels |
| SystemControl.SetVolume | tools/system_control.py:10-63 | Windows, macOS and Linux run one command and report the clamped level when it runs, or the failure; other platforms are refused |
| SystemControl.SetVolumeUsesClampedLevel | tools/system_control.py:30-56 | each platform's command carries the clamped level: `amixer set Master N%`, `osascript` `set volume output volume N`, or the PowerShell key script |
| SystemControl.LockComputer | tools/system_control.py:67-104 | Windows and macOS lock exactly when their command starts, and otherwise report "Failed to lock computer"; Linux locks when the GNOME command starts, or it is missing and `xdg-screensaver` starts; any other start error is the failure reply, and "Could not find screen lock command" comes exactly when both are missing |
| SystemControl.Schedule | tools/system_control.py:108-154 | shutdown and restart issue one command on the supported platforms; the reply is "now" for no delay and names the minutes otherwise, or the scheduling failure when the command cannot run |
| SystemControl.ShutdownComputer | tools/system_control.py:108-154 | an unsupported platform is refused without a command; otherwise the reply confirms exactly when the command runs, saying "now" for no delay and naming the minutes otherwise, or is the failure reply |
| SystemControl.RestartComputer | tools/system_control.py:189-235 | as for shutdown, with the restart command and the restart texts |
| SystemControl.ScheduleCommands | tools/system_control.py:125-147 | Windows passes the delay in seconds after `/t`; Linux passes `now` or `+minutes` |
| SystemControl.NowIffNoDelay | tools/system_control.py:128-147 | the reply says "now" exactly when the delay is 0 minutes |
| SystemControl.CancelShutdown | tools/system_control.py:158-185 | cancelling runs `shutdown /a` on Windows and `sudo shutdown -c` on macOS and Linux, confirming exactly when it runs; other platforms are refused |
| MusicControl.EscapeSpaces | tools/music_control.py:30 | the search term has every space replaced by `%20`: no space is left and each one adds two characters |
| MusicControl.EscapeSpacesDecodes | tools/music_control.py:30 | a song name without `%` is recovered from its escaped search term |
| MusicControl.PlaySpotifySong | tools/music_control.py:13-36 | the Spotify search URL for the escaped song is opened, and the reply confirms exactly when opening succeeds |
| MusicControl.ActionTablesAgree | tools/music_control.py:60-112 | the macOS and Linux tables know the same four actions; Windows knows them and also "stop"; "play" and "pause" are the same key on Windows |
| MusicControl.ControlMusicPlayback | tools/music_control.py:40-119 | on Windows nothing is pressed and the failure reply is given when `pyautogui` does not import; otherwise the action is lower-cased and looked up in the platform's table; a known action issues its key press, its `osascript -e` script, or `dbus-send --print-reply --dest=org.mpris.MediaPlayer2.spotify /org/mpris/MediaPlayer2 org.mpris.MediaPlayer2.Player.<Method>`; when that runs the reply is the platform's confirmation, otherwise the failure; an unknown action gets "Unknown action", and an unsupported platform its refusal |
| MusicControl.PlaybackIgnoresCase | tools/music_control.py:58 | an action behaves the same in any case, whether or not `pyautogui` imports |
| MusicControl.StopOnlyOnWindows | tools/music_control.py:72-91 | "stop" presses the stop key on Windows when `pyautogui` imports, and is an unknown action on macOS and Linux |
| MusicControl.SetMusicVolume | tools/music_control.py:179-211 | a volume outside 0..100 is refused; on macOS Spotify's own volume is set by `osascript`, replying "🎵 Spotify volume set to N%" exactly when that runs and the failure exactly when it does not; elsewhere the reply is exactly `set_volume`'s |
| MusicControl.MusicVolumeNotClamped | tools/music_control.py:194-207 | a volume that passed the range check reaches `set_volume` unchanged, so its reply names that volume |
| Text.Lower | main/utils.py:43 | `str.lower()` keeps the length and lower-cases each ASCII letter |
| Text.LowerIdempotent | tools/translate.py:43 | lower-casing twice is lower-casing once |
| Text.Strip | main/utils.py:6 | `str.strip()` leaves no whitespace at either end and never lengthens the text |
| Text.StripInside | main/utils.py:6 | `s.strip()` is a piece of `s` |
| Text.TrimStartSuffix | main/utils.py:6 | stripping the front removes exactly a run of dropped characters and keeps the rest |
| Text.TrimEndPrefix | main/utils.py:6 | stripping the back removes exactly a run of dropped characters and keeps the rest |
| Text.StripChars | main/utils.py:6 | `str.strip(chars)` leaves none of the given characters at either end |
| Text.InListIff | main/main_text.py:367 | membership in a list of words is sequence membership |
| Text.ContainsIff | main/utils.py:54 | the substring test `sub in s` holds exactly when `sub` occurs at some position of `s` |
| Text.ContainsInContext | main/utils.py:54 | a substring stays a substring when text is added around it |
| Text.ContainsAnyIff | main/main_voice.py:211 | `any(w in s for w in words)` holds exactly when one of the words occurs in `s` |
| Text.FindFrom | tools/code_exec.py:45 | the search finds the first occurrence at or after the start, and None exactly when there is none |
| Text.AfterFirst | main/main_text.py:440 | `s.split(sep, 1)[1]` exists exactly when the separator occurs, and is the text after its first occurrence |
| Text.AfterFirstCaseBlind | main/main_text.py:437-440 | the case-blind cut exists exactly when the lower-cased text contains the separator, and keeps the original case of the text after the first match |
| Text.ReplaceAllAbsent | main/main_voice.py:317 | replacing a pattern that does not occur changes nothing |
| Text.ReplaceChar | main/tts.py:48 | replacing a character changes the length by the replacement's extra length per occurrence |
| Text.ReplaceCharRemoves | tools/code_exec.py:121 | replacing a character by a text that does not contain it leaves none of it |
| Text.Words | main/engine.py:258 | `str.split()` gives only non-empty words |
| Text.ParseIntToString | tools/journal.py:91 | `int(str(n))` is n |
| Text.ParseSignedToString | tools/journal.py:91 | the signed decimal form of n reads back as n |
| Text.NatToStringValue | tools/journal.py:58 | the digits of a number's decimal form have that number as their value |
| OrderedDict.LoadObject | tools/journal.py:15-24 | a missing or unreadable file loads as the empty dictionary; a stored one as its contents |
| OrderedDict.Keys | tools/calendar_tool.py:125 | the keys are listed in insertion order, one per entry |
| OrderedDict.Get | tools/journal.py:120-123 | a lookup fails exactly when the key is absent, and otherwise returns a value stored under the key |
| OrderedDict.GetAt | tools/journal.py:199 | with distinct keys, each entry is what its key looks up |
| OrderedDict.Put | tools/journal.py:59 | `d[k] = v` keeps an existing key in its place and appends a new key at the end |
| OrderedDict.GetPutSame | tools/journal.py:59 | after `d[k] = v`, `d[k]` is v |
| OrderedDict.GetPutOther | tools/journal.py:59 | `d[k] = v` leaves every other key as it was |
| OrderedDict.PutDistinct | tools/calendar_tool.py:72 | assignment keeps the keys distinct |
| OrderedDict.Remove | tools/calendar_tool.py:216 | `del d[k]` leaves no entry under k and never adds one |
| OrderedDict.GetRemove | tools/calendar_tool.py:216 | after `del d[k]`, k is absent and every other key is unchanged |
| OrderedDict.RemoveDistinct | tools/calendar_tool.py:216 | deletion keeps the keys distinct and keeps only entries that were there |
| Sorting.MaxOf | tools/journal.py:96 | `max` of a non-empty list is one of its elements and bounds all of them |
| Sorting.MaxOfUnique | tools/journal.py:96 | an element bounding all the others is the maximum |
| Sorting.SortInts | tools/journal.py:193 | `sorted` of numbers is ascending and a permutation of its input |
| Sorting.LexTotal | tools/calendar_tool.py:131 | string order is total |
| Sorting.LexTrans | tools/calendar_tool.py:131 | string order is transitive |
| Sorting.SortStrings | tools/calendar_tool.py:131 | `sorted` of strings is in code-point order and a permutation of its input |
| Sorting.SortByKey | tools/calendar_tool.py:169 | sorting by key gives ascending keys and a permutation of the input |
| Sorting.SortByKeyStable | tools/calendar_tool.py:169 | sorting by key is stable: items with the same key keep their order |
| Dates.DaysInMonth | tools/calendar_tool.py:116 | every month has 28 to 31 days |
| Dates.MonthField | tools/calendar_tool.py:116 | a `%m` field read by `strptime` is a month 1 to 12 taking one or two characters |
| Dates.DayField | tools/calendar_tool.py:116 | a `%d` field read by `strptime` is a day 1 to 31 taking one or two characters |
| Dates.ParseDate | tools/calendar_tool.py:116 | `strptime(s, "%Y-%m-%d")` only accepts dates that exist |
| Dates.Pad4 | tools/calendar_tool.py:117 | `%Y` is four digits that read back as the year |
| Dates.FormatDate | tools/calendar_tool.py:117 | `strftime("%Y-%m-%d")` is ten characters long |
| Dates.FormatDateParses | tools/calendar_tool.py:62 | a formatted date parses back to the same date |
| Dates.ParsedDateNormalises | tools/calendar_tool.py:116-117 | re-formatting a parsed date gives a string that parses to the same date |
| Dates.OrdinalBounds | tools/calendar_tool.py:158-159 | the ordinal of a valid date lies between 1 and that of 9999-12-31 |
| Dates.YearLength | tools/calendar_tool.py:64 | a year has 366 days when it is a leap year and 365 otherwise |
| Dates.NextDay | tools/calendar_tool.py:64 | `+ timedelta(days=1)` gives the valid date with the next ordinal, and overflows only after 9999-12-31 |
| Dates.MonthAbbrev | tools/calendar_tool.py:165 | `%b` is three letters |

## Left out

- Printing, logging, the start-up banners and the `speak_local("System ready")` test at start-up are not modelled; only what is spoken or returned is.
- The recognisers (Azure, Google, Whisper), the Azure synthesiser, the LLM, the LangChain agents, the health probe and the translator are not modelled inside. Each becomes an outcome passed in as a parameter (`AzureResult`, `GoogleResult`, `WhisperResult`, `SynthesisOutcome`, `AgentOutcome`, `LlmOutcome`, a `probeAnswers` flag, a `translate` function).
- Prompt texts, `hub.pull` and the agents' iteration limits are not modelled.
- Microphone settings (energy threshold, pause threshold, ambient-noise adjustment, phrase limit) are not modelled. Listening ends in `Heard`, `WaitTimeout` or `MicFailed`.
- `eval`/`exec` in the code tools are not modelled; a run is a parameter (`Execution`). The restricted builtins namespace and stdout/stderr capture are not modelled.
- The reminder and timer threads, their sleeps and notifications are not modelled. Only the validation and the thread that would start (its duration and message) are.
- Clocks and `pytz` are not modelled: "now" and "today" are parameters (`Clock`, `now`). The `%I:%M %p` time and the long date inside the world-clock reply are opaque.
- Exception messages are not modelled. A reply built from `str(e)` is `Failed(prefix)`: the fixed prefix is kept and the message dropped, together with any fixed text after it (". Make sure Spotify is running." in tools/music_control.py:119, the traceback section in tools/code_exec.py:94).
- `Path.resolve` symlinks are not modelled. Containment is checked on lexically normalised paths.
- File sizes: UTF-8 byte counts are modelled; file-system metadata is not.
- `open_application` (tools/file_operations.py:122-157) is not part of this model. It only starts an external program and returns its text.
- `get_current_track` (tools/music_control.py:123-175) is not part of this model. It only reads the state of an external player.
- The contents of the 71-entry city table (tools/time.py:8-91) are not unfolded; the lookup is proved for any table. So the concrete facts are not stated as lemmas: that "local" matches no city and gets the apology, and that an empty key gets New York's zone (the first entry).
- The world-clock error reply of an unknown `pytz` zone (tools/time.py:130-131) is not modelled. Every zone in the table is taken to exist.
- CodeExec.BarLength: uses the exact integer floor of `val * 40 / max_val`, where the source takes `int()` of a float product; the two can differ by float rounding.
- Translate.NormaliseIdempotent: excludes targets that normalise to `zh-CN`. Normalising "Chinese" twice gives `zh-cn` (Translate.ChineseNormalisesTwoWays), so the general idempotence does not hold for that entry.
- VoiceLoop.VoiceSession.Run: the start-up path that exits when the agent cannot be created (main/main_voice.py:149-172) is not modelled. The session starts after it.
- TextLoop.Run: the EOF branch (main/main_text.py:349-353) is modelled as skipping to the next input; a closed stream that repeats EOF forever is not.
- Speech.TextToSpeech.SpeakLocal: exceptions inside `speak_local` (main/tts.py:66-67) are not modelled. The call is recorded whatever happens; it never raises, as in the source.
- Text.ParseInt, Dates.ParseDate: ASCII digits only. Python's `int()` and `strptime`'s `\d` also accept other Unicode decimal digits, and `int()` accepts `_` between digits (`int("1_000")`); the model refuses both.
- FileOps.Resolve: paths are modelled with `/` separators only (POSIX). On Windows `\` also separates components, `C:` starts an absolute path and `relative_to` ignores case, so a path such as `..\x` escapes the root there although it has no `..` component in `PathParts`; NoParentStepIsInside holds for POSIX paths only.
- Speech.ReadPs: over-approximates expansion; every unescaped `$` is read as the start of a variable, while PowerShell keeps `$` literal when no name character, `{` or `(` follows it. The lemmas only use `$` followed by a digit, where the two agree.
- Text.Lower, Text.Title, CodeExec.DigitRuns: ASCII only. `str.lower()`, `str.title()` and `\d` also act on non-ASCII letters and digits (accented capitals, other scripts' digits); the model changes or counts only `A`-`Z` and `0`-`9`, so non-ASCII text is treated as caseless and digit-free.
- Journal.JournalStore.LogProjectDay: a failed save is modelled as leaving the file as it was. The source opens the file with `'w'` before `json.dump` (tools/journal.py:29-30), so a dump that raises leaves it empty or partly written.
- Calendar.CalendarStore.AddEvent: a failed save is modelled as leaving the file as it was. The source truncates the file with `open(path, 'w')` before `json.dump` (tools/calendar_tool.py:32-33), so a dump that raises leaves it empty or partly written.
- Calendar.CalendarStore.DeleteEvent: the same truncation applies to the save after a deletion; a failed dump is modelled as leaving the file unchanged.
- The exit test of the text loop is an exact match of the whole line and includes "bye". The voice loop tests substrings and has "shut down" instead of "bye".
- The offline chain of the text loop is reachable only when the plain LLM returns empty content, since an agent always yields a non-empty reply.

## Findings

| source | as written | input that shows it | evidently intended | confidence | as-written member | corrected member |
|---|---|---|---|---|---|---|
| main/tts.py:48-55 | only `"` is escaped before the text is placed inside a double-quoted PowerShell string | "costs $5" (`$5` is expanded as a variable) or a text with a typographic quote `”` (ends the string, and the rest runs as script) | the text is spoken literally: every character PowerShell treats specially inside double quotes is backtick-escaped | not executed | Speech.EscapeQuotesLetsDollarThrough | Speech.EscapeForPowerShellReadsBack |
| main/input.py:80-102 | the temporary WAV file is removed only after `recognize_once` returns | `recognize_once` raises | the file is removed on every path (`finally`) | not executed | SpeechInput.Recognizers.TryAzureAsWritten | SpeechInput.Recognizers.TryAzure |
| main/main_text.py:437-440 | the keyword test is on the lower-cased line, but the split is on the original line (the recall query at lines 452-457 is cut the same way) | "Remember milk" (no lower-case "remember" to split on, IndexError, nothing stored) | the fact after the keyword is stored whatever its case | not executed | TextLoop.CapitalRememberIsDropped | TextLoop.FactFollowsKeyword |
