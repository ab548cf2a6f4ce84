/** Speech input (main/input.py): one utterance is taken from the microphone and
    handed to the recognisers in a fixed order: Azure, then Google, then the local
    Whisper model, whose instance is built lazily and kept. Every failure ends in
    `None`; what differs is the note printed. */
module SpeechInput {
  import opened Text

  /** How taking audio from the microphone ends. */
  datatype MicOutcome =
    | Heard          // `recognizer.listen` returned audio
    | WaitTimeout    // sr.WaitTimeoutError: nobody spoke
    | MicFailed      // any other error opening or reading the microphone

  /** How `recognize_once` on the Azure recogniser ends. */
  datatype AzureResult =
    | AzureRecognized(text: string)
    | AzureNoMatch
    | AzureOtherReason
    | AzureRaised    // raised after the temporary WAV file was created

  /** How `recognize_google` ends. */
  datatype GoogleResult =
    | GoogleText(text: string)
    | GoogleUnknownValue   // sr.UnknownValueError
    | GoogleRequestError   // sr.RequestError
    | GoogleOtherError     // any other exception

  /** How `model.transcribe` ends. */
  datatype WhisperResult =
    | Segments(texts: seq<string>)
    | WhisperRaised

  /** What the outer handlers print before returning `None`. */
  datatype FailureNote =
    | TimedOut             // the line is cleared, nothing else
    | CouldNotUnderstand   // "Could not understand audio"
    | RecognitionError     // "Speech recognition error: ..."
    | MicrophoneError      // "Microphone error: ..."

  /** `listen_for_speech`'s result: a transcript, or `None` with the note printed. */
  datatype ListenResult = Transcript(text: string) | NoSpeech(note: FailureNote)

  /** `AZURE_STT_AVAILABLE`: the SDK imports and `AZURE_SPEECH_KEY` is set and non-empty. */
  function AzureSttAvailable(sdkImports: bool, key: Option<string>): (r: bool)
    ensures r ==> sdkImports && key.Some?
    ensures !sdkImports || key == None || key == Some("") ==> !r
  {
    sdkImports && key.Some? && key.value != ""
  }

  /** The handler the re-raised Google error reaches. */
  function GoogleFailureNote(g: GoogleResult): FailureNote
    requires !g.GoogleText?
  {
    match g
    case GoogleUnknownValue => CouldNotUnderstand
    case GoogleRequestError => RecognitionError
    case GoogleOtherError => MicrophoneError
  }

  /** `" ".join(segment.text for segment in segments).strip()` */
  function WhisperText(w: WhisperResult): string
    requires w.Segments?
  {
    Strip(Join(w.texts, " "))
  }

  /** The Whisper stage yields a transcript: it is enabled, a model is at hand, the
      transcription does not raise and its text is not empty. */
  predicate WhisperSucceeds(whisperOn: bool, modelReady: bool, w: WhisperResult) {
    whisperOn && modelReady && w.Segments? && WhisperText(w) != ""
  }

  /** The result of one `listen_for_speech` call, given whether Azure is available,
      whether the Whisper stage is enabled, whether a Whisper model is (or can be) at
      hand, and how each step ends. */
  function ListenSpec(azureOn: bool, whisperOn: bool, modelReady: bool, mic: MicOutcome,
                      azure: AzureResult, google: GoogleResult, whisper: WhisperResult): (r: ListenResult)
    ensures !mic.Heard? ==> r.NoSpeech? && (r.note == TimedOut <==> mic.WaitTimeout?)
    ensures mic.Heard? && azureOn && azure.AzureRecognized? ==> r == Transcript(Strip(azure.text))
    ensures r.Transcript? ==> mic.Heard?
    ensures mic.Heard? && r.NoSpeech? ==> !google.GoogleText? && r.note == GoogleFailureNote(google)
  {
    match mic
    case WaitTimeout => NoSpeech(TimedOut)
    case MicFailed => NoSpeech(MicrophoneError)
    case Heard =>
      if azureOn && azure.AzureRecognized? then Transcript(Strip(azure.text))
      else if google.GoogleText? then Transcript(Strip(google.text))
      else if WhisperSucceeds(whisperOn, modelReady, whisper) then Transcript(WhisperText(whisper))
      else NoSpeech(GoogleFailureNote(google))
  }

  /** Whether a listen gets as far as the Whisper stage: speech was heard, Azure (when on)
      recognised nothing, Google failed, and local recognition is enabled. */
  predicate WhisperReached(azureOn: bool, whisperOn: bool, mic: MicOutcome, azure: AzureResult,
                           google: GoogleResult)
  {
    mic.Heard? && !(azureOn && azure.AzureRecognized?) && !google.GoogleText? && whisperOn
  }

  /** How many temporary WAV files one `listen_for_speech` call leaves on disk: one
      for each stage whose recogniser raises after its file was written. */
  function LeakedWavFiles(azureOn: bool, whisperOn: bool, modelReady: bool, mic: MicOutcome,
                          azure: AzureResult, google: GoogleResult, whisper: WhisperResult): (n: nat)
    ensures n <= 2
    ensures n == 0 <== !mic.Heard? || (!(azureOn && azure.AzureRaised?) && !whisper.WhisperRaised?)
    ensures azureOn && mic.Heard? && azure.AzureRaised? ==> n >= 1
  {
    if !mic.Heard? then 0
    else
      (if azureOn && azure.AzureRaised? then 1 else 0)
      + (if !(azureOn && azure.AzureRecognized?) && !google.GoogleText? && whisperOn && modelReady
            && whisper.WhisperRaised? then 1 else 0)
  }

  /** An Azure transcript is returned at once: Google and Whisper are not consulted. */
  lemma AzureWins(whisperOn: bool, modelReady: bool, t: string, google: GoogleResult,
                  google': GoogleResult, whisper: WhisperResult, whisper': WhisperResult)
    ensures ListenSpec(true, whisperOn, modelReady, Heard, AzureRecognized(t), google, whisper)
         == Transcript(Strip(t))
    ensures ListenSpec(true, whisperOn, modelReady, Heard, AzureRecognized(t), google, whisper)
         == ListenSpec(true, whisperOn, modelReady, Heard, AzureRecognized(t), google', whisper')
  {
  }

  /** When Azure is off or does not recognise speech, a Google transcript is returned
      whatever Whisper would have said. */
  lemma GoogleBeforeWhisper(azureOn: bool, whisperOn: bool, modelReady: bool, azure: AzureResult,
                            t: string, whisper: WhisperResult)
    requires !(azureOn && azure.AzureRecognized?)
    ensures ListenSpec(azureOn, whisperOn, modelReady, Heard, azure, GoogleText(t), whisper)
         == Transcript(Strip(t))
  {
  }

  /** A transcript never comes out of Whisper empty: an empty transcription counts as a
      failure, and when every recogniser fails the note is the one Google's error
      earns, never one of Azure's or Whisper's. */
  lemma FailureIsGooglesError(azureOn: bool, whisperOn: bool, modelReady: bool, azure: AzureResult,
                              google: GoogleResult, whisper: WhisperResult)
    requires !(azureOn && azure.AzureRecognized?) && !google.GoogleText?
    ensures var r := ListenSpec(azureOn, whisperOn, modelReady, Heard, azure, google, whisper);
      r.Transcript? <==> WhisperSucceeds(whisperOn, modelReady, whisper)
    ensures var r := ListenSpec(azureOn, whisperOn, modelReady, Heard, azure, google, whisper);
      r.Transcript? ==> r.text != ""
    ensures var r := ListenSpec(azureOn, whisperOn, modelReady, Heard, azure, google, whisper);
      r.NoSpeech? ==> r.note == GoogleFailureNote(google)
  {
  }

  /** The module state of main/input.py: the import-time flags, the cached Whisper
      model, and the temporary WAV files on disk. */
  class Recognizers {
    const azureSttAvailable: bool
    const whisperAvailable: bool
    var whisperModel: Option<nat>   // `_whisper_model`: the instance, by its build number
    var modelsBuilt: nat            // how many `WhisperModel` instances were built
    var tempFiles: set<nat>         // temporary WAV files still on disk
    var nextTemp: nat

    ghost predicate Valid()
      reads this
    {
      && (whisperModel.Some? ==> whisperAvailable && whisperModel.value < modelsBuilt)
      && (forall f :: f in tempFiles ==> f < nextTemp)
    }

    /** Module import: `sdkImports` and `whisperImports` say whether the two packages
        import; `key` is `AZURE_SPEECH_KEY`. */
    constructor(sdkImports: bool, key: Option<string>, whisperImports: bool)
      ensures Valid()
      ensures azureSttAvailable == AzureSttAvailable(sdkImports, key)
      ensures whisperAvailable == whisperImports
      ensures whisperModel == None && modelsBuilt == 0 && tempFiles == {}
    {
      if sdkImports {
        if key.Some? && key.value != "" {
          azureSttAvailable := true;
        } else {
          azureSttAvailable := false;
        }
      } else {
        azureSttAvailable := false;
      }
      whisperAvailable := whisperImports;
      whisperModel := None;
      modelsBuilt := 0;
      tempFiles := {};
      nextTemp := 0;
    }

    /** `get_whisper_model()`: builds the model only while none is cached and Whisper is
        available; `loadOk` says whether building it succeeds. */
    method GetWhisperModel(loadOk: bool) returns (m: Option<nat>)
      requires Valid()
      modifies this`whisperModel, this`modelsBuilt
      ensures Valid()
      ensures m == whisperModel
      ensures old(whisperModel).Some? ==> m == old(whisperModel) && modelsBuilt == old(modelsBuilt)
      ensures old(whisperModel).None? && whisperAvailable && loadOk ==>
        m == Some(old(modelsBuilt)) && modelsBuilt == old(modelsBuilt) + 1
      ensures old(whisperModel).None? && !(whisperAvailable && loadOk) ==>
        m == None && modelsBuilt == old(modelsBuilt)
    {
      if whisperModel.None? && whisperAvailable {
        if loadOk {
          whisperModel := Some(modelsBuilt);
          modelsBuilt := modelsBuilt + 1;
        }
      }
      m := whisperModel;
    }

    /** Creates a temporary WAV file with `delete=False`. */
    method CreateTempWav() returns (f: nat)
      requires Valid()
      modifies this`tempFiles, this`nextTemp
      ensures Valid()
      ensures f !in old(tempFiles) && tempFiles == old(tempFiles) + {f}
    {
      f := nextTemp;
      tempFiles := tempFiles + {f};
      nextTemp := nextTemp + 1;
    }

    /** The Azure stage as written (lines 78-112): the WAV file is removed only once
        `recognize_once` has returned, so a raise leaves it on disk. */
    method TryAzureAsWritten(azure: AzureResult) returns (r: Option<string>)
      requires Valid()
      modifies this`tempFiles, this`nextTemp
      ensures Valid()
      ensures r == (if azure.AzureRecognized? then Some(Strip(azure.text)) else None)
      ensures old(tempFiles) <= tempFiles
      ensures azure.AzureRaised? ==> |tempFiles| == |old(tempFiles)| + 1
      ensures !azure.AzureRaised? ==> tempFiles == old(tempFiles)
    {
      var f := CreateTempWav();
      if azure.AzureRaised? {
        return None;
      }
      tempFiles := tempFiles - {f};
      if azure.AzureRecognized? {
        return Some(Strip(azure.text));
      }
      return None;
    }

    /** The Azure stage with the removal on every path, as the clean-up step intends. */
    method TryAzure(azure: AzureResult) returns (r: Option<string>)
      requires Valid()
      modifies this`tempFiles, this`nextTemp
      ensures Valid()
      ensures r == (if azure.AzureRecognized? then Some(Strip(azure.text)) else None)
      ensures tempFiles == old(tempFiles)
    {
      var f := CreateTempWav();
      tempFiles := tempFiles - {f};
      if azure.AzureRecognized? {
        return Some(Strip(azure.text));
      }
      return None;
    }

    /** The Whisper stage as written (lines 123-147): as in the Azure stage, the WAV file
        is removed only once `transcribe` has returned, so a raise leaves it on disk. */
    method TryWhisper(loadOk: bool, whisper: WhisperResult) returns (r: Option<string>)
      requires Valid() && whisperAvailable
      modifies this`whisperModel, this`modelsBuilt, this`tempFiles, this`nextTemp
      ensures Valid()
      ensures var ready := old(whisperModel).Some? || loadOk;
        r == (if WhisperSucceeds(true, ready, whisper) then Some(WhisperText(whisper)) else None)
      ensures old(whisperModel).Some? ==> whisperModel == old(whisperModel) && modelsBuilt == old(modelsBuilt)
      ensures old(whisperModel).None? ==>
        whisperModel == (if loadOk then Some(old(modelsBuilt)) else None)
        && modelsBuilt == old(modelsBuilt) + (if loadOk then 1 else 0)
      ensures old(tempFiles) <= tempFiles
      ensures var ready := old(whisperModel).Some? || loadOk;
        |tempFiles| == |old(tempFiles)| + (if ready && whisper.WhisperRaised? then 1 else 0)
    {
      var model := GetWhisperModel(loadOk);
      if model.None? {
        return None;
      }
      var f := CreateTempWav();
      if whisper.WhisperRaised? {
        return None;
      }
      tempFiles := tempFiles - {f};
      var text := WhisperText(whisper);
      if text != "" {
        return Some(text);
      }
      return None;
    }

    /** `listen_for_speech(timeout, use_local_stt)`: never raises; each argument after
        `useLocalStt` is how that step ends. */
    method ListenForSpeech(useLocalStt: bool, mic: MicOutcome, azure: AzureResult,
                           google: GoogleResult, loadOk: bool, whisper: WhisperResult)
      returns (r: ListenResult)
      requires Valid()
      modifies this`whisperModel, this`modelsBuilt, this`tempFiles, this`nextTemp
      ensures Valid()
      ensures r == ListenSpec(azureSttAvailable, useLocalStt && whisperAvailable,
                              old(whisperModel).Some? || loadOk, mic, azure, google, whisper)
      ensures old(whisperModel).Some? ==> whisperModel == old(whisperModel) && modelsBuilt == old(modelsBuilt)
      ensures var reached := WhisperReached(azureSttAvailable, useLocalStt && whisperAvailable, mic, azure, google);
        old(whisperModel).None? && reached ==>
          whisperModel == (if loadOk then Some(old(modelsBuilt)) else None)
          && modelsBuilt == old(modelsBuilt) + (if loadOk then 1 else 0)
      ensures !WhisperReached(azureSttAvailable, useLocalStt && whisperAvailable, mic, azure, google) ==>
        whisperModel == old(whisperModel) && modelsBuilt == old(modelsBuilt)
      ensures old(tempFiles) <= tempFiles
      ensures |tempFiles| == |old(tempFiles)| + LeakedWavFiles(azureSttAvailable, useLocalStt && whisperAvailable,
                                                               old(whisperModel).Some? || loadOk, mic, azure, google, whisper)
    {
      if mic.WaitTimeout? {
        return NoSpeech(TimedOut);
      } else if mic.MicFailed? {
        return NoSpeech(MicrophoneError);
      }
      if azureSttAvailable {
        var a := TryAzureAsWritten(azure);
        if a.Some? {
          return Transcript(a.value);
        }
      }
      if google.GoogleText? {
        return Transcript(Strip(google.text));
      }
      if useLocalStt && whisperAvailable {
        var w := TryWhisper(loadOk, whisper);
        if w.Some? {
          return Transcript(w.value);
        }
      }
      return NoSpeech(GoogleFailureNote(google));
    }
  }
}
