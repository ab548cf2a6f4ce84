/** Translation (tools/translate.py): language names are normalised to codes through a
    fixed table before the translator is called, and a detected code is mapped back to a
    name. The translator and the detector are remote services and become parameters. */
module Translate {
  import opened Text
  import opened Outcomes

  /** `LANGUAGE_CODES.get(name)` */
  function CodeOf(name: string): Option<string>
  {
    match name
    case "spanish" => Some("es")     case "french" => Some("fr")
    case "german" => Some("de")      case "italian" => Some("it")
    case "portuguese" => Some("pt")  case "russian" => Some("ru")
    case "japanese" => Some("ja")    case "chinese" => Some("zh-CN")
    case "korean" => Some("ko")      case "arabic" => Some("ar")
    case "hindi" => Some("hi")       case "turkish" => Some("tr")
    case "dutch" => Some("nl")       case "polish" => Some("pl")
    case "swedish" => Some("sv")     case "norwegian" => Some("no")
    case "danish" => Some("da")      case "finnish" => Some("fi")
    case "greek" => Some("el")       case "hebrew" => Some("he")
    case "thai" => Some("th")        case "vietnamese" => Some("vi")
    case "indonesian" => Some("id")  case "malay" => Some("ms")
    case "filipino" => Some("fil")   case "czech" => Some("cs")
    case "hungarian" => Some("hu")   case "romanian" => Some("ro")
    case "ukrainian" => Some("uk")   case "bengali" => Some("bn")
    case "urdu" => Some("ur")        case "persian" => Some("fa")
    case _ => None
  }

  /** `{v: k for k, v in LANGUAGE_CODES.items()}.get(code)` */
  function NameOf(code: string): Option<string>
  {
    match code
    case "es" => Some("spanish")     case "fr" => Some("french")
    case "de" => Some("german")      case "it" => Some("italian")
    case "pt" => Some("portuguese")  case "ru" => Some("russian")
    case "ja" => Some("japanese")    case "zh-CN" => Some("chinese")
    case "ko" => Some("korean")      case "ar" => Some("arabic")
    case "hi" => Some("hindi")       case "tr" => Some("turkish")
    case "nl" => Some("dutch")       case "pl" => Some("polish")
    case "sv" => Some("swedish")     case "no" => Some("norwegian")
    case "da" => Some("danish")      case "fi" => Some("finnish")
    case "el" => Some("greek")       case "he" => Some("hebrew")
    case "th" => Some("thai")        case "vi" => Some("vietnamese")
    case "id" => Some("indonesian")  case "ms" => Some("malay")
    case "fil" => Some("filipino")   case "cs" => Some("czech")
    case "hu" => Some("hungarian")   case "ro" => Some("romanian")
    case "uk" => Some("ukrainian")   case "bn" => Some("bengali")
    case "ur" => Some("urdu")        case "fa" => Some("persian")
    case _ => None
  }

  /** The reverse map undoes the table: every name's code maps back to that name. */
  lemma NameOfInvertsCodeOf(name: string)
    requires CodeOf(name).Some?
    ensures NameOf(CodeOf(name).value) == Some(name)
  {
  }

  /** Every code the reverse map knows is the code of the name it gives, so the table's
      codes are distinct and the comprehension loses no entry. */
  lemma CodeOfInvertsNameOf(code: string)
    requires NameOf(code).Some?
    ensures CodeOf(NameOf(code).value) == Some(code)
  {
  }

  /** `LANGUAGE_CODES.get(lang.lower(), lang.lower())`: a table name becomes its code,
      which names it back; anything else is only lower-cased. */
  function Normalise(lang: string): (r: string)
    ensures CodeOf(Lower(lang)).Some? ==> NameOf(r) == Some(Lower(lang))
    ensures CodeOf(Lower(lang)).None? ==> r == Lower(lang)
  {
    match CodeOf(Lower(lang))
    case Some(code) =>
      NameOfInvertsCodeOf(Lower(lang));
      code
    case None => Lower(lang)
  }

  /** Every code but `zh-CN` is lower case. */
  lemma CodesAreLowerCase(name: string)
    requires CodeOf(name).Some? && CodeOf(name).value != "zh-CN"
    ensures Lower(CodeOf(name).value) == CodeOf(name).value
  {
  }

  /** No code is also a table name. */
  lemma CodesAreNoNames(name: string)
    requires CodeOf(name).Some?
    ensures CodeOf(CodeOf(name).value).None?
  {
  }

  /** Normalising twice changes nothing, except for Chinese, whose code `zh-CN` is
      lower-cased by a second pass. */
  lemma {:induction false} NormaliseIdempotent(lang: string)
    requires Normalise(lang) != "zh-CN"
    ensures Normalise(Normalise(lang)) == Normalise(lang)
  {
    LowerIdempotent(lang);
    if CodeOf(Lower(lang)).Some? {
      CodesAreLowerCase(Lower(lang));
      CodesAreNoNames(Lower(lang));
    }
  }

  lemma ChineseNormalisesTwoWays()
    ensures Normalise("Chinese") == "zh-CN"
    ensures Normalise(Normalise("Chinese")) == "zh-cn"
  {
    assert Lower("Chinese") == "chinese";
    assert Lower("zh-CN") == "zh-cn";
  }

  /** The source language handed to the translator: `"auto"` as given, else normalised. */
  function SourceCode(sourceLanguage: string): (r: string)
    ensures r == "auto" <==> Lower(sourceLanguage) == "auto"
  {
    if sourceLanguage == "auto" then "auto"
    else
      assert Lower("auto") == "auto";
      assert CodeOf("auto").None?;
      if Lower(sourceLanguage) == "auto" then "auto"
      else
        NormalisedIsNotAuto(sourceLanguage);
        Normalise(sourceLanguage)
  }

  lemma NormalisedIsNotAuto(lang: string)
    requires Lower(lang) != "auto"
    ensures Normalise(lang) != "auto"
  {
  }

  /** `translate_text`: `translate(source, target, text)` is the remote translator, None
      when it raises. The reply is the short form exactly when the source resolves to
      automatic detection. */
  function TranslateText(text: string, targetLanguage: string, sourceLanguage: string,
                         translate: (string, string, string) -> Option<string>): (r: Answer)
    ensures translate(SourceCode(sourceLanguage), Normalise(targetLanguage), text).None?
            <==> r == Failed("Could not translate text. Error: ")
    ensures r.Says? ==> (StartsWith(r.text, "Translation: ") <==> Lower(sourceLanguage) == "auto")
    ensures translate(SourceCode(sourceLanguage), Normalise(targetLanguage), text).Some? ==>
              var v := translate(SourceCode(sourceLanguage), Normalise(targetLanguage), text).value;
              r == Says(if Lower(sourceLanguage) == "auto" then "Translation: " + v
                        else "Translation (" + sourceLanguage + " → " + targetLanguage + "): " + v)
  {
    var source := SourceCode(sourceLanguage);
    var target := Normalise(targetLanguage);
    match translate(source, target, text)
    case None => Failed("Could not translate text. Error: ")
    case Some(result) =>
      if source == "auto" then
        var reply := "Translation: " + result;
        assert reply[..13] == "Translation: ";
        Says(reply)
      else
        var reply := "Translation (" + sourceLanguage + " → " + targetLanguage + "): " + result;
        assert reply[11] == ' ';
        Says(reply)
  }

  /** The name `detect_language` reports for a code: the table's name, else the code. */
  function LanguageName(code: string): (r: string)
    ensures NameOf(code).Some? ==> CodeOf(r) == Some(code)
    ensures NameOf(code).None? ==> r == code
  {
    match NameOf(code)
    case Some(name) =>
      CodeOfInvertsNameOf(code);
      name
    case None => code
  }

  /** `detect_language`: `detect(text)` is the remote detector, None when it raises. */
  function DetectLanguage(text: string, detect: string -> Option<string>): (r: Answer)
    ensures detect(text).None? <==> r.Failed?
    ensures r.Failed? ==> r.prefix == "Could not detect language. Error: "
    ensures detect(text).Some? ==>
              r == Says("Detected language: " + Title(LanguageName(detect(text).value))
                        + " (" + detect(text).value + ")")
  {
    match detect(text)
    case None => Failed("Could not detect language. Error: ")
    case Some(code) => Says("Detected language: " + Title(LanguageName(code)) + " (" + code + ")")
  }

  /** Detecting the code of a table language reports that language's name. */
  lemma DetectReportsTableName(text: string, detect: string -> Option<string>, name: string)
    requires CodeOf(name).Some? && detect(text) == CodeOf(name)
    ensures DetectLanguage(text, detect)
            == Says("Detected language: " + Title(name) + " (" + CodeOf(name).value + ")")
  {
    NameOfInvertsCodeOf(name);
  }
}
