/**
 * The language helpers of the WhatsApp assistant: the supported languages,
 * keyword-count language detection, the localized audio error messages
 * with their fallbacks, the text read back to the user after a voice
 * question, and the parsing of `language xx` commands.
 */
module Languages {
  import opened Values
  import opened Text

  /** An entry of `SUPPORTED_LANGUAGES`. */
  datatype LanguageInfo = LanguageInfo(name: string, ttsCode: string, whisperCode: string)

  const SupportedLanguages: map<string, LanguageInfo> := map[
    "en" := LanguageInfo("English", "en", "en"),
    "hi" := LanguageInfo("Hindi", "hi", "hi"),
    "kn" := LanguageInfo("Kannada", "kn", "kn")]

  // ---------------------------------------------------------------------
  // detect_language_from_text

  const HindiKeywords: seq<string> :=
    ["है", "की", "का", "से", "में", "को", "और", "यह", "वह", "हम", "आप", "मैं", "हूं", "हूँ", "नहीं", "हां", "जी", "क्या", "कैसे", "कहां", "कब", "फसल", "खेती", "किसान"]

  const KannadaKeywords: seq<string> :=
    ["ಇದು", "ಅದು", "ನಾನು", "ನೀವು", "ಅವರು", "ಮತ್ತು", "ಆದರೆ", "ಹೇಗೆ", "ಎಲ್ಲಿ", "ಎಂದು", "ಅಲ್ಲ", "ಹೌದು", "ಏನು", "ಯಾವಾಗ", "ಬೆಳೆ", "ಕೃಷಿ", "ರೈತ"]

  /** How many of `words` occur in `text` as substrings. */
  function KeywordCount(words: seq<string>, text: string): (n: nat)
    ensures n <= |words|
  {
    if words == [] then 0
    else (if Contains(text, words[0]) then 1 else 0) + KeywordCount(words[1..], text)
  }

  predicate AnyKeyword(words: seq<string>, text: string) {
    exists i :: 0 <= i < |words| && Contains(text, words[i])
  }

  lemma {:induction false} KeywordCountPositiveIff(words: seq<string>, text: string)
    ensures KeywordCount(words, text) > 0 <==> AnyKeyword(words, text)
  {
    if words != [] {
      KeywordCountPositiveIff(words[1..], text);
      if AnyKeyword(words[1..], text) {
        var i :| 0 <= i < |words[1..]| && Contains(text, words[1..][i]);
        assert Contains(text, words[i + 1]);
      }
      if AnyKeyword(words, text) && !Contains(text, words[0]) {
        var i :| 0 <= i < |words| && Contains(text, words[i]);
        assert words[1..][i - 1] == words[i];
      }
    }
  }

  /** `detect_language_from_text`: Hindi when more Hindi than Kannada keywords
      occur, otherwise Kannada when any Kannada keyword occurs, otherwise English. */
  function DetectLanguage(text: string): (code: string)
    ensures code in SupportedLanguages
  {
    var hindi := KeywordCount(HindiKeywords, text);
    var kannada := KeywordCount(KannadaKeywords, text);
    if hindi > kannada && hindi > 0 then "hi"
    else if kannada > 0 then "kn"
    else "en"
  }

  /** The three outcomes of detection, each stated as a condition on which
      keywords occur. */
  lemma DetectLanguageCases(text: string)
    ensures var hindi := KeywordCount(HindiKeywords, text);
      var kannada := KeywordCount(KannadaKeywords, text);
      && (DetectLanguage(text) == "hi" <==> hindi > kannada)
      && (DetectLanguage(text) == "kn" <==> 0 < kannada && hindi <= kannada)
      && (DetectLanguage(text) == "en" <==> !AnyKeyword(HindiKeywords, text) && !AnyKeyword(KannadaKeywords, text))
  {
    KeywordCountPositiveIff(HindiKeywords, text);
    KeywordCountPositiveIff(KannadaKeywords, text);
  }

  // ---------------------------------------------------------------------
  // get_audio_error_message

  const ErrorMessages: map<string, map<string, string>> := map[
    "download_failed" := map["en" := "❌ Couldn\'t download audio. Please try again.",
        "hi" := "❌ ऑडियो डाउनलोड नहीं हो सका। कृपया पुनः प्रयास करें।",
        "kn" := "❌ ಆಡಿಯೋ ಡೌನ್‌ಲೋಡ್ ಆಗಲಿಲ್ಲ। ದಯವಿಟ್ಟು ಮತ್ತೆ ಪ್ರಯತ್ನಿಸಿ।"],
    "transcription_failed" := map["en" := "🎤 *Audio Processing Failed*\n\nSorry, I couldn\'t understand your voice message. Please try:\n• Speaking more clearly and slowly\n• Recording in a quiet environment\n• Getting closer to your phone\n• Sending a text message instead\n\nYou can also try recording again!",
        "hi" := "🎤 *ऑडियो प्रोसेसिंग असफल*\n\nमाफ़ करें, मैं आपका वॉयस मैसेज नहीं समझ सका। कृपया कोशिश करें:\n• अधिक स्पष्ट और धीरे बोलें\n• शांत वातावरण में रिकॉर्ड करें\n• फोन के करीब जाएं\n• टेक्स्ट मैसेज भेजें\n\nआप दोबारा रिकॉर्ड भी कर सकते हैं!",
        "kn" := "🎤 *ಆಡಿಯೋ ಪ್ರಕ್ರಿಯೆ ವಿಫಲವಾಗಿದೆ*\n\nಕ್ಷಮಿಸಿ, ನಿಮ್ಮ ಧ್ವನಿ ಸಂದೇಶವನ್ನು ನಾನು ಅರ್ಥಮಾಡಿಕೊಳ್ಳಲಾಗಲಿಲ್ಲ। ದಯವಿಟ್ಟು ಪ್ರಯತ್ನಿಸಿ:\n• ಹೆಚ್ಚು ಸ್ಪಷ್ಟವಾಗಿ ಮತ್ತು ನಿಧಾನವಾಗಿ ಮಾತನಾಡಿ\n• ಶಾಂತ ವಾತಾವರಣದಲ್ಲಿ ರೆಕಾರ್ಡ್ ಮಾಡಿ\n• ಫೋನ್‌ಗೆ ಹತ್ತಿರ ಬನ್ನಿ\n• ಪಠ್ಯ ಸಂದೇಶ ಕಳುಹಿಸಿ\n\nನೀವು ಮತ್ತೆ ರೆಕಾರ್ಡ್ ಮಾಡಲೂ ಸಹ ಪ್ರಯತ್ನಿಸಬಹುದು!"],
    "general_error" := map["en" := "❌ Audio processing error. Please try text instead.",
        "hi" := "❌ ऑडियो प्रोसेसिंग त्रुटि। कृपया टेक्स्ट का उपयोग करें।",
        "kn" := "❌ ಆಡಿಯೋ ಪ್ರಕ್ರಿಯೆಯ ದೋಷ। ದಯವಿಟ್ಟು ಪಠ್ಯವನ್ನು ಬಳಸಿ।"]]

  const UnknownErrorMessage := "❌ Error occurred"

  /** The message for `errorType` in `language`, falling back to the English
      message of that type, and to a generic message for an unknown type. */
  function AudioErrorMessage(language: string, errorType: string): string {
    var byLanguage := if errorType in ErrorMessages then ErrorMessages[errorType] else map[];
    var fallback := if "en" in byLanguage then byLanguage["en"] else UnknownErrorMessage;
    if language in byLanguage then byLanguage[language] else fallback
  }

  lemma AudioErrorFallbacks(language: string, errorType: string)
    ensures errorType in ErrorMessages && language in SupportedLanguages ==>
      AudioErrorMessage(language, errorType) == ErrorMessages[errorType][language]
    ensures errorType in ErrorMessages && language !in SupportedLanguages ==>
      AudioErrorMessage(language, errorType) == ErrorMessages[errorType]["en"]
    ensures errorType !in ErrorMessages ==> AudioErrorMessage(language, errorType) == UnknownErrorMessage
  {
    if errorType in ErrorMessages {
      ErrorMessagesCoverLanguages(errorType);
    }
  }

  /** Every error type has a message in each supported language and in no other. */
  lemma ErrorMessagesCoverLanguages(errorType: string)
    requires errorType in ErrorMessages
    ensures ErrorMessages[errorType].Keys == SupportedLanguages.Keys
  {
    if errorType == "download_failed" {
    } else if errorType == "transcription_failed" {
    } else {
      assert errorType == "general_error";
    }
  }

  // ---------------------------------------------------------------------
  // create_audio_response_text

  /** A response template: `before`, the question, `middle`, the answer. */
  datatype Template = Template(before: string, middle: string)

  const AudioTemplates: map<string, Template> := map[
    "en" := Template("You asked: ", ". Here\'s my response: "),
    "hi" := Template("आपने पूछा: ", "। यहाँ मेरा उत्तर है: "),
    "kn" := Template("ನೀವು ಕೇಳಿದ್ದು: ", "। ಇಲ್ಲಿ ನನ್ನ ಉತ್ತರ: ")]

  function TemplateFor(language: string): Template {
    if language in AudioTemplates then AudioTemplates[language] else AudioTemplates["en"]
  }

  /** The question cut to 100 characters and the answer to 300 (each followed
      by "..." when cut), placed in the template of the language. */
  function AudioResponseText(question: string, answer: string, language: string): (r: string)
  {
    var t := TemplateFor(language);
    t.before + Truncate(question, 100) + t.middle + Truncate(answer, 300)
  }

  /** The text is bounded whatever the question and answer; a question of at
      most 100 characters appears whole right after the template's opening,
      and a cut answer ends in "...". */
  lemma AudioResponseShape(question: string, answer: string, language: string)
    ensures var r := AudioResponseText(question, answer, language);
      var t := TemplateFor(language);
      && |r| <= |t.before| + |t.middle| + 406
      && (|question| <= 100 ==> |t.before| + |question| <= |r| && r[|t.before|..|t.before| + |question|] == question)
      && (|answer| > 300 ==> r[|r| - 3..] == "...")
      && (|answer| <= 300 ==> r[|r| - |answer|..] == answer)
  {
    var t := TemplateFor(language);
    FilledTemplateShape(t.before, t.middle, question, answer);
  }

  /** The shape of any filled template, whatever its two pieces of text. */
  lemma FilledTemplateShape(before: string, middle: string, question: string, answer: string)
    ensures var r := before + Truncate(question, 100) + middle + Truncate(answer, 300);
      && |r| <= |before| + |middle| + 406
      && (|question| <= 100 ==> |before| + |question| <= |r| && r[|before|..|before| + |question|] == question)
      && (|answer| > 300 ==> r[|r| - 3..] == "...")
      && (|answer| <= 300 ==> r[|r| - |answer|..] == answer)
  {
    var q := Truncate(question, 100);
    var a := Truncate(answer, 300);
    var p := before + q + middle;
    var r := p + a;
    assert r[|before|..|before| + |q|] == q;
    assert r[|p|..] == a;
  }

  /** An unsupported language gets the English template. */
  lemma UnknownLanguageAnswersInEnglish(question: string, answer: string, language: string)
    requires language !in SupportedLanguages
    ensures AudioResponseText(question, answer, language) == AudioResponseText(question, answer, "en")
  {
  }

  // ---------------------------------------------------------------------
  // handle_language_commands and get_language_menu

  const LanguageMenu :=
    "🌐 *Choose Your Language:*\n"
    + "\n"
    + "*EN* - English\n"
    + "*HI* - Hindi / हिंदी  \n"
    + "*KN* - Kannada / ಕನ್ನಡ\n"
    + "\n"
    + "💬 *Example:* Send \'language hi\' for Hindi\n"
    + "*उदाहरण:* हिंदी के लिए \'language hi\' भेजें\n"
    + "*ಉದಾಹರಣೆ:* ಕನ್ನಡಕ್ಕಾಗಿ \'language kn\' ಕಳುಹಿಸಿ"

  const SetLanguageError := "❌ Error setting language. Please try again."

  /** The confirmation sent after a language is set, in that language. */
  function Confirmation(code: string): (m: string)
    requires code in SupportedLanguages
  {
    var name := SupportedLanguages[code].name;
    if code == "hi" then "✅ भाषा " + name + " में सेट की गई! मैं आपकी कैसे मदद कर सकता हूँ?"
    else if code == "kn" then "✅ ಭಾಷೆ " + name + " ಗೆ ಹೊಂದಿಸಲಾಗಿದೆ! ನಾನು ನಿಮಗೆ ಹೇಗೆ ಸಹಾಯ ಮಾಡಬಹುದು?"
    else "✅ Language set to " + name + "! How can I help you?"
  }

  /** What a message asks of the language handler. */
  datatype LanguageCommand = SetLanguage(code: string) | ShowMenu | NotACommand

  /** `startswith('language ')`, `startswith('भाषा ')` or `startswith('ಭಾಷೆ ')`. */
  predicate HasCommandPrefix(lowered: string) {
    StartsWith(lowered, "language ") || StartsWith(lowered, "भाषा ") || StartsWith(lowered, "ಭಾಷೆ ")
  }

  /** `in ['language', 'languages', 'भाषा', 'ಭಾಷೆ']`. */
  predicate IsMenuWord(lowered: string) {
    lowered == "language" || lowered == "languages" || lowered == "भाषा" || lowered == "ಭಾಷೆ"
  }

  /** The command named by the words of a prefixed message: the second
      word, lowered, when it is a supported code. */
  function CodeCommand(parts: seq<string>): (c: LanguageCommand)
    ensures c.SetLanguage? ==> c.code in SupportedLanguages
  {
    if |parts| >= 2 && Lower(parts[1]) in SupportedLanguages then SetLanguage(Lower(parts[1])) else ShowMenu
  }

  /** The command a message is: after lowering and stripping it, a message
      starting with "language ", "भाषा " or "ಭಾಷೆ " sets the language named by
      its second word (lowered) when that is supported and shows the menu
      otherwise; the bare words show the menu; anything else is no command. */
  function ParseLanguageCommand(message: string): (c: LanguageCommand)
    ensures c.SetLanguage? ==> c.code in SupportedLanguages
  {
    var lowered := Strip(Lower(message));
    if HasCommandPrefix(lowered) then CodeCommand(Words(message))
    else if IsMenuWord(lowered) then ShowMenu
    else NotACommand
  }

  /** The command words, in the case the handler compares them. */
  predicate IsCommandWord(w: string) {
    w == "language" || w == "भाषा" || w == "ಭಾಷೆ"
  }

  lemma LowerKeepsNonSpace(c: char)
    requires !IsSpace(c)
    ensures !IsSpace(LowerChar(c))
  {
  }

  /** A command word, one space and a word: lowering and stripping leave the
      command word and the lowered word. */
  lemma LoweredCommand(keyword: string, word: string)
    requires IsCommandWord(Lower(keyword)) && NoSpace(keyword) && |word| > 0 && NoSpace(word)
    ensures Strip(Lower(keyword + " " + word)) == Lower(keyword) + " " + Lower(word)
    ensures Words(keyword + " " + word) == [keyword, word]
  {
    var m := keyword + " " + word;
    LowerAppend(keyword + " ", word);
    LowerAppend(keyword, " ");
    assert Lower(" ") == " ";
    var l := Lower(keyword) + " " + Lower(word);
    assert Lower(m) == l;
    assert l[0] == Lower(keyword)[0];
    assert !IsSpace(l[0]);
    assert l[|l| - 1] == LowerChar(word[|word| - 1]);
    LowerKeepsNonSpace(word[|word| - 1]);
    StripOfTrimmed(l);
    assert |keyword| > 0;
    WordsOfTwo(keyword, word);
  }

  lemma CommandWordIsPrefix(keyword: string, rest: string)
    requires IsCommandWord(keyword)
    ensures HasCommandPrefix(keyword + " " + rest)
  {
    assert (keyword + " " + rest)[..|keyword| + 1] == keyword + " ";
  }

  /** "language xx" (in any letter case, or with the Hindi or Kannada
      command word) sets the language `xx` names when it is supported. */
  lemma CommandSetsSupportedLanguage(keyword: string, word: string)
    requires IsCommandWord(Lower(keyword)) && NoSpace(keyword)
    requires |word| > 0 && NoSpace(word) && Lower(word) in SupportedLanguages
    ensures ParseLanguageCommand(keyword + " " + word) == SetLanguage(Lower(word))
  {
    LoweredCommand(keyword, word);
    CommandWordIsPrefix(Lower(keyword), Lower(word));
  }

  /** With an unsupported code the handler shows the menu instead. */
  lemma CommandWithUnknownCodeShowsMenu(keyword: string, word: string)
    requires IsCommandWord(Lower(keyword)) && NoSpace(keyword)
    requires |word| > 0 && NoSpace(word) && Lower(word) !in SupportedLanguages
    ensures ParseLanguageCommand(keyword + " " + word) == ShowMenu
  {
    LoweredCommand(keyword, word);
    CommandWordIsPrefix(Lower(keyword), Lower(word));
  }

  /** A bare command word, or "languages", shows the menu. */
  lemma BareCommandWordShowsMenu(keyword: string)
    requires IsMenuWord(Lower(keyword))
    ensures ParseLanguageCommand(keyword) == ShowMenu
  {
    MenuWordIsBare(Lower(keyword));
  }

  lemma MenuWordIsBare(l: string)
    requires IsMenuWord(l)
    ensures Strip(l) == l && !HasCommandPrefix(l)
  {
    assert !IsSpace(l[0]) && !IsSpace(l[|l| - 1]);
    StripOfTrimmed(l);
    if l == "languages" {
      assert l[8] != "language "[8];
    }
  }

  /** The handler's answer to a command once the language is stored. */
  function CommandReply(c: LanguageCommand): (r: Option<string>)
    requires c.SetLanguage? ==> c.code in SupportedLanguages
    ensures r.None? <==> c.NotACommand?
  {
    match c
    case SetLanguage(code) => Some(Confirmation(code))
    case ShowMenu => Some(LanguageMenu)
    case NotACommand => None
  }

  /** No answer to a parsed command is the error reply. */
  lemma ReplyIsNeverAnError(c: LanguageCommand)
    requires c.SetLanguage? ==> c.code in SupportedLanguages
    ensures CommandReply(c) != Some(SetLanguageError)
  {
    assert SetLanguageError[0] == '❌';
    if c.SetLanguage? {
      assert Confirmation(c.code)[0] == '✅';
    } else if c.ShowMenu? {
      assert LanguageMenu[0] == '🌐';
    }
  }
}
