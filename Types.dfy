/**
 * The records and constants the teleprompter is built from: the stored script,
 * the display configuration, the four voice commands and the fixed ranges and
 * defaults of the settings panel.
 */
module Types {

  datatype Option<+T> = None | Some(value: T)

  /** A script of the library. `lastModified` is an epoch time in milliseconds. */
  datatype Script = Script(id: string, name: string, content: string, lastModified: int)

  /** The display settings; every field can be set on its own. */
  datatype Config = Config(
    scrollSpeed: real,
    fontSize: int,
    backgroundColor: string,
    textColor: string,
    isMirrorMode: bool,
    isVoiceActive: bool,
    isDarkMode: bool)

  /** A partial configuration: `None` stands for a field the update does not mention. */
  datatype ConfigPatch = ConfigPatch(
    scrollSpeed: Option<real>,
    fontSize: Option<int>,
    backgroundColor: Option<string>,
    textColor: Option<string>,
    isMirrorMode: Option<bool>,
    isVoiceActive: Option<bool>,
    isDarkMode: Option<bool>)

  const EmptyPatch := ConfigPatch(None, None, None, None, None, None, None)

  /** A patch that sets the text colour and nothing else. */
  function TextColorPatch(color: string): (p: ConfigPatch)
    ensures p.textColor == Some(color)
    ensures p.scrollSpeed.None? && p.fontSize.None? && p.backgroundColor.None?
    ensures p.isMirrorMode.None? && p.isVoiceActive.None? && p.isDarkMode.None?
  {
    EmptyPatch.(textColor := Some(color))
  }

  /** The voice commands; each is recognised by the phrase it is keyed by. */
  datatype SpeechCommand = ScrollUp | ScrollDown | Pause | Resume

  function Phrase(c: SpeechCommand): (p: string)
    ensures |p| > 0
  {
    match c
    case ScrollUp => "scroll up"
    case ScrollDown => "scroll down"
    case Pause => "pause"
    case Resume => "resume"
  }

  lemma PhrasesAreDistinct(c: SpeechCommand, d: SpeechCommand)
    ensures Phrase(c) == Phrase(d) <==> c == d
  {
  }

  const DefaultConfig := Config(1.5, 48, "#000000", "#FFFFFF", false, false, true)

  const MinSpeed: real := 0.1
  const MaxSpeed: real := 5.0
  const SpeedStep: real := 0.1
  const MinFontSize: int := 24
  const MaxFontSize: int := 120
  const FontSizeStep: int := 2

  const LocalStorageScriptKey := "geminiTeleprompterScripts"

  /** A target language of the translation tool. */
  datatype Language = Language(code: string, name: string)

  const AiLanguages: seq<Language> := [
    Language("en", "English"),
    Language("es", "Spanish"),
    Language("fr", "French"),
    Language("de", "German"),
    Language("zh", "Chinese"),
    Language("ja", "Japanese")
  ]
}
