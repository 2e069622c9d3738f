/**
 * The control panel's logic: the text colour that contrasts with a background
 * colour, the effect that keeps the text colour in step with the background,
 * the translation language's display name, the play button's label and the
 * busy/result sequence of the two AI tools. The AI service calls themselves are
 * not modelled; their outcome is a parameter.
 */
module Controls {
  import opened Types
  import JsString
  import Orchestrator

  // ---------------------------------------------------------------------------
  // `parseInt(text, 16)`

  predicate IsHexDigit(c: char)
  {
    ('0' <= c <= '9') || ('a' <= c <= 'f') || ('A' <= c <= 'F')
  }

  function DigitValue(c: char): (v: nat)
    requires IsHexDigit(c)
    ensures v < 16
  {
    if '0' <= c <= '9' then c as int - '0' as int
    else if 'a' <= c <= 'f' then c as int - 'a' as int + 10
    else c as int - 'A' as int + 10
  }

  function Pow16(n: nat): (p: nat)
    ensures p >= 1
  {
    if n == 0 then 1 else 16 * Pow16(n - 1)
  }

  /** The number a run of hex digits spells, most significant first. */
  function DigitsValue(ds: string): (v: nat)
    requires forall i :: 0 <= i < |ds| ==> IsHexDigit(ds[i])
    ensures v < Pow16(|ds|)
  {
    if ds == [] then 0
    else DigitsValue(ds[..|ds| - 1]) * 16 + DigitValue(ds[|ds| - 1])
  }

  /** The length of the longest run of hex digits at the start of `s`. */
  function HexRun(s: string): (n: nat)
    ensures n <= |s|
    ensures forall i :: 0 <= i < n ==> IsHexDigit(s[i])
    ensures n < |s| ==> !IsHexDigit(s[n])
  {
    if s != [] && IsHexDigit(s[0]) then 1 + HexRun(s[1..]) else 0
  }

  /**
   * The text after leading white space, a sign and a `0x` prefix; and whether
   * the sign was `-`. What is left is a suffix of `s` that starts at most three
   * characters after the white space.
   */
  function Unsigned(s: string): (r: (bool, string))
    ensures var k := |s| - |r.1|;
      && JsString.LeadingSpace(s) <= k <= JsString.LeadingSpace(s) + 3
      && r.1 == s[k..]
    ensures r.0 <==> JsString.LeadingSpace(s) < |s| && s[JsString.LeadingSpace(s)] == '-'
  {
    var t := JsString.TrimStart(s);
    var negative := t != [] && t[0] == '-';
    var u := if t != [] && (t[0] == '-' || t[0] == '+') then t[1..] else t;
    var v := if |u| >= 2 && u[0] == '0' && (u[1] == 'x' || u[1] == 'X') then u[2..] else u;
    (negative, v)
  }

  /**
   * `parseInt(s, 16)`: the value of the hex digits that follow the optional
   * white space, sign and `0x`, up to the first other character; `None` for the
   * not-a-number result when there are no such digits.
   */
  function ParseHex(s: string): (r: Option<int>)
    ensures var (negative, digits) := Unsigned(s); var n := HexRun(digits);
      && (r.None? <==> n == 0)
      && (r.Some? ==> r.value == (if negative then -1 else 1) * DigitsValue(digits[..n]))
      && (r.Some? && !negative ==> 0 <= r.value < Pow16(n))
  {
    var (negative, digits) := Unsigned(s);
    var n := HexRun(digits);
    if n == 0 then None
    else
      var v: int := DigitsValue(digits[..n]);
      Some(if negative then -v else v)
  }

  /** The byte two hex digits spell, high digit first. */
  function PairValue(hi: char, lo: char): (v: nat)
    requires IsHexDigit(hi) && IsHexDigit(lo)
    ensures v < 256
  {
    16 * DigitValue(hi) + DigitValue(lo)
  }

  /** Two hex digits of either case, and nothing else, parse as the byte they spell. */
  lemma ParseHexPair(hi: char, lo: char)
    requires IsHexDigit(hi) && IsHexDigit(lo)
    ensures ParseHex([hi, lo]) == Some(PairValue(hi, lo))
  {
    var s := [hi, lo];
    UnsignedPair(hi, lo);
    assert s[1..] == [lo] && s[1..][1..] == [];
    assert HexRun(s) == 2;
    assert s[..2] == s && s[..1] == [hi] && [hi][..0] == [];
    assert DigitsValue([hi]) == DigitValue(hi);
  }

  /** A pair of hex digits has no white space, sign or `0x` to strip. */
  lemma UnsignedPair(hi: char, lo: char)
    requires IsHexDigit(hi) && IsHexDigit(lo)
    ensures Unsigned([hi, lo]) == (false, [hi, lo])
  {
    var s := [hi, lo];
    assert !JsString.IsWhiteSpace(hi);
    assert JsString.SkipSpace(s, 0) == 0;
    assert JsString.TrimStart(s) == s[0..] == s;
  }

  /** Two hex digits for a byte, in lower case as a colour input reports them, or in upper case. */
  function Hex2(n: nat, lowerCase: bool): (s: string)
    requires n < 256
    ensures |s| == 2 && IsHexDigit(s[0]) && IsHexDigit(s[1])
    ensures DigitValue(s[0]) == n / 16 && DigitValue(s[1]) == n % 16
    ensures PairValue(s[0], s[1]) == n
  {
    [HexChar(n / 16, lowerCase), HexChar(n % 16, lowerCase)]
  }

  /** The hex digit with value `d`; its letters, if any, in the requested case. */
  function HexChar(d: nat, lowerCase: bool): (c: char)
    requires d < 16
    ensures IsHexDigit(c) && DigitValue(c) == d
    ensures lowerCase ==> !('A' <= c <= 'F')
    ensures !lowerCase ==> !('a' <= c <= 'f')
  {
    if d < 10 then ('0' as int + d) as char
    else if lowerCase then ('a' as int + d - 10) as char
    else ('A' as int + d - 10) as char
  }

  /** Reading back two digits written by `Hex2`, in either case, gives the byte. */
  lemma ParseHex2(n: nat, lowerCase: bool)
    requires n < 256
    ensures ParseHex(Hex2(n, lowerCase)) == Some(n)
  {
    var s := Hex2(n, lowerCase);
    assert s == [s[0], s[1]];
    ParseHexPair(s[0], s[1]);
  }

  // ---------------------------------------------------------------------------
  // Contrast colour

  /** `s.substring(start, end)`: both ends clamped to the string, taken in increasing order. */
  function Substring(s: string, start: int, end: int): (r: string)
    ensures 0 <= start <= end <= |s| ==> r == s[start..end]
    ensures |r| <= |s|
  {
    var a := if start < 0 then 0 else if start > |s| then |s| else start;
    var b := if end < 0 then 0 else if end > |s| then |s| else end;
    if a <= b then s[a..b] else s[b..a]
  }

  /**
   * The three channels read from the digit pairs at positions 1-2, 3-4 and 5-6.
   * A colour too short for a pair reads that pair from an empty string.
   */
  function Channels(hex: string): (ch: (Option<int>, Option<int>, Option<int>))
    ensures |hex| >= 7 ==> ch == (ParseHex(hex[1..3]), ParseHex(hex[3..5]), ParseHex(hex[5..7]))
    ensures |hex| <= 5 ==> ch.2 == None
  {
    var ch := (ParseHex(Substring(hex, 1, 3)), ParseHex(Substring(hex, 3, 5)), ParseHex(Substring(hex, 5, 7)));
    if |hex| <= 5 then
      assert Substring(hex, 5, 7) == [];
      EmptyIsNaN();
      ch
    else
      ch
  }

  /** `parseInt("", 16)` is not a number. */
  lemma EmptyIsNaN()
    ensures ParseHex([]) == None
  {
    assert JsString.TrimStart([]) == [];
  }

  /** The relative luminance of a colour: in [0, 1] for channels in [0, 255]. */
  function Luminosity(r: int, g: int, b: int): (l: real)
    ensures l * 2550000.0 == (2126 * r + 7152 * g + 722 * b) as real
    ensures 0 <= r <= 255 && 0 <= g <= 255 && 0 <= b <= 255 ==> 0.0 <= l <= 1.0
  {
    (0.2126 * r as real + 0.7152 * g as real + 0.0722 * b as real) / 255.0
  }

  /**
   * Black text on bright backgrounds, white text on dark ones. A channel that
   * does not parse makes the luminance not-a-number, which compares false, so
   * the answer is white.
   */
  function OppositeColor(hex: string): (c: string)
    ensures c == "#000000" || c == "#FFFFFF"
    ensures var (r, g, b) := Channels(hex);
      c == "#000000" <==> r.Some? && g.Some? && b.Some? && Luminosity(r.value, g.value, b.value) > 0.5
  {
    var (r, g, b) := Channels(hex);
    if r.Some? && g.Some? && b.Some? && Luminosity(r.value, g.value, b.value) > 0.5 then "#000000"
    else "#FFFFFF"
  }

  /** A colour written `#` and six hex digits, each in either case. */
  predicate IsHexColor(hex: string)
  {
    |hex| == 7 && hex[0] == '#' && forall i :: 1 <= i < 7 ==> IsHexDigit(hex[i])
  }

  /** The channels of any `#rrggbb` colour, whatever the case of its digits, are its three digit pairs. */
  lemma ChannelsOfHex(hex: string)
    requires IsHexColor(hex)
    ensures Channels(hex) ==
      (Some(PairValue(hex[1], hex[2])), Some(PairValue(hex[3], hex[4])), Some(PairValue(hex[5], hex[6])))
  {
    assert hex[1..3] == [hex[1], hex[2]] && hex[3..5] == [hex[3], hex[4]] && hex[5..7] == [hex[5], hex[6]];
    ParseHexPair(hex[1], hex[2]);
    ParseHexPair(hex[3], hex[4]);
    ParseHexPair(hex[5], hex[6]);
  }

  /** The luminance threshold in whole numbers: the weights scaled by 10000 and the bound by 2550000. */
  lemma ThresholdInIntegers(r: int, g: int, b: int)
    ensures Luminosity(r, g, b) > 0.5 <==> 2126 * r + 7152 * g + 722 * b > 1275000
  {
    var weighted := 0.2126 * r as real + 0.7152 * g as real + 0.0722 * b as real;
    assert weighted * 10000.0 == (2126 * r + 7152 * g + 722 * b) as real;
  }

  /** For any `#rrggbb` colour, in any case, the text is black exactly when the integer threshold holds. */
  lemma OppositeOfHex(hex: string)
    requires IsHexColor(hex)
    ensures var r, g, b := PairValue(hex[1], hex[2]), PairValue(hex[3], hex[4]), PairValue(hex[5], hex[6]);
      OppositeColor(hex) == "#000000" <==> 2126 * r + 7152 * g + 722 * b > 1275000
  {
    ChannelsOfHex(hex);
    ThresholdInIntegers(PairValue(hex[1], hex[2]), PairValue(hex[3], hex[4]), PairValue(hex[5], hex[6]));
  }

  /** The colour with these components, written `#rrggbb` in lower case or `#RRGGBB` in upper case. */
  function Rgb(r: nat, g: nat, b: nat, lowerCase: bool): (s: string)
    requires r < 256 && g < 256 && b < 256
    ensures IsHexColor(s)
    ensures PairValue(s[1], s[2]) == r && PairValue(s[3], s[4]) == g && PairValue(s[5], s[6]) == b
  {
    "#" + Hex2(r, lowerCase) + Hex2(g, lowerCase) + Hex2(b, lowerCase)
  }

  /** The channels of a written colour read back as its components, in either case. */
  lemma ChannelsOfRgb(r: nat, g: nat, b: nat, lowerCase: bool)
    requires r < 256 && g < 256 && b < 256
    ensures Channels(Rgb(r, g, b, lowerCase)) == (Some(r), Some(g), Some(b))
  {
    ChannelsOfHex(Rgb(r, g, b, lowerCase));
  }

  /** For any written colour, in either case, the choice is the integer threshold on its components. */
  lemma OppositeOfRgb(r: nat, g: nat, b: nat, lowerCase: bool)
    requires r < 256 && g < 256 && b < 256
    ensures OppositeColor(Rgb(r, g, b, lowerCase)) == "#000000" <==> 2126 * r + 7152 * g + 722 * b > 1275000
  {
    OppositeOfHex(Rgb(r, g, b, lowerCase));
  }

  /** Black and white are each other's opposites, and the colour input's white gets black text. */
  lemma BlackAndWhite()
    ensures OppositeColor("#000000") == "#FFFFFF"
    ensures OppositeColor("#FFFFFF") == "#000000"
    ensures OppositeColor("#ffffff") == "#000000"
  {
    assert Rgb(0, 0, 0, false) == "#000000";
    assert Rgb(255, 255, 255, false) == "#FFFFFF";
    assert Rgb(255, 255, 255, true) == "#ffffff";
    OppositeOfRgb(0, 0, 0, false);
    OppositeOfRgb(255, 255, 255, false);
    OppositeOfRgb(255, 255, 255, true);
  }

  /** A colour too short to hold a blue pair, such as `#FFF`, always gets white text. */
  lemma ShortColorGetsWhite(hex: string)
    requires |hex| <= 5
    ensures OppositeColor(hex) == "#FFFFFF"
  {
    assert Substring(hex, 5, 7) == [];
  }

  /** The text-colour effect: a patch only when the contrasting colour differs from the current text colour. */
  function SyncTextColor(c: Config): (p: Option<ConfigPatch>)
    ensures p.None? <==> OppositeColor(c.backgroundColor) == c.textColor
    ensures p.Some? ==> p.value == TextColorPatch(OppositeColor(c.backgroundColor))
  {
    var newTextColor := OppositeColor(c.backgroundColor);
    if newTextColor != c.textColor then Some(TextColorPatch(newTextColor)) else None
  }

  /** After the effect's update is applied, the effect has nothing more to do. */
  lemma SyncTextColorSettles(c: Config)
    ensures var p := SyncTextColor(c);
      var next := if p.Some? then Orchestrator.MergeConfig(c, p.value) else c;
      && SyncTextColor(next) == None
      && next.backgroundColor == c.backgroundColor
  {
  }

  // ---------------------------------------------------------------------------
  // Translation language, play button, AI tools

  /**
   * `find(l => l.code === code)?.name || code`: the name of the first language
   * with this code, or the code itself when none has it or that name is empty.
   */
  function LanguageNameIn(languages: seq<Language>, code: string): (name: string)
    ensures (forall k :: 0 <= k < |languages| ==> languages[k].code != code) ==> name == code
    ensures forall k :: (0 <= k < |languages| && languages[k].code == code &&
                         forall j :: 0 <= j < k ==> languages[j].code != code) ==>
      name == (if languages[k].name != [] then languages[k].name else code)
    ensures name == code || exists k :: 0 <= k < |languages| && name == languages[k].name
  {
    if languages == [] then code
    else if languages[0].code == code then (if languages[0].name != [] then languages[0].name else code)
    else
      var name := LanguageNameIn(languages[1..], code);
      assert forall k :: 1 <= k < |languages| ==> languages[k] == languages[1..][k - 1];
      name
  }

  /** The display name the translate tool sends for a language code. */
  function LanguageName(code: string): (name: string)
    ensures (forall k :: 0 <= k < |AiLanguages| ==> AiLanguages[k].code != code) ==> name == code
    ensures name == code || exists k :: 0 <= k < |AiLanguages| && name == AiLanguages[k].name
  {
    LanguageNameIn(AiLanguages, code)
  }

  /** Every listed language is shown by its own name; an unlisted code is shown as is. */
  lemma LanguageNames(code: string)
    ensures forall k :: 0 <= k < |AiLanguages| ==> LanguageName(AiLanguages[k].code) == AiLanguages[k].name
    ensures (forall k :: 0 <= k < |AiLanguages| ==> AiLanguages[k].code != code) ==> LanguageName(code) == code
  {
    forall k | 0 <= k < |AiLanguages|
      ensures LanguageName(AiLanguages[k].code) == AiLanguages[k].name
    {
      assert forall j :: 0 <= j < |AiLanguages| && j != k ==> AiLanguages[j].code != AiLanguages[k].code;
    }
  }

  function PlayButtonLabel(isPlaying: bool): (caption: string)
    ensures caption == "Pause" <==> isPlaying
    ensures caption == "Play" <==> !isPlaying
  {
    if isPlaying then "Pause" else "Play"
  }

  /** How a call to the AI service ended. */
  datatype AiOutcome = Succeeded(text: string) | Failed(message: string)

  /** What the result panel shows for an outcome. */
  function ResultText(o: AiOutcome): (t: string)
    ensures o.Succeeded? ==> t == o.text
    ensures o.Failed? ==> |t| == 7 + |o.message| && t[..7] == "Error: " && t[7..] == o.message
  {
    match o
    case Succeeded(text) => text
    case Failed(message) => "Error: " + message
  }

  /** The request the translate tool sends: the current script's text and the language's name. */
  datatype TranslateRequest = TranslateRequest(content: string, languageName: string)

  /** The summarize and translate tools: a busy flag and a result each, and the chosen language. */
  class AiPanel {
    var isSummarizing: bool
    var summaryResult: Option<string>
    var isTranslating: bool
    var translationResult: Option<string>
    var targetLanguage: string

    constructor ()
      ensures !isSummarizing && summaryResult == None
      ensures !isTranslating && translationResult == None
      ensures targetLanguage == AiLanguages[0].code
    {
      isSummarizing := false;
      summaryResult := None;
      isTranslating := false;
      translationResult := None;
      targetLanguage := AiLanguages[0].code;
    }

    method SelectLanguage(code: string)
      modifies this`targetLanguage
      ensures targetLanguage == code
    {
      targetLanguage := code;
    }

    /** The summarize button: busy, the old result cleared; the script's text goes to the service. */
    method BeginSummarize(content: string) returns (request: string)
      modifies this`isSummarizing, this`summaryResult
      ensures isSummarizing && summaryResult == None && request == content
    {
      isSummarizing := true;
      summaryResult := None;
      request := content;
    }

    /** The service answered or failed: the result is shown and the panel is no longer busy. */
    method FinishSummarize(outcome: AiOutcome)
      modifies this`isSummarizing, this`summaryResult
      ensures !isSummarizing && summaryResult == Some(ResultText(outcome))
    {
      summaryResult := Some(ResultText(outcome));
      isSummarizing := false;
    }

    method BeginTranslate(content: string) returns (request: TranslateRequest)
      modifies this`isTranslating, this`translationResult
      ensures isTranslating && translationResult == None
      ensures request == TranslateRequest(content, LanguageName(targetLanguage))
    {
      isTranslating := true;
      translationResult := None;
      request := TranslateRequest(content, LanguageName(targetLanguage));
    }

    method FinishTranslate(outcome: AiOutcome)
      modifies this`isTranslating, this`translationResult
      ensures !isTranslating && translationResult == Some(ResultText(outcome))
    {
      translationResult := Some(ResultText(outcome));
      isTranslating := false;
    }
  }
}
