/**
 * The voice-command listener: how a recognised phrase becomes at most one
 * command, and the small listening/error record the recogniser's events and
 * the enable switch update. The browser's recogniser itself is not modelled:
 * whether it exists, what it heard and whether `start()` threw are parameters.
 */
module SpeechRecognition {
  import opened Types
  import JsString

  const NotSupportedMessage := "Speech Recognition API not supported in this browser."

  /** The order in which the phrases are tried: the first match wins. */
  function Priority(c: SpeechCommand): (n: nat)
    ensures n < 4
  {
    match c
    case ScrollUp => 0
    case ScrollDown => 1
    case Pause => 2
    case Resume => 3
  }

  /** The transcript as it is matched and recorded: lower-cased, then trimmed. */
  function Normalize(heard: string): (t: string)
    ensures |t| <= |heard|
    ensures NoUpperCase(t)
    ensures t == [] || (!JsString.IsWhiteSpace(t[0]) && !JsString.IsWhiteSpace(t[|t| - 1]))
    ensures t == [] <==> JsString.AllWhiteSpace(heard)
  {
    var lower := JsString.ToLowerCase(heard);
    LowerKeepsBlank(heard);
    TrimKeepsNoUpperCase(lower);
    JsString.Trim(lower)
  }

  predicate NoUpperCase(s: string)
  {
    forall i :: 0 <= i < |s| ==> !('A' <= s[i] <= 'Z')
  }

  lemma LowerKeepsBlank(heard: string)
    ensures NoUpperCase(JsString.ToLowerCase(heard))
    ensures JsString.AllWhiteSpace(JsString.ToLowerCase(heard)) <==> JsString.AllWhiteSpace(heard)
  {
    var lower := JsString.ToLowerCase(heard);
    forall i | 0 <= i < |heard|
      ensures JsString.IsWhiteSpace(lower[i]) <==> JsString.IsWhiteSpace(heard[i])
    {
      assert lower[i] == JsString.LowerChar(heard[i]);
    }
  }

  lemma TrimKeepsNoUpperCase(s: string)
    requires NoUpperCase(s)
    ensures NoUpperCase(JsString.Trim(s))
  {
    var t := JsString.Trim(s);
    var k := JsString.LeadingSpace(s);
    forall i | 0 <= i < |t|
      ensures !('A' <= t[i] <= 'Z')
    {
      assert t[i] == s[k + i];
    }
  }

  /**
   * The command a normalised transcript triggers: the highest-priority phrase it
   * contains anywhere, or none when it contains none of the four.
   */
  function Classify(t: string): (c: Option<SpeechCommand>)
    ensures c.Some? ==> JsString.Includes(t, Phrase(c.value))
    ensures c.Some? ==> forall d :: Priority(d) < Priority(c.value) ==> !JsString.Includes(t, Phrase(d))
    ensures c.None? <==> forall d :: !JsString.Includes(t, Phrase(d))
  {
    if JsString.Includes(t, Phrase(ScrollUp)) then Some(ScrollUp)
    else if JsString.Includes(t, Phrase(ScrollDown)) then Some(ScrollDown)
    else if JsString.Includes(t, Phrase(Pause)) then Some(Pause)
    else if JsString.Includes(t, Phrase(Resume)) then Some(Resume)
    else None
  }

  /** A phrase embedded in a longer sentence is still recognised. */
  lemma SentenceWithScrollDown()
    ensures Classify("please scroll down now") == Some(ScrollDown)
  {
    var t := "please scroll down now";
    JsString.IncludesWithin(t, "scroll down", 7);
    JsString.MissingCharExcludes(t, "scroll up", 7);
  }

  /** Mentioning two phrases triggers only the higher-priority one. */
  lemma PauseBeforeResume(t: string)
    requires JsString.Includes(t, Phrase(Pause)) && JsString.Includes(t, Phrase(Resume))
    requires !JsString.Includes(t, Phrase(ScrollUp)) && !JsString.Includes(t, Phrase(ScrollDown))
    ensures Classify(t) == Some(Pause)
  {
  }

  /** Classification ignores case and surrounding white space. */
  lemma NormalizeIdempotent(heard: string)
    ensures Normalize(Normalize(heard)) == Normalize(heard)
  {
    var t := Normalize(heard);
    assert JsString.ToLowerCase(t) == t by {
      forall i | 0 <= i < |t|
        ensures JsString.LowerChar(t[i]) == t[i]
      {
      }
    }
    JsString.TrimIdempotent(JsString.ToLowerCase(heard));
  }

  /** What the enable switch asks of the recogniser. */
  datatype ListenRequest = Start | Stop | NoRequest

  /** The enable/disable effect's decision. */
  function ListenAction(hasRecognizer: bool, isEnabled: bool, isListening: bool): (r: ListenRequest)
    ensures r == Start <==> hasRecognizer && isEnabled && !isListening
    ensures r == Stop <==> hasRecognizer && !isEnabled && isListening
  {
    if !hasRecognizer then NoRequest
    else if isEnabled && !isListening then Start
    else if !isEnabled && isListening then Stop
    else NoRequest
  }

  /** Once the recogniser reports what was asked for, the effect asks nothing more. */
  lemma ListenActionSettles(isEnabled: bool, isListening: bool)
    ensures var r := ListenAction(true, isEnabled, isListening);
      r != NoRequest ==> ListenAction(true, isEnabled, r == Start) == NoRequest
  {
  }

  class Recognizer {
    var hasRecognizer: bool
    var isListening: bool
    var recognitionError: Option<string>
    var lastTranscript: Option<string>

    constructor ()
      ensures !hasRecognizer && !isListening
      ensures recognitionError == None && lastTranscript == None
    {
      hasRecognizer := false;
      isListening := false;
      recognitionError := None;
      lastTranscript := None;
    }

    /** The setup effect: a recogniser when the browser has one, otherwise the "not supported" error. */
    method Setup(supported: bool)
      modifies this`hasRecognizer, this`recognitionError
      ensures supported ==> hasRecognizer && recognitionError == old(recognitionError)
      ensures !supported ==> hasRecognizer == old(hasRecognizer) && recognitionError == Some(NotSupportedMessage)
    {
      if supported {
        hasRecognizer := true;
      } else {
        recognitionError := Some(NotSupportedMessage);
      }
    }

    /** The setup effect's cleanup: the recogniser is stopped and dropped. */
    method Teardown()
      modifies this`hasRecognizer
      ensures !hasRecognizer
    {
      hasRecognizer := false;
    }

    method OnStart()
      modifies this`isListening, this`recognitionError
      ensures isListening && recognitionError == None
    {
      isListening := true;
      recognitionError := None;
    }

    /**
     * A batch of results: only the last result's best alternative is read; its
     * normalised text is recorded and classified.
     */
    method OnResult(results: seq<seq<string>>) returns (cmd: Option<SpeechCommand>)
      requires |results| > 0 && |results[|results| - 1]| > 0
      modifies this`lastTranscript
      ensures lastTranscript == Some(Normalize(results[|results| - 1][0]))
      ensures cmd == Classify(lastTranscript.value)
    {
      var last := |results| - 1;
      var transcript := Normalize(results[last][0]);
      lastTranscript := Some(transcript);
      cmd := Classify(transcript);
    }

    method OnError(code: string)
      modifies this`isListening, this`recognitionError
      ensures !isListening && recognitionError == Some(code)
    {
      isListening := false;
      recognitionError := Some(code);
    }

    method OnEnd()
      modifies this`isListening
      ensures !isListening
    {
      isListening := false;
    }

    /**
     * The enable/disable effect. A start that throws is taken to mean the
     * recogniser is already running, so the record says it is listening.
     */
    method SyncListening(isEnabled: bool, startThrows: bool) returns (request: ListenRequest)
      modifies this`isListening
      ensures request == ListenAction(hasRecognizer, isEnabled, old(isListening))
      ensures isListening == (old(isListening) || (request == Start && startThrows))
    {
      request := NoRequest;
      if hasRecognizer {
        if isEnabled && !isListening {
          request := Start;
          if startThrows {
            isListening := true;
          }
        } else if !isEnabled && isListening {
          request := Stop;
        }
      }
    }
  }
}
