/**
 * The script editor dialog: the text, the name and the error line it keeps,
 * the checks its save button and its file upload make, and how an uploaded
 * file's name becomes a script name. Reading the file is asynchronous in the
 * browser; here the upload is split into the type check and the two reader
 * callbacks, and the fresh id, the clock and the locale date are parameters.
 */
module ScriptInput {
  import opened Types
  import JsString

  const EmptyContentError := "Script content cannot be empty."
  const NotPlainTextError := "Please upload a plain text file (.txt)."
  const ReadFailedError := "Failed to read file."
  const NewScriptName := "New Script"
  const UploadedScriptName := "Uploaded Script"

  /** The file an upload picked: its name and its MIME type. */
  datatype UploadFile = UploadFile(name: string, mimeType: string)

  /** Every part but the last. */
  function DropLast<T>(parts: seq<T>): (r: seq<T>)
    ensures |parts| > 0 ==> r == parts[..|parts| - 1]
    ensures |parts| == 0 ==> r == []
  {
    if |parts| == 0 then [] else parts[..|parts| - 1]
  }

  /**
   * The name an uploaded file gives its script: the file name without its last
   * `.`-separated part, or "Uploaded Script" when that leaves nothing.
   */
  function UploadedName(fileName: string): (name: string)
    ensures var dot := JsString.LastIndexOf(fileName, '.');
      && (dot <= 0 ==> name == UploadedScriptName)
      && (dot > 0 ==> name == fileName[..dot])
  {
    var base := JsString.Join(DropLast(JsString.Split(fileName, '.')), '.');
    BaseIsBeforeLastDot(fileName);
    if base != [] then base else UploadedScriptName
  }

  /** Joining all split parts but the last gives the text before the last separator. */
  lemma BaseIsBeforeLastDot(s: string)
    ensures var dot := JsString.LastIndexOf(s, '.');
      JsString.Join(DropLast(JsString.Split(s, '.')), '.') == if dot == -1 then [] else s[..dot]
  {
    var dot := JsString.LastIndexOf(s, '.');
    if dot >= 0 {
      var tail := s[dot + 1..];
      assert s == s[..dot] + ['.'] + tail;
      SplitAround(s[..dot], '.', tail);
      SplitWithout(tail, '.');
      var parts := JsString.Split(s, '.');
      assert DropLast(parts) == JsString.Split(s[..dot], '.');
      JsString.JoinSplit(s[..dot], '.');
    } else {
      SplitWithout(s, '.');
    }
  }

  /** A text without the separator splits into itself. */
  lemma SplitWithout(s: string, sep: char)
    requires sep !in s
    ensures JsString.Split(s, sep) == [s]
  {
    JsString.JoinSplit(s, sep);
  }

  /** Splitting at one separator splits each side. */
  lemma {:induction false} SplitAround(a: string, sep: char, b: string)
    ensures JsString.Split(a + [sep] + b, sep) == JsString.Split(a, sep) + JsString.Split(b, sep)
    decreases |a|
  {
    if a == [] {
      assert a + [sep] + b == [sep] + b;
      assert ([sep] + b)[1..] == b;
    } else {
      var s := a + [sep] + b;
      assert s[1..] == a[1..] + [sep] + b;
      assert s[0] == a[0];
      SplitAround(a[1..], sep, b);
    }
  }

  lemma UploadedNameExamples()
    ensures UploadedName("a.b.txt") == "a.b"
    ensures UploadedName("README") == UploadedScriptName
    ensures UploadedName(".txt") == UploadedScriptName
  {
    var f := "a.b.txt";
    var dot := JsString.LastIndexOf(f, '.');
    assert f[3] == '.' && f[4..] == "txt";
    assert dot == 3;
    assert f[..3] == "a.b";
    assert '.' !in "README";
    assert ".txt"[0] == '.' && ".txt"[1..] == "txt";
  }

  /**
   * What the save button hands on: nothing when the content is blank; otherwise
   * a new record with the content as typed, the trimmed name (or "Script" and
   * the date when that is blank), the fresh id and the current time.
   */
  function SaveRecord(text: string, name: string, newId: string, now: int, dateLabel: string): (r: Option<Script>)
    ensures r.None? <==> JsString.AllWhiteSpace(text)
    ensures r.Some? ==> r.value.content == text && r.value.id == newId && r.value.lastModified == now
    ensures r.Some? && !JsString.AllWhiteSpace(name) ==> r.value.name == JsString.Trim(name)
    ensures r.Some? && JsString.AllWhiteSpace(name) ==> r.value.name == "Script " + dateLabel
    ensures r.Some? ==> r.value.name != []
  {
    if JsString.Trim(text) == [] then None
    else
      var trimmed := JsString.Trim(name);
      Some(Script(newId, if trimmed != [] then trimmed else "Script " + dateLabel, text, now))
  }

  /** The editor's state: the text area, the name field and the error line. */
  class Editor {
    var scriptText: string
    var scriptName: string
    var error: Option<string>

    constructor (currentContent: string)
      ensures scriptText == currentContent && scriptName == NewScriptName && error == None
    {
      scriptText := currentContent;
      scriptName := NewScriptName;
      error := None;
    }

    /** Typing in the text area replaces the text and clears the error. */
    method EditText(text: string)
      modifies this`scriptText, this`error
      ensures scriptText == text && error == None
    {
      scriptText := text;
      error := None;
    }

    method EditName(name: string)
      modifies this`scriptName
      ensures scriptName == name
    {
      scriptName := name;
    }

    /** The save button: blank content only sets the error; otherwise the record to save. */
    method HandleSave(newId: string, now: int, dateLabel: string) returns (saved: Option<Script>)
      modifies this`error
      ensures saved == SaveRecord(scriptText, scriptName, newId, now, dateLabel)
      ensures saved.None? ==> error == Some(EmptyContentError)
      ensures saved.Some? ==> error == old(error)
    {
      if JsString.Trim(scriptText) == [] {
        error := Some(EmptyContentError);
        return None;
      }
      var name := JsString.Trim(scriptName);
      if name == [] {
        name := "Script " + dateLabel;
      }
      saved := Some(Script(newId, name, scriptText, now));
    }

    /**
     * Picking a file: nothing picked does nothing; a file that is not plain
     * text sets the error and is not read; a plain text file is read.
     */
    method HandleFileChange(file: Option<UploadFile>) returns (readStarted: bool)
      modifies this`error
      ensures file.None? ==> !readStarted && error == old(error)
      ensures file.Some? && file.value.mimeType != "text/plain" ==> !readStarted && error == Some(NotPlainTextError)
      ensures file.Some? && file.value.mimeType == "text/plain" ==> readStarted && error == old(error)
    {
      readStarted := false;
      if file.Some? {
        if file.value.mimeType != "text/plain" {
          error := Some(NotPlainTextError);
          return;
        }
        readStarted := true;
      }
    }

    /** The reader delivered the file's text. */
    method OnFileLoaded(file: UploadFile, content: string)
      modifies this`scriptText, this`scriptName, this`error
      ensures scriptText == content && scriptName == UploadedName(file.name) && error == None
    {
      scriptText := content;
      scriptName := UploadedName(file.name);
      error := None;
    }

    method OnFileReadError()
      modifies this`error
      ensures error == Some(ReadFailedError)
    {
      error := Some(ReadFailedError);
    }
  }
}
