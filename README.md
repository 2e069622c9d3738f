# Teleprompter core, modelled in Dafny

This project models the logic of a browser teleprompter. The teleprompter shows
a script in a scrolling view, plays and pauses the scroll, takes the voice
commands "scroll up", "scroll down", "pause" and "resume", and keeps a library
of named scripts in browser storage. The model covers these parts:

- **ScrollEngine**: the display's per-frame scroll controller. It has a target
  position, an eased smoothed position and the rendered pixel, plus the effects
  that start, stop and reset it. `Step` is one frame as a function. The
  `ScrollController` class updates fields in place and is proved to agree with
  `Step`.
- **Orchestrator**: the application state. It covers the configuration merge,
  the voice-command signal with its 500 ms clear timer, and the start-up choice
  of the newest stored script (a stable sort, newest first). It also covers the
  load, change, save, rename and guarded delete handlers and the play toggle.
  All of these are methods of the `App` class.
- **ScriptStorage**: the library's list operations. Upsert by id stamps the
  entry with the current time. Delete by id is a filter. Loading the stored
  list gives the empty list on every failure.
- **SpeechRecognition**: how a recognised transcript is lower-cased, trimmed
  and matched against the four phrases in priority order. It also covers the
  listening/error record that the recogniser's events and the enable switch
  update.
- **ScriptInput**: the script editor's save validation, its upload type check,
  and the script name derived from an uploaded file's name.
- **Controls**: the contrasting text colour for a `#rrggbb` background (hex
  digits in either case, as the colour input reports lower case), through
  an exact model of `parseInt(…, 16)` and `substring`. It also covers the
  effect that keeps the text colour in step with the background, the
  translation language's display name, the play button label, and the
  busy/result sequence of the summarize and translate tools.
- **JsString**: the ECMAScript string operations these rely on: `trim`,
  `toLowerCase`, `includes`, `split` and `join`. It also defines
  `LastIndexOf`, which the program does not call: it is the independent
  definition that the uploaded-name derivation is proved against.
- **Types**: the records, the voice commands and the constants.

Clocks (`Date.now()`), fresh ids (`uuidv4()`), the confirmation dialog's answer,
the prompt's answer, the browser's speech and file-reading callbacks, and the
AI service's outcome are all parameters.

Pausing freezes the easing. The activation effect
(components/TeleprompterDisplay.tsx:84-95) cancels the frame loop whenever the
display is neither playing nor under a voice delta. So the smoothed position
stays where it is until playback resumes, and `ActivationEffect` leaves no frame
scheduled in that case.

## Model

| member | source | states |
|---|---|---|
| Types.TextColorPatch | components/Controls.tsx:99 | the patch sets the text colour and no other field |
| Types.Phrase | types.ts:19-24 | each command's phrase is non-empty |
| Types.PhrasesAreDistinct | types.ts:19-24 | two commands have the same phrase only if they are the same command |
| ScrollEngine.Clamp | components/TeleprompterDisplay.tsx:65 | the result lies in `[0, hi]`, equals `x` inside the range, is 0 below it and `hi` above it |
| ScrollEngine.RoundHalfUp | components/TeleprompterDisplay.tsx:74 | the result is the integer within half a unit of `x`, with halves rounded up |
| ScrollEngine.RoundWithin | components/TeleprompterDisplay.tsx:74 | a position in `[0, m]` rounds to a pixel in `[0, m]` |
| ScrollEngine.Ease | components/TeleprompterDisplay.tsx:38-68 | one easing step lands between the old position and the target, and the gap shrinks to 0.92 of itself |
| ScrollEngine.Step | components/TeleprompterDisplay.tsx:40-82 | a frame with no scrollable extent pins everything to 0; otherwise target and smoothed end in `[0, maxScroll]`, the rendered pixel is the rounded smoothed position, and the observer is called, with that pixel, exactly when the pixel changed |
| ScrollEngine.TargetMovesByRate | components/TeleprompterDisplay.tsx:56-62 | away from the ends, the target moves by exactly the play speed (when playing) plus the voice delta |
| ScrollEngine.SmoothedBetween | components/TeleprompterDisplay.tsx:68-71 | the new smoothed position lies between the old one and the new target; its gap to the target is 0.92 of the old gap |
| ScrollEngine.IdleFrameIsNoOp | components/TeleprompterDisplay.tsx:56-79 | paused, with no voice delta and nothing left to ease, a frame changes nothing and notifies no one |
| ScrollEngine.SettledAtEndIsNoOp | components/TeleprompterDisplay.tsx:56-79 | settled at the end it is moving toward, a frame changes nothing and notifies no one |
| ScrollEngine.FirstFrameExample | components/TeleprompterDisplay.tsx:40-82 | from the top at speed 2, the first frame gives target 2, smoothed 0.16 and pixel 0, with no notification |
| ScrollEngine.ClampCompose | components/TeleprompterDisplay.tsx:65 | two clamped moves in the same direction are one clamped move |
| ScrollEngine.TargetAfterFrames | components/TeleprompterDisplay.tsx:56-65 | under a constant signal, after `n` frames the target is the clamp of `target + n * rate` |
| ScrollEngine.TargetNonDecreasing | components/TeleprompterDisplay.tsx:56-65 | playing at a non-negative speed with no voice delta, the target never moves back |
| ScrollEngine.DecayedStep | components/TeleprompterDisplay.tsx:68 | one more easing step multiplies the remaining gap by 0.92 once more |
| ScrollEngine.GapAfterFrames | components/TeleprompterDisplay.tsx:68-71 | with the target standing still, the gap after `n` frames is `0.92^n` times the initial gap |
| ScrollEngine.ScrollController.constructor | components/TeleprompterDisplay.tsx:33-36 | all three positions start at 0 and no frame is pending |
| ScrollEngine.ScrollController.Tick | components/TeleprompterDisplay.tsx:40-82 | the in-place frame leaves the state and notification `Step` gives, keeps the rendered pixel equal to the rounded position, and schedules the next frame on every path |
| ScrollEngine.ScrollController.ActivationEffect | components/TeleprompterDisplay.tsx:84-95 | afterwards a frame is pending exactly when playing or a voice delta is non-zero |
| ScrollEngine.ScrollController.CancelFrame | components/TeleprompterDisplay.tsx:97-102 | no frame is pending afterwards |
| ScrollEngine.ScrollController.Reset | components/TeleprompterDisplay.tsx:107-110 | target, smoothed and rendered become 0, and 0 is notified unconditionally |
| ScrollEngine.ScrollController.ResetEffect | components/TeleprompterDisplay.tsx:106-111 | when the script or the trigger differs from the last run, the controller resets and notifies 0; otherwise nothing changes |
| ScriptStorage.LoadScripts | services/scriptStorageService.ts:13-21 | a missing, empty, unreadable or unparsable stored value gives the empty list; only a parsed value gives scripts |
| ScriptStorage.FindIndex | App.tsx:147 | the first index holding the id, or -1 exactly when no entry has it |
| ScriptStorage.AddOrUpdateScript | services/scriptStorageService.ts:23-35 | an existing id: same length, only the first match replaced by the script stamped with `now`; a new id: the input followed by the stamped script; the id is present afterwards |
| ScriptStorage.DeleteScript | services/scriptStorageService.ts:37-41 | exactly the entries whose id differs are kept, and no entry with the id remains |
| ScriptStorage.DeleteConcat | services/scriptStorageService.ts:38 | the delete distributes over concatenation, so kept entries keep their order |
| ScriptStorage.DeleteAbsent | services/scriptStorageService.ts:38 | deleting an absent id returns the list unchanged |
| ScriptStorage.DeleteIdempotent | services/scriptStorageService.ts:38 | deleting twice is deleting once |
| ScriptStorage.DeleteAllWithId | services/scriptStorageService.ts:38 | a list whose entries all have the id is deleted to nothing |
| ScriptStorage.DeleteAfterUpsert | services/scriptStorageService.ts:23-41 | deleting a just-upserted id gives the same list as deleting it before the upsert |
| ScriptStorage.UpsertIdempotent | services/scriptStorageService.ts:23-35 | upserting the same script twice at the same time is upserting it once |
| ScriptStorage.FindIndexAgrees | services/scriptStorageService.ts:24 | two lists that agree up to the first match find it at the same index |
| ScriptStorage.UpsertKeepsIdsUnique | services/scriptStorageService.ts:23-35 | unique ids stay unique, and the ids afterwards are the old ids plus the script's id |
| ScriptStorage.DeleteKeepsIdsUnique | services/scriptStorageService.ts:37-41 | unique ids stay unique, and the ids afterwards are the old ids minus the deleted one |
| ScriptStorage.DeleteUniqueIds | services/scriptStorageService.ts:38 | filtering a list with unique ids leaves them unique |
| Orchestrator.MergeConfig | App.tsx:111-113 | every field the patch supplies replaces the old value; every other field is kept |
| Orchestrator.MergeEmpty | App.tsx:111-113 | an empty patch changes nothing |
| Orchestrator.MergeIdempotent | App.tsx:111-113 | applying a patch twice is applying it once |
| Orchestrator.MergeSequential | App.tsx:111-113 | two updates in a row equal one update with the combined patch |
| Orchestrator.OnSpeechCommand | App.tsx:77-104 | scroll up/down set the delta to minus/plus five times the speed and re-arm the clear deadline 500 ms ahead, leaving the play flag; pause/resume set the play flag, zero the delta and leave the deadline |
| Orchestrator.OnClock | App.tsx:100-102 | a passed deadline zeroes the delta and is consumed; otherwise nothing changes |
| Orchestrator.VoiceDeltaSign | App.tsx:79-92 | for a non-negative speed, scroll up gives a non-positive delta and scroll down a non-negative one, neither touching the play flag; pause and resume zero the delta and keep the timer |
| Orchestrator.NudgeWearsOff | App.tsx:96-103 | after a scroll command at `t`, with only pause/resume after it, the clock reaching `t + 500` brings the delta back to 0 |
| Orchestrator.ApplyAllKeepsTimer | App.tsx:85-96 | pause and resume commands never touch the pending deadline |
| Orchestrator.RearmReplacesDeadline | App.tsx:96-103 | a second scroll command replaces the deadline; the first one's expiry no longer fires |
| Orchestrator.InsertByRecency | App.tsx:64 | inserting into a newest-first list keeps it newest first and adds exactly the element |
| Orchestrator.InsertKeepsOrder | App.tsx:64 | an older element inserted behind a newer head keeps the list newest first |
| Orchestrator.SortByRecency | App.tsx:64 | the result is a permutation of the stored list and is newest first |
| Orchestrator.StampedAt | App.tsx:64 | the entries of a list stamped with one time, in their order; each has that time |
| Orchestrator.InsertStable | App.tsx:64 | inserting an entry keeps, for every time, the order of that time's entries as if the entry were put in front |
| Orchestrator.PassNewer | App.tsx:64 | moving an entry behind a strictly newer one does not reorder the entries of any time |
| Orchestrator.SortStable | App.tsx:64 | the sort is stable: for every time, the sorted list's entries with that time are the stored list's, in the stored order |
| Orchestrator.LatestIndex | App.tsx:63-64 | the index of an entry with the greatest time, and no earlier entry has that time |
| Orchestrator.SortHeadIsLatest | App.tsx:64-65 | the stable sort's first entry is the first stored entry with the greatest time |
| Orchestrator.DefaultEntry | App.tsx:68 | the default script's copy gets the fresh id and the current time and keeps name and content |
| Orchestrator.RenameRequest | components/ScriptLibraryModal.tsx:26-31 | a prompt answer yields a rename exactly when it is not blank, and then with the trimmed, non-empty name |
| Orchestrator.RenameInLibrary | App.tsx:146-150 | the renamed library has the same length, and every entry keeps its id and its content |
| Orchestrator.RenameOnlyTouchesName | App.tsx:146-156 | a rename changes only the matching entry, giving it the new name and the current time |
| Orchestrator.App.constructor | App.tsx:23-34 | default settings, a default script not yet in the library, paused, no voice delta, no timer |
| Orchestrator.App.InitialLoad | App.tsx:59-73 | a non-empty store becomes the library sorted newest first, with its newest entry current; an empty store becomes a one-entry library holding a fresh copy of the default script, which is current |
| Orchestrator.App.HandleSpeechCommand | App.tsx:77-104 | the playback signal moves as `OnSpeechCommand` says |
| Orchestrator.App.ClockTick | App.tsx:100-102 | the playback signal moves as `OnClock` says |
| Orchestrator.App.HandleConfigChange | App.tsx:111-113 | the configuration becomes the merge of the old one and the patch |
| Orchestrator.App.HandleScriptChange | App.tsx:115-121 | the script becomes current, the reset trigger flips and the library upserts it |
| Orchestrator.App.HandleSaveNewOrUpdateScript | App.tsx:123-127 | the library upserts the script and the script, as given, becomes current |
| Orchestrator.App.HandleLoadScript | App.tsx:129-133 | the script becomes current, playback pauses and the reset trigger flips; the library is untouched |
| Orchestrator.App.HandleDeleteScript | App.tsx:135-144 | deleting the current script is refused and changes nothing; otherwise an unconfirmed delete changes nothing and a confirmed one filters the library |
| Orchestrator.App.HandleRenameScript | App.tsx:146-156 | an absent id changes nothing; otherwise the entry is renamed and re-stamped in the library, and the current script takes the renamed entry only when it has the same id |
| Orchestrator.App.RenameFromPrompt | components/ScriptLibraryModal.tsx:26-31 | a blank or cancelled prompt changes nothing, and neither does an id the library lacks; otherwise the library entry is renamed with the trimmed name, and the current script takes the renamed entry exactly when it has that id |
| Orchestrator.App.ToggleIsPlaying | App.tsx:158-160 | the play flag is negated and nothing else changes |
| SpeechRecognition.Priority | hooks/useSpeechRecognition.ts:124-132 | the four commands are ranked 0 to 3 in the order they are tried |
| SpeechRecognition.Normalize | hooks/useSpeechRecognition.ts:120 | the transcript has no upper-case ASCII letters and no surrounding white space, and it is empty exactly when the heard text was blank |
| SpeechRecognition.LowerKeepsBlank | hooks/useSpeechRecognition.ts:120 | lower-casing leaves no upper-case letters and keeps a text blank exactly when it was |
| SpeechRecognition.TrimKeepsNoUpperCase | hooks/useSpeechRecognition.ts:120 | trimming a lower-cased text keeps it lower-cased |
| SpeechRecognition.Classify | hooks/useSpeechRecognition.ts:124-132 | the command found is contained in the transcript and no higher-priority phrase is; no command exactly when none of the four phrases occurs |
| SpeechRecognition.SentenceWithScrollDown | hooks/useSpeechRecognition.ts:126-127 | "please scroll down now" yields scroll down |
| SpeechRecognition.PauseBeforeResume | hooks/useSpeechRecognition.ts:128-131 | a transcript with both "pause" and "resume", and neither scroll phrase, yields pause |
| SpeechRecognition.NormalizeIdempotent | hooks/useSpeechRecognition.ts:120 | normalising twice is normalising once |
| SpeechRecognition.ListenAction | hooks/useSpeechRecognition.ts:168-182 | start exactly when a recogniser exists, listening is enabled and it is not listening; stop exactly when it exists, is disabled and is listening |
| SpeechRecognition.ListenActionSettles | hooks/useSpeechRecognition.ts:168-182 | once the recogniser reports the requested state, the effect requests nothing more |
| SpeechRecognition.Recognizer.constructor | hooks/useSpeechRecognition.ts:96-101 | not listening, no error, no transcript, no recogniser |
| SpeechRecognition.Recognizer.Setup | hooks/useSpeechRecognition.ts:103-156 | with browser support a recogniser exists; without it none is created and the "not supported" error is recorded |
| SpeechRecognition.Recognizer.Teardown | hooks/useSpeechRecognition.ts:160-165 | the recogniser is dropped |
| SpeechRecognition.Recognizer.OnStart | hooks/useSpeechRecognition.ts:114-116 | listening, and the error is cleared |
| SpeechRecognition.Recognizer.OnResult | hooks/useSpeechRecognition.ts:118-133 | the last result's first alternative, normalised, is recorded, and the command is its classification |
| SpeechRecognition.Recognizer.OnError | hooks/useSpeechRecognition.ts:135-138 | not listening, and the error code is recorded |
| SpeechRecognition.Recognizer.OnEnd | hooks/useSpeechRecognition.ts:140-141 | not listening |
| SpeechRecognition.Recognizer.SyncListening | hooks/useSpeechRecognition.ts:168-182 | the request is `ListenAction`'s; a start that throws marks the record as listening |
| ScriptInput.UploadedName | components/ScriptInput.tsx:34 | the file name up to its last dot, or "Uploaded Script" when there is no dot or the dot is first |
| ScriptInput.BaseIsBeforeLastDot | components/ScriptInput.tsx:34 | joining all dot-separated parts but the last gives the text before the last dot |
| ScriptInput.SplitWithout | components/ScriptInput.tsx:34 | a name without a dot splits into itself |
| ScriptInput.SplitAround | components/ScriptInput.tsx:34 | splitting at one separator splits the two sides separately |
| ScriptInput.UploadedNameExamples | components/ScriptInput.tsx:34 | `a.b.txt` gives `a.b`; `README` and `.txt` give "Uploaded Script" |
| ScriptInput.SaveRecord | components/ScriptInput.tsx:44-57 | blank content yields nothing; otherwise the content is kept verbatim with the fresh id and the current time, and the name is the trimmed name or "Script" and the date when that is blank |
| ScriptInput.Editor.constructor | components/ScriptInput.tsx:19-21 | the text is the current script's content, the name is "New Script", and there is no error |
| ScriptInput.Editor.EditText | components/ScriptInput.tsx:88-91 | the text is replaced and the error cleared |
| ScriptInput.Editor.EditName | components/ScriptInput.tsx:75 | the name field is replaced |
| ScriptInput.Editor.HandleSave | components/ScriptInput.tsx:44-57 | returns `SaveRecord`'s result; blank content sets the empty-content error |
| ScriptInput.Editor.HandleFileChange | components/ScriptInput.tsx:23-42 | no file does nothing; a non-plain-text file sets the upload error and is not read; a plain-text file is read |
| ScriptInput.Editor.OnFileLoaded | components/ScriptInput.tsx:31-36 | the text becomes the file's content, the name is derived from the file name, and the error is cleared |
| ScriptInput.Editor.OnFileReadError | components/ScriptInput.tsx:37-39 | the read-failure error is set |
| Controls.DigitValue | components/Controls.tsx:83-85 | a hex digit's value is below 16 |
| Controls.DigitsValue | components/Controls.tsx:83-85 | `n` hex digits spell a number below `16^n` |
| Controls.HexRun | components/Controls.tsx:83-85 | the longest run of hex digits at the start of the text |
| Controls.Unsigned | components/Controls.tsx:83-85 | what `parseInt` reads digits from: the suffix starting after the leading white space and at most three more characters (sign and `0x`), and whether the first non-white character is `-` |
| Controls.ParseHex | components/Controls.tsx:83-85 | not-a-number exactly when no hex digit follows the white space, sign and `0x`; otherwise the value of the longest digit run, negated after `-`, and below `16^digits` when unsigned |
| Controls.PairValue | components/Controls.tsx:83-85 | the byte two hex digits spell is below 256 |
| Controls.ParseHexPair | components/Controls.tsx:83-85 | any two hex digits, each in either case, parse as the byte they spell |
| Controls.Hex2 | components/Controls.tsx:83-85 | two hex digits, in the requested case, whose values are the byte's high and low halves |
| Controls.HexChar | components/Controls.tsx:83-85 | a hex digit with the given value, its letters in the requested case |
| Controls.ParseHex2 | components/Controls.tsx:83-85 | parsing two digits written in either case gives the byte back |
| Controls.Substring | components/Controls.tsx:83-85 | inside the bounds, the slice between the two positions |
| Controls.Channels | components/Controls.tsx:83-85 | for a text of at least seven characters, the three channels parse the digit pairs at positions 1-2, 3-4 and 5-6; a text of at most five characters has no blue channel |
| Controls.Luminosity | components/Controls.tsx:89 | the luminance times 2550000 is `2126r + 7152g + 722b`, and it lies in `[0, 1]` for channels in `[0, 255]` |
| Controls.OppositeColor | components/Controls.tsx:81-93 | black exactly when all three channels parse and the luminance exceeds one half; white otherwise |
| Controls.ChannelsOfHex | components/Controls.tsx:83-85 | for every `#` followed by six hex digits, each in either case (the colour input reports lower case), the channels are the three digit pairs' bytes |
| Controls.OppositeOfHex | components/Controls.tsx:81-93 | for every `#` followed by six hex digits, each in either case, the answer is black exactly when `2126r + 7152g + 722b > 1275000` on the digit pairs' bytes |
| Controls.Rgb | components/Controls.tsx:81-85 | the colour written in lower or upper case is `#` and six hex digits whose pairs spell the components |
| Controls.ChannelsOfRgb | components/Controls.tsx:83-85 | the channels read from a colour written in either case are its components |
| Controls.ThresholdInIntegers | components/Controls.tsx:89-92 | luminance above one half is exactly `2126r + 7152g + 722b > 1275000` |
| Controls.OppositeOfRgb | components/Controls.tsx:81-93 | for every colour written `#rrggbb` or `#RRGGBB` the answer is black exactly when the integer threshold holds on its components |
| Controls.BlackAndWhite | components/Controls.tsx:89-92 | `#000000` gives `#FFFFFF`; `#FFFFFF` and the colour input's `#ffffff` give `#000000` |
| Controls.ShortColorGetsWhite | components/Controls.tsx:85-92 | a colour too short for a blue pair, such as `#FFF`, always gets white text |
| Controls.SyncTextColor | components/Controls.tsx:96-101 | a text-colour patch exactly when the contrasting colour differs from the current text colour, and then with that colour |
| Controls.SyncTextColorSettles | components/Controls.tsx:96-101 | once the effect's patch is merged, the effect has nothing more to do |
| Controls.LanguageNameIn | components/Controls.tsx:71 | the name of the first language with the code, or the code itself when none has it or that name is empty; so always the code or a listed name |
| Controls.LanguageName | components/Controls.tsx:71 | over the AI languages, an unlisted code shows as itself, and every answer is the code or a listed name |
| Controls.LanguageNames | components/Controls.tsx:71 | every listed language shows its own name; an unlisted code shows as itself |
| Controls.PlayButtonLabel | components/Controls.tsx:108 | "Pause" exactly when playing, "Play" exactly when not |
| Controls.ResultText | components/Controls.tsx:59-61 | a success shows the answer; a failure shows "Error: " followed by the message |
| Controls.AiPanel.constructor | components/Controls.tsx:48-52 | both tools idle with no result; the first language is selected |
| Controls.AiPanel.SelectLanguage | components/Controls.tsx:52 | the selected language code is replaced |
| Controls.AiPanel.BeginSummarize | components/Controls.tsx:54-58 | busy, the old summary cleared, and the script's text is sent |
| Controls.AiPanel.FinishSummarize | components/Controls.tsx:58-64 | the summary or error text is shown and the tool is no longer busy |
| Controls.AiPanel.BeginTranslate | components/Controls.tsx:67-72 | busy, the old translation cleared, and the script's text is sent with the language's display name |
| Controls.AiPanel.FinishTranslate | components/Controls.tsx:72-78 | the translation or error text is shown and the tool is no longer busy |
| JsString.IsWhiteSpace | components/ScriptInput.tsx:45 | among ASCII characters, exactly tab, line feed, vertical tab, form feed, carriage return and space are white space |
| JsString.TrimStart | components/Controls.tsx:83-85 | a suffix of the input; everything dropped is white space; the result does not start with white space |
| JsString.SkipSpace | hooks/useSpeechRecognition.ts:120 | the end of the white-space run starting at a position: everything skipped is white space and the next character is not |
| JsString.LeadingSpace | components/ScriptInput.tsx:45 | the length of the white space the text starts with |
| JsString.TrailingEnd | components/ScriptInput.tsx:45 | where a slice ends once its trailing white space is dropped: everything dropped is white space and the last kept character is not |
| JsString.Trim | components/ScriptInput.tsx:45-52 | a slice of the input with only white space outside it, neither starting nor ending with white space, and empty exactly when the input is all white space |
| JsString.TrimIdempotent | components/ScriptInput.tsx:52 | trimming twice is trimming once |
| JsString.LowerChar | hooks/useSpeechRecognition.ts:120 | an upper-case ASCII letter becomes its lower-case letter; every other character is kept |
| JsString.ToLowerCase | hooks/useSpeechRecognition.ts:120 | same length, each character lower-cased |
| JsString.ToLowerCaseIdempotent | hooks/useSpeechRecognition.ts:120 | lower-casing twice is lower-casing once |
| JsString.StartsWith | hooks/useSpeechRecognition.ts:124 | true exactly when the pattern occurs at position 0 |
| JsString.Includes | hooks/useSpeechRecognition.ts:124-131 | true exactly when the pattern occurs at some position |
| JsString.OccursShift | hooks/useSpeechRecognition.ts:124-131 | an occurrence after the first character is an occurrence one place further right |
| JsString.IncludesWithin | hooks/useSpeechRecognition.ts:124-131 | an occurrence at a position means the pattern is included |
| JsString.MissingCharExcludes | hooks/useSpeechRecognition.ts:124-131 | a pattern with a character the text lacks is not included |
| JsString.Split | components/ScriptInput.tsx:34 | at least one part, no part holds the separator, and exactly one part when the text has no separator |
| JsString.Join | components/ScriptInput.tsx:34 | no parts join to the empty text and one part joins to itself; otherwise the length is the parts' total plus one separator between each two neighbours |
| JsString.JoinSplit | components/ScriptInput.tsx:34 | joining the parts of a split with the same separator gives back the text |
| JsString.LastIndexOf | components/ScriptInput.tsx:34 | the position of the last occurrence, or -1 exactly when there is none |

## Left out

- Browser persistence: the writes to `localStorage`, `JSON.stringify` and `JSON.parse`. Loading is modelled through `StoredValue`: what the read gave back, and whether it parsed.
- The AI service calls, the API-key probe, and the `geminiService` module: they are network calls. Their answer or failure message is a parameter of `FinishSummarize` and `FinishTranslate`.
- `requestAnimationFrame` and `cancelAnimationFrame`: these are reduced to the `frameScheduled` flag. DOM measurement is reduced to the `maxScroll` parameter of `Tick`. The DOM `scrollTop` write and the early return for missing element refs are left out.
- Timers and clocks: `setTimeout` and `clearTimeout` are a deadline in `Playback.clearAt` together with an explicit `ClockTick` event. `Date.now()`, `uuidv4()` and the locale date text are parameters.
- Browser dialogs and events: `alert`, `confirm` (a boolean parameter), `prompt` (an optional answer), the Space-key listener wiring (it calls `ToggleIsPlaying`), and the asynchronous `FileReader` (its two callbacks are `OnFileLoaded` and `OnFileReadError`).
- The speech recogniser's own lifecycle: construction, configuration, and the automatic restart in `onend`. `OnEnd` models only the record update. Whether `start()` throws is a parameter of `SyncListening`.
- The view components (buttons, sliders, toggles, colour picker, layout, spinner, the modal markup) and `DEFAULT_SCRIPT_CONTENT`'s text. The text is the `defaultContent` parameter of `App.constructor`.
- ScrollEngine.Step: floating-point rounding in the easing and clamping arithmetic is not modelled. Positions are exact reals.
- Controls.OppositeColor: the luminance uses exact decimal weights, not IEEE doubles. Near the 0.5 boundary the program's floating-point answer may differ.
- JsString.ToLowerCase: only the ASCII letters are lower-cased. Other scripts' case mappings are not modelled, and none of the four command phrases depends on them.
- Controls.ParseHex: a negative result is only what `parseInt` gives for a leading `-`. `-0` is the integer 0.
- SpeechRecognition.Recognizer.OnResult: it requires a non-empty result list whose last result has an alternative, as the recogniser always delivers. The code does not check this.
- Orchestrator.SortByRecency: the start-up sort is a stable insertion sort on a sequence, not the engine's in-place array sort. Its outcome is stated: a permutation, newest first (in its ensures), and stable (`SortStable`).
