# Dictation session of the Voice AI Transcriber

This project models the session controller of the transcriber's `App` component (`src/App.js`).
The component keeps six pieces of state: the transcript, whether it is listening, the error banner,
the recognition language, the list of saved transcripts and the UI lock. A browser speech recogniser
changes them through four callbacks: `onstart`, `onresult`, `onerror` and `onend`. The user acts on
them through Start, Stop, Clear, Save, Copy, Download and the language selector. Copy and Download
read the state and change no field. Which of these controls are enabled is a boolean expression over
the same state.

The model has these modules:

- `Words` (`words.dfy`): `join`, `split(" ")`, `filter(Boolean)` and the word count shown under the
  transcript. These sit beside an independent word count, which counts runs of non-space characters.
- `Recognition` (`recognition.dfy`): a result batch, made of utterances with ranked alternatives. It
  also holds the text `onresult` derives from a batch: each utterance's best alternative, joined with
  single spaces.
- `SessionState` (`session_state.dfy`): the state as a value. It has one `Step` per event, the
  external effects of the actions (`Output`) and `Run` over a sequence of events. The trace lemmas
  (`RunInv`, `UnsupportedIsPermanent`, `SavedOnlyGrows`, `LastResultStays`) hold over every sequence
  of events.
- `Controls` (`controls.dfy`): the `disabled` expressions, given as `Enabled` and `Permitted`. Also
  which events the user can cause in a state, and what a locked UI freezes.
- `Dictation` (`dictation.dfy`): the class `DictationSession`. It has the component's fields and one
  method per callback and action. Each method keeps the session invariant and agrees with
  `SessionState.Step`.

The model follows the code as written. In particular:

- `onerror` only sets the banner to `"Error: "` followed by the code. It neither unlocks the UI nor
  stops listening. The UI is unlocked by the `onend` that follows.
- `clearTranscript` checks only the lock, not that the transcript is non-empty. On an empty
  transcript it has nothing to clear, so its effect still matches the Clear button's enablement.
- `startListening` and `stopListening` check only that a recogniser exists. The "not while
  listening" and "not while locked" rules exist only as the buttons' `disabled` expressions. The
  same goes for the language selector: its handler has no guard, and the selector is disabled while
  locked.
- The Stop button is disabled whenever the UI is locked (`!isListening || isLocked`), and `onstart`
  locks the UI. So once the recogniser has started, no control is enabled until `onend`
  (`Controls.LockedPermitsNothing`, `Controls.LockedRunFreezes`).

## Model

| member | source | states |
|---|---|---|
| `Words.Join` | src/App.js:83 | `join(sep)` of no pieces is `""`; otherwise its length is the pieces' summed length plus one separator between each neighbouring pair, and it starts with the first piece (order and round trips: `JoinAppend`, `JoinSplit`, `SplitJoin`) |
| `Words.Split` | src/App.js:224 | `split(" ")` returns one piece more than there are spaces, and no piece contains a space |
| `Words.NonEmpty` | src/App.js:224 | `filter(Boolean)` keeps exactly the non-empty pieces: a string is kept iff it is a non-empty piece, and all pieces are kept when none is empty |
| `Words.NonEmptyAppend` | src/App.js:224 | filtering a concatenation is the concatenation of the filtered parts, so the kept pieces stay in order |
| `Words.JoinSplit` | src/App.js:224 | joining the pieces of a split with a space gives back the transcript |
| `Words.SplitJoin` | src/App.js:81-83 | splitting a space-joined list of space-free utterances gives back the list |
| `Words.JoinAppend` | src/App.js:83 | joining two non-empty lists is the first join, the separator, then the second join |
| `Words.WordCount` | src/App.js:224 | the number of non-empty pieces of `split(" ")`: at most the number of pieces, and 0 exactly when the transcript is all spaces (reference count: `WordCountIsRuns`) |
| `Words.RunsBlank` | src/App.js:224 | a string has no run of non-space characters exactly when it is all spaces |
| `Words.WordCountIsRuns` | src/App.js:224 | the word count equals the number of maximal runs of non-space characters |
| `Words.WordCountAtMostLength` | src/App.js:224 | the word count is 0 for `""` and never exceeds the character count |
| `Words.WordCountOfJoinedWords` | src/App.js:224 | space-joined non-empty, space-free words count as exactly that many words |
| `Recognition.Tops` | src/App.js:81-82 | the best alternative of every utterance, one per utterance, in arrival order |
| `Recognition.BatchText` | src/App.js:81-84 | the text `onresult` stores: defined exactly when every utterance has a best alternative (otherwise `result[0].transcript` throws and nothing is set); `""` for an empty batch and the best alternative itself for a single utterance |
| `Recognition.BatchTextPieces` | src/App.js:80-85 | a batch has a text exactly when every utterance has a best alternative; for a non-empty batch whose best alternatives contain no space, splitting the text gives back the best alternatives |
| `Recognition.BatchTextUsesTopsOnly` | src/App.js:82 | lower-ranked alternatives, confidences and the final flag do not affect the text |
| `Recognition.BatchTextAppend` | src/App.js:81-83 | the text of a batch is the text of its first part, a space, then the text of the rest |
| `Recognition.BatchWordCount` | src/App.js:80-85 | a batch of single non-empty, space-free words shows as that many words |
| `SessionState.ErrorMessage` | src/App.js:87 | the banner text starts with `"Error: "` and the rest is exactly the error code |
| `SessionState.Step` | src/App.js:76-119 | the state after one callback or action: a callback without a recogniser changes nothing; Copy and Download change nothing; only the selector changes the language, only `onstart`/`onend` the lock, only Start, Stop and `onend` the listening flag; the transcript changes only by a batch or an unlocked Clear or Save; the saved list changes only by a Save that may export, which appends exactly the transcript (invariant: `StepInv`) |
| `SessionState.Run` | src/App.js:76-119 | the state after a sequence of events, one `Step` each; whether a recogniser exists never changes (trace lemmas: `RunInv`, `SavedOnlyGrows`, `LastResultStays`) |
| `SessionState.Utterance` | src/App.js:80-85 | a batch of one utterance with one alternative has that alternative's transcript as its text |
| `SessionState.Init` | src/App.js:58-70 | initial state: empty transcript and list, not listening, unlocked, `"en-US"`, and the unsupported message exactly when there is no recogniser |
| `SessionState.Output` | src/App.js:94-137 | Copy and Download call out exactly when unlocked with a non-empty transcript; Start and Stop call the recogniser exactly when there is one; callbacks call out nothing |
| `SessionState.InitInv` | src/App.js:58-70 | the mounted state satisfies the session invariant |
| `SessionState.StepInv` | src/App.js:76-119 | every event keeps the invariant (only non-empty transcripts are saved; without a recogniser nothing listens or locks and the unsupported message stays) and keeps whether a recogniser exists |
| `SessionState.RunInv` | src/App.js:76-119 | every sequence of events keeps the invariant and whether a recogniser exists |
| `SessionState.UnsupportedIsPermanent` | src/App.js:66-70 | without speech recognition, no sequence of events starts listening, locks the UI or removes the unsupported message |
| `SessionState.SavedOnlyGrows` | src/App.js:114-119 | across any sequence of events the saved list only grows, and earlier entries stay in place |
| `SessionState.LastResultStays` | src/App.js:80-85 | after a result batch the transcript is that batch's text, whatever came before, until a batch, a clear or a save replaces it |
| `SessionState.ResultReplaces` | src/App.js:80-85 | two batches in a row leave exactly the state the second alone would leave: a batch replaces the transcript rather than appending to it |
| `SessionState.ClearIdempotent` | src/App.js:108-112 | clearing twice is clearing once, and clearing never touches the saved list |
| `SessionState.ErrorThenEnd` | src/App.js:87-91 | `onerror` changes only the banner; the following `onend` unlocks the UI and stops listening, and the saved list is untouched |
| `SessionState.HelloWorldScenario` | src/App.js:76-119 | results "hello" then "hello world" leave "hello world"; after the end and a save, the list is `["hello world"]` and the transcript is empty |
| `Controls.Enabled` | src/App.js:155-203 | a control is enabled when its `disabled` expression is false: none while locked, and Clear, Save, Copy and Download exactly when unlocked with a non-empty transcript |
| `Controls.Permitted` | src/App.js:152-203 | the permitted set holds exactly the controls whose `disabled` expression is false |
| `Controls.ControlOf` | src/App.js:154-202 | every user action comes through a control and no recogniser callback does |
| `Controls.Offered` | src/App.js:76-203 | recogniser callbacks can always arrive; a user action can happen only through an enabled control, so while locked only callbacks arrive |
| `Controls.AdmissibleAppend` | src/App.js:76-203 | `Admissible` holds of the sequences the UI lets happen, each event offered in the state before it; a sequence of events can occur exactly when its first part can and the rest can from the state the first part leaves |
| `Controls.LockedPermitsNothing` | src/App.js:155-203 | while locked no control is enabled, and when unlocked the language selector is |
| `Controls.StartOrStop` | src/App.js:155-162 | Start and Stop are never both enabled; when unlocked, Start is enabled exactly when not listening and Stop exactly when listening |
| `Controls.ExportControlsMatchHandlers` | src/App.js:108-190 | Save and Clear change the state exactly when their buttons are enabled; Copy and Download call out exactly when theirs are |
| `Controls.ListenControlsMatchHandlers` | src/App.js:94-162 | with a recogniser, an enabled Start starts it and sets listening, and an enabled Stop stops it and clears listening |
| `Controls.LockedRunFreezes` | src/App.js:76-203 | while locked and until `onend`, the events that can occur change only the transcript and the banner |
| `Dictation.DictationSession.constructor` | src/App.js:58-74 | fields start as the `useState` values; the unsupported message and no recogniser when speech recognition is missing |
| `Dictation.DictationSession.OnStart` | src/App.js:76-79 | clears the banner and locks the UI; nothing else changes |
| `Dictation.DictationSession.OnResult` | src/App.js:80-85 | the transcript becomes the space-join of the best alternatives, ignoring the old one; a batch missing an alternative changes nothing |
| `Dictation.DictationSession.OnError` | src/App.js:87 | sets the banner to `"Error: "` followed by the code; lock, listening flag, transcript and saved list unchanged |
| `Dictation.DictationSession.OnEnd` | src/App.js:88-91 | stops listening and unlocks the UI; transcript and saved list unchanged |
| `Dictation.DictationSession.StartListening` | src/App.js:94-99 | with a recogniser, starts it and sets listening; without one, a no-op |
| `Dictation.DictationSession.StopListening` | src/App.js:101-106 | with a recogniser, stops it and clears listening; without one, a no-op |
| `Dictation.DictationSession.ClearTranscript` | src/App.js:108-112 | empties the transcript when unlocked, a no-op when locked; saved list unchanged |
| `Dictation.DictationSession.SaveTranscript` | src/App.js:114-119 | when unlocked and non-empty, appends exactly the transcript to the saved list and empties the transcript; otherwise changes nothing |
| `Dictation.DictationSession.CopyToClipboard` | src/App.js:121-126 | writes exactly the transcript, with the confirmation alert, exactly when unlocked and non-empty; changes no field |
| `Dictation.DictationSession.DownloadTranscript` | src/App.js:128-137 | offers the transcript as `transcript.txt` of type `text/plain` exactly when unlocked and non-empty; changes no field |
| `Dictation.DictationSession.SetLanguage` | src/App.js:202 | sets the language and leaves the banner as it was |
| `Dictation.DictationSession.Counts` | src/App.js:224 | the word count is the number of non-empty space-separated pieces, equals the number of word runs, and is at most the character count |

## Left out

- React rendering (src/App.js:139-238) is presentation only: the markup, CSS classes, the read-only textarea and the saved list display. Only the `disabled` expressions and the count line are modelled.
- The browser's `SpeechRecognition` object is not modelled. Its callbacks are the inputs `Started`, `Resulted`, `Failed` and `Ended`, delivered one at a time. Its `start()` and `stop()` appear only as the effects `RecognizerStart` and `RecognizerStop`. Its own behaviour is not modelled: what it hears, the `lang` and `interimResults` settings, and the exception `start()` raises on an already started recogniser.
- `navigator.clipboard.writeText`, `alert` and the Blob, object-URL and link-click download are foreign I/O. They appear only as the values `ClipboardWrite` and `FileDownload`. Whether the clipboard write or the download succeeds is not modelled.
- The dark-mode toggle on `document.body` is a DOM side effect.
- The language table (src/App.js:5-55) is data only. A language is an opaque string, and the selector is not limited to the listed codes.
- The effect that rebuilds the recogniser when the language changes is modelled only by its effect on the fields. That effect is none with a recogniser, and the unsupported message again without one. The model does not capture that an old recogniser would keep delivering callbacks, or that `stop()` would then reach the new one.
- React's asynchronous, batched `setState` is not modelled. Each setter is an immediate field update, and each event is atomic.
- Dictation.DictationSession.Counts: the character count is the number of Dafny characters (Unicode scalar values). JavaScript's `length` counts UTF-16 code units, so the two differ for characters outside the Basic Multilingual Plane.
