/** The dictation session of the `App` component (src/App.js:57-137) as a
    value: its state fields, the events that change them (four recogniser
    callbacks and the user's actions), one step per event, and what holds
    over any sequence of steps. */
module SessionState {
  import opened Wrappers
  import opened Recognition

  const DEFAULT_LANGUAGE: string := "en-US"
  const UNSUPPORTED_MESSAGE: string := "Your browser does not support speech recognition."
  const COPIED_ALERT: string := "Transcript copied to clipboard!"
  const DOWNLOAD_NAME: string := "transcript.txt"
  const DOWNLOAD_TYPE: string := "text/plain"

  /** The text the error banner shows for a recogniser error code. */
  function ErrorMessage(code: string): (message: string)
    ensures |message| == |code| + 7
    ensures message[..7] == "Error: " && message[7..] == code
  {
    "Error: " + code
  }

  /** The component's state: the six `useState` fields, plus whether a
      recogniser was created (`recognitionRef.current` is not null). An
      empty `error` means no banner. */
  datatype State = State(
    transcript: string,
    isListening: bool,
    error: string,
    language: string,
    savedTranscripts: seq<string>,
    isLocked: bool,
    hasRecognizer: bool)

  /** Everything that can happen to a session, one at a time. */
  datatype Event =
    // The recogniser's callbacks.
    | Started
    | Resulted(batch: seq<SpeechResult>)
    | Failed(code: string)
    | Ended
    // The user's actions.
    | StartClicked
    | StopClicked
    | ClearClicked
    | SaveClicked
    | CopyClicked
    | DownloadClicked
    | LanguageChosen(tag: string)
  {
    predicate FromRecognizer() {
      Started? || Resulted? || Failed? || Ended?
    }
  }

  /** What an action hands to the world outside the component. */
  datatype Effect =
    | RecognizerStart
    | RecognizerStop
    | ClipboardWrite(text: string, alert: string)
    | FileDownload(fileName: string, mimeType: string, contents: string)

  /** The state after mounting: the `useState` initial values, then the
      effect that creates a recogniser, or reports that it cannot. */
  function Init(speechSupported: bool): (s: State)
    ensures s.transcript == "" && s.savedTranscripts == [] && !s.isListening && !s.isLocked
    ensures s.language == DEFAULT_LANGUAGE
    ensures s.hasRecognizer == speechSupported
    ensures s.error == (if speechSupported then "" else UNSUPPORTED_MESSAGE)
  {
    State("", false, if speechSupported then "" else UNSUPPORTED_MESSAGE,
          DEFAULT_LANGUAGE, [], false, speechSupported)
  }

  /** The export actions act only when the UI is unlocked and the
      transcript is non-empty (src/App.js:115, 122, 129). */
  predicate CanExport(s: State)
  {
    !s.isLocked && s.transcript != ""
  }

  /** One event's effect on the state. The callbacks exist only on a
      recogniser, so without one a recogniser event has no handler. */
  function Step(s: State, e: Event): (t: State)
    // Without a recogniser, its callbacks change nothing.
    ensures e.FromRecognizer() && !s.hasRecognizer ==> t == s
    ensures t.hasRecognizer == s.hasRecognizer
    // Which events can change which field.
    ensures t.language != s.language ==> e.LanguageChosen?
    ensures t.isLocked != s.isLocked ==> e.Started? || e.Ended?
    ensures t.isListening != s.isListening ==> e.StartClicked? || e.StopClicked? || e.Ended?
    ensures t.transcript != s.transcript ==> e.Resulted? || ((e.ClearClicked? || e.SaveClicked?) && !s.isLocked)
    ensures t.savedTranscripts == s.savedTranscripts
            || (e.SaveClicked? && CanExport(s) && t.savedTranscripts == s.savedTranscripts + [s.transcript])
    ensures e.CopyClicked? || e.DownloadClicked? ==> t == s
  {
    match e
    case Started =>
      if s.hasRecognizer then s.(error := "", isLocked := true) else s
    case Resulted(batch) =>
      if s.hasRecognizer && BatchText(batch).Some? then s.(transcript := BatchText(batch).value) else s
    case Failed(code) =>
      if s.hasRecognizer then s.(error := ErrorMessage(code)) else s
    case Ended =>
      if s.hasRecognizer then s.(isListening := false, isLocked := false) else s
    case StartClicked =>
      if s.hasRecognizer then s.(isListening := true) else s
    case StopClicked =>
      if s.hasRecognizer then s.(isListening := false) else s
    case ClearClicked =>
      if !s.isLocked then s.(transcript := "") else s
    case SaveClicked =>
      if CanExport(s) then s.(savedTranscripts := s.savedTranscripts + [s.transcript], transcript := "") else s
    case CopyClicked => s
    case DownloadClicked => s
    case LanguageChosen(tag) =>
      // The effect keyed on `language` runs again: it recreates the
      // recogniser, or sets the unsupported message once more.
      s.(language := tag, error := if s.hasRecognizer then s.error else UNSUPPORTED_MESSAGE)
  }

  /** What an event asks of the outside world, if anything. */
  function Output(s: State, e: Event): (out: Option<Effect>)
    ensures out.Some? ==> !e.FromRecognizer()
    ensures e.CopyClicked? ==> (out.Some? <==> CanExport(s))
    ensures e.DownloadClicked? ==> (out.Some? <==> CanExport(s))
    ensures (e.StartClicked? || e.StopClicked?) ==> (out.Some? <==> s.hasRecognizer)
  {
    match e
    case StartClicked => if s.hasRecognizer then Some(RecognizerStart) else None
    case StopClicked => if s.hasRecognizer then Some(RecognizerStop) else None
    case CopyClicked => if CanExport(s) then Some(ClipboardWrite(s.transcript, COPIED_ALERT)) else None
    case DownloadClicked =>
      if CanExport(s) then Some(FileDownload(DOWNLOAD_NAME, DOWNLOAD_TYPE, s.transcript)) else None
    case _ => None
  }

  /** The state after a sequence of events, applied in order. */
  function Run(s: State, events: seq<Event>): (t: State)
    ensures t.hasRecognizer == s.hasRecognizer
    decreases |events|
  {
    if events == [] then s else Run(Step(s, events[0]), events[1..])
  }

  /** Facts every reachable state keeps: only non-empty transcripts are
      saved, and without a recogniser the UI stays unlocked and idle and
      the unsupported message stays up. */
  ghost predicate Inv(s: State)
  {
    (forall i :: 0 <= i < |s.savedTranscripts| ==> s.savedTranscripts[i] != "")
    && (!s.hasRecognizer ==> !s.isListening && !s.isLocked && s.error == UNSUPPORTED_MESSAGE)
  }

  lemma InitInv(speechSupported: bool)
    ensures Inv(Init(speechSupported))
  {
  }

  lemma StepInv(s: State, e: Event)
    requires Inv(s)
    ensures Inv(Step(s, e))
    ensures Step(s, e).hasRecognizer == s.hasRecognizer
  {
  }

  /** Every sequence of events keeps the invariant, and never creates or
      removes the recogniser. */
  lemma {:induction false} RunInv(s: State, events: seq<Event>)
    requires Inv(s)
    ensures Inv(Run(s, events))
    ensures Run(s, events).hasRecognizer == s.hasRecognizer
    decreases |events|
  {
    if events != [] {
      StepInv(s, events[0]);
      RunInv(Step(s, events[0]), events[1..]);
    }
  }

  /** Without speech recognition, no sequence of events ever starts
      listening, locks the UI or replaces the unsupported message. */
  lemma UnsupportedIsPermanent(events: seq<Event>)
    ensures var s := Run(Init(false), events);
            !s.hasRecognizer && !s.isListening && !s.isLocked && s.error == UNSUPPORTED_MESSAGE
  {
    InitInv(false);
    RunInv(Init(false), events);
  }

  /** The saved list is append-only: what was saved stays, in place. */
  lemma {:induction false} SavedOnlyGrows(s: State, events: seq<Event>)
    ensures |s.savedTranscripts| <= |Run(s, events).savedTranscripts|
    ensures Run(s, events).savedTranscripts[..|s.savedTranscripts|] == s.savedTranscripts
    decreases |events|
  {
    if events != [] {
      var t := Step(s, events[0]);
      SavedOnlyGrows(t, events[1..]);
      assert t.savedTranscripts[..|s.savedTranscripts|] == s.savedTranscripts;
    }
  }

  /** Does this event replace or empty the transcript? */
  predicate Rewrites(e: Event)
  {
    e.Resulted? || e.ClearClicked? || e.SaveClicked?
  }

  /** After a result batch, the transcript is that batch's text, whatever it
      was before, until another batch, a clear or a save comes along. */
  lemma {:induction false} LastResultStays(s: State, batch: seq<SpeechResult>, later: seq<Event>)
    requires s.hasRecognizer && BatchText(batch).Some?
    requires forall i :: 0 <= i < |later| ==> !Rewrites(later[i])
    ensures Run(s, [Resulted(batch)] + later).transcript == BatchText(batch).value
  {
    var t := Step(s, Resulted(batch));
    assert ([Resulted(batch)] + later)[1..] == later;
    KeepsTranscript(t, later);
  }

  lemma {:induction false} KeepsTranscript(s: State, events: seq<Event>)
    requires forall i :: 0 <= i < |events| ==> !Rewrites(events[i])
    ensures Run(s, events).transcript == s.transcript
    decreases |events|
  {
    if events != [] {
      assert !Rewrites(events[0]);
      KeepsTranscript(Step(s, events[0]), events[1..]);
    }
  }

  /** Two result batches in a row leave the second one's text: a batch
      rewrites the transcript, it does not append to it. */
  lemma ResultReplaces(s: State, first: seq<SpeechResult>, second: seq<SpeechResult>)
    requires s.hasRecognizer && BatchText(second).Some?
    ensures Run(s, [Resulted(first), Resulted(second)]).transcript == BatchText(second).value
    ensures Run(s, [Resulted(first), Resulted(second)]) == Step(s, Resulted(second))
  {
    var t := Step(s, Resulted(first));
    assert [Resulted(first), Resulted(second)][1..] == [Resulted(second)];
    assert Run(t, [Resulted(second)]) == Run(Step(t, Resulted(second)), []);
  }

  /** A second clear changes nothing more, and clearing never touches the
      saved list (src/App.js:108-112). */
  lemma ClearIdempotent(s: State)
    ensures Step(Step(s, ClearClicked), ClearClicked) == Step(s, ClearClicked)
    ensures Step(s, ClearClicked).savedTranscripts == s.savedTranscripts
  {
  }

  /** A recogniser error sets the banner and nothing else; the `onend`
      that follows it is what unlocks the UI (src/App.js:87-91). */
  lemma ErrorThenEnd(s: State, code: string)
    requires s.hasRecognizer
    ensures Step(s, Failed(code)) == s.(error := ErrorMessage(code))
    ensures var t := Step(s, Failed(code));
            t.error == ErrorMessage(code) && t.isLocked == s.isLocked && t.isListening == s.isListening
            && t.transcript == s.transcript && t.savedTranscripts == s.savedTranscripts
    ensures var u := Run(s, [Failed(code), Ended]);
            u.error == ErrorMessage(code) && !u.isLocked && !u.isListening
            && u.savedTranscripts == s.savedTranscripts
  {
    assert [Failed(code), Ended][1..] == [Ended];
    assert Run(Step(s, Failed(code)), [Ended]) == Step(Step(s, Failed(code)), Ended);
  }

  /** One utterance whose best alternative is `text`. */
  function Utterance(text: string): (batch: seq<SpeechResult>)
    ensures HasTop(batch) && BatchText(batch) == Some(text)
  {
    [SpeechResult([Alternative(text, 1.0)], false)]
  }

  /** A session that hears "hello", then "hello world", and is saved. */
  lemma HelloWorldScenario()
    ensures var s := Run(Init(true), [StartClicked, Started, Resulted(Utterance("hello")),
                                       Resulted(Utterance("hello world"))]);
            s.transcript == "hello world" && s.isLocked && s.isListening
    ensures var s := Run(Init(true), [StartClicked, Started, Resulted(Utterance("hello")),
                                       Resulted(Utterance("hello world")), Ended, SaveClicked]);
            s.savedTranscripts == ["hello world"] && s.transcript == "" && !s.isLocked
  {
  }
}
