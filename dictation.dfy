/** The `App` component's session as an object: its six state fields are
    updated in place by the recogniser callbacks (src/App.js:76-91) and the
    user actions (src/App.js:94-137), one method each. Every method keeps
    the session invariant and agrees with `SessionState.Step`, so the
    lemmas proved there hold of any sequence of calls. */
module Dictation {
  import opened Wrappers
  import opened Words
  import opened Recognition
  import opened SessionState

  class DictationSession {
    var transcript: string
    var isListening: bool
    var error: string
    var language: string
    var savedTranscripts: seq<string>
    var isLocked: bool
    /** `recognitionRef.current` is not null. */
    var hasRecognizer: bool

    /** The fields as a `SessionState.State` value. */
    function View(): (s: State)
      reads this
      ensures s.transcript == transcript && s.savedTranscripts == savedTranscripts
      ensures s.isListening == isListening && s.isLocked == isLocked && s.error == error
      ensures s.language == language && s.hasRecognizer == hasRecognizer
    {
      State(transcript, isListening, error, language, savedTranscripts, isLocked, hasRecognizer)
    }

    ghost predicate Valid()
      reads this
    {
      Inv(View())
    }

    /** Mounting: the initial field values, then a recogniser when the
        browser has speech recognition and the unsupported message when it
        has not (src/App.js:58-74). */
    constructor (speechSupported: bool)
      ensures Valid() && View() == Init(speechSupported)
      ensures transcript == "" && savedTranscripts == [] && !isListening && !isLocked
      ensures language == DEFAULT_LANGUAGE && hasRecognizer == speechSupported
      ensures !speechSupported ==> error == UNSUPPORTED_MESSAGE
    {
      transcript := "";
      isListening := false;
      error := "";
      language := DEFAULT_LANGUAGE;
      savedTranscripts := [];
      isLocked := false;
      hasRecognizer := false;
      if !speechSupported {
        error := UNSUPPORTED_MESSAGE;
      } else {
        hasRecognizer := true;
      }
    }

    /** `onstart`: clears the banner and locks the UI. */
    method OnStart()
      requires Valid() && hasRecognizer
      modifies this`error, this`isLocked
      ensures Valid() && View() == Step(old(View()), Started)
      ensures error == "" && isLocked
    {
      error := "";
      isLocked := true;
    }

    /** `onresult`: the transcript becomes the batch's text, discarding the
        previous one; a batch with an utterance lacking alternatives makes
        the handler throw before it sets anything. */
    method OnResult(batch: seq<SpeechResult>)
      requires Valid() && hasRecognizer
      modifies this`transcript
      ensures Valid() && View() == Step(old(View()), Resulted(batch))
      ensures HasTop(batch) ==> transcript == Join(Tops(batch), [SPACE])
      ensures !HasTop(batch) ==> transcript == old(transcript)
    {
      var text := BatchText(batch);
      if text.Some? {
        transcript := text.value;
      }
    }

    /** `onerror`: only the banner changes; the UI stays locked and the
        listening flag stays as it was. */
    method OnError(code: string)
      requires Valid() && hasRecognizer
      modifies this`error
      ensures Valid() && View() == Step(old(View()), Failed(code))
      ensures error == "Error: " + code
    {
      error := ErrorMessage(code);
    }

    /** `onend`: stops listening and unlocks the UI. */
    method OnEnd()
      requires Valid() && hasRecognizer
      modifies this`isListening, this`isLocked
      ensures Valid() && View() == Step(old(View()), Ended)
      ensures !isListening && !isLocked
    {
      isListening := false;
      isLocked := false;
    }

    /** Start Listening: with a recogniser, starts it and sets the flag;
        without one, does nothing. */
    method StartListening() returns (effect: Option<Effect>)
      requires Valid()
      modifies this`isListening
      ensures Valid() && View() == Step(old(View()), StartClicked)
      ensures effect == Output(old(View()), StartClicked)
      ensures isListening == (old(isListening) || hasRecognizer)
    {
      effect := None;
      if hasRecognizer {
        effect := Some(RecognizerStart);
        isListening := true;
      }
    }

    /** Stop Listening: with a recogniser, stops it and clears the flag;
        the lock stays until `onend`. */
    method StopListening() returns (effect: Option<Effect>)
      requires Valid()
      modifies this`isListening
      ensures Valid() && View() == Step(old(View()), StopClicked)
      ensures effect == Output(old(View()), StopClicked)
      ensures isListening == (old(isListening) && !hasRecognizer)
    {
      effect := None;
      if hasRecognizer {
        effect := Some(RecognizerStop);
        isListening := false;
      }
    }

    /** Clear: empties the transcript unless the UI is locked. */
    method ClearTranscript()
      requires Valid()
      modifies this`transcript
      ensures Valid() && View() == Step(old(View()), ClearClicked)
      ensures transcript == if old(isLocked) then old(transcript) else ""
    {
      if !isLocked {
        transcript := "";
      }
    }

    /** Save: when unlocked and non-empty, the transcript moves to the end
        of the saved list and the transcript is emptied; otherwise nothing
        changes. */
    method SaveTranscript()
      requires Valid()
      modifies this`transcript, this`savedTranscripts
      ensures Valid() && View() == Step(old(View()), SaveClicked)
      ensures old(CanExport(View())) ==>
                savedTranscripts == old(savedTranscripts) + [old(transcript)] && transcript == ""
      ensures !old(CanExport(View())) ==>
                savedTranscripts == old(savedTranscripts) && transcript == old(transcript)
    {
      if !isLocked && transcript != "" {
        savedTranscripts := savedTranscripts + [transcript];
        transcript := "";
      }
    }

    /** Copy: when unlocked and non-empty, writes the transcript to the
        clipboard and raises the confirmation alert; changes no field. */
    method CopyToClipboard() returns (effect: Option<Effect>)
      ensures effect == Output(View(), CopyClicked)
      ensures effect.Some? <==> !isLocked && transcript != ""
      ensures effect.Some? ==> effect.value == ClipboardWrite(transcript, COPIED_ALERT)
    {
      effect := None;
      if !isLocked && transcript != "" {
        effect := Some(ClipboardWrite(transcript, COPIED_ALERT));
      }
    }

    /** Download: when unlocked and non-empty, offers the transcript as the
        plain-text file "transcript.txt"; changes no field. */
    method DownloadTranscript() returns (effect: Option<Effect>)
      ensures effect == Output(View(), DownloadClicked)
      ensures effect.Some? <==> !isLocked && transcript != ""
      ensures effect.Some? ==> effect.value == FileDownload("transcript.txt", "text/plain", transcript)
    {
      effect := None;
      if !isLocked && transcript != "" {
        effect := Some(FileDownload(DOWNLOAD_NAME, DOWNLOAD_TYPE, transcript));
      }
    }

    /** The language selector's `onChange`: sets the language; the effect
        keyed on it builds a new recogniser, or reports once more that
        there is none. */
    method SetLanguage(tag: string)
      requires Valid()
      modifies this`language, this`error
      ensures Valid() && View() == Step(old(View()), LanguageChosen(tag))
      ensures language == tag && error == old(error)
    {
      language := tag;
      if !hasRecognizer {
        error := UNSUPPORTED_MESSAGE;
      }
    }

    /** The "Words: … | Characters: …" line under the transcript. */
    method Counts() returns (words: nat, characters: nat)
      ensures words == WordCount(transcript) && characters == |transcript|
      ensures words == Runs(transcript, false)
      ensures words <= characters
    {
      words := WordCount(transcript);
      characters := |transcript|;
      WordCountIsRuns(transcript);
      WordCountAtMostLength(transcript);
    }
  }

  /** A client: one recording, an error, the end, a save, and a second
      clear, with what the contracts alone tell the caller. */
  method SessionScenario(code: string, batch: seq<SpeechResult>)
    requires |batch| >= 1 && HasTop(batch)
    requires forall i :: 0 <= i < |batch| ==> batch[i].alternatives[0].transcript != ""
  {
    var session := new DictationSession(true);
    var started := session.StartListening();
    assert started == Some(RecognizerStart) && session.isListening;
    session.OnStart();
    session.OnResult(batch);
    var text := session.transcript;
    assert text != "" by {
      assert |Tops(batch)| >= 1 && Tops(batch)[0] != "";
      if |Tops(batch)| == 1 {
        assert text == Tops(batch)[0];
      } else {
        assert text == Tops(batch)[0] + [SPACE] + Join(Tops(batch)[1..], [SPACE]);
      }
    }
    var blocked := session.CopyToClipboard();
    assert blocked == None;
    session.ClearTranscript();
    assert session.transcript == text;
    session.OnError(code);
    assert session.isLocked && session.isListening && session.transcript == text;
    session.OnEnd();
    session.SaveTranscript();
    assert session.savedTranscripts == [text] && session.transcript == "";
    session.ClearTranscript();
    session.ClearTranscript();
    assert session.savedTranscripts == [text] && session.transcript == "";
  }
}
