/** Which controls of the dictation screen are enabled: the `disabled`
    expressions of the buttons and the language selector (src/App.js:155,
    162, 169, 176, 183, 190, 203), as a pure function of the state, and what
    follows for the events the user can actually cause. */
module Controls {
  import opened Wrappers
  import opened SessionState

  datatype Control =
    StartButton | StopButton | ClearButton | SaveButton | CopyButton | DownloadButton | LanguageSelect

  const ALL_CONTROLS: seq<Control> :=
    [StartButton, StopButton, ClearButton, SaveButton, CopyButton, DownloadButton, LanguageSelect]

  /** A control is enabled when its `disabled` expression is false. No
      control is enabled while locked, and the four export buttons are
      enabled exactly when their handlers' guard holds. */
  predicate Enabled(s: State, c: Control)
    ensures Enabled(s, c) ==> !s.isLocked
    ensures (c.ClearButton? || c.SaveButton? || c.CopyButton? || c.DownloadButton?) ==>
              (Enabled(s, c) <==> CanExport(s))
  {
    match c
    case StartButton => !(s.isListening || s.isLocked)
    case StopButton => !(!s.isListening || s.isLocked)
    case ClearButton => !(s.isLocked || s.transcript == "")
    case SaveButton => !(s.isLocked || s.transcript == "")
    case CopyButton => !(s.isLocked || s.transcript == "")
    case DownloadButton => !(s.isLocked || s.transcript == "")
    case LanguageSelect => !s.isLocked
  }

  lemma AllControlsListed()
    ensures forall c :: c in ALL_CONTROLS
  {
    forall c ensures c in ALL_CONTROLS {
      match c
      case StartButton => assert ALL_CONTROLS[0] == c;
      case StopButton => assert ALL_CONTROLS[1] == c;
      case ClearButton => assert ALL_CONTROLS[2] == c;
      case SaveButton => assert ALL_CONTROLS[3] == c;
      case CopyButton => assert ALL_CONTROLS[4] == c;
      case DownloadButton => assert ALL_CONTROLS[5] == c;
      case LanguageSelect => assert ALL_CONTROLS[6] == c;
    }
  }

  /** The set of operations the screen offers in state `s`. */
  function Permitted(s: State): (offered: set<Control>)
    ensures forall c :: c in offered <==> Enabled(s, c)
  {
    AllControlsListed();
    set c | c in ALL_CONTROLS && Enabled(s, c)
  }

  /** The control through which the user causes an event; recogniser
      events have none. */
  function ControlOf(e: Event): (c: Option<Control>)
    ensures c.None? <==> e.FromRecognizer()
    ensures e.StartClicked? ==> c == Some(StartButton)
    ensures e.StopClicked? ==> c == Some(StopButton)
    ensures e.ClearClicked? ==> c == Some(ClearButton)
    ensures e.SaveClicked? ==> c == Some(SaveButton)
    ensures e.CopyClicked? ==> c == Some(CopyButton)
    ensures e.DownloadClicked? ==> c == Some(DownloadButton)
    ensures e.LanguageChosen? ==> c == Some(LanguageSelect)
  {
    match e
    case StartClicked => Some(StartButton)
    case StopClicked => Some(StopButton)
    case ClearClicked => Some(ClearButton)
    case SaveClicked => Some(SaveButton)
    case CopyClicked => Some(CopyButton)
    case DownloadClicked => Some(DownloadButton)
    case LanguageChosen(_) => Some(LanguageSelect)
    case _ => None
  }

  /** The event can occur in state `s`: the recogniser may call back at any
      time, the user only through an enabled control. */
  predicate Offered(s: State, e: Event)
    ensures e.FromRecognizer() ==> Offered(s, e)
    ensures s.isLocked && Offered(s, e) ==> e.FromRecognizer()
  {
    match ControlOf(e)
    case None => true
    case Some(c) => Enabled(s, c)
  }

  /** Every event of the sequence can occur in the state it meets. */
  predicate Admissible(s: State, events: seq<Event>)
    decreases |events|
  {
    events == [] || (Offered(s, events[0]) && Admissible(Step(s, events[0]), events[1..]))
  }

  /** A sequence can occur exactly when its first part can, and the rest
      can from where the first part leaves the session. */
  lemma {:induction false} AdmissibleAppend(s: State, a: seq<Event>, b: seq<Event>)
    ensures Admissible(s, a + b) <==> Admissible(s, a) && Admissible(Run(s, a), b)
    decreases |a|
  {
    if a == [] {
      assert a + b == b;
    } else {
      assert (a + b)[0] == a[0];
      assert (a + b)[1..] == a[1..] + b;
      AdmissibleAppend(Step(s, a[0]), a[1..], b);
    }
  }

  /** While the UI is locked nothing is offered; when it is not, the
      language can be changed. */
  lemma LockedPermitsNothing(s: State)
    ensures s.isLocked ==> Permitted(s) == {}
    ensures !s.isLocked ==> LanguageSelect in Permitted(s)
  {
  }

  /** At most one of Start and Stop is enabled, and exactly one when the UI
      is unlocked, according to `isListening`. */
  lemma StartOrStop(s: State)
    ensures !(StartButton in Permitted(s) && StopButton in Permitted(s))
    ensures !s.isLocked ==> (StartButton in Permitted(s) <==> !s.isListening)
    ensures !s.isLocked ==> (StopButton in Permitted(s) <==> s.isListening)
  {
  }

  /** An enabled export control always acts and a disabled one never does:
      Save and Clear change the state exactly when enabled, Copy and
      Download call out exactly when enabled. Clear's handler checks only
      the lock, yet on an empty transcript it has nothing to clear. */
  lemma ExportControlsMatchHandlers(s: State)
    ensures SaveButton in Permitted(s) <==> Step(s, SaveClicked) != s
    ensures ClearButton in Permitted(s) <==> Step(s, ClearClicked) != s
    ensures CopyButton in Permitted(s) <==> Output(s, CopyClicked).Some?
    ensures DownloadButton in Permitted(s) <==> Output(s, DownloadClicked).Some?
  {
  }

  /** With a recogniser, an enabled Start or Stop flips `isListening` and
      calls the recogniser. */
  lemma ListenControlsMatchHandlers(s: State)
    requires s.hasRecognizer
    ensures StartButton in Permitted(s) ==>
              Step(s, StartClicked).isListening && Output(s, StartClicked) == Some(RecognizerStart)
    ensures StopButton in Permitted(s) ==>
              !Step(s, StopClicked).isListening && Output(s, StopClicked) == Some(RecognizerStop)
  {
  }

  /** While locked, and until the recogniser ends, the events that can occur
      change only the transcript and the error banner: the language, the
      saved list, the lock and the listening flag are frozen. */
  lemma {:induction false} LockedRunFreezes(s: State, events: seq<Event>)
    requires s.isLocked && Admissible(s, events)
    requires forall i :: 0 <= i < |events| ==> !events[i].Ended?
    ensures Run(s, events).(transcript := s.transcript, error := s.error) == s
    decreases |events|
  {
    if events != [] {
      var e := events[0];
      var t := Step(s, e);
      assert !e.Ended?;
      assert Offered(s, e);
      assert e.FromRecognizer();
      assert t.(transcript := s.transcript, error := s.error) == s;
      LockedRunFreezes(t, events[1..]);
    }
  }
}
