/** What a speech recogniser's result event carries, and the text the
    `onresult` handler derives from it (src/App.js:80-85). */
module Recognition {
  import opened Wrappers
  import opened Words

  /** One ranked transcription of an utterance. */
  datatype Alternative = Alternative(transcript: string, confidence: real)

  /** One utterance: its alternatives, best first, and whether the
      recogniser has finalised it or it is still interim. */
  datatype SpeechResult = SpeechResult(alternatives: seq<Alternative>, isFinal: bool)

  /** Every utterance has a best alternative, so `result[0]` is defined. */
  predicate HasTop(batch: seq<SpeechResult>)
  {
    forall i :: 0 <= i < |batch| ==> |batch[i].alternatives| > 0
  }

  /** `result[0].transcript` of every utterance, in arrival order. */
  function Tops(batch: seq<SpeechResult>): (tops: seq<string>)
    requires HasTop(batch)
    ensures |tops| == |batch|
    ensures forall i :: 0 <= i < |batch| ==> tops[i] == batch[i].alternatives[0].transcript
    decreases |batch|
  {
    if batch == [] then []
    else [batch[0].alternatives[0].transcript] + Tops(batch[1..])
  }

  /** The text `onresult` stores: the best alternatives of all utterances,
      interim and final alike, joined with single spaces. None when some
      utterance has no alternative: reading `result[0].transcript` then
      throws, and the handler stops before it sets the transcript. */
  function BatchText(batch: seq<SpeechResult>): (text: Option<string>)
    ensures text.Some? <==> HasTop(batch)
    ensures batch == [] ==> text == Some("")
    ensures |batch| == 1 && HasTop(batch) ==> text == Some(batch[0].alternatives[0].transcript)
  {
    if HasTop(batch) then Some(Join(Tops(batch), [SPACE])) else None
  }

  /** The text exists exactly when every utterance has a best alternative;
      for a non-empty batch whose best alternatives are space-free,
      splitting it on spaces gives them back: nothing is lost, added or
      reordered. */
  lemma BatchTextPieces(batch: seq<SpeechResult>)
    ensures BatchText(batch).Some? <==> HasTop(batch)
    ensures |batch| >= 1 && HasTop(batch) && (forall i :: 0 <= i < |batch| ==> SPACE !in batch[i].alternatives[0].transcript)
            ==> Split(BatchText(batch).value) == Tops(batch)
  {
    if |batch| >= 1 && HasTop(batch) && (forall i :: 0 <= i < |batch| ==> SPACE !in batch[i].alternatives[0].transcript) {
      SplitJoin(Tops(batch));
    }
  }

  /** Only the best alternative of each utterance matters: lower-ranked
      alternatives, confidences and the final flag do not change the text. */
  lemma BatchTextUsesTopsOnly(a: seq<SpeechResult>, b: seq<SpeechResult>)
    requires HasTop(a) && HasTop(b) && |a| == |b|
    requires forall i :: 0 <= i < |a| ==> a[i].alternatives[0].transcript == b[i].alternatives[0].transcript
    ensures BatchText(a) == BatchText(b)
  {
    assert Tops(a) == Tops(b);
  }

  /** Utterances appear in arrival order: the text of a batch is the text of
      its first part, a space, and the text of the rest. */
  lemma BatchTextAppend(a: seq<SpeechResult>, b: seq<SpeechResult>)
    requires |a| >= 1 && |b| >= 1 && HasTop(a) && HasTop(b)
    ensures HasTop(a + b)
    ensures BatchText(a + b) == Some(BatchText(a).value + [SPACE] + BatchText(b).value)
  {
    assert HasTop(a + b) by {
      forall i | 0 <= i < |a + b| ensures |(a + b)[i].alternatives| > 0 {
        if i >= |a| { assert (a + b)[i] == b[i - |a|]; }
      }
    }
    assert Tops(a + b) == Tops(a) + Tops(b);
    JoinAppend(Tops(a), Tops(b), [SPACE]);
  }

  /** Best alternatives that are non-empty and space-free each count as one word. */
  lemma BatchWordCount(batch: seq<SpeechResult>)
    requires |batch| >= 1 && HasTop(batch)
    requires forall i :: 0 <= i < |batch| ==>
               batch[i].alternatives[0].transcript != "" && SPACE !in batch[i].alternatives[0].transcript
    ensures WordCount(BatchText(batch).value) == |batch|
  {
    WordCountOfJoinedWords(Tops(batch));
  }
}
