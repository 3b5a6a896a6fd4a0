/** What the browser's speech recogniser delivers, reduced to values, and the transcript
    accumulation the live app performs on each delivery (its `onresult` handler). */
module Recognition {

  /** One recognition result: the transcript of its first alternative, and whether the
      engine has confirmed it (final) or may still revise it (interim). */
  datatype RecognitionResult = RecognitionResult(transcript: string, isFinal: bool)

  /** One `onresult` delivery: the session's whole result list so far, and the index of the
      first entry that changed in this delivery. */
  datatype ResultEvent = ResultEvent(results: seq<RecognitionResult>, resultIndex: nat)

  /** The entries the live app's loop visits: from `resultIndex` up to the end of the list,
      none at all when the index is past the end. */
  function NewResults(ev: ResultEvent): (rs: seq<RecognitionResult>)
    ensures |rs| <= |ev.results|
    ensures ev.resultIndex <= |ev.results| ==> rs == ev.results[ev.resultIndex..]
    ensures ev.resultIndex >= |ev.results| ==> rs == []
  {
    if ev.resultIndex <= |ev.results| then ev.results[ev.resultIndex..] else []
  }

  /** The transcripts of the results whose finality is `final`, concatenated in list order
      without separators. */
  function Texts(rs: seq<RecognitionResult>, final: bool): string
  {
    if rs == [] then "" else (if rs[0].isFinal == final then rs[0].transcript else "") + Texts(rs[1..], final)
  }

  /** Concatenating texts distributes over concatenating result lists. */
  lemma {:induction false} TextsAppend(a: seq<RecognitionResult>, b: seq<RecognitionResult>, final: bool)
    ensures Texts(a + b, final) == Texts(a, final) + Texts(b, final)
  {
    if a == [] {
      assert a + b == b;
    } else {
      assert (a + b)[0] == a[0];
      assert (a + b)[1..] == a[1..] + b;
      TextsAppend(a[1..], b, final);
    }
  }

  /** A single result adds its transcript to exactly one of the two texts. */
  lemma TextsOne(r: RecognitionResult, final: bool)
    ensures Texts([r], final) == if r.isFinal == final then r.transcript else ""
  {
    assert [r][1..] == [];
  }

  /** The `for` loop of the live app's `onresult` handler: walking the delivery from
      `resultIndex` to the end, it builds the final fragments into `finalPart` and the interim
      ones into `interim`, each in list order. */
  method CollectBatch(ev: ResultEvent) returns (finalPart: string, interim: string)
    ensures finalPart == Texts(NewResults(ev), true)
    ensures interim == Texts(NewResults(ev), false)
  {
    finalPart, interim := "", "";
    var i := ev.resultIndex;
    while i < |ev.results|
      invariant ev.resultIndex <= i
      invariant i > |ev.results| ==> i == ev.resultIndex && finalPart == "" && interim == ""
      invariant i <= |ev.results| ==> finalPart == Texts(ev.results[ev.resultIndex..i], true)
      invariant i <= |ev.results| ==> interim == Texts(ev.results[ev.resultIndex..i], false)
    {
      var r := ev.results[i];
      assert ev.results[ev.resultIndex..i + 1] == ev.results[ev.resultIndex..i] + [r];
      TextsAppend(ev.results[ev.resultIndex..i], [r], true);
      TextsAppend(ev.results[ev.resultIndex..i], [r], false);
      TextsOne(r, true);
      TextsOne(r, false);
      if r.isFinal {
        finalPart := finalPart + r.transcript;
      } else {
        interim := interim + r.transcript;
      }
      i := i + 1;
    }
    assert i <= |ev.results| ==> ev.results[ev.resultIndex..i] == NewResults(ev);
  }

  /** The two transcript fields the live app keeps while listening: the confirmed text and
      the current guess at the words not yet confirmed. */
  datatype TranscriptState = TranscriptState(finalized: string, pending: string)

  /** The effect of one delivery on the transcript fields: the delivery's final fragments are
      appended to the confirmed text, and its interim fragments replace the guess wholesale. */
  function ApplyBatch(t: TranscriptState, ev: ResultEvent): TranscriptState
  {
    TranscriptState(t.finalized + Texts(NewResults(ev), true), Texts(NewResults(ev), false))
  }

  /** The deliveries applied one after another, in arrival order. */
  function ApplyBatches(t: TranscriptState, evs: seq<ResultEvent>): TranscriptState
    decreases |evs|
  {
    if evs == [] then t else ApplyBatches(ApplyBatch(t, evs[0]), evs[1..])
  }

  /** Every entry any of the deliveries brought in, in arrival order. */
  function Delivered(evs: seq<ResultEvent>): seq<RecognitionResult>
  {
    if evs == [] then [] else NewResults(evs[0]) + Delivered(evs[1..])
  }

  /** After any run of deliveries the confirmed text is the old confirmed text followed by
      every final fragment delivered, in arrival order (it is never shortened or rewritten). */
  lemma {:induction false} ApplyBatchesAccumulates(t: TranscriptState, evs: seq<ResultEvent>)
    ensures ApplyBatches(t, evs).finalized == t.finalized + Texts(Delivered(evs), true)
    decreases |evs|
  {
    if evs != [] {
      var t' := ApplyBatch(t, evs[0]);
      var first, later := NewResults(evs[0]), Delivered(evs[1..]);
      ApplyBatchesAccumulates(t', evs[1..]);
      TextsAppend(first, later, true);
      calc {
        ApplyBatches(t, evs).finalized;
        ApplyBatches(t', evs[1..]).finalized;
        t'.finalized + Texts(later, true);
        (t.finalized + Texts(first, true)) + Texts(later, true);
        t.finalized + Texts(first + later, true);
      }
    }
  }

  /** After a non-empty run of deliveries the interim text is that of the last delivery alone:
      earlier deliveries leave no trace in it. */
  lemma {:induction false} ApplyBatchesKeepsLastInterim(t: TranscriptState, evs: seq<ResultEvent>)
    requires evs != []
    ensures ApplyBatches(t, evs).pending == Texts(NewResults(evs[|evs| - 1]), false)
    decreases |evs|
  {
    var t' := ApplyBatch(t, evs[0]);
    assert ApplyBatches(t, evs) == ApplyBatches(t', evs[1..]);
    if |evs| > 1 {
      ApplyBatchesKeepsLastInterim(t', evs[1..]);
      assert evs[1..][|evs[1..]| - 1] == evs[|evs| - 1];
    }
  }
}
