/** The older variant of the recording app (src/App.tsx): a non-continuous recogniser without
    interim results, whose single final result is summarized as soon as it arrives. */
module LegacyApp {
  import opened Types
  import opened JsStrings
  import opened Recognition
  import opened Summarizer

  const UnsupportedMessage: string := "お使いのブラウザは音声認識に対応していません。"
  const SummaryFailedMessage: string := "AIとの通信中にエラーがおきました。もういちどおためしください。"
  const GenericRecognitionMessage: string := "音声認識中にエラーがおきました。"
  const PermissionDeniedMessage: string := "マイクの使用が許可されていません。ブラウザの設定を確認してください。"
  const NoSpeechMessage: string := "音声が聞き取れませんでした。もう一度お試しください。"

  /** The `onerror` classification: a refused microphone or service gives the permission message,
      silence gives the not-heard message, and every other code the generic one. */
  function ErrorMessage(code: string): (m: string)
    ensures m == PermissionDeniedMessage <==> code == "not-allowed" || code == "service-not-allowed"
    ensures m == NoSpeechMessage <==> code == "no-speech"
    ensures m == GenericRecognitionMessage
        <==> code != "not-allowed" && code != "service-not-allowed" && code != "no-speech"
  {
    if code == "not-allowed" || code == "service-not-allowed" then PermissionDeniedMessage
    else if code == "no-speech" then NoSpeechMessage
    else GenericRecognitionMessage
  }

  /** `getStatusMessage`: the line shown under the record button for each phase. */
  function StatusMessage(phase: AppState): (m: string)
    ensures m != ""
  {
    match phase
    case Idle => "マイクボタンをおして はなしてください"
    case Listening => "きいています..."
    case Processing => "AIがまとめています..."
    case Result => "かんせい！"
    case Error => "エラーがはっせいしました"
  }

  /** Different phases show different status lines, so the line identifies the phase. */
  lemma StatusMessageInjective(p: AppState, q: AppState)
    ensures StatusMessage(p) == StatusMessage(q) ==> p == q
  {
    if p != q {
      assert StatusMessage(p)[0] != StatusMessage(q)[0] || |StatusMessage(p)| != |StatusMessage(q)|;
    }
  }

  /** What `onresult` keeps of a delivery: the first alternative of the last result in the
      list, and only when that result is final. A delivery with an empty list keeps nothing
      (the handler throws before changing anything). */
  function LastFinal(ev: ResultEvent): (kept: Option<string>)
    ensures kept.Some? <==> |ev.results| > 0 && ev.results[|ev.results| - 1].isFinal
    ensures kept.Some? ==> kept.value == ev.results[|ev.results| - 1].transcript
  {
    if |ev.results| == 0 then None
    else
      var last := ev.results[|ev.results| - 1];
      if last.isFinal then Some(last.transcript) else None
  }

  /** Only the last result of a delivery matters: whatever precedes it in the list, and
      wherever the delivery says the changes start, the outcome is that of the last result
      delivered on its own. */
  lemma LastFinalOnlyLast(earlier: seq<RecognitionResult>, last: RecognitionResult, index: nat)
    ensures LastFinal(ResultEvent(earlier + [last], index)) == LastFinal(ResultEvent([last], 0))
  {
    assert (earlier + [last])[|earlier + [last]| - 1] == last;
  }

  /** When a delivery brings a single new result and it is final (what a non-continuous
      recogniser without interim results delivers), the older variant keeps exactly the final
      text the live variant's accumulation loop would append. */
  lemma LastFinalAgreesWithAccumulation(ev: ResultEvent)
    requires |ev.results| > 0 && ev.resultIndex == |ev.results| - 1
    requires ev.results[|ev.results| - 1].isFinal
    ensures LastFinal(ev) == Some(Texts(NewResults(ev), true))
  {
    var last := ev.results[|ev.results| - 1];
    assert NewResults(ev) == [last];
    TextsOne(last, true);
  }

  /** The decision `processTranscript` makes here: a text that trims to nothing is not sent;
      any other text is sent exactly as it was heard, untrimmed. */
  function Submission(text: string): (request: Option<string>)
    ensures request.None? <==> IsBlank(text)
    ensures request.Some? ==> request.value == text
  {
    if Trim(text) == "" then None else Some(text)
  }

  class LegacySession {
    var phase: AppState
    var transcript: string
    var geminiResult: string
    var error: string
    /** Whether a recogniser has been created (the recogniser reference is set). */
    var hasRecognizer: bool
    /** The phase the current recogniser's `onend` closure captured: the phase of the page
        when `startRecording` ran, before it switched to listening. */
    var startPhase: AppState

    /** The error phase always has a message, and the result phase always has a summary. */
    ghost predicate Valid()
      reads this
    {
      && (phase == Error ==> error != "")
      && (phase == Result ==> geminiResult != "")
    }

    constructor ()
      ensures Valid()
      ensures phase == Idle && transcript == "" && geminiResult == "" && error == ""
      ensures !hasRecognizer && startPhase == Idle
    {
      phase := Idle;
      transcript, geminiResult, error := "", "", "";
      hasRecognizer, startPhase := false, Idle;
    }

    /** `startRecording`: the error,
        transcript and summary are cleared first; without speech recognition the page then goes
        to the error phase, otherwise it listens and the new `onend` closure keeps the phase the
        page had before. */
    method Start(speechSupported: bool)
      requires Valid()
      modifies this
      ensures Valid()
      ensures transcript == "" && geminiResult == ""
      ensures !speechSupported ==> && phase == Error && error == UnsupportedMessage
                                   && hasRecognizer == old(hasRecognizer)
                                   && startPhase == old(startPhase)
      ensures speechSupported ==> && phase == Listening && error == ""
                                  && hasRecognizer && startPhase == old(phase)
    {
      var captured := phase;
      phase := Listening;
      error, transcript, geminiResult := "", "", "";
      if !speechSupported {
        error := UnsupportedMessage;
        phase := Error;
        return;
      }
      hasRecognizer := true;
      startPhase := captured;
    }

    /** The synchronous part of `processTranscript`: a blank text returns to idle without calling
        the summarizer; any other text moves to the summarizing phase with the error cleared
        and is handed to the summarizer as it is (the returned request). */
    method ProcessTranscript(text: string) returns (request: Option<string>)
      requires Valid()
      modifies this
      ensures Valid()
      ensures request == Submission(text)
      ensures phase == (if request.None? then Idle else Processing)
      ensures error == (if request.None? then old(error) else "")
      ensures transcript == old(transcript) && geminiResult == old(geminiResult)
      ensures hasRecognizer == old(hasRecognizer) && startPhase == old(startPhase)
    {
      request := Submission(text);
      if request.None? {
        phase := Idle;
        return;
      }
      phase := Processing;
      error := "";
    }

    /** `onresult`: only the last result matters; when it is final its text replaces the
        transcript and is submitted at once, otherwise nothing happens. */
    method OnResult(ev: ResultEvent) returns (request: Option<string>)
      requires Valid()
      modifies this
      ensures Valid()
      ensures LastFinal(ev).None? ==> request == None && unchanged(this)
      ensures LastFinal(ev).Some? ==>
                var text := LastFinal(ev).value;
                && transcript == text
                && request == Submission(text)
                && phase == (if request.None? then Idle else Processing)
                && error == (if request.None? then old(error) else "")
                && geminiResult == old(geminiResult)
                && hasRecognizer == old(hasRecognizer) && startPhase == old(startPhase)
    {
      request := None;
      var kept := LastFinal(ev);
      if kept.Some? {
        transcript := kept.value;
        request := ProcessTranscript(kept.value);
      }
    }

    /** `onend`: moves to the summarizing phase only if the phase its closure captured is
        "listening". That phase is the one before recording started, which the record button
        never lets be "listening", so the end of the stream then changes nothing. */
    method StreamEnd()
      requires Valid()
      modifies this
      ensures Valid()
      ensures phase == (if old(startPhase) == Listening then Processing else old(phase))
      ensures old(startPhase) != Listening ==> unchanged(this)
      ensures transcript == old(transcript) && geminiResult == old(geminiResult) && error == old(error)
      ensures hasRecognizer == old(hasRecognizer) && startPhase == old(startPhase)
    {
      if startPhase == Listening {
        phase := Processing;
      }
    }

    /** `onerror`: every error code, silence included, puts the page in the error phase with the
        message its code is classified to. */
    method OnError(code: string)
      requires Valid()
      modifies this
      ensures Valid()
      ensures phase == Error && error == ErrorMessage(code)
      ensures transcript == old(transcript) && geminiResult == old(geminiResult)
      ensures hasRecognizer == old(hasRecognizer) && startPhase == old(startPhase)
    {
      error := ErrorMessage(code);
      phase := Error;
    }

    /** The awaited summarizer call settles: the service's answer (the model's reply, or its
        fallback text when the reply is empty) is stored and shown, a failure shows the fixed
        communication-error message, whatever the phase is by then. */
    method ResolveSummary(outcome: SummaryOutcome)
      requires Valid()
      modifies this
      ensures Valid()
      ensures outcome.Replied? ==> && phase == Result && geminiResult == ReplyText(outcome.response)
                                   && error == old(error)
      ensures outcome.Failed? ==> && phase == Error && error == SummaryFailedMessage
                                  && geminiResult == old(geminiResult)
      ensures transcript == old(transcript)
      ensures hasRecognizer == old(hasRecognizer) && startPhase == old(startPhase)
    {
      match outcome
      case Replied(response) =>
        geminiResult := ReplyText(response);
        phase := Result;
      case Failed =>
        error := SummaryFailedMessage;
        phase := Error;
    }

    /** `stopRecording`: asks the recogniser, if there is one, to stop, and returns to idle at
        once, whatever result may still be on its way. */
    method StopRecording() returns (stopSent: bool)
      requires Valid()
      modifies this
      ensures Valid()
      ensures stopSent == hasRecognizer && phase == Idle
      ensures transcript == old(transcript) && geminiResult == old(geminiResult) && error == old(error)
      ensures hasRecognizer == old(hasRecognizer) && startPhase == old(startPhase)
    {
      stopSent := hasRecognizer;
      phase := Idle;
    }

    /** `handleRecordButtonClick`: ignored while summarizing (the button is disabled), a stop
        while listening, a start otherwise. Since it starts only from a page that is not
        listening, the phase a new `onend` closure captures is never "listening". */
    method ClickRecordButton(speechSupported: bool) returns (stopSent: bool)
      requires Valid()
      modifies this
      ensures Valid()
      ensures old(phase) == Processing ==> !stopSent && unchanged(this)
      ensures old(phase) == Listening ==>
                && stopSent == hasRecognizer && phase == Idle
                && transcript == old(transcript) && geminiResult == old(geminiResult)
                && error == old(error)
                && hasRecognizer == old(hasRecognizer) && startPhase == old(startPhase)
      ensures old(phase) != Processing && old(phase) != Listening ==>
                && !stopSent && transcript == "" && geminiResult == ""
                && (if speechSupported
                    then && phase == Listening && error == ""
                         && hasRecognizer && startPhase == old(phase)
                    else && phase == Error && error == UnsupportedMessage
                         && hasRecognizer == old(hasRecognizer) && startPhase == old(startPhase))
      ensures old(startPhase) != Listening ==> startPhase != Listening
    {
      stopSent := false;
      if !RecordButtonEnabled(phase) {
        return;
      }
      if phase == Listening {
        stopSent := StopRecording();
      } else {
        Start(speechSupported);
      }
    }

    /** `handleReset`: back to idle with transcript, summary and error empty. */
    method Reset()
      requires Valid()
      modifies this
      ensures Valid()
      ensures phase == Idle && transcript == "" && geminiResult == "" && error == ""
      ensures hasRecognizer == old(hasRecognizer) && startPhase == old(startPhase)
    {
      phase := Idle;
      transcript, geminiResult, error := "", "", "";
    }
  }
}
