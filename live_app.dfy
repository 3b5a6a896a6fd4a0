/** The live recording app (the root App.tsx): one session object holding the phase and the
    four strings the page shows, with one method per event that reaches it. */
module LiveApp {
  import opened Types
  import opened JsStrings
  import opened Recognition
  import opened Summarizer

  const ApiKeyMissingMessage: string := "API_KEYが設定されていません。VercelのEnvironment Variablesを確認してください。"
  const UnsupportedMessage: string := "お使いのブラウザは音声認識に対応していません。Chromeなどのブラウザを使用してください。"
  const SummaryFailedMessage: string := "AIのまとめに しっぱいしました。もういちど おねがいします。"
  const MicErrorPrefix: string := "マイクエラー: "

  /** The recogniser's error code for "no audio was heard", which the live app ignores. */
  const NoSpeech: string := "no-speech"

  /** The message the `onerror` handler shows for an error code: none for `no-speech`, which is
      ignored; otherwise the microphone-error prefix followed by the code itself. */
  function MicErrorMessage(code: string): (m: Option<string>)
    ensures m.None? <==> code == NoSpeech
    ensures m.Some? ==> && |MicErrorPrefix| <= |m.value|
                        && m.value[..|MicErrorPrefix|] == MicErrorPrefix
                        && m.value[|MicErrorPrefix|..] == code
  {
    if code == NoSpeech then None else Some(MicErrorPrefix + code)
  }

  /** Different error codes never show the same message: the message identifies the code. */
  lemma MicErrorMessageInjective(a: string, b: string)
    ensures MicErrorMessage(a) == MicErrorMessage(b) <==> a == b
  {
    if a != b && MicErrorMessage(a).Some? && MicErrorMessage(b).Some? {
      assert MicErrorMessage(a).value[|MicErrorPrefix|..] != MicErrorMessage(b).value[|MicErrorPrefix|..];
    }
  }

  /** The decision `processTranscript` makes before awaiting the summarizer: a text that trims
      to nothing is not sent at all; any other text is sent trimmed. */
  function Submission(text: string): (request: Option<string>)
    ensures request.None? <==> IsBlank(text)
    ensures request.Some? ==> && request.value == Trim(text)
                              && request.value != ""
                              && !IsJsWhitespace(request.value[0])
                              && !IsJsWhitespace(request.value[|request.value| - 1])
  {
    var clean := Trim(text);
    if clean == "" then None else Some(clean)
  }

  class LiveSession {
    var phase: AppState
    var transcript: string
    var interimTranscript: string
    var geminiResult: string
    var error: string
    /** Whether a recogniser has been created (the recogniser reference is set). */
    var hasRecognizer: bool
    /** `transcript + interimTranscript` as they were when the current recogniser was started:
        the values the `onend` closure of that recogniser reads. */
    var endText: string

    /** The panels and the phases agree: no error text while idle, listening or summarizing,
        always one in the error phase, and always a summary in the result phase. */
    ghost predicate Valid()
      reads this
    {
      && (phase == Idle || phase == Listening || phase == Processing ==> error == "")
      && (phase == Error ==> error != "")
      && (phase == Result ==> geminiResult != "")
    }

    /** The transcript fields as the accumulator sees them. */
    function Snapshot(): TranscriptState
      reads this
    {
      TranscriptState(transcript, interimTranscript)
    }

    /** Mounting the page: everything empty and idle, unless the summarizer's API key is missing,
        which puts the page straight into the error phase with its explanation. */
    constructor (apiKeyPresent: bool)
      ensures Valid()
      ensures phase == (if apiKeyPresent then Idle else Error)
      ensures error == (if apiKeyPresent then "" else ApiKeyMissingMessage)
      ensures transcript == "" && interimTranscript == "" && geminiResult == ""
      ensures !hasRecognizer && endText == ""
    {
      phase := Idle;
      transcript, interimTranscript, geminiResult, error := "", "", "", "";
      hasRecognizer, endText := false, "";
      if !apiKeyPresent {
        error := ApiKeyMissingMessage;
        phase := Error;
      }
    }

    /** `startRecording`: without speech recognition in the browser the page goes to the error
        phase and nothing else changes; otherwise a fresh session starts listening with all four
        strings cleared, and the new recogniser's `onend` closure keeps the text shown so far. */
    method Start(speechSupported: bool)
      requires Valid()
      modifies this
      ensures Valid()
      ensures !speechSupported ==> && phase == Error && error == UnsupportedMessage
                                   && transcript == old(transcript)
                                   && interimTranscript == old(interimTranscript)
                                   && geminiResult == old(geminiResult)
                                   && hasRecognizer == old(hasRecognizer) && endText == old(endText)
      ensures speechSupported ==> && phase == Listening && error == ""
                                  && transcript == "" && interimTranscript == "" && geminiResult == ""
                                  && hasRecognizer
                                  && endText == old(transcript) + old(interimTranscript)
    {
      if !speechSupported {
        error := UnsupportedMessage;
        phase := Error;
        return;
      }
      endText := transcript + interimTranscript;
      phase := Listening;
      error, transcript, interimTranscript, geminiResult := "", "", "", "";
      hasRecognizer := true;
    }

    /** `onresult`: the delivery's final fragments are appended to the transcript and its
        interim fragments replace the interim transcript; nothing else changes. */
    method OnResult(ev: ResultEvent)
      requires Valid()
      modifies this
      ensures Valid()
      ensures transcript == old(transcript) + Texts(NewResults(ev), true)
      ensures interimTranscript == Texts(NewResults(ev), false)
      ensures Snapshot() == ApplyBatch(old(Snapshot()), ev)
      ensures phase == old(phase) && error == old(error) && geminiResult == old(geminiResult)
      ensures hasRecognizer == old(hasRecognizer) && endText == old(endText)
    {
      var finalPart, interim := CollectBatch(ev);
      if finalPart != "" {
        transcript := transcript + finalPart;
      }
      interimTranscript := interim;
    }

    /** `onerror`: `no-speech` changes nothing; any other code puts the page in the error phase
        with a message naming the code. */
    method OnError(code: string)
      requires Valid()
      modifies this
      ensures Valid()
      ensures code == NoSpeech ==> phase == old(phase) && error == old(error)
      ensures code != NoSpeech ==> phase == Error && error == MicErrorPrefix + code
      ensures transcript == old(transcript) && interimTranscript == old(interimTranscript)
      ensures geminiResult == old(geminiResult)
      ensures hasRecognizer == old(hasRecognizer) && endText == old(endText)
    {
      var message := MicErrorMessage(code);
      if message.Some? {
        error := message.value;
        phase := Error;
      }
    }

    /** The synchronous part of `processTranscript`, reached only from `onend` while listening:
        a blank text returns to idle without calling the summarizer; any other text moves to
        the summarizing phase with the error cleared and is handed to the summarizer trimmed
        (the returned request; the answer arrives later through `ResolveSummary`). */
    method ProcessTranscript(text: string) returns (request: Option<string>)
      requires Valid() && phase == Listening
      modifies this
      ensures Valid()
      ensures request == Submission(text)
      ensures phase == (if request.None? then Idle else Processing)
      ensures error == ""
      ensures transcript == old(transcript) && interimTranscript == old(interimTranscript)
      ensures geminiResult == old(geminiResult)
      ensures hasRecognizer == old(hasRecognizer) && endText == old(endText)
    {
      request := Submission(text);
      if request.None? {
        phase := Idle;
        return;
      }
      phase := Processing;
      error := "";
    }

    /** `onend` as written: only while listening does it submit, and what it submits is the text
        its closure captured when the recogniser was started, not what was heard since. */
    method StreamEndAsWritten() returns (request: Option<string>)
      requires Valid()
      modifies this
      ensures Valid()
      ensures old(phase) == Listening ==> && request == Submission(endText)
                                          && phase == (if request.None? then Idle else Processing)
      ensures old(phase) != Listening ==> request == None && phase == old(phase)
      ensures error == old(error) && geminiResult == old(geminiResult)
      ensures transcript == old(transcript) && interimTranscript == old(interimTranscript)
      ensures hasRecognizer == old(hasRecognizer) && endText == old(endText)
    {
      request := None;
      if phase == Listening {
        request := ProcessTranscript(endText);
      }
    }

    /** `onend` as intended: only while listening does it submit, and it submits the current
        transcript followed by the current interim transcript. Out of the listening phase it
        does nothing, so a second end event cannot submit twice. */
    method StreamEnd() returns (request: Option<string>)
      requires Valid()
      modifies this
      ensures Valid()
      ensures old(phase) == Listening ==> && request == Submission(old(transcript) + old(interimTranscript))
                                          && phase == (if request.None? then Idle else Processing)
      ensures old(phase) != Listening ==> request == None && phase == old(phase)
      ensures error == old(error) && geminiResult == old(geminiResult)
      ensures transcript == old(transcript) && interimTranscript == old(interimTranscript)
      ensures hasRecognizer == old(hasRecognizer) && endText == old(endText)
    {
      request := None;
      if phase == Listening {
        request := ProcessTranscript(transcript + interimTranscript);
      }
    }

    /** The awaited summarizer call settles: the service's answer (the model's reply, or its
        fallback text when the reply is empty) is stored and shown, a failure shows the fixed
        retry message. The handler applies the outcome whatever the phase is by then. */
    method ResolveSummary(outcome: SummaryOutcome)
      requires Valid()
      modifies this
      ensures Valid()
      ensures outcome.Replied? ==> && phase == Result && geminiResult == ReplyText(outcome.response)
                                   && error == old(error)
      ensures outcome.Failed? ==> && phase == Error && error == SummaryFailedMessage
                                  && geminiResult == old(geminiResult)
      ensures transcript == old(transcript) && interimTranscript == old(interimTranscript)
      ensures hasRecognizer == old(hasRecognizer) && endText == old(endText)
    {
      match outcome
      case Replied(response) =>
        geminiResult := ReplyText(response);
        phase := Result;
      case Failed =>
        error := SummaryFailedMessage;
        phase := Error;
    }

    /** `stopRecording`: asks the recogniser, if there is one, to stop; the page itself does not
        change until the recogniser reports the end of the stream. */
    method StopRecording() returns (stopSent: bool)
      ensures stopSent == hasRecognizer
    {
      stopSent := hasRecognizer;
    }

    /** `handleRecordButtonClick`: ignored while summarizing (the button is disabled), a stop
        request while listening, a start otherwise. */
    method ClickRecordButton(speechSupported: bool) returns (stopSent: bool)
      requires Valid()
      modifies this
      ensures Valid()
      ensures old(phase) == Listening ==> stopSent == hasRecognizer
      ensures old(phase) == Processing || old(phase) == Listening ==> unchanged(this)
      ensures old(phase) != Listening ==> !stopSent
      ensures old(phase) != Processing && old(phase) != Listening && speechSupported ==>
                && phase == Listening && error == ""
                && transcript == "" && interimTranscript == "" && geminiResult == ""
                && hasRecognizer && endText == old(transcript) + old(interimTranscript)
      ensures old(phase) != Processing && old(phase) != Listening && !speechSupported ==>
                && phase == Error && error == UnsupportedMessage
                && transcript == old(transcript) && interimTranscript == old(interimTranscript)
                && geminiResult == old(geminiResult)
                && hasRecognizer == old(hasRecognizer) && endText == old(endText)
    {
      stopSent := false;
      if !RecordButtonEnabled(phase) {
        return;
      }
      if phase == Listening {
        stopSent := StopRecording();
      } else {
        Start(speechSupported);
      }
    }

    /** `handleReset`: back to idle with all four strings empty. */
    method Reset()
      requires Valid()
      modifies this
      ensures Valid()
      ensures phase == Idle
      ensures transcript == "" && interimTranscript == "" && geminiResult == "" && error == ""
      ensures hasRecognizer == old(hasRecognizer) && endText == old(endText)
    {
      phase := Idle;
      transcript, interimTranscript, geminiResult, error := "", "", "", "";
    }
  }

  /** A greeting heard in three deliveries, the word growing as an interim result and then
      confirmed, followed by the end of the stream: with the intended `onend` the summarizer
      receives the confirmed word. */
  method GreetingIsSummarized() returns (request: Option<string>)
    ensures request == Some("おはようございます")
  {
    var session := new LiveSession(true);
    session.Start(true);
    HearGreeting(session);
    request := session.StreamEnd();
  }

  /** The same session with `onend` as written: the closure still holds the empty text of the
      page before the start, so the page returns to idle and the summarizer is never called. */
  method GreetingIsLostAsWritten() returns (request: Option<string>, phase: AppState)
    ensures request == None && phase == Idle
  {
    var session := new LiveSession(true);
    session.Start(true);
    HearGreeting(session);
    request := session.StreamEndAsWritten();
    phase := session.phase;
  }

  /** The three deliveries of the greeting scenario. */
  method HearGreeting(session: LiveSession)
    requires session.Valid() && session.phase == Listening
    requires session.transcript == "" && session.interimTranscript == ""
    modifies session
    ensures session.Valid() && session.phase == Listening
    ensures session.transcript == "おはようございます" && session.interimTranscript == ""
    ensures session.endText == old(session.endText)
  {
    var partial := RecognitionResult("おはよう", false);
    var longer := RecognitionResult("おはようございます", false);
    var confirmed := RecognitionResult("おはようございます", true);
    TextsOne(partial, true);
    TextsOne(partial, false);
    TextsOne(longer, true);
    TextsOne(longer, false);
    TextsOne(confirmed, true);
    TextsOne(confirmed, false);
    session.OnResult(ResultEvent([partial], 0));
    assert session.interimTranscript == "おはよう";
    session.OnResult(ResultEvent([longer], 0));
    session.OnResult(ResultEvent([confirmed], 0));
  }
}
