/** The boundary to the summarization service: only its outcome matters to the session. */
module Summarizer {

  /** How a summarize request ends: the model replied with `response` (possibly empty), or the
      call threw. */
  datatype SummaryOutcome = Replied(response: string) | Failed

  /** What the service wrapper answers when the model's reply is empty. */
  const FallbackReply: string := "うまく まとめられませんでした。"

  /** The text the service wrapper resolves with: the model's reply, or the fallback when the
      reply is empty, so a successful summary is never empty. */
  function ReplyText(response: string): (r: string)
    ensures r != ""
    ensures response != "" ==> r == response
    ensures response == "" ==> r == FallbackReply
  {
    if response != "" then response else FallbackReply
  }
}
