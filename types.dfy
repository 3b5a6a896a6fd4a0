/** Shared vocabulary of both variants of the recording app. */
module Types {

  /** The five phases of one recording session (the enum both App.tsx files import from ./types). */
  datatype AppState = Idle | Listening | Processing | Result | Error

  /** An optional value; here mostly "the text handed to the summarizer, if it was called". */
  datatype Option<T> = None | Some(value: T)

  /** The record button is rendered with `disabled` while a summary is being computed,
      so the browser delivers no click to it in that phase. */
  predicate RecordButtonEnabled(phase: AppState)
  {
    phase != Processing
  }
}
