/** Window events (src/core/events/window.rs). */
module Window {
  import opened Wrappers
  import opened Sizes

  /** `Continue` is the resume signal (SIGCONT); `EndOfInput` means the
      input stream is exhausted. */
  datatype WindowEvent =
    | FocusGained
    | FocusLost
    | Resized(size: Option<Size>)
    | Continue
    | EndOfInput
    | Paste(text: string)
}
