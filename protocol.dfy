/** The constants the worker and the streaming route share: how many
    messages one session produces and the literal that marks its end. */
module Protocol {
  const MessageCount: nat := 20
  const DoneMarker := "[DONE]"
}
