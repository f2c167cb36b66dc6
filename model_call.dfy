/** What a call to the hosted language model can come back with. The model itself is outside the
    system: every flow receives the call as a function from the rendered prompt to its outcome. */
module ModelCalls {
  import opened Wrappers

  /** The call raised an error (network, quota, a reply the library could not read), or it
      completed with a structured output that may be missing. */
  datatype ModelCall<T> = CallFailed(reason: string) | Replied(output: Option<T>)
}
