/** The request and response envelopes exchanged with clients. */
module MessageSchema {
  import opened Wrappers

  /** An inbound request `{ method, payload }`; the payload may be absent. */
  datatype MessageRequestText<T> = MessageRequestText(methodName: string, payload: Option<T>)

  /** An outbound response `{ event, payload, error }`. */
  datatype MessageResponse = MessageResponse(event: string, payload: Option<string>, error: Option<string>)

  /** The documented shape of a response: exactly one of `payload` and `error` is present. */
  predicate WellShaped(r: MessageResponse) {
    r.payload.Some? != r.error.Some?
  }

  /** The error response for event `ev` carrying error kind `err`. */
  function Error(ev: string, err: string): (r: MessageResponse)
    ensures r.event == ev
    ensures r.payload == None && r.error == Some(err)
    ensures WellShaped(r)
  {
    MessageResponse(ev, None, Some(err))
  }

  /** The success response for event `ev` carrying `payload`. */
  function Success(ev: string, payload: string): (r: MessageResponse)
    ensures r.event == ev
    ensures r.payload == Some(payload) && r.error == None
    ensures WellShaped(r)
  {
    MessageResponse(ev, Some(payload), None)
  }

  /** The two constructors never build the same response. */
  lemma ErrorIsNotSuccess(ev: string, err: string, ev': string, payload: string)
    ensures Error(ev, err) != Success(ev', payload)
  {
  }

  /** Every well-shaped response is built by exactly one of the two constructors, and conversely. */
  lemma WellShapedIsConstructed(r: MessageResponse)
    ensures WellShaped(r) <==>
      (r.error.Some? && r == Error(r.event, r.error.value)) ||
      (r.payload.Some? && r == Success(r.event, r.payload.value))
  {
  }
}
