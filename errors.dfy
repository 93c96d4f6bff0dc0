/** The errors that the connection and image-inference calls return.

    The SDK wraps its sentinel errors with `fmt.Errorf("%w:[...]", ...)`;
    each sentinel becomes a constructor and the bracketed detail becomes
    its arguments, so two errors are equal exactly when the sentinel and
    the detail agree. */
module Errors {

  /** The request fields that validation names in its errors. A message
      writes each by its JSON name (apiKey, positivePrompt, model, width,
      height, steps, CFGScale, clipSkip, outputQuality, numberResults,
      strength, seedImage, maskMargin, outpaint, outpaint.blur). */
  datatype Field =
    | ApiKey
    | PositivePrompt
    | Model
    | Width
    | Height
    | Steps
    | CFGScale
    | ClipSkip
    | OutputQuality
    | NumberResults
    | Strength
    | SeedImage
    | MaskMargin
    | OutpaintMargins
    | OutpaintBlur

  /** When a required field is required: always, or because another input
      is present (the message then says " when maskImage is provided" or
      " when outpaint is provided"). */
  datatype Requirement = Always | WhenMaskImage | WhenOutpaint

  datatype SdkError =
      /** ErrFieldRequired. */
    | FieldRequired(field: Field, requirement: Requirement)
      /** ErrFieldIncorrectVal; the message adds the accepted range. */
    | FieldIncorrectVal(field: Field)
      /** ErrInvalidApiKey, wrapping the server's errorId and errorMessage. */
    | InvalidApiKey(errorId: int, errorMessage: string)
      /** ErrWsUnknownError, wrapping the server's errorId and errorMessage. */
    | WsUnknownError(errorId: int, errorMessage: string)
      /** ErrDecodeMessage, wrapping the JSON decoder's error text. */
    | DecodeMessage(reason: string)
      /** ErrRequestTimeout, naming the request's outbound event. */
    | RequestTimeout(event: string)
      /** `ctx.Err()` of a cancelled or expired context. */
    | ContextDone(reason: string)
      /** An error produced by a collaborator and returned unwrapped:
          element decoding, `Request.ToEvent`, `Client.Send`. */
    | Foreign(reason: string)
}
