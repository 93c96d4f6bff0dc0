# Runware Go SDK: request validation and response listening, in Dafny

This project models the request side of the Runware Go SDK's two calls,
`Connect` (event_connection.go) and `ImageInference` (event_new_img.go),
and proves properties of that model.

Each call does the same five things:

1. It validates the request, which has already been merged over its defaults.
2. It starts a listener over the connection's inbound frames.
3. It encodes and sends the request frame.
4. It waits in a `select` for the listener's answer, a timeout or cancellation.
5. It returns the response and error that the winning case produces.

The model has five modules:

- `Wrappers`: `Option` (a nil-able Go pointer) and `Outcome` (a Go `error` that may be nil).
- `Errors`: the SDK's error values. Each wrapped sentinel error (`ErrFieldRequired`,
  `ErrFieldIncorrectVal`, `ErrInvalidApiKey`, `ErrWsUnknownError`,
  `ErrDecodeMessage`, `ErrRequestTimeout`) is a constructor, and its bracketed detail
  is its arguments: the field a validation error names (`Field`) and, for a required
  field, the condition under which it is required (`Requirement`).
- `Listener`: the consume-until-decisive rule that both listeners follow. Each frame
  gets a `Verdict`: Skip, Deliver or Reject. `FirstDecisive` is the reference for how
  a listener's loop ends. `Ready` says which `select` case fires.
- `Connection`: the connect request, its defaults and validator, the server-error
  mapping, the frame classifier, the listener loop (a method that writes the session id
  into the `NewConnectResp` object in place) and the `Connect` call.
- `ImageInference`: the image request, its defaults and its validator, written as the
  source's chain of guard-and-return checks. The validation rules are also stated
  independently (`Rule`, `RuleOrder`, `Satisfies`, `Violation`, `FirstBroken`), and
  lemmas tie the two together. The module also has the response object, the frame
  classifier, the listener loop (including the inner loop over a frame's keys, in
  arbitrary order, as Go's map iteration is) and the `ImageInference` call.

The call methods take as inputs what the code cannot see:

- the frames the listener receives before the connection closes;
- whether encoding and sending fail;
- the generated request id;
- which `select` case fires.

They return the response object (or null), the error, whether the listener was
started, and the frame handed to the transport. The model runs the listener over its
frames before the `select` is resolved. This is one interleaving of the goroutine and
the caller.

Three facts about the SDK shape the model:

- Each call starts its own listener over the shared inbound stream. That listener
  stops at the first error frame it sees, whichever request the error was about.
- Only the first element of a response array is decoded. The rest are ignored.
- If the stream ends before any frame decides, both channels are closed. The `select`
  then receives their zero values, so the call returns a nil response and a nil error.

## Model

| member | source | states |
|---|---|---|
| `Listener.FirstDecisive` | event_connection.go:46-76 | The listener's exit is decided by the first frame whose verdict is not Skip, and that frame's answer or error is what it reports. Every earlier frame was a Skip. The stream runs out exactly when every frame is a Skip. |
| `Listener.LaterMessagesIgnored` | event_new_img.go:113-153 | Once a frame has decided, frames after it do not change the outcome: the listener returns at the first decisive frame. |
| `Listener.SkippedPrefixOnlyDelays` | event_connection.go:74-76 | A run of skipped frames in front of the stream only moves the deciding index by its length. Skipping never changes the outcome. |
| `Connection.ValidateNewConnectReq` | event_connection.go:112-117 | A connect request is accepted exactly when the API key is non-empty. Otherwise it fails with ErrFieldRequired naming apiKey. |
| `Connection.ValidationReadsOnlyApiKey` | event_connection.go:112-117 | Two requests with the same API key get the same verdict. No other field is checked. |
| `Connection.NewConnectReqDefaults` | event_connection.go:101-105 | The default connect request is a "ping" task. It fails validation until a non-empty API key is set, and with any non-empty key it passes. |
| `Connection.ServerError` | event_connection.go:50-63 | An error frame with errorId 19 becomes ErrInvalidApiKey, and any other id becomes ErrWsUnknownError. Both keep the original id and message. |
| `Connection.ClassifyConnectMessage` | event_connection.go:50-75 | A frame fails the call exactly when it has the error flag, with the ServerError of its id and message, even when it also carries the response-event key. It answers the call exactly when it has the key and no error flag, and the answer is that key's value. It is skipped exactly when it has neither. |
| `Connection.NewConnectResp.constructor` | event_connection.go:37 | A new response starts with an empty session id and is not timed out. |
| `Connection.ListenForSession` | event_connection.go:46-76 | The loop's exit is FirstDecisive of the frames' verdicts. The session id field is set to the matched value only when a frame matched, and TimedOut is left alone. |
| `Connection.Connect` | event_connection.go:24-98 | A validation failure returns a nil response and that error, before the listener is started or anything is sent. Only a validated request is sent, with the fresh id and the request and response events. Encode and send errors come back unchanged. Once the request is sent, the result depends on which select case fires. A listener match returns the response with that session id. A listener error returns a nil response and that error. An exhausted stream returns nil and nil. A timeout returns the response marked TimedOut, with ErrRequestTimeout naming the request event. Cancellation returns nil and the context's error. |
| `ImageInference.GoRem` | event_new_img.go:207 | Go's `%` by a positive divisor: the dividend is the remainder plus a whole multiple of the divisor, and the remainder is smaller in size than the divisor and has the sign of the dividend (never negative for a non-negative dividend, never positive for a non-positive one). Together these fix it to Go's truncated remainder. |
| `ImageInference.GoRemZeroIffMultipleOf64` | event_new_img.go:207 | Go's truncating `%` by 64 is zero exactly when Dafny's Euclidean `%` is, negative values included. |
| `ImageInference.ValidateImageInferenceReq` | event_new_img.go:198-269 | Every error the validator returns is a field error. ErrFieldRequired names only positivePrompt, model or seedImage. ErrFieldIncorrectVal names only the range-checked fields, never apiKey, positivePrompt, model or seedImage. Which error it returns is stated by the two lemmas below. |
| `ImageInference.FirstBrokenIsFirst` | event_new_img.go:198-269 | The reference search finds no rule exactly when all rules hold. What it finds is a broken rule with every earlier rule holding. |
| `ImageInference.ValidatorReportsFirstBrokenRule` | event_new_img.go:198-269 | The validator's chain of checks returns exactly the error of the first rule in RuleOrder that the request breaks, and nil when it breaks none. |
| `ImageInference.ValidatorReportsFirstViolation` | event_new_img.go:198-269 | A request is accepted exactly when it satisfies every rule. If the rule at position k is broken and all earlier ones hold, the error is that rule's. Every reported error is the first broken rule's. So identical input always gets the identical error. |
| `ImageInference.WidthAcceptedIff` | event_new_img.go:207-209 | Once prompt and model are set, the width error is returned exactly when the width is not a multiple of 64 in [128, 2048]. |
| `ImageInference.HeightAcceptedIff` | event_new_img.go:211-213 | Once prompt, model and width pass, the height error is returned exactly when the height is not a multiple of 64 in [128, 2048]. |
| `ImageInference.AbsentClipSkipNeverRejected` | event_new_img.go:223-225 | A nil clipSkip never produces the clipSkip error. |
| `ImageInference.ZeroMaskMarginNeverRejected` | event_new_img.go:248-250 | A maskMargin of 0 counts as unset and never produces the maskMargin error. |
| `ImageInference.AbsentOutpaintNeverRejected` | event_new_img.go:253-266 | Without an outpaint block, none of the three outpaint errors can be returned. |
| `ImageInference.StrengthDefaultingHasNoEffect` | event_new_img.go:240-242 | Setting strength to 0.8 on the validator's copy does not change the verdict. Validating the request as given and validating it with the defaulted strength give the same result. |
| `ImageInference.NewImageInferenceReqDefaults` | event_new_img.go:178-191 | The defaults carry the given task UUID. Their steps (20), CFGScale (7), outputQuality (95), numberResults (1) and strength (0.8), and the unset image inputs, satisfy every rule except prompt, model and size. The defaults alone fail on the missing positivePrompt. |
| `ImageInference.DefaultsAcceptedWithPromptModelAndSize` | event_new_img.go:178-237 | The defaults pass validation once a prompt, a model and valid width and height are filled in. |
| `ImageInference.Width500Rejected` | event_new_img.go:207-209 | A width of 500 with prompt "x", model "m" and height 512 fails with the width error. |
| `ImageInference.NewImageInferenceResp.constructor` | event_new_img.go:104 | A new response has every field at its zero value. |
| `ImageInference.NewImageInferenceResp.Unmarshal` | event_new_img.go:144 | Decoding an element sets the response's fields to the element's decoded values. |
| `ImageInference.ClassifyImageMessage` | event_new_img.go:114-150 | A frame that `json.Unmarshal` rejects (not JSON, or JSON other than an object or `null`) fails the call with ErrDecodeMessage; a `null` frame decodes to no keys. A frame the error check flags fails it with that error, whatever keys it carries. A frame answers the call exactly when it decodes, has no error, and its response-event key holds a non-empty array whose first element decodes. The answer is that element's decoded response. When that first element fails to convert or decode instead, the call fails with that error, unwrapped. |
| `ImageInference.SkippedFrames` | event_new_img.go:126-136 | A frame is skipped exactly when it decodes, the error check finds nothing, and the response-event key is missing or does not hold a non-empty array. The key loop passes over every key except the response event, so as long as the error check's verdict is unchanged, removing any other key does not change the verdict. The error check itself sees the whole frame. |
| `ImageInference.FirstElementIsTheResponse` | event_new_img.go:133-150 | When the response-event key holds an array, its first element is the response, whatever follows it. |
| `ImageInference.ListenForImage` | event_new_img.go:113-153 | The loop's exit is FirstDecisive of the frames' verdicts, whatever order each frame's keys are visited in. The response object holds the decoded first element when a frame matched, and is untouched otherwise. |
| `ImageInference.ImageInference` | event_new_img.go:91-175 | A validation failure returns a nil response and that error, before the listener is started or anything is sent. Only a validated request is sent, as a one-element list. Encode and send errors come back unchanged. Once the request is sent, a listener match returns the decoded response and a listener error returns that error. An exhausted stream returns nil and nil. A timeout returns the response, as decoded so far, marked TimedOut, with ErrRequestTimeout naming the request event. Cancellation returns nil and the context's error. |

## Left out

- Goroutines, channels and the race in the `select` are not modelled. The `select` is
  reduced to an input saying which case fires. The goroutine that keeps blocking on an
  unread channel after a timeout or cancellation is not modelled.
- `MergeEventRequestsWithDefaults` is not part of this model. Each call takes the
  merged request as its input.
- JSON is not modelled. A frame is an abstract value: for Connect, the error flag, id,
  message and the text of each key; for ImageInference, decoded or not, with the
  decoded keys. The same goes for `interfaceToByte`, `Request.ToEvent`,
  `Client.Send`, `Client.Listen` and `sdk.OnError`: their results are inputs.
- `json.Unmarshal` is not modelled as overlaying present fields. It is modelled as
  setting every field, which is the same thing here because the response is zero
  before its one decode. A decode that fails halfway through and leaves some fields
  set is not modelled.
- A JSON `null` first element is not modelled. It would set the shared response
  pointer to nil.
- The event names (NewTask, NewImage, NewConnection, NewConnectionSessionUUID), the
  sentinel error texts and the timeout constant are defined in files that are not
  part of this model. The event names are parameters, and the timer firing is an input.
- Error messages are not rendered as text. An error carries the field it names, and
  for a required field the condition, as data. The accepted-range text that
  ErrFieldIncorrectVal messages add is not modelled.
- `uuid.New()` is not modelled: the task UUID and request id are parameters.
  `log.Println` is not modelled.
- Floating point is not modelled. CFGScale, strength and cost are reals, so a NaN
  CFGScale or strength (which Go's range checks would let through) cannot be stated.
  `errorId` is read as a float and is modelled as an int. Go compares it with 19 and
  also writes it into the returned error, so a fractional id such as 19.5, which Go
  reports as an unknown error carrying 19.5, cannot be represented. Seed (int64) is an
  int.
- The request fields the validator never reads are not modelled: CheckNSFW,
  IncludeCost, PromptWeighting, AcceleratorOptions, IPAdapters, webhook and upload
  settings, scheduler, seed, VAE, reference images, the ControlNet/LoRA/embedding
  lists and the nested advanced, provider, PuLID, ACE++ and refiner settings. They
  pass through unchanged.
- The other constants and types in types.go are not modelled.
- ImageInference.ValidateImageInferenceReq: its own contract states only which kinds
  of error it can return. Which error a given request gets is stated by
  `ValidatorReportsFirstViolation` and `ValidatorReportsFirstBrokenRule`, which relate
  it to the rules; repeating that on the function would make every proof that uses it
  too costly to check.
