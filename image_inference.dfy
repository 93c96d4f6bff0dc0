/** ImageInference (event_new_img.go): the request validator and defaults,
    the listener that waits for the first generated image, and the call
    that ties them together. */
module ImageInference {
  import opened Wrappers
  import opened Errors
  import opened Listener

  /** Outpainting margins and blur (types.go:136-142). */
  datatype Outpaint = Outpaint(top: int, right: int, bottom: int, left: int, blur: int)

  /** The scalar fields of NewImageInferenceReq. `clipSkip` and `outpaint`
      are the request's pointer fields; CFGScale and strength are only ever
      compared with constants, so they are reals. */
  datatype NewImageInferenceReq = NewImageInferenceReq(
    taskType: string,
    taskUUID: string,
    deliveryMethod: string,
    outputType: string,
    outputFormat: string,
    outputQuality: int,
    positivePrompt: string,
    negativePrompt: string,
    model: string,
    width: int,
    height: int,
    seedImage: string,
    maskImage: string,
    maskMargin: int,
    strength: real,
    steps: int,
    cfgScale: real,
    clipSkip: Option<int>,
    numberResults: int,
    outpaint: Option<Outpaint>)

  // ---------------------------------------------------------------------
  // Defaults
  // ---------------------------------------------------------------------

  /** NewImageInferenceReqDefaults, with the generated task UUID passed in.
      The defaults for steps, CFGScale, outputQuality, numberResults and
      strength lie inside the ranges the validator enforces, as do the unset
      image inputs; what the defaults lack is a prompt, a model and a size. */
  function NewImageInferenceReqDefaults(taskUUID: string): (d: NewImageInferenceReq)
    ensures d.taskUUID == taskUUID
    ensures forall rule :: rule !in {PositivePromptSet, ModelSet, WidthValid, HeightValid} ==>
      Satisfies(d, rule)
    ensures ValidateImageInferenceReq(d) == Fail(FieldRequired(PositivePrompt, Always))
  {
    NewImageInferenceReq(
      taskType := "imageInference",
      taskUUID := taskUUID,
      deliveryMethod := "sync",
      outputType := "URL",
      outputFormat := "JPG",
      outputQuality := 95,
      positivePrompt := "",
      negativePrompt := "",
      model := "",
      width := 0,
      height := 0,
      seedImage := "",
      maskImage := "",
      maskMargin := 0,
      strength := 0.8,
      steps := 20,
      cfgScale := 7.0,
      clipSkip := None,
      numberResults := 1,
      outpaint := None)
  }

  // ---------------------------------------------------------------------
  // The validator, as written
  // ---------------------------------------------------------------------

  /** Go's `a % b`: what is left of `a` after taking away the quotient
      truncated toward zero, so the remainder takes the sign of `a`. */
  function GoRem(a: int, b: int): (r: int)
    requires b > 0
    ensures exists q :: a == q * b + r
    ensures -b < r < b
    ensures a >= 0 ==> 0 <= r
    ensures a <= 0 ==> r <= 0
  {
    var r := if a >= 0 then a % b else -((-a) % b);
    var q := if a >= 0 then a / b else -((-a) / b);
    assert a == q * b + r;
    r
  }

  /** Go's and Dafny's remainders by 64 agree on whether a number is a
      multiple of 64, negative numbers included: -64 passes the outpaint
      check and -32 fails it under either reading. */
  lemma GoRemZeroIffMultipleOf64(a: int)
    ensures GoRem(a, 64) == 0 <==> a % 64 == 0
  {
  }

  /** validateImageInferenceReq: a fixed chain of checks returning the
      first violation. The strength defaulting between the range checks and
      the image checks updates only the validator's own copy. */
  function ValidateImageInferenceReq(req: NewImageInferenceReq): (r: Outcome<SdkError>)
    ensures r.Fail? ==>
      (r.error.FieldRequired? && r.error.field in {PositivePrompt, Model, SeedImage}) ||
      (r.error.FieldIncorrectVal? && r.error.field !in {ApiKey, PositivePrompt, Model, SeedImage})
  {
    if req.positivePrompt == "" then Fail(FieldRequired(PositivePrompt, Always))
    else if req.model == "" then Fail(FieldRequired(Model, Always))
    else if req.width < 128 || req.width > 2048 || GoRem(req.width, 64) != 0 then
      Fail(FieldIncorrectVal(Width))
    else if req.height < 128 || req.height > 2048 || GoRem(req.height, 64) != 0 then
      Fail(FieldIncorrectVal(Height))
    else if req.steps < 1 || req.steps > 100 then Fail(FieldIncorrectVal(Steps))
    else if req.cfgScale < 0.0 || req.cfgScale > 50.0 then Fail(FieldIncorrectVal(CFGScale))
    else if req.clipSkip.Some? && (req.clipSkip.value < 0 || req.clipSkip.value > 2) then
      Fail(FieldIncorrectVal(ClipSkip))
    else if req.outputQuality < 20 || req.outputQuality > 99 then
      Fail(FieldIncorrectVal(OutputQuality))
    else if req.numberResults < 1 || req.numberResults > 20 then
      Fail(FieldIncorrectVal(NumberResults))
    else if req.strength < 0.0 || req.strength > 1.0 then Fail(FieldIncorrectVal(Strength))
    else
      var req := if req.seedImage != "" && req.strength == 0.0 then req.(strength := 0.8) else req;
      if req.maskImage != "" && req.seedImage == "" then
        Fail(FieldRequired(SeedImage, WhenMaskImage))
      else if req.maskMargin != 0 && (req.maskMargin < 32 || req.maskMargin > 128) then
        Fail(FieldIncorrectVal(MaskMargin))
      else if req.outpaint.Some? then
        var o := req.outpaint.value;
        if req.seedImage == "" then Fail(FieldRequired(SeedImage, WhenOutpaint))
        else if GoRem(o.top, 64) != 0 || GoRem(o.right, 64) != 0 ||
                GoRem(o.bottom, 64) != 0 || GoRem(o.left, 64) != 0 then
          Fail(FieldIncorrectVal(OutpaintMargins))
        else if o.blur < 0 || o.blur > 32 then Fail(FieldIncorrectVal(OutpaintBlur))
        else Pass
      else Pass
  }

  // ---------------------------------------------------------------------
  // The validation rules, stated independently of the chain above
  // ---------------------------------------------------------------------

  /** One rule of the image-inference request. */
  datatype Rule =
    | PositivePromptSet
    | ModelSet
    | WidthValid
    | HeightValid
    | StepsInRange
    | CFGScaleInRange
    | ClipSkipInRange
    | OutputQualityInRange
    | NumberResultsInRange
    | StrengthInRange
    | SeedImageWithMask
    | MaskMarginInRange
    | SeedImageWithOutpaint
    | OutpaintMarginsAligned
    | OutpaintBlurInRange

  /** The order in which violations take precedence. */
  const RuleOrder: seq<Rule> := [
    PositivePromptSet, ModelSet, WidthValid, HeightValid, StepsInRange,
    CFGScaleInRange, ClipSkipInRange, OutputQualityInRange,
    NumberResultsInRange, StrengthInRange, SeedImageWithMask,
    MaskMarginInRange, SeedImageWithOutpaint, OutpaintMarginsAligned,
    OutpaintBlurInRange]

  /** An image side: a multiple of 64 from 128 to 2048. */
  predicate DimensionOk(d: int)
  {
    128 <= d <= 2048 && d % 64 == 0
  }

  predicate Satisfies(req: NewImageInferenceReq, rule: Rule)
  {
    match rule
    case PositivePromptSet => req.positivePrompt != ""
    case ModelSet => req.model != ""
    case WidthValid => DimensionOk(req.width)
    case HeightValid => DimensionOk(req.height)
    case StepsInRange => 1 <= req.steps <= 100
    case CFGScaleInRange => 0.0 <= req.cfgScale <= 50.0
    case ClipSkipInRange => req.clipSkip.Some? ==> 0 <= req.clipSkip.value <= 2
    case OutputQualityInRange => 20 <= req.outputQuality <= 99
    case NumberResultsInRange => 1 <= req.numberResults <= 20
    case StrengthInRange => 0.0 <= req.strength <= 1.0
    case SeedImageWithMask => req.maskImage != "" ==> req.seedImage != ""
    case MaskMarginInRange => req.maskMargin == 0 || 32 <= req.maskMargin <= 128
    case SeedImageWithOutpaint => req.outpaint.Some? ==> req.seedImage != ""
    case OutpaintMarginsAligned =>
      req.outpaint.Some? ==>
        var o := req.outpaint.value;
        o.top % 64 == 0 && o.right % 64 == 0 && o.bottom % 64 == 0 && o.left % 64 == 0
    case OutpaintBlurInRange => req.outpaint.Some? ==> 0 <= req.outpaint.value.blur <= 32
  }

  /** The error that reports a broken rule. */
  function Violation(rule: Rule): SdkError
  {
    match rule
    case PositivePromptSet => FieldRequired(PositivePrompt, Always)
    case ModelSet => FieldRequired(Model, Always)
    case WidthValid => FieldIncorrectVal(Width)
    case HeightValid => FieldIncorrectVal(Height)
    case StepsInRange => FieldIncorrectVal(Steps)
    case CFGScaleInRange => FieldIncorrectVal(CFGScale)
    case ClipSkipInRange => FieldIncorrectVal(ClipSkip)
    case OutputQualityInRange => FieldIncorrectVal(OutputQuality)
    case NumberResultsInRange => FieldIncorrectVal(NumberResults)
    case StrengthInRange => FieldIncorrectVal(Strength)
    case SeedImageWithMask => FieldRequired(SeedImage, WhenMaskImage)
    case MaskMarginInRange => FieldIncorrectVal(MaskMargin)
    case SeedImageWithOutpaint => FieldRequired(SeedImage, WhenOutpaint)
    case OutpaintMarginsAligned => FieldIncorrectVal(OutpaintMargins)
    case OutpaintBlurInRange => FieldIncorrectVal(OutpaintBlur)
  }

  /** `rules[i]` is broken and every rule from `from` up to it holds. */
  predicate FirstBrokenAt(req: NewImageInferenceReq, rules: seq<Rule>, from: nat, i: int)
  {
    from <= i < |rules| && !Satisfies(req, rules[i]) &&
    forall j :: from <= j < i ==> Satisfies(req, rules[j])
  }

  /** The first rule of `rules`, from index `from` on, that `req` breaks. */
  function FirstBroken(req: NewImageInferenceReq, rules: seq<Rule>, from: nat): Option<Rule>
    decreases |rules| - from
  {
    if from >= |rules| then None
    else if !Satisfies(req, rules[from]) then Some(rules[from])
    else FirstBroken(req, rules, from + 1)
  }

  /** FirstBroken finds nothing exactly when every rule holds, and what it
      finds is a broken rule with every rule before it holding. */
  lemma {:induction false} FirstBrokenIsFirst(req: NewImageInferenceReq, rules: seq<Rule>, from: nat)
    ensures FirstBroken(req, rules, from).None? <==>
      forall i :: from <= i < |rules| ==> Satisfies(req, rules[i])
    ensures FirstBroken(req, rules, from).Some? ==>
      exists i :: FirstBrokenAt(req, rules, from, i) && rules[i] == FirstBroken(req, rules, from).value
    decreases |rules| - from
  {
    if from < |rules| {
      if Satisfies(req, rules[from]) {
        FirstBrokenIsFirst(req, rules, from + 1);
        if FirstBroken(req, rules, from + 1).Some? {
          var k :| FirstBrokenAt(req, rules, from + 1, k) &&
            rules[k] == FirstBroken(req, rules, from + 1).value;
          assert FirstBrokenAt(req, rules, from, k);
        }
      } else {
        assert FirstBrokenAt(req, rules, from, from);
      }
    }
  }

  /** The outcome that reports the first broken rule, or success. */
  function Report(b: Option<Rule>): Outcome<SdkError>
  {
    match b
    case None => Pass
    case Some(rule) => Fail(Violation(rule))
  }

  /** FirstBroken over RuleOrder, written out rule by rule. */
  function FirstBrokenInOrder(req: NewImageInferenceReq): Option<Rule>
  {
    if !Satisfies(req, PositivePromptSet) then Some(PositivePromptSet)
    else if !Satisfies(req, ModelSet) then Some(ModelSet)
    else if !Satisfies(req, WidthValid) then Some(WidthValid)
    else if !Satisfies(req, HeightValid) then Some(HeightValid)
    else if !Satisfies(req, StepsInRange) then Some(StepsInRange)
    else if !Satisfies(req, CFGScaleInRange) then Some(CFGScaleInRange)
    else if !Satisfies(req, ClipSkipInRange) then Some(ClipSkipInRange)
    else if !Satisfies(req, OutputQualityInRange) then Some(OutputQualityInRange)
    else if !Satisfies(req, NumberResultsInRange) then Some(NumberResultsInRange)
    else if !Satisfies(req, StrengthInRange) then Some(StrengthInRange)
    else if !Satisfies(req, SeedImageWithMask) then Some(SeedImageWithMask)
    else if !Satisfies(req, MaskMarginInRange) then Some(MaskMarginInRange)
    else if !Satisfies(req, SeedImageWithOutpaint) then Some(SeedImageWithOutpaint)
    else if !Satisfies(req, OutpaintMarginsAligned) then Some(OutpaintMarginsAligned)
    else if !Satisfies(req, OutpaintBlurInRange) then Some(OutpaintBlurInRange)
    else None
  }

  /** RuleOrder searched from the start is the chain of checks above. */
  lemma RuleOrderUnrolled(req: NewImageInferenceReq)
    ensures FirstBroken(req, RuleOrder, 0) == FirstBrokenInOrder(req)
  {
  }

  /** The checks that use Go's remainder say what the rules say. */
  lemma AlignmentChecksAreRules(req: NewImageInferenceReq)
    ensures (req.width < 128 || req.width > 2048 || GoRem(req.width, 64) != 0) <==>
      !Satisfies(req, WidthValid)
    ensures (req.height < 128 || req.height > 2048 || GoRem(req.height, 64) != 0) <==>
      !Satisfies(req, HeightValid)
    ensures req.outpaint.Some? ==>
      var o := req.outpaint.value;
      (GoRem(o.top, 64) != 0 || GoRem(o.right, 64) != 0 ||
       GoRem(o.bottom, 64) != 0 || GoRem(o.left, 64) != 0) <==>
      !Satisfies(req, OutpaintMarginsAligned)
  {
    GoRemZeroIffMultipleOf64(req.width);
    GoRemZeroIffMultipleOf64(req.height);
    if req.outpaint.Some? {
      var o := req.outpaint.value;
      GoRemZeroIffMultipleOf64(o.top);
      GoRemZeroIffMultipleOf64(o.right);
      GoRemZeroIffMultipleOf64(o.bottom);
      GoRemZeroIffMultipleOf64(o.left);
    }
  }

  /** The ten field checks that come before the strength defaulting. */
  predicate FieldChecksPass(req: NewImageInferenceReq)
  {
    Satisfies(req, PositivePromptSet) && Satisfies(req, ModelSet) &&
    Satisfies(req, WidthValid) && Satisfies(req, HeightValid) &&
    Satisfies(req, StepsInRange) && Satisfies(req, CFGScaleInRange) &&
    Satisfies(req, ClipSkipInRange) && Satisfies(req, OutputQualityInRange) &&
    Satisfies(req, NumberResultsInRange) && Satisfies(req, StrengthInRange)
  }

  lemma FieldChecksFollowRules(req: NewImageInferenceReq)
    requires !FieldChecksPass(req)
    ensures ValidateImageInferenceReq(req) == Report(FirstBrokenInOrder(req))
  {
    AlignmentChecksAreRules(req);
  }

  lemma ImageChecksFollowRules(req: NewImageInferenceReq)
    requires FieldChecksPass(req)
    ensures ValidateImageInferenceReq(req) == Report(FirstBrokenInOrder(req))
  {
    AlignmentChecksAreRules(req);
  }

  /** The validator's chain of checks, read rule by rule. */
  lemma ValidatorFollowsRules(req: NewImageInferenceReq)
    ensures ValidateImageInferenceReq(req) == Report(FirstBrokenInOrder(req))
  {
    if FieldChecksPass(req) {
      ImageChecksFollowRules(req);
    } else {
      FieldChecksFollowRules(req);
    }
  }

  /** The validator reports exactly the first rule, in RuleOrder, that the
      request breaks, and accepts it when it breaks none. The strength
      defaulting inside the validator plays no part in this: every rule is
      judged on the caller's request. */
  lemma ValidatorReportsFirstBrokenRule(req: NewImageInferenceReq)
    ensures ValidateImageInferenceReq(req) == Report(FirstBroken(req, RuleOrder, 0))
  {
    RuleOrderUnrolled(req);
    ValidatorFollowsRules(req);
  }

  /** Every rule appears in RuleOrder. */
  lemma RuleOrderListsEveryRule(rule: Rule)
    ensures rule in RuleOrder
  {
  }

  /** Validation is decided by the rules alone: it accepts exactly the
      requests that break none of them; when the rule at position k of
      RuleOrder is broken and every earlier one holds, it fails with that
      rule's error; and every failure it reports is of that kind. */
  lemma ValidatorReportsFirstViolation(req: NewImageInferenceReq)
    ensures ValidateImageInferenceReq(req).Pass? <==> forall rule :: Satisfies(req, rule)
    ensures forall k :: FirstBrokenAt(req, RuleOrder, 0, k) ==>
      ValidateImageInferenceReq(req) == Fail(Violation(RuleOrder[k]))
    ensures ValidateImageInferenceReq(req).Fail? ==>
      exists k :: FirstBrokenAt(req, RuleOrder, 0, k) &&
        ValidateImageInferenceReq(req).error == Violation(RuleOrder[k])
  {
    ValidatorReportsFirstBrokenRule(req);
    FirstBrokenIsFirst(req, RuleOrder, 0);
    if FirstBroken(req, RuleOrder, 0).None? {
      forall rule ensures Satisfies(req, rule) {
        RuleOrderListsEveryRule(rule);
      }
    } else {
      var i :| FirstBrokenAt(req, RuleOrder, 0, i) &&
        RuleOrder[i] == FirstBroken(req, RuleOrder, 0).value;
      forall k | FirstBrokenAt(req, RuleOrder, 0, k)
        ensures ValidateImageInferenceReq(req) == Fail(Violation(RuleOrder[k]))
      {
        assert k == i;
      }
    }
  }

  /** A width is accepted exactly when it is a multiple of 64 between 128
      and 2048; any other width, once prompt and model are present, fails
      naming "width". */
  lemma WidthAcceptedIff(req: NewImageInferenceReq)
    requires req.positivePrompt != "" && req.model != ""
    ensures ValidateImageInferenceReq(req) == Fail(FieldIncorrectVal(Width)) <==>
      !(128 <= req.width <= 2048 && req.width % 64 == 0)
  {
  }

  /** The same bounds hold for the height, checked once the width passes. */
  lemma HeightAcceptedIff(req: NewImageInferenceReq)
    requires req.positivePrompt != "" && req.model != ""
    requires 128 <= req.width <= 2048 && req.width % 64 == 0
    ensures ValidateImageInferenceReq(req) == Fail(FieldIncorrectVal(Height)) <==>
      !(128 <= req.height <= 2048 && req.height % 64 == 0)
  {
  }

  /** An absent clipSkip is never checked. */
  lemma AbsentClipSkipNeverRejected(req: NewImageInferenceReq)
    requires req.clipSkip.None?
    ensures ValidateImageInferenceReq(req) != Fail(FieldIncorrectVal(ClipSkip))
  {
  }

  /** A maskMargin of 0 means unset and is never rejected. */
  lemma ZeroMaskMarginNeverRejected(req: NewImageInferenceReq)
    requires req.maskMargin == 0
    ensures ValidateImageInferenceReq(req) != Fail(FieldIncorrectVal(MaskMargin))
  {
  }

  /** Without an outpaint block none of the outpaint checks can fail. */
  lemma AbsentOutpaintNeverRejected(req: NewImageInferenceReq)
    requires req.outpaint.None?
    ensures ValidateImageInferenceReq(req) != Fail(FieldRequired(SeedImage, WhenOutpaint))
    ensures ValidateImageInferenceReq(req) != Fail(FieldIncorrectVal(OutpaintMargins))
    ensures ValidateImageInferenceReq(req) != Fail(FieldIncorrectVal(OutpaintBlur))
  {
  }

  /** The strength defaulting inside the validator changes nothing the
      caller sees: validating the request as given and validating it with
      the defaulted strength give the same verdict. */
  lemma StrengthDefaultingHasNoEffect(req: NewImageInferenceReq)
    requires req.seedImage != "" && req.strength == 0.0
    ensures ValidateImageInferenceReq(req) == ValidateImageInferenceReq(req.(strength := 0.8))
  {
  }

  /** The defaults with a prompt, a model and a valid size filled in are
      accepted. */
  lemma DefaultsAcceptedWithPromptModelAndSize(
    taskUUID: string, prompt: string, model: string, width: int, height: int)
    requires prompt != "" && model != ""
    requires DimensionOk(width) && DimensionOk(height)
    ensures ValidateImageInferenceReq(NewImageInferenceReqDefaults(taskUUID).(
      positivePrompt := prompt, model := model, width := width, height := height)).Pass?
  {
  }

  /** A 500-pixel width, which is not a multiple of 64, is rejected naming
      the width. */
  lemma Width500Rejected(taskUUID: string)
    ensures ValidateImageInferenceReq(NewImageInferenceReqDefaults(taskUUID).(
      positivePrompt := "x", model := "m", width := 500, height := 512)) ==
      Fail(FieldIncorrectVal(Width))
  {
  }

  // ---------------------------------------------------------------------
  // The response and the inbound messages
  // ---------------------------------------------------------------------

  /** The fields of NewImageInferenceResp as a value; seed is an int64 and
      cost a float64 on the wire. */
  datatype ImageResult = ImageResult(
    taskType: string,
    taskUUID: string,
    imageUUID: string,
    imageURL: string,
    imageBase64Data: string,
    imageDataURI: string,
    seed: int,
    nsfwContent: bool,
    cost: real,
    timedOut: bool)

  /** `&NewImageInferenceResp{}`. */
  const ZeroResult := ImageResult("", "", "", "", "", "", 0, false, 0.0, false)

  /** The response object that the listener decodes into and the timeout
      branch marks, in place. */
  class NewImageInferenceResp {
    var taskType: string
    var taskUUID: string
    var imageUUID: string
    var imageURL: string
    var imageBase64Data: string
    var imageDataURI: string
    var seed: int
    var nsfwContent: bool
    var cost: real
    var timedOut: bool

    function View(): ImageResult
      reads this
    {
      ImageResult(taskType, taskUUID, imageUUID, imageURL, imageBase64Data,
                  imageDataURI, seed, nsfwContent, cost, timedOut)
    }

    constructor ()
      ensures View() == ZeroResult
    {
      taskType, taskUUID, imageUUID, imageURL := "", "", "", "";
      imageBase64Data, imageDataURI := "", "";
      seed, nsfwContent, cost, timedOut := 0, false, 0.0, false;
    }

    /** Decoding one array element into this object. */
    method Unmarshal(r: ImageResult)
      modifies this
      ensures View() == r
    {
      taskType, taskUUID, imageUUID, imageURL := r.taskType, r.taskUUID, r.imageUUID, r.imageURL;
      imageBase64Data, imageDataURI := r.imageBase64Data, r.imageDataURI;
      seed, nsfwContent, cost, timedOut := r.seed, r.nsfwContent, r.cost, r.timedOut;
    }
  }

  /** One element of a response-event array: either it decodes into the
      response (the fields it sets, over a zero response), or converting or
      decoding it fails with the given error text. */
  datatype Element = Decodable(result: ImageResult) | Undecodable(reason: string)

  /** The value of a top-level key: a JSON array, or anything else. */
  datatype Value = Array(items: seq<Element>) | NotArray

  /** One inbound frame: either `json.Unmarshal` rejects it (it is not
      JSON, or it is JSON other than an object or `null`), or it decodes
      into its top-level keys, none for `null`; `onError` is the verdict of
      the SDK's shared error check on the decoded frame. */
  datatype ImageMessage =
    | Malformed(reason: string)
    | Decoded(onError: Option<SdkError>, fields: map<string, Value>)

  predicate NonEmptyArray(v: Value)
  {
    v.Array? && |v.items| > 0
  }

  /** What ImageInference's listener makes of one frame: decode failures
      and errors end the call; otherwise the response-event key must hold a
      non-empty array, whose first element is the response. */
  function ClassifyImageMessage(m: ImageMessage, responseEvent: string): (v: Verdict<ImageResult>)
    ensures m.Malformed? ==> v == Reject(DecodeMessage(m.reason))
    ensures m.Decoded? && m.onError.Some? ==> v == Reject(m.onError.value)
    ensures v.Deliver? <==>
      m.Decoded? && m.onError.None? &&
      responseEvent in m.fields && NonEmptyArray(m.fields[responseEvent]) &&
      m.fields[responseEvent].items[0].Decodable?
    ensures v.Deliver? ==> v.value == m.fields[responseEvent].items[0].result
    ensures (m.Decoded? && m.onError.None? &&
             responseEvent in m.fields && NonEmptyArray(m.fields[responseEvent]) &&
             m.fields[responseEvent].items[0].Undecodable?) ==>
      v == Reject(Foreign(m.fields[responseEvent].items[0].reason))
  {
    match m
    case Malformed(reason) => Reject(DecodeMessage(reason))
    case Decoded(onError, fields) =>
      if onError.Some? then Reject(onError.value)
      else if responseEvent in fields && NonEmptyArray(fields[responseEvent]) then
        match fields[responseEvent].items[0]
        case Decodable(r) => Deliver(r)
        case Undecodable(reason) => Reject(Foreign(reason))
      else Skip
  }

  /** A frame is passed over exactly when it decodes, the error check finds
      nothing, and the response-event key is missing or does not hold a
      non-empty array. The key loop passes over every key except the
      response event, so as long as the error check's verdict is unchanged,
      removing any other key does not change the verdict. (The error check
      sees the whole frame, so other keys can change its verdict.) */
  lemma SkippedFrames(m: ImageMessage, responseEvent: string)
    ensures ClassifyImageMessage(m, responseEvent).Skip? <==>
      m.Decoded? && m.onError.None? &&
      (responseEvent !in m.fields || !NonEmptyArray(m.fields[responseEvent]))
    ensures m.Decoded? ==> forall k :: k != responseEvent ==>
      ClassifyImageMessage(m.(fields := m.fields - {k}), responseEvent) ==
      ClassifyImageMessage(m, responseEvent)
  {
  }

  /** Only the first element of the array is decoded; the rest are never
      looked at. */
  lemma FirstElementIsTheResponse(
    fields: map<string, Value>, responseEvent: string, first: ImageResult, rest: seq<Element>)
    requires responseEvent in fields && fields[responseEvent] == Array([Decodable(first)] + rest)
    ensures ClassifyImageMessage(Decoded(None, fields), responseEvent) == Deliver(first)
  {
  }

  /** The listener's verdict on each frame of the stream, in order. */
  function ImageVerdicts(stream: seq<ImageMessage>, responseEvent: string): seq<Verdict<ImageResult>>
  {
    seq(|stream|, i requires 0 <= i < |stream| => ClassifyImageMessage(stream[i], responseEvent))
  }

  // ---------------------------------------------------------------------
  // The listener and the call
  // ---------------------------------------------------------------------

  /** ImageInference's listener goroutine, run over the frames it receives
      before the connection closes. The keys of a frame are visited in no
      particular order, as ranging over a Go map does; only the
      response-event key can decide. */
  method ListenForImage(stream: seq<ImageMessage>, responseEvent: string, resp: NewImageInferenceResp)
    returns (exit: Exit<ImageResult>)
    modifies resp
    ensures exit == FirstDecisive(ImageVerdicts(stream, responseEvent))
    ensures resp.View() == if exit.Delivered? then exit.value else old(resp.View())
  {
    ghost var vs := ImageVerdicts(stream, responseEvent);
    var i := 0;
    while i < |stream|
      invariant 0 <= i <= |stream|
      invariant forall j :: 0 <= j < i ==> vs[j].Skip?
      invariant resp.View() == old(resp.View())
    {
      var msg := stream[i];
      if msg.Malformed? {
        DecidedAt(vs, i);
        return Rejected(DecodeMessage(msg.reason), i);
      }
      if msg.onError.Some? {
        DecidedAt(vs, i);
        return Rejected(msg.onError.value, i);
      }
      var keys := msg.fields.Keys;
      while keys != {}
        invariant keys <= msg.fields.Keys
        invariant responseEvent in msg.fields && responseEvent !in keys ==>
          !NonEmptyArray(msg.fields[responseEvent])
        invariant resp.View() == old(resp.View())
        decreases keys
      {
        var k :| k in keys;
        keys := keys - {k};
        if k != responseEvent {
          continue;
        }
        var v := msg.fields[k];
        if !v.Array? || |v.items| == 0 {
          continue;
        }
        DecidedAt(vs, i);
        match v.items[0] {
          case Undecodable(reason) =>
            return Rejected(Foreign(reason), i);
          case Decodable(r) =>
            resp.Unmarshal(r);
            return Delivered(r, i);
        }
      }
      i := i + 1;
    }
    return Exhausted;
  }

  /** The frame ImageInference hands to the transport: the request travels
      as a one-element list. */
  datatype ImageFrame = ImageFrame(
    id: string,
    event: string,
    responseEvent: string,
    data: seq<NewImageInferenceReq>)

  /** ImageInference, for a request already merged with its defaults.
      `listening` says whether the listener was started; `sent` is the
      frame handed to the transport, if any. */
  method ImageInference(
    req: NewImageInferenceReq, requestEvent: string, responseEvent: string,
    env: CallEnv, stream: seq<ImageMessage>)
    returns (resp: NewImageInferenceResp?, err: Option<SdkError>, listening: bool, sent: Option<ImageFrame>)
    // A request that fails validation returns the error before anything
    // is started or sent.
    ensures ValidateImageInferenceReq(req).Fail? ==>
      resp == null && err == Some(ValidateImageInferenceReq(req).error) && !listening && sent == None
    ensures ValidateImageInferenceReq(req).Pass? ==> listening
    ensures sent.Some? ==>
      ValidateImageInferenceReq(req).Pass? && env.encodeError.None? &&
      sent.value == ImageFrame(env.requestId, requestEvent, responseEvent, [req])
    ensures ValidateImageInferenceReq(req).Pass? && env.encodeError.None? ==> sent.Some?
    // Encoding and transport failures come back unchanged, with no response.
    ensures ValidateImageInferenceReq(req).Pass? && env.encodeError.Some? ==>
      resp == null && err == env.encodeError
    ensures sent.Some? && env.sendError.Some? ==> resp == null && err == env.sendError
    // Once sent, the outcome is that of the select case that fires.
    ensures sent.Some? && env.sendError.None? ==>
      var exit := FirstDecisive(ImageVerdicts(stream, responseEvent));
      match env.ready
      case ListenerDone =>
        (exit.Delivered? ==>
           resp != null && fresh(resp) && err == None && resp.View() == exit.value) &&
        (exit.Rejected? ==> resp == null && err == Some(exit.error)) &&
        (exit.Exhausted? ==> resp == null && err == None)
      case TimerFired =>
        resp != null && fresh(resp) &&
        resp.View() == (if exit.Delivered? then exit.value else ZeroResult).(timedOut := true) &&
        err == Some(RequestTimeout(requestEvent))
      case ContextCancelled(reason) =>
        resp == null && err == Some(ContextDone(reason))
  {
    listening, sent := false, None;
    var invalid := ValidateImageInferenceReq(req);
    if invalid.Fail? {
      return null, Some(invalid.error), listening, sent;
    }
    var frame := ImageFrame(env.requestId, requestEvent, responseEvent, [req]);
    var newImageInferenceResp := new NewImageInferenceResp();
    listening := true;
    var exit := ListenForImage(stream, responseEvent, newImageInferenceResp);
    if env.encodeError.Some? {
      return null, env.encodeError, listening, sent;
    }
    sent := Some(frame);
    if env.sendError.Some? {
      return null, env.sendError, listening, sent;
    }
    match env.ready {
      case ListenerDone =>
        // A closed channel yields its zero value, so a listener that ran
        // out of frames makes the call return a nil response and a nil error.
        match exit {
          case Delivered(_, _) => resp, err := newImageInferenceResp, None;
          case Rejected(e, _) => resp, err := null, Some(e);
          case Exhausted => resp, err := null, None;
        }
      case TimerFired =>
        newImageInferenceResp.timedOut := true;
        resp, err := newImageInferenceResp, Some(RequestTimeout(requestEvent));
      case ContextCancelled(reason) =>
        resp, err := null, Some(ContextDone(reason));
    }
  }
}
