/**
 * The request side of the handler: where the payload comes from, the
 * destructuring of its five top-level fields with their defaults, and the
 * guard on the three required inputs (index.js lines 63-74).
 */
module Requests {
  import opened Outcomes
  import opened JsValues

  datatype Request = Request(
    htmlBody: JsValue,
    fileName: JsValue,
    bucketName: JsValue,
    puppeteerOpts: JsValue,
    pdfLibOpts: JsValue)

  /**
   * The payload: the event's `body` parsed as JSON when it is a string,
   * otherwise the event itself. JSON parsing is not modelled and comes in as
   * `parse`; reading `body` off a null or undefined event throws.
   */
  function PayloadOf(event: JsValue, parse: string -> Attempt<JsValue>): (r: Attempt<JsValue>)
    ensures Nullish(event) ==> r.Threw?
    ensures !Nullish(event) && !Prop(event, "body").Str? ==> r == Done(event)
    ensures !Nullish(event) && Prop(event, "body").Str? ==> r == parse(Prop(event, "body").s)
  {
    match Read(event, "body")
    case Threw(message) => Threw(message)
    case Done(body) => if body.Str? then parse(body.s) else Done(event)
  }

  /** The TypeError the runtime throws when destructuring null or undefined. */
  function DestructureErrorMessage(payload: JsValue): string
    requires Nullish(payload)
  {
    "Cannot destructure property 'htmlBody' of 'payload' as it is "
    + (if payload.Null? then "null." else "undefined.")
  }

  /**
   * `const { htmlBody, fileName, bucketName, puppeteer = {}, pdfLib = {} } = payload`:
   * the two option blocks default to an empty object when absent, but a
   * `null` block is kept as it is.
   */
  function Destructure(payload: JsValue): (r: Attempt<Request>)
    ensures r.Threw? <==> Nullish(payload)
    ensures r.Done? ==> r.value.puppeteerOpts != Undefined && r.value.pdfLibOpts != Undefined
    ensures !Nullish(payload) ==>
              && r.value.htmlBody == Prop(payload, "htmlBody")
              && r.value.fileName == Prop(payload, "fileName")
              && r.value.bucketName == Prop(payload, "bucketName")
    ensures !Nullish(payload) && Prop(payload, "puppeteer") != Undefined
            ==> r.value.puppeteerOpts == Prop(payload, "puppeteer")
    ensures !Nullish(payload) && Prop(payload, "puppeteer") == Undefined
            ==> r.value.puppeteerOpts == Object(map[])
    ensures !Nullish(payload) && Prop(payload, "pdfLib") != Undefined
            ==> r.value.pdfLibOpts == Prop(payload, "pdfLib")
    ensures !Nullish(payload) && Prop(payload, "pdfLib") == Undefined
            ==> r.value.pdfLibOpts == Object(map[])
  {
    if Nullish(payload) then Threw(DestructureErrorMessage(payload))
    else Done(Request(
      Prop(payload, "htmlBody"),
      Prop(payload, "fileName"),
      Prop(payload, "bucketName"),
      DefaultTo(Prop(payload, "puppeteer"), Object(map[])),
      DefaultTo(Prop(payload, "pdfLib"), Object(map[]))))
  }

  const MissingInputsMessage := "Missing required inputs: htmlBody, fileName, or bucketName"

  predicate HasRequiredInputs(req: Request) {
    Truthy(req.htmlBody) && Truthy(req.fileName) && Truthy(req.bucketName)
  }

  /**
   * The guard on the required inputs: the request is refused exactly when one
   * of the three is undefined, null, false, 0 or the empty string. Any other
   * value passes, including an empty array or object.
   */
  function Validate(req: Request): (r: Attempt<()>)
    ensures r.Threw? <==>
      IsFalsyValue(req.htmlBody) || IsFalsyValue(req.fileName) || IsFalsyValue(req.bucketName)
    ensures r.Threw? ==> r.message == MissingInputsMessage
  {
    if HasRequiredInputs(req) then Done(()) else Threw(MissingInputsMessage)
  }
}
