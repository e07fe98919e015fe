/**
 * The request handler (index.js lines 59-191): validate, render, annotate,
 * optionally encrypt, upload, and answer 200 or 500, closing the browser on
 * the way out whenever it was launched.
 *
 * Every collaborator (JSON parsing, the headless browser, the PDF library,
 * the encryption routine, the storage client, number printing) is outside
 * the model and comes in through `Env` as the outcome it gives for each
 * argument. The handler records every call it makes, in order, with its
 * arguments.
 */
module Handler {
  import opened Outcomes
  import opened JsValues
  import opened Requests
  import opened RenderOptions
  import opened Annotations
  import opened Encryption
  import opened Upload

  /** What each collaborator answers, as a function of what it is given. */
  datatype Env = Env(
    parse: string -> Attempt<JsValue>,
    launch: Attempt<()>,
    newPage: Attempt<()>,
    setContent: JsValue -> Attempt<()>,
    pdf: PdfConfig -> Attempt<Bytes>,
    load: Bytes -> Attempt<()>,
    save: (Bytes, AnnotationPlan) -> Attempt<Bytes>,
    encrypt: (Bytes, EncryptArgs) -> Attempt<Bytes>,
    send: PutObject -> Attempt<()>,
    close: Attempt<()>,
    numberText: real -> string)

  /**
   * One call to a collaborator. `Load` is `PDFDocument.load`; `Save` stands
   * for the selected setter calls on the loaded document followed by `save()`.
   */
  datatype Call =
    | Launch
    | NewPage
    | SetContent(html: JsValue)
    | RenderPdf(config: PdfConfig)
    | Load(pdf: Bytes)
    | Save(pdf: Bytes, plan: AnnotationPlan)
    | Encrypt(pdf: Bytes, args: EncryptArgs)
    | Put(command: PutObject)
    | Close

  /** The JSON body of the response, before it is serialised. */
  datatype ResponseBody = SuccessBody(message: string, location: string) | ErrorBody(error: string)

  datatype Response = Response(statusCode: int, body: ResponseBody)

  /**
   * How the handler ends: it returns a response, or, when closing the
   * browser throws inside `finally`, that error replaces the response.
   */
  datatype Completion = Returned(response: Response) | Rejected(error: string)

  /** The outcome the environment gives for a call. */
  function Answer(c: Call, env: Env): Attempt<()> {
    match c
    case Launch => env.launch
    case NewPage => env.newPage
    case SetContent(html) => env.setContent(html)
    case RenderPdf(config) =>
      (match env.pdf(config) case Done(_) => Done(()) case Threw(m) => Threw(m))
    case Load(pdf) => env.load(pdf)
    case Save(pdf, plan) =>
      (match env.save(pdf, plan) case Done(_) => Done(()) case Threw(m) => Threw(m))
    case Encrypt(pdf, args) =>
      (match env.encrypt(pdf, args) case Done(_) => Done(()) case Threw(m) => Threw(m))
    case Put(command) => env.send(command)
    case Close => env.close
  }

  predicate Succeeded(c: Call, env: Env) {
    Answer(c, env).Done?
  }

  /** The position of each kind of call in the handler's text. */
  function Rank(c: Call): nat {
    match c
    case Launch => 0
    case NewPage => 1
    case SetContent(_) => 2
    case RenderPdf(_) => 3
    case Load(_) => 4
    case Save(_, _) => 5
    case Encrypt(_, _) => 6
    case Put(_) => 7
    case Close => 8
  }

  /** Calls happen in the handler's order, each kind at most once. */
  predicate InOrder(calls: seq<Call>) {
    forall i, j :: 0 <= i < j < |calls| ==> Rank(calls[i]) < Rank(calls[j])
  }

  /**
   * `next` may follow `prev`: each step of the render phase needs the one
   * before it to have succeeded, and each phase consumes the bytes the
   * previous one produced.
   */
  predicate Follows(prev: Call, next: Call, env: Env) {
    match next
    case Launch => false
    case NewPage => prev == Launch && Succeeded(prev, env)
    case SetContent(_) => prev == NewPage && Succeeded(prev, env)
    case RenderPdf(_) => prev.SetContent? && Succeeded(prev, env)
    case Load(pdf) => prev.RenderPdf? && env.pdf(prev.config) == Done(pdf)
    case Save(pdf, _) => prev == Load(pdf) && Succeeded(prev, env)
    case Encrypt(pdf, _) => prev.Save? && Yields(prev, pdf, env)
    case Put(command) => Yields(prev, command.body, env)
    case Close => true
  }

  /** `c` is the save or the encryption, and it produced `bytes`. */
  predicate Yields(c: Call, bytes: Bytes, env: Env) {
    || (c.Save? && env.save(c.pdf, c.plan) == Done(bytes))
    || (c.Encrypt? && env.encrypt(c.pdf, c.args) == Done(bytes))
  }

  /** The calls form one chain starting at the browser launch. */
  ghost predicate Chained(calls: seq<Call>, env: Env) {
    && (|calls| > 0 ==> calls[0] == Launch)
    && (forall i, j :: 0 <= i < j < |calls| && j == i + 1 ==> Follows(calls[i], calls[j], env))
  }

  predicate HasPut(calls: seq<Call>) {
    exists i :: 0 <= i < |calls| && calls[i].Put?
  }

  predicate HasEncrypt(calls: seq<Call>) {
    exists i :: 0 <= i < |calls| && calls[i].Encrypt?
  }

  predicate AllSucceeded(calls: seq<Call>, env: Env) {
    forall i :: 0 <= i < |calls| ==> Succeeded(calls[i], env)
  }

  /** Payload extraction followed by destructuring. */
  function RequestOf(event: JsValue, env: Env): Attempt<Request> {
    match PayloadOf(event, env.parse)
    case Threw(m) => Threw(m)
    case Done(payload) => Destructure(payload)
  }

  /**
   * The request the phases work on: the payload destructured and its three
   * required inputs present (lines 63-74). Any error here comes before the
   * browser is launched.
   */
  function Admit(event: JsValue, env: Env): (r: Attempt<Request>)
    ensures RequestOf(event, env).Threw? ==> r == RequestOf(event, env)
    ensures RequestOf(event, env).Done? && !HasRequiredInputs(RequestOf(event, env).value)
            ==> r == Threw(MissingInputsMessage)
    ensures r.Done? ==> RequestOf(event, env) == r && HasRequiredInputs(r.value)
    ensures RequestOf(event, env).Done? && HasRequiredInputs(RequestOf(event, env).value)
            ==> r == RequestOf(event, env)
  {
    match RequestOf(event, env)
    case Threw(m) => Threw(m)
    case Done(req) => if Validate(req).Threw? then Threw(Validate(req).message) else Done(req)
  }

  /** `pdfLibOpts.encryption`, read only once the annotate phase got past `pdfLibOpts.metadata`. */
  function EncryptionBlock(req: Request): JsValue {
    if Nullish(req.pdfLibOpts) then Undefined else Prop(req.pdfLibOpts, "encryption")
  }

  /**
   * The object-metadata header built from `pdfLibOpts.metadata` (lines
   * 165-170), read only once the annotate phase got past `pdfLibOpts.metadata`.
   */
  function UploadMetadataOf(req: Request, env: Env): Attempt<map<string, string>> {
    UploadMetadata(OptionalProp(req.pdfLibOpts, "metadata"), env.numberText)
  }

  /** The location reported for the request (line 177). */
  function LocationOf(req: Request, env: Env): Attempt<string> {
    Location(req.bucketName, req.fileName, env.numberText)
  }

  /** Each call carries the arguments the handler computes from the request. */
  predicate ArgumentsFit(c: Call, req: Request, env: Env) {
    match c
    case SetContent(html) => html == req.htmlBody
    case RenderPdf(config) => PdfConfigOf(req.puppeteerOpts) == Done(config)
    case Save(_, plan) => AnnotationPlanOf(req.pdfLibOpts) == Done(plan)
    case Encrypt(_, args) =>
      Truthy(EncryptionBlock(req)) && args == EncryptArgsOf(EncryptionBlock(req))
    case Put(command) =>
      && !Nullish(req.pdfLibOpts)
      && command.bucket == req.bucketName
      && command.key == req.fileName
      && command.contentType == PdfContentType
      && UploadMetadataOf(req, env) == Done(command.metadata)
    case _ => true
  }

  function Last(calls: seq<Call>): Call
    requires calls != []
  {
    calls[|calls| - 1]
  }

  /**
   * A well-formed record of the calls made for request `req`, built one call
   * at a time: the first is the launch, and each later call may follow the
   * one before it, comes later in the handler's text and carries the
   * arguments the handler computes.
   */
  ghost predicate Recorded(calls: seq<Call>, req: Request, env: Env)
    decreases |calls|
  {
    calls == [] ||
      (&& Recorded(calls[..|calls| - 1], req, env)
       && ArgumentsFit(Last(calls), req, env)
       && (|calls| == 1 ==> Last(calls) == Launch)
       && (|calls| >= 2 ==>
             Rank(calls[|calls| - 2]) < Rank(Last(calls)) && Follows(calls[|calls| - 2], Last(calls), env)))
  }

  /** Adding a call that may follow the last one keeps the record well formed. */
  lemma Extend(calls: seq<Call>, c: Call, req: Request, env: Env)
    requires Recorded(calls, req, env) && ArgumentsFit(c, req, env)
    requires calls == [] ==> c == Launch
    requires calls != [] ==> Rank(Last(calls)) < Rank(c) && Follows(Last(calls), c, env)
    ensures Recorded(calls + [c], req, env)
  {
  }

  /** A record lists its calls in the handler's order, each kind at most once. */
  lemma {:induction false} RecordedInOrder(calls: seq<Call>, req: Request, env: Env)
    requires Recorded(calls, req, env)
    ensures InOrder(calls)
    ensures calls != [] ==> forall i :: 0 <= i < |calls| ==> Rank(calls[i]) <= Rank(Last(calls))
    decreases |calls|
  {
    if calls != [] {
      var prev := calls[..|calls| - 1];
      RecordedInOrder(prev, req, env);
      forall i, j | 0 <= i < j < |calls|
        ensures Rank(calls[i]) < Rank(calls[j])
      {
        if j < |calls| - 1 {
          assert calls[i] == prev[i] && calls[j] == prev[j];
        } else {
          assert calls[i] == prev[i];
        }
      }
    }
  }

  /**
   * A record is one chain from the launch, and every call in it carries the
   * arguments computed from the request.
   */
  lemma {:induction false} RecordedChained(calls: seq<Call>, req: Request, env: Env)
    requires Recorded(calls, req, env)
    ensures Chained(calls, env)
    ensures forall i :: 0 <= i < |calls| ==> ArgumentsFit(calls[i], req, env)
    decreases |calls|
  {
    if calls != [] {
      var prev := calls[..|calls| - 1];
      RecordedChained(prev, req, env);
      assert forall i :: 0 <= i < |prev| ==> calls[i] == prev[i];
    }
  }

  /**
   * Without a `Close`, every call but the last succeeded: the chain only
   * moves on after a successful step.
   */
  lemma ChainedPrefixSucceeded(calls: seq<Call>, env: Env)
    requires Chained(calls, env)
    requires forall i :: 0 <= i < |calls| ==> calls[i] != Close
    ensures forall i :: 0 <= i < |calls| - 1 ==> Succeeded(calls[i], env)
  {
    forall i | 0 <= i < |calls| - 1
      ensures Succeeded(calls[i], env)
    {
      assert Follows(calls[i], calls[i + 1], env);
    }
  }

  /**
   * The upload is the last call before the browser is closed: a record
   * without `Close` holds an upload exactly when it ends with one, and then
   * holds an encryption exactly when the call just before is the encryption.
   */
  lemma UploadEndsRecord(calls: seq<Call>, req: Request, env: Env)
    requires Recorded(calls, req, env) && calls != [] && Last(calls) != Close
    ensures HasPut(calls) <==> Last(calls).Put?
    ensures Last(calls).Put? ==> |calls| >= 2 && (HasEncrypt(calls) <==> calls[|calls| - 2].Encrypt?)
  {
    RecordedInOrder(calls, req, env);
    RecordedChained(calls, req, env);
    if Last(calls).Put? {
      assert calls[0] == Launch;
      assert Follows(calls[|calls| - 2], Last(calls), env);
      if HasEncrypt(calls) {
        var i :| 0 <= i < |calls| && calls[i].Encrypt?;
        assert i == |calls| - 2 || Rank(calls[i]) < Rank(calls[|calls| - 2]);
      }
    }
  }

  /**
   * Why the run stopped with error `message` after the last recorded call:
   * that call failed with this message, or it succeeded and the handler's
   * own next step threw: reading the render options after the content was
   * set, the annotation options after the document was loaded, building the
   * upload's metadata after the last save or encryption, or the location
   * after the upload.
   */
  ghost predicate StoppedWith(calls: seq<Call>, message: string, req: Request, env: Env)
    requires calls != []
  {
    if !Succeeded(Last(calls), env) then message == Answer(Last(calls), env).message
    else
      || (Last(calls).SetContent? && PdfConfigOf(req.puppeteerOpts) == Threw(message))
      || (Last(calls).Load? && AnnotationPlanOf(req.pdfLibOpts) == Threw(message))
      || ((Last(calls).Encrypt? || (Last(calls).Save? && !Truthy(EncryptionBlock(req))))
          && UploadMetadataOf(req, env) == Threw(message))
      || (Last(calls).Put? && LocationOf(req, env) == Threw(message))
  }

  /**
   * How the phases ended for request `req`: the calls form a well-formed
   * record without `Close`; the run succeeded exactly when it ended with an
   * upload that succeeded, and then reports the object's location; an error
   * is explained by the last call; and an upload comes straight after the
   * encryption exactly when `pdfLibOpts.encryption` is truthy.
   */
  ghost predicate Finished(outcome: Attempt<string>, calls: seq<Call>, req: Request, env: Env) {
    && calls != []
    && Recorded(calls, req, env)
    && Last(calls) != Close
    && (outcome.Done? <==> Last(calls).Put? && Succeeded(Last(calls), env) && LocationOf(req, env).Done?)
    && (outcome.Done? ==> outcome == LocationOf(req, env))
    && (outcome.Threw? ==> StoppedWith(calls, outcome.message, req, env))
    && (Last(calls).Put? ==> |calls| >= 2 && (calls[|calls| - 2].Encrypt? <==> Truthy(EncryptionBlock(req))))
  }

  /**
   * Phase 1 (lines 76-104): launch the browser, open a page, set its
   * content and print it with the render options. `browser` says whether
   * the launch succeeded.
   */
  method Render(req: Request, env: Env) returns (pdf: Attempt<Bytes>, browser: bool, calls: seq<Call>)
    ensures browser <==> env.launch.Done?
    ensures calls != []
    ensures pdf.Done? ==> Recorded(calls, req, env) && Last(calls).RenderPdf? && env.pdf(Last(calls).config) == pdf
    ensures pdf.Threw? ==> Finished(Threw(pdf.message), calls, req, env)
  {
    browser, calls := false, [];
    Extend(calls, Launch, req, env);
    calls := calls + [Launch];
    if env.launch.Threw? {
      return Threw(env.launch.message), browser, calls;
    }
    browser := true;
    Extend(calls, NewPage, req, env);
    calls := calls + [NewPage];
    if env.newPage.Threw? {
      return Threw(env.newPage.message), browser, calls;
    }
    Extend(calls, SetContent(req.htmlBody), req, env);
    calls := calls + [SetContent(req.htmlBody)];
    var contentSet := env.setContent(req.htmlBody);
    if contentSet.Threw? {
      return Threw(contentSet.message), browser, calls;
    }
    var config := PdfConfigOf(req.puppeteerOpts);
    if config.Threw? {
      return Threw(config.message), browser, calls;
    }
    Extend(calls, RenderPdf(config.value), req, env);
    calls := calls + [RenderPdf(config.value)];
    pdf := env.pdf(config.value);
  }

  /**
   * Phase 2 (lines 106-134): load the printed document, apply the selected
   * metadata and viewer preferences, and save it.
   */
  method Annotate(req: Request, env: Env, calls: seq<Call>, pdf: Bytes) returns (saved: Attempt<Bytes>, calls': seq<Call>)
    requires calls != [] && Recorded(calls, req, env)
    requires Last(calls).RenderPdf? && env.pdf(Last(calls).config) == Done(pdf)
    ensures calls' != []
    ensures saved.Done? ==> Recorded(calls', req, env) && Last(calls').Save? && Yields(Last(calls'), saved.value, env)
    ensures saved.Threw? ==> Finished(Threw(saved.message), calls', req, env)
  {
    Extend(calls, Load(pdf), req, env);
    calls' := calls + [Load(pdf)];
    var loaded := env.load(pdf);
    if loaded.Threw? {
      return Threw(loaded.message), calls';
    }
    var plan := AnnotationPlanOf(req.pdfLibOpts);
    if plan.Threw? {
      return Threw(plan.message), calls';
    }
    Extend(calls', Save(pdf, plan.value), req, env);
    calls' := calls' + [Save(pdf, plan.value)];
    saved := env.save(pdf, plan.value);
  }

  /**
   * Phase 3 (lines 136-157): when `pdfLibOpts.encryption` is truthy, encrypt
   * the saved bytes with the computed passwords and permissions; otherwise
   * hand the saved bytes on unchanged.
   */
  method Protect(req: Request, env: Env, calls: seq<Call>, bytes: Bytes) returns (out: Attempt<Bytes>, calls': seq<Call>)
    requires calls != [] && Recorded(calls, req, env)
    requires Last(calls).Save? && Yields(Last(calls), bytes, env)
    ensures calls' != []
    ensures !Truthy(EncryptionBlock(req)) ==> calls' == calls && out == Done(bytes)
    ensures out.Done? ==> Recorded(calls', req, env) && Yields(Last(calls'), out.value, env)
    ensures out.Done? ==> (Last(calls').Encrypt? <==> Truthy(EncryptionBlock(req)))
    ensures out.Threw? ==> Finished(Threw(out.message), calls', req, env)
  {
    var encryption := Prop(req.pdfLibOpts, "encryption");
    if !Truthy(encryption) {
      return Done(bytes), calls;
    }
    var args := EncryptArgsOf(encryption);
    Extend(calls, Encrypt(bytes, args), req, env);
    calls' := calls + [Encrypt(bytes, args)];
    out := env.encrypt(bytes, args);
  }

  /**
   * Phase 4 (lines 159-179): build the object metadata, put the final bytes
   * into the bucket under the file name, and on success report the object's
   * location. Converting the metadata throws before the upload is attempted;
   * converting the location throws after it.
   */
  method Send(req: Request, env: Env, calls: seq<Call>, bytes: Bytes) returns (outcome: Attempt<string>, calls': seq<Call>)
    requires calls != [] && Recorded(calls, req, env)
    requires Yields(Last(calls), bytes, env)
    requires Last(calls).Encrypt? <==> Truthy(EncryptionBlock(req))
    ensures calls' != []
    ensures UploadMetadataOf(req, env).Threw? ==> calls' == calls
    ensures UploadMetadataOf(req, env).Done? ==> Last(calls').Put? && Last(calls').command.body == bytes
    ensures Finished(outcome, calls', req, env)
  {
    var metadata := UploadMetadata(Prop(req.pdfLibOpts, "metadata"), env.numberText);
    if metadata.Threw? {
      return Threw(metadata.message), calls;
    }
    var command := PutObject(req.bucketName, req.fileName, bytes, PdfContentType, metadata.value);
    Extend(calls, Put(command), req, env);
    calls' := calls + [Put(command)];
    var sent := env.send(command);
    if sent.Threw? {
      return Threw(sent.message), calls';
    }
    outcome := Location(req.bucketName, req.fileName, env.numberText);
  }

  /**
   * The body of the `try` block (lines 63-179): the request is read and
   * checked, then the four phases run in turn; a thrown error ends the run
   * early with `Threw`. `browser` says whether a browser was launched.
   */
  method RunPhases(event: JsValue, env: Env) returns (outcome: Attempt<string>, browser: bool, calls: seq<Call>)
    ensures Admit(event, env).Threw? ==> outcome == Threw(Admit(event, env).message) && calls == []
    ensures Admit(event, env).Done? ==> Finished(outcome, calls, Admit(event, env).value, env)
    ensures browser <==> calls != [] && env.launch.Done?
  {
    browser, calls := false, [];
    var admitted := Admit(event, env);
    if admitted.Threw? {
      return Threw(admitted.message), browser, calls;
    }
    var req := admitted.value;
    var pdf;
    pdf, browser, calls := Render(req, env);
    if pdf.Threw? {
      return Threw(pdf.message), browser, calls;
    }
    var saved;
    saved, calls := Annotate(req, env, calls, pdf.value);
    if saved.Threw? {
      return Threw(saved.message), browser, calls;
    }
    var finalPdfBytes;
    finalPdfBytes, calls := Protect(req, env, calls, saved.value);
    if finalPdfBytes.Threw? {
      return Threw(finalPdfBytes.message), browser, calls;
    }
    outcome, calls := Send(req, env, calls, finalPdfBytes.value);
  }

  predicate IsSuccess(result: Completion) {
    result.Returned? && result.response.statusCode == 200
  }

  /** The calls made inside the `try` block: all but a final `Close`. */
  function Unclosed(calls: seq<Call>): seq<Call> {
    if calls != [] && Last(calls) == Close then calls[..|calls| - 1] else calls
  }

  /**
   * `exports.handler`: the `try` block, the `catch` that turns any error
   * into a 500 response, and the `finally` that closes a launched browser.
   */
  method Handle(event: JsValue, env: Env) returns (result: Completion, calls: seq<Call>)
    ensures Admit(event, env).Threw?
            ==> result == Returned(Response(500, ErrorBody(Admit(event, env).message))) && calls == []
    ensures Admit(event, env).Done? <==> calls != []
    ensures calls != [] ==> Admit(event, env).Done? && Recorded(calls, Admit(event, env).value, env)
    ensures (calls != [] && env.launch.Done?) <==> (calls != [] && Last(calls) == Close)
    ensures result.Returned? ==>
              || (result.response.statusCode == 200 && result.response.body.SuccessBody?)
              || (result.response.statusCode == 500 && result.response.body.ErrorBody?)
    ensures IsSuccess(result) <==>
              && HasPut(calls) && AllSucceeded(calls, env)
              && Admit(event, env).Done? && LocationOf(Admit(event, env).value, env).Done?
    ensures IsSuccess(result) ==>
              result.response.body == SuccessBody("Success", LocationOf(Admit(event, env).value, env).value)
    ensures result.Returned? && result.response.statusCode == 500 && calls != [] ==>
              Unclosed(calls) != [] &&
              StoppedWith(Unclosed(calls), result.response.body.error, Admit(event, env).value, env)
    ensures result.Rejected? <==> calls != [] && Last(calls) == Close && env.close.Threw?
    ensures result.Rejected? ==> result.error == env.close.message
    ensures HasEncrypt(calls) ==> Truthy(EncryptionBlock(Admit(event, env).value))
    ensures HasPut(calls) ==> (HasEncrypt(calls) <==> Truthy(EncryptionBlock(Admit(event, env).value)))
  {
    var outcome, browser;
    outcome, browser, calls := RunPhases(event, env);
    match outcome {
      case Done(location) =>
        result := Returned(Response(200, SuccessBody("Success", location)));
      case Threw(message) =>
        result := Returned(Response(500, ErrorBody(message)));
    }
    if calls != [] {
      RunOutcome(calls, Admit(event, env).value, env);
    }
    if browser {
      AppendClose(calls, Admit(event, env).value, env);
      calls := calls + [Close];
      if env.close.Threw? {
        result := Rejected(env.close.message);
      }
    }
  }

  /**
   * What the `try` block leaves behind: an upload is recorded exactly when
   * it is the last call, and then every call succeeded exactly when the
   * upload did.
   */
  lemma RunOutcome(calls: seq<Call>, req: Request, env: Env)
    requires Recorded(calls, req, env) && calls != [] && Last(calls) != Close
    ensures HasPut(calls) <==> Last(calls).Put?
    ensures Last(calls).Put? ==> |calls| >= 2 && (HasEncrypt(calls) <==> calls[|calls| - 2].Encrypt?)
    ensures HasPut(calls) ==> (AllSucceeded(calls, env) <==> Succeeded(Last(calls), env))
    ensures HasEncrypt(calls) ==> Truthy(EncryptionBlock(req))
    ensures Unclosed(calls) == calls
  {
    UploadEndsRecord(calls, req, env);
    RecordedChained(calls, req, env);
    RecordedInOrder(calls, req, env);
    ChainedPrefixSucceeded(calls, env);
  }

  /**
   * Closing the browser in `finally` keeps the record well formed, leaves
   * the upload and the encryption as they were, and adds one more call that
   * must succeed for every call to have succeeded.
   */
  lemma AppendClose(calls: seq<Call>, req: Request, env: Env)
    requires Recorded(calls, req, env) && calls != [] && Last(calls) != Close
    ensures Recorded(calls + [Close], req, env) && Unclosed(calls + [Close]) == calls
    ensures HasPut(calls + [Close]) <==> HasPut(calls)
    ensures HasEncrypt(calls + [Close]) <==> HasEncrypt(calls)
    ensures AllSucceeded(calls + [Close], env) <==> AllSucceeded(calls, env) && Succeeded(Close, env)
  {
  }
}
