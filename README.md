# HTML-to-PDF Lambda handler, modelled in Dafny

The system is a single serverless handler, `exports.handler` in `index.js`. It takes a request
holding an HTML body, a file name, a bucket name and two optional blocks of options. It then runs
four phases:

1. It renders the HTML to PDF in a headless browser.
2. It stamps document metadata and viewer preferences with a PDF library.
3. When asked, it encrypts the document with a user password, an owner password and a permissions record.
4. It uploads the result to an object store.

It answers 200 with the object's `s3://bucket/key` location, or 500 with the error message. On the
way out it closes the browser whenever one was launched.

The model covers:

- **JavaScript values and operators** (`js_values.dfy`). JavaScript values are the datatype
  `JsValue`. The operators the handler applies to them are written out: ToBoolean, `||`,
  `!== false`, `v.k`, `v?.k`, destructuring defaults, `Array.isArray` and `String(v)`.
- **The request** (`request.dfy`): where the payload comes from, its destructuring, and the guard
  on the three required inputs.
- **The render options** (`render_options.dfy`): the `pdfConfig` literal with its defaults.
- **The annotate phase** (`annotations.dfy`): which metadata and viewer-preference setters run, in
  what order and with which value.
- **The encryption arguments** (`encryption.dfy`): the two passwords with their fallbacks, and the
  permissions record.
- **The upload** (`upload.dfy`): the object metadata and the reported location.
- **The handler itself** (`handler.dfy`), as imperative methods:
  - the `try` block, split along its four commented phases;
  - the `catch`, which turns any error into a 500;
  - the `finally`, which closes a launched browser, and whose own error replaces the response.

Every collaborator the handler calls is given as a parameter of type `Env`. Each one is the outcome
it produces for each argument. The collaborators are JSON parsing, the browser, the PDF library,
the encryption routine, the storage client, and the runtime's number printing.

The handler records each call it makes, with its arguments, in a sequence of `Call`s. The proved
contracts relate that record to the request:

- the calls come in the order of the source text, each kind at most once;
- each call before the browser is closed is made only after the one before it succeeded, and on the bytes that call produced;
- each call carries the arguments the handler computes from the request;
- the response is a 200 exactly when the upload was reached, every call succeeded and the location could be written out;
- a 500 carries the message of the step that failed;
- the browser is closed exactly when it was launched, once, as the last call.

## Model

| member | source | states |
|---|---|---|
| JsValues.Truthy | index.js:72 | ToBoolean is false exactly for undefined, null, false, 0 and the empty string |
| JsValues.Or | index.js:92-101 | `a \|\| b` is the left operand when it is truthy and the right one otherwise; the result is truthy iff either operand is |
| JsValues.NotFalse | index.js:94 | `v !== false` holds for every truthy value and for every falsy value except `false` itself (undefined, null, 0, '') |
| JsValues.Read | index.js:92 | reading a property throws exactly when the value is null or undefined, and otherwise yields the property (undefined when absent) |
| JsValues.OptionalProp | index.js:142-148 | `v?.k` is undefined on null or undefined and when the key is absent, and the property's value when present; it never throws |
| JsValues.Collect | index.js:167-177 | the values of a list of conversions when all succeed, in order; otherwise the first error met from the left, as `join` meets it |
| JsValues.ToString | index.js:167-177 | `String(v)` succeeds exactly on `Convertible` values and otherwise throws the TypeError 'Cannot convert object to primitive value' (an object with its own `toString` key, or an array holding one); it gives 'undefined', 'null', 'true'/'false', the runtime's printing of a number, the string itself, '[object Object]' for an object without its own `toString`, '' for an empty array, and for a one-element array '' (null or undefined element) or the element's own text |
| JsValues.DefaultTo | index.js:68-69 | a destructuring default replaces undefined only; every other value, null included, is kept |
| Requests.PayloadOf | index.js:63 | a string `body` is parsed; any other `body` leaves the event itself as the payload; a null or undefined event throws |
| Requests.Destructure | index.js:64-70 | destructuring throws exactly on a null or undefined payload; otherwise htmlBody, fileName and bucketName are the payload's properties, and each option block is the caller's value when it is not undefined (null included) and an empty object when it is |
| Requests.Validate | index.js:72-74 | the request is refused, with the fixed message, exactly when one of htmlBody, fileName, bucketName is a falsy value |
| Handler.Admit | index.js:63-74 | a failure to read the payload keeps its own error; a readable request lacking an input fails with the missing-inputs message; a readable request with all three inputs is admitted unchanged, and an admitted request has all three inputs |
| RenderOptions.PdfConfigOf | index.js:91-102 | it throws exactly when the options block is null; every field is the caller's value when truthy and its default otherwise; printBackground is on unless the caller gave exactly false; format, scale and margin are always truthy |
| RenderOptions.DefaultingIdempotent | index.js:91-102 | feeding a resolved configuration back in as options resolves to the same configuration |
| RenderOptions.EmptyOptionsGiveDefaults | index.js:91-102 | with no options every field takes its documented default (Letter, scale 1, 1cm margins, background printed) |
| RenderOptions.ZeroScaleBecomesOne | index.js:95 | an explicit scale of 0 is replaced by 1 |
| Annotations.MetaIf | index.js:112-119 | the source's guard on each field selects it exactly as `MetaSelected` says (for keywords, "truthy and an array" is the same as "an array"), and the call carries the caller's value |
| Annotations.MetaSettersForSound | index.js:112-119 | every metadata call made is for a selected field and carries the caller's value |
| Annotations.MetaSettersForComplete | index.js:112-119 | every selected field among those visited gets a call |
| Annotations.MetaSettersForAbove | index.js:112-119 | visiting only fields ranked after a bound makes only calls ranked after it |
| Annotations.MetaSettersForOrdered | index.js:112-119 | visiting fields in the source's order makes the calls in that order, so no field is set twice |
| Annotations.MetadataSetters | index.js:110-120 | the metadata block causes exactly the calls for the selected fields, each with the caller's value, in source order; none when the block is falsy |
| Annotations.PrefIf | index.js:126-131 | each preference call is made exactly when the flag is selected, with the caller's value |
| Annotations.PrefSettersForSound | index.js:126-131 | every preference call made is for a selected flag and carries the caller's value |
| Annotations.PrefSettersForComplete | index.js:126-131 | every selected flag among those visited gets a call |
| Annotations.PrefSettersForAbove | index.js:126-131 | visiting only flags ranked after a bound makes only calls ranked after it |
| Annotations.PrefSettersForOrdered | index.js:126-131 | visiting flags in the source's order makes the calls in that order |
| Annotations.PreferenceSetters | index.js:123-132 | the preferences record is touched exactly when the block is truthy; then exactly the selected flags are set, with the caller's values, in source order |
| Annotations.AnnotationPlanOf | index.js:110 | reading `pdfLibOpts.metadata` throws exactly when the pdfLib block is null, with the runtime's TypeError message |
| Annotations.PlanParts | index.js:110-132 | a plan holds the metadata setters and the preference setters selected from the two blocks |
| Annotations.ExplicitFalseIsIgnored | index.js:126-131 | a flag given as `false` is never set: preferences can be switched on, not off |
| Encryption.PermissionsOf | index.js:141-149 | printing is the caller's truthy value or 'highResolution'; each other permission is denied exactly when the caller gave `false`; without a permissions object everything is allowed |
| Encryption.EncryptArgsOf | index.js:151-156 | the user password is the caller's when truthy, else ''; the owner password is the caller's when truthy, else the user password; the owner password is non-empty iff either password was given |
| Upload.TextOrEmpty | index.js:167-168 | `String(v \|\| '')` is '' for a falsy value and `String(v)` for a truthy one (the string itself for a string); it throws exactly when the value cannot be converted |
| Upload.UploadMetadata | index.js:165-170 | with a falsy metadata block the object metadata is empty; otherwise it throws exactly when title or author cannot be converted, and else has exactly the keys title and author, each '' for a falsy value and `String(v)` of the caller's value when truthy |
| Upload.Location | index.js:177 | the template literal throws exactly when the bucket or the key cannot be converted, and otherwise starts with the `s3://` scheme |
| Upload.ParsesBack | index.js:177 | a location whose bucket text holds no '/' parses back into that bucket text and the key text |
| Upload.LocationNamesObject | index.js:177 | the bucket and the key can be read back from the location whenever both convert and the bucket's text holds no '/' |
| Handler.Extend | index.js:80-171 | a call that may follow the last recorded one, with the computed arguments, keeps the record well formed |
| Handler.RecordedInOrder | index.js:80-171 | a well-formed record lists its calls in the order of the source, each kind at most once |
| Handler.RecordedChained | index.js:80-171 | a well-formed record starts with the launch, each call may follow the one before it, and each carries the arguments computed from the request |
| Handler.ChainedPrefixSucceeded | index.js:80-171 | before the browser is closed, every call except the last one succeeded |
| Handler.UploadEndsRecord | index.js:137-171 | an upload is recorded exactly when it is the last call, and the encryption comes right before it exactly when one was recorded |
| Handler.Render | index.js:76-104 | phase 1 launches, opens a page, sets the content, and prints with the resolved configuration; `browser` is set exactly when the launch succeeded; a failure is explained by the last call |
| Handler.Annotate | index.js:106-134 | phase 2 loads the printed bytes and saves them with the plan computed from the pdfLib block; a failure is explained by the last call |
| Handler.Protect | index.js:136-157 | phase 3 encrypts the saved bytes exactly when the encryption block is truthy, and otherwise hands them on unchanged |
| Handler.Send | index.js:159-179 | phase 4 builds the object metadata and, when that throws, stops before any upload; otherwise it uploads the final bytes with the computed command; the run succeeds exactly when the upload does and the location converts, and then reports that location |
| Handler.RunPhases | index.js:62-179 | an unreadable or incomplete request fails before any call; otherwise the run ends as `Finished` says, and `browser` is set exactly when the launch succeeded |
| Handler.RunOutcome | index.js:159-179 | after the `try` block, all calls succeeded exactly when the last one, the upload, did; an encryption is recorded only when requested |
| Handler.AppendClose | index.js:187-190 | closing the browser keeps the record well formed and leaves the upload and the encryption as they were |
| Handler.Handle | index.js:59-192 | a refused request gives a 500 with its message and no calls, and an admitted one makes calls; the browser is closed exactly when it was launched, as the last call; the answer is 200 with the location exactly when the upload was made, every call succeeded and the location converts; a 500 carries the message of the failing step, including a metadata or location conversion that threw; a failing close replaces the response with its own error; encryption is never applied unless requested, and a run that reached the upload encrypted exactly when requested |

## Left out

- Launching the browser: its arguments and `chromium.setGraphicsMode` are library configuration with no effect on the modelled behaviour. Each browser step is one outcome given by `Env`.
- `waitUntil: 'networkidle0'` is not modelled. Page loading and timing belong to the browser.
- Inside the PDF library: the document object, the viewer-preferences record and `save()` are library calls. The model records which setters run and with which value, as an `AnnotationPlan`; the saved bytes come from `Env`.
- `new Date(...)` for the two date fields is not modelled. The setter call records the caller's value; date parsing belongs to the runtime.
- How `encryptPDF` encodes the permissions into the document is not modelled. The encryption routine is an outcome given by `Env`.
- The storage client and its network call are not modelled. The upload command is recorded and its outcome comes from `Env`.
- `JSON.parse` of a string body comes in as a parameter. `JSON.stringify` of the response body is not modelled: the body is kept as a datatype.
- `error.stack` in the 500 body is not modelled: stacks depend on the runtime. Only `error.message` is.
- `console.error` is not modelled: it is logging only.
- Number printing: how the runtime prints a number in `String(v)` and in template literals comes in as a parameter. NaN and infinities are not modelled (numbers are reals), and neither are values JSON cannot carry (functions, symbols, BigInt).
- Asynchrony, time limits and concurrent invocations are not modelled. Each `await` is one step that either completes or throws.
- Inherited properties: property reads see own properties of objects only. No key the handler reads is inherited by strings, numbers, booleans or arrays.
- Upload.Location: only its prefix is stated as a contract; the full round trip is `Upload.LocationNamesObject`, which needs a bucket name without '/'.
- The documented option ranges (scale 0.1 to 2.0, the list of page formats, the printing values) are not enforced by the handler, and the model passes any value through as the handler does.
