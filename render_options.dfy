/**
 * The mapping from the caller's `puppeteer` options onto the configuration
 * handed to the page's PDF export (index.js lines 91-102). Every field but
 * one takes the caller's value when it is truthy and a default otherwise;
 * `printBackground` is on unless the caller gave exactly `false`.
 */
module RenderOptions {
  import opened Outcomes
  import opened JsValues

  datatype PdfConfig = PdfConfig(
    format: JsValue,
    landscape: JsValue,
    printBackground: bool,
    scale: JsValue,
    margin: JsValue,
    displayHeaderFooter: JsValue,
    headerTemplate: JsValue,
    footerTemplate: JsValue,
    pageRanges: JsValue,
    preferCSSPageSize: JsValue)

  const DefaultFormat := Str("Letter")
  const DefaultScale := Num(1.0)
  const DefaultMargin := Object(map["top" := Str("1cm"), "right" := Str("1cm"),
                                    "bottom" := Str("1cm"), "left" := Str("1cm")])

  /** The caller's value when it is not one of the falsy values, else the default. */
  predicate TakesOrDefaults(given: JsValue, default: JsValue, actual: JsValue) {
    (!IsFalsyValue(given) ==> actual == given) && (IsFalsyValue(given) ==> actual == default)
  }

  /** What the configuration promises about the options it was built from. */
  predicate Honours(opts: JsValue, c: PdfConfig)
    requires !Nullish(opts)
  {
    && TakesOrDefaults(Prop(opts, "format"), DefaultFormat, c.format)
    && TakesOrDefaults(Prop(opts, "landscape"), Bool(false), c.landscape)
    && (c.printBackground <==> Prop(opts, "printBackground") != Bool(false))
    && TakesOrDefaults(Prop(opts, "scale"), DefaultScale, c.scale)
    && TakesOrDefaults(Prop(opts, "margin"), DefaultMargin, c.margin)
    && TakesOrDefaults(Prop(opts, "displayHeaderFooter"), Bool(false), c.displayHeaderFooter)
    && TakesOrDefaults(Prop(opts, "headerTemplate"), Str(""), c.headerTemplate)
    && TakesOrDefaults(Prop(opts, "footerTemplate"), Str(""), c.footerTemplate)
    && TakesOrDefaults(Prop(opts, "pageRanges"), Str(""), c.pageRanges)
    && TakesOrDefaults(Prop(opts, "preferCSSPageSize"), Bool(false), c.preferCSSPageSize)
  }

  /**
   * The `pdfConfig` literal. Reading the options throws when the caller sent
   * `puppeteer: null` (an absent block was already replaced by `{}`).
   */
  function PdfConfigOf(opts: JsValue): (r: Attempt<PdfConfig>)
    ensures r.Threw? <==> Nullish(opts)
    ensures r.Done? ==> Honours(opts, r.value)
    ensures r.Done? ==> Truthy(r.value.format) && Truthy(r.value.scale) && Truthy(r.value.margin)
  {
    match Read(opts, "format")
    case Threw(message) => Threw(message)
    case Done(format) =>
      Done(PdfConfig(
        format := Or(format, DefaultFormat),
        landscape := Or(Prop(opts, "landscape"), Bool(false)),
        printBackground := NotFalse(Prop(opts, "printBackground")),
        scale := Or(Prop(opts, "scale"), DefaultScale),
        margin := Or(Prop(opts, "margin"), DefaultMargin),
        displayHeaderFooter := Or(Prop(opts, "displayHeaderFooter"), Bool(false)),
        headerTemplate := Or(Prop(opts, "headerTemplate"), Str("")),
        footerTemplate := Or(Prop(opts, "footerTemplate"), Str("")),
        pageRanges := Or(Prop(opts, "pageRanges"), Str("")),
        preferCSSPageSize := Or(Prop(opts, "preferCSSPageSize"), Bool(false))))
  }

  /** The configuration written back as an options object. */
  function AsOptions(c: PdfConfig): JsValue {
    Object(map[
      "format" := c.format, "landscape" := c.landscape,
      "printBackground" := Bool(c.printBackground), "scale" := c.scale,
      "margin" := c.margin, "displayHeaderFooter" := c.displayHeaderFooter,
      "headerTemplate" := c.headerTemplate, "footerTemplate" := c.footerTemplate,
      "pageRanges" := c.pageRanges, "preferCSSPageSize" := c.preferCSSPageSize])
  }

  /**
   * Defaulting is idempotent: feeding a resolved configuration back in as
   * the caller's options resolves to the same configuration.
   */
  lemma DefaultingIdempotent(opts: JsValue, c: PdfConfig)
    requires PdfConfigOf(opts) == Done(c)
    ensures PdfConfigOf(AsOptions(c)) == Done(c)
  {
    assert Honours(opts, c);
    ReadBack(c);
    ResolvedIsFixed(Prop(opts, "format"), DefaultFormat, c.format);
    ResolvedIsFixed(Prop(opts, "landscape"), Bool(false), c.landscape);
    ResolvedIsFixed(Prop(opts, "scale"), DefaultScale, c.scale);
    ResolvedIsFixed(Prop(opts, "margin"), DefaultMargin, c.margin);
    ResolvedIsFixed(Prop(opts, "displayHeaderFooter"), Bool(false), c.displayHeaderFooter);
    ResolvedIsFixed(Prop(opts, "headerTemplate"), Str(""), c.headerTemplate);
    ResolvedIsFixed(Prop(opts, "footerTemplate"), Str(""), c.footerTemplate);
    ResolvedIsFixed(Prop(opts, "pageRanges"), Str(""), c.pageRanges);
    ResolvedIsFixed(Prop(opts, "preferCSSPageSize"), Bool(false), c.preferCSSPageSize);
  }

  /** Reading a field of the written-back options gives that field. */
  lemma ReadBack(c: PdfConfig)
    ensures var o := AsOptions(c);
      && Prop(o, "format") == c.format && Prop(o, "landscape") == c.landscape
      && Prop(o, "printBackground") == Bool(c.printBackground) && Prop(o, "scale") == c.scale
      && Prop(o, "margin") == c.margin && Prop(o, "displayHeaderFooter") == c.displayHeaderFooter
      && Prop(o, "headerTemplate") == c.headerTemplate && Prop(o, "footerTemplate") == c.footerTemplate
      && Prop(o, "pageRanges") == c.pageRanges && Prop(o, "preferCSSPageSize") == c.preferCSSPageSize
  {
  }

  /** A value already resolved against a default stays put when resolved again. */
  lemma ResolvedIsFixed(given: JsValue, default: JsValue, actual: JsValue)
    requires TakesOrDefaults(given, default, actual)
    ensures Or(actual, default) == actual
  {
  }

  /** With no options at all every field takes its default. */
  lemma EmptyOptionsGiveDefaults()
    ensures PdfConfigOf(Object(map[])) == Done(PdfConfig(
      DefaultFormat, Bool(false), true, DefaultScale, DefaultMargin,
      Bool(false), Str(""), Str(""), Str(""), Bool(false)))
  {
  }

  /** An explicit scale of 0 is falsy, so it becomes 1. */
  lemma ZeroScaleBecomesOne(opts: JsValue)
    requires opts.Object? && "scale" in opts.props && opts.props["scale"] == Num(0.0)
    ensures PdfConfigOf(opts).Done? && PdfConfigOf(opts).value.scale == Num(1.0)
  {
  }
}
