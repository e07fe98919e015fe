/**
 * The upload request and the location reported back to the caller
 * (index.js lines 160-178): the object-metadata header built from the
 * caller's metadata block, and the `s3://bucket/key` location string.
 */
module Upload {
  import opened Outcomes
  import opened JsValues

  /**
   * The argument record of the storage put. Bucket and key are passed on as
   * the caller gave them; the storage client is not modelled.
   */
  datatype PutObject = PutObject(
    bucket: JsValue,
    key: JsValue,
    body: Bytes,
    contentType: string,
    metadata: map<string, string>)

  const PdfContentType := "application/pdf"

  /** `String(v || '')`: it throws only on a truthy value that cannot be converted. */
  function TextOrEmpty(v: JsValue, numberText: real -> string): (r: Attempt<string>)
    ensures IsFalsyValue(v) ==> r == Done("")
    ensures Truthy(v) ==> r == ToString(v, numberText)
    ensures v.Str? ==> r == Done(v.s)
    ensures r.Done? <==> Convertible(v)
  {
    ToString(Or(v, Str("")), numberText)
  }

  /**
   * The object-metadata header: empty when the caller sent no metadata
   * block; otherwise exactly the two keys `title` and `author`, each the
   * caller's value as a string, or '' when that value is falsy. The title is
   * converted first, so its error is the one thrown when both fail.
   */
  function UploadMetadata(metadata: JsValue, numberText: real -> string): (r: Attempt<map<string, string>>)
    ensures IsFalsyValue(metadata) ==> r == Done(map[])
    ensures !IsFalsyValue(metadata) ==>
              (r.Done? <==> Convertible(Prop(metadata, "title")) && Convertible(Prop(metadata, "author")))
    ensures r.Threw? ==> r.message == NotPrimitiveMessage
    ensures !IsFalsyValue(metadata) && r.Done? ==> r.value.Keys == {"title", "author"}
    ensures !IsFalsyValue(metadata) && r.Done? && IsFalsyValue(Prop(metadata, "title")) ==> r.value["title"] == ""
    ensures !IsFalsyValue(metadata) && r.Done? && IsFalsyValue(Prop(metadata, "author")) ==> r.value["author"] == ""
    ensures !IsFalsyValue(metadata) && Prop(metadata, "title").Str? && r.Done? ==> r.value["title"] == Prop(metadata, "title").s
    ensures !IsFalsyValue(metadata) && Prop(metadata, "author").Str? && r.Done? ==> r.value["author"] == Prop(metadata, "author").s
    ensures !IsFalsyValue(metadata) && Truthy(Prop(metadata, "title")) && r.Done?
            ==> Done(r.value["title"]) == ToString(Prop(metadata, "title"), numberText)
    ensures !IsFalsyValue(metadata) && Truthy(Prop(metadata, "author")) && r.Done?
            ==> Done(r.value["author"]) == ToString(Prop(metadata, "author"), numberText)
  {
    if Truthy(metadata) then
      var title := TextOrEmpty(Prop(metadata, "title"), numberText);
      if title.Threw? then Threw(title.message)
      else
        var author := TextOrEmpty(Prop(metadata, "author"), numberText);
        if author.Threw? then Threw(author.message)
        else Done(map["title" := title.value, "author" := author.value])
    else Done(map[])
  }

  const Scheme := "s3://"

  /**
   * The template literal `s3://${bucketName}/${fileName}`: it throws exactly
   * when the bucket or the key cannot be converted to a string.
   */
  function Location(bucket: JsValue, key: JsValue, numberText: real -> string): (r: Attempt<string>)
    ensures r.Done? <==> Convertible(bucket) && Convertible(key)
    ensures r.Threw? ==> r.message == NotPrimitiveMessage
    ensures r.Done? ==> |r.value| >= |Scheme| + 1 && r.value[..|Scheme|] == Scheme
  {
    var b := ToString(bucket, numberText);
    if b.Threw? then Threw(b.message)
    else
      var k := ToString(key, numberText);
      if k.Threw? then Threw(k.message)
      else Done(Scheme + b.value + "/" + k.value)
  }

  /** The first position of `c` in `s`, if any. */
  function IndexOf(s: string, c: char): (r: Option<nat>)
    ensures r.Some? ==> r.value < |s| && s[r.value] == c && c !in s[..r.value]
    ensures r.None? ==> c !in s
  {
    if s == [] then None
    else if s[0] == c then Some(0)
    else match IndexOf(s[1..], c)
      case None => None
      case Some(k) => Some(k + 1)
  }

  /**
   * Reading a location back into its bucket and key: the bucket runs up to
   * the first '/' after the scheme, the key is everything after it.
   */
  function ParseLocation(loc: string): Option<(string, string)> {
    if |loc| < |Scheme| || loc[..|Scheme|] != Scheme then None
    else
      var rest := loc[|Scheme|..];
      match IndexOf(rest, '/')
      case None => None
      case Some(k) => Some((rest[..k], rest[k + 1..]))
  }

  /** A location built from a bucket text without '/' parses back into its two parts. */
  lemma ParsesBack(b: string, k: string)
    requires '/' !in b
    ensures ParseLocation(Scheme + b + "/" + k) == Some((b, k))
  {
    var loc := Scheme + b + "/" + k;
    var rest := b + "/" + k;
    assert loc[..|Scheme|] == Scheme && loc[|Scheme|..] == rest;
    assert rest[|b|] == '/';
    var i := IndexOf(rest, '/');
    assert i.Some? && i.value == |b|;
    assert rest[..|b|] == b && rest[|b| + 1..] == k;
  }

  /**
   * The reported location names the stored object: bucket and key can be
   * read back from it, as long as the bucket's text holds no '/' (which
   * bucket names never do). The key may hold any characters.
   */
  lemma LocationNamesObject(bucket: JsValue, key: JsValue, numberText: real -> string)
    requires Convertible(bucket) && Convertible(key)
    requires '/' !in ToString(bucket, numberText).value
    ensures ParseLocation(Location(bucket, key, numberText).value)
            == Some((ToString(bucket, numberText).value, ToString(key, numberText).value))
  {
    ParsesBack(ToString(bucket, numberText).value, ToString(key, numberText).value);
  }
}
