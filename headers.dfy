/** The `Content-Type` header `_renderMetatile` attaches to every tile it
    returns (lib/render.js:165-182). Mapnik format names carry options, as in
    `png8:m=h` or `jpeg80`, so the choice tests for substrings. */
module Headers {
  import opened Strings

  /** A header value fixed by the backend, or the result of looking up the
      given extension in the `mime` type table, which is not part of this model. */
  datatype ContentType = Known(mime: string) | Lookup(extension: string)

  /** The header for a tile format. */
  function ContentTypeFor(format: string): ContentType {
    if format == "utf" then Known("application/json")
    else if Contains(format, "png") then Known("image/png")
    else if Contains(format, "jpeg") || Contains(format, "jpg") then Known("image/jpeg")
    else Lookup(Before(format, ':'))
  }

  /** Each header arises from exactly one case: `utf` gives JSON; any other
      format naming `png` gives PNG, even when it also names `jpeg`; a format
      naming `jpeg` or `jpg` but not `png` gives JPEG; any other format is looked
      up by the part before its first `:`. */
  lemma ContentTypeCases(format: string)
    ensures ContentTypeFor(format) == Known("application/json") <==> format == "utf"
    ensures ContentTypeFor(format) == Known("image/png") <==> format != "utf" && Contains(format, "png")
    ensures ContentTypeFor(format) == Known("image/jpeg") <==>
              format != "utf" && !Contains(format, "png") && (Contains(format, "jpeg") || Contains(format, "jpg"))
    ensures ContentTypeFor(format).Lookup? <==>
              format != "utf" && !Contains(format, "png") && !Contains(format, "jpeg") && !Contains(format, "jpg")
    ensures ContentTypeFor(format).Lookup? ==>
              var e := ContentTypeFor(format).extension;
              e <= format && ':' !in e && (|e| < |format| ==> format[|e|] == ':')
  {
  }

  /** A format that begins with `pat` contains it. */
  lemma ContainsPrefix(format: string, pat: string)
    requires pat <= format
    ensures Contains(format, pat)
  {
    assert OccursAt(format, pat, 0);
  }

  /** `png8:m=h` is served as PNG: its options do not reach the header. */
  lemma PngWithOptions()
    ensures ContentTypeFor("png8:m=h") == Known("image/png")
  {
    ContainsPrefix("png8:m=h", "png");
  }

  /** `png32` is served as PNG. */
  lemma Png32()
    ensures ContentTypeFor("png32") == Known("image/png")
  {
    ContainsPrefix("png32", "png");
  }

  /** `utf` grids are served as JSON. */
  lemma UtfIsJson()
    ensures ContentTypeFor("utf") == Known("application/json")
  {
  }

  /** `jpeg80` (a quality suffix) is served as JPEG. */
  lemma JpegQuality()
    ensures ContentTypeFor("jpeg80") == Known("image/jpeg")
  {
    ContainsPrefix("jpeg80", "jpeg");
    MissingChar("jpeg80", "png", 'n');
  }

  /** `jpeg:quality=20` (test/render.test.js) is served as JPEG. */
  lemma JpegWithOptions()
    ensures ContentTypeFor("jpeg:quality=20") == Known("image/jpeg")
  {
    ContainsPrefix("jpeg:quality=20", "jpeg");
    MissingChar("jpeg:quality=20", "png", 'n');
  }

  /** `webp:quality=80` is looked up as `webp`. */
  lemma OtherFormatLookup()
    ensures ContentTypeFor("webp:quality=80") == Lookup("webp")
  {
    MissingChar("webp:quality=80", "png", 'n');
    MissingChar("webp:quality=80", "jpeg", 'j');
    MissingChar("webp:quality=80", "jpg", 'j');
    WebpExtension();
  }

  lemma WebpExtension()
    ensures Before("webp:quality=80", ':') == "webp"
  {
    BeforeAt("webp:quality=80", ':', 4);
  }
}
