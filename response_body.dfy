/**
 * The response-body rewrite both versions of the proxy run when a modifier
 * is registered for the request URL, and the vocabulary of events a proxy
 * response handler produces on the client's response.
 */
module ResponseBody {
  import opened Common

  type Bytes = seq<byte>

  /** A registered response modifier: a function on the body text. */
  type Modifier = string -> string

  /**
   * The conversions the rewrite calls and the model does not define: zlib's
   * `gzipSync` and `gunzipSync` (the latter throws on bytes that are not gzip
   * data, `None` here), a Buffer's `toString()` and `Buffer.from(string)`.
   */
  datatype Codec = Codec(
    gzip: Bytes -> Bytes,
    gunzip: Bytes -> Option<Bytes>,
    decode: Bytes -> string,
    encode: string -> Bytes)

  /** Decompressing what was compressed gives it back. */
  ghost predicate GzipRoundTrips(c: Codec) {
    forall b :: c.gunzip(c.gzip(b)) == Some(b)
  }

  /** Decoding the bytes of a string gives the string back. */
  ghost predicate TextRoundTrips(c: Codec) {
    forall t :: c.decode(c.encode(t)) == t
  }

  /** The upstream response as the proxy sees it. */
  datatype Upstream = Upstream(status: int, contentEncoding: Option<string>, body: Bytes)

  /** `proxyRes.headers["content-encoding"] === "gzip"`. */
  predicate IsGzip(contentEncoding: Option<string>) {
    contentEncoding == Some("gzip")
  }

  /**
   * The outcome of the end handler's rewrite: the bytes passed to `res.end`
   * and whether the "made no changes" warning is logged, or the exception
   * `gunzipSync` throws.
   */
  datatype Rewrite = Rewritten(body: Bytes, unchangedWarning: bool) | GunzipThrew

  /** The text a client reads from a body with the given content-encoding. */
  function ReadText(body: Bytes, contentEncoding: Option<string>, c: Codec): Option<string> {
    if IsGzip(contentEncoding) then
      match c.gunzip(body)
      case None => None
      case Some(plain) => Some(c.decode(plain))
    else Some(c.decode(body))
  }

  /**
   * The end handler's rewrite: gunzip when the upstream body is gzip, apply
   * the modifier to the body text, gzip again when the upstream body was gzip.
   * Read back the way a client reads it, the delivered body is the modifier's
   * output on the upstream text; the warning is logged exactly when the
   * modifier returned its input.
   */
  function RewriteBody(body: Bytes, contentEncoding: Option<string>, m: Modifier, c: Codec): (r: Rewrite)
    ensures r.GunzipThrew? <==> ReadText(body, contentEncoding, c).None?
    ensures r.Rewritten? && GzipRoundTrips(c) && TextRoundTrips(c) ==>
              ReadText(r.body, contentEncoding, c) == Some(m(ReadText(body, contentEncoding, c).value))
    ensures r.Rewritten? && TextRoundTrips(c) ==>
              (r.unchangedWarning <==> m(ReadText(body, contentEncoding, c).value) == ReadText(body, contentEncoding, c).value)
  {
    var compressed := IsGzip(contentEncoding);
    var plain := if compressed then c.gunzip(body) else Some(body);
    match plain
    case None => GunzipThrew
    case Some(p) =>
      var text := c.decode(p);
      var out := c.encode(m(text));
      Rewritten(if compressed then c.gzip(out) else out, c.decode(out) == text)
  }

  /** What a response handler does to the client's response, in order. */
  datatype ResAction =
    | WriteHead(status: int)        // res.writeHead(status, upstream headers)
    | SetStatus(status: int)        // res.statusCode = status
    | EndText(text: string)         // res.end(text)
    | PipeUpstream                  // proxyRes.pipe(res, {end: true})
    | EndRewritten(rewrite: Rewrite) // res.end(rewritten body), or the gunzip exception

  /** The reply a blocked request gets: status 503 and the body "Blocked". */
  const BlockedReply: seq<ResAction> := [SetStatus(503), EndText("Blocked")]
}
