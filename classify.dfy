/**
 * Request classification: the `formRequest` check of index.js.
 *
 * The check is a case-sensitive substring search for "multipart/form-data"
 * anywhere in the `content-type` header, written in the source as
 * `~contentType.indexOf(...)`. It is modelled with JavaScript's `indexOf`
 * and bitwise `~` spelled out, and its contract relates that computation
 * to a declarative notion of "occurs as a substring".
 */
module Classify {

  const ContentTypeHeader := "content-type"
  const MultipartFormData := "multipart/form-data"

  /** `pat` occurs in `s` starting at position `i`. */
  predicate OccursAt(s: string, pat: string, i: int) {
    0 <= i && i + |pat| <= |s| && s[i..i + |pat|] == pat
  }

  /** `pat` occurs somewhere in `s`. */
  ghost predicate Contains(s: string, pat: string) {
    exists i :: OccursAt(s, pat, i)
  }

  /**
   * JavaScript's `s.indexOf(pat, from)` for `from <= |s|`: the first
   * position at or after `from` where `pat` occurs, or -1 when there is
   * none. (JavaScript clamps a larger `from` to `|s|`; `IndexOf` only
   * starts at 0.)
   */
  function IndexFrom(s: string, pat: string, from: nat): (r: int)
    decreases |s| - from
    ensures r == -1 || (from <= r && OccursAt(s, pat, r))
    ensures r == -1 ==> forall j :: from <= j ==> !OccursAt(s, pat, j)
    ensures r != -1 ==> forall j :: from <= j < r ==> !OccursAt(s, pat, j)
  {
    if from + |pat| > |s| then -1
    else if s[from..from + |pat|] == pat then from
    else IndexFrom(s, pat, from + 1)
  }

  /** JavaScript's `s.indexOf(pat)`. */
  function IndexOf(s: string, pat: string): (r: int)
    ensures r == -1 <==> !Contains(s, pat)
    ensures r != -1 ==> OccursAt(s, pat, r) && forall j :: 0 <= j < r ==> !OccursAt(s, pat, j)
  {
    IndexFrom(s, pat, 0)
  }

  /**
   * JavaScript's bitwise `~` on a value that fits in 32 bits (every result
   * of `indexOf` does): two's-complement negation minus one. Only -1 maps
   * to 0, the one falsy number.
   */
  function BitwiseNot(x: int): (r: int)
    ensures r == 0 <==> x == -1
  {
    -x - 1
  }

  /**
   * `formRequest(req)`: `headers` is the request's header table,
   * `requestMethod` its method and `hasBody` whether `req.body` is defined.
   * A missing or empty `content-type` header is falsy and rejects the
   * request before anything else is looked at.
   */
  function IsFormRequest(headers: map<string, string>, requestMethod: string, hasBody: bool): (r: bool)
    ensures r <==>
      && ContentTypeHeader in headers
      && headers[ContentTypeHeader] != ""
      && !hasBody
      && (requestMethod == "POST" || requestMethod == "PUT")
      && Contains(headers[ContentTypeHeader], MultipartFormData)
  {
    if ContentTypeHeader !in headers || headers[ContentTypeHeader] == "" then false
    else
      var contentType := headers[ContentTypeHeader];
      !hasBody
      && (requestMethod == "POST" || requestMethod == "PUT")
      && BitwiseNot(IndexOf(contentType, MultipartFormData)) != 0
  }

  /** A request without a `content-type` header, or with an empty one, is never intercepted. */
  lemma NoContentTypeNotForm(headers: map<string, string>, requestMethod: string, hasBody: bool)
    requires ContentTypeHeader !in headers || headers[ContentTypeHeader] == ""
    ensures !IsFormRequest(headers, requestMethod, hasBody)
  {
  }

  /** The usual header, with a boundary parameter after the media type, is accepted. */
  lemma BoundaryParameterAccepted()
    ensures IsFormRequest(map[ContentTypeHeader := "multipart/form-data; boundary=X"], "POST", false)
  {
    assert OccursAt("multipart/form-data; boundary=X", MultipartFormData, 0);
  }

  /**
   * The match is a substring search, not a media-type parse: the text may
   * stand anywhere in the header, even inside another type's parameter.
   */
  lemma SubstringAnywhereAccepted()
    ensures IsFormRequest(map[ContentTypeHeader := "text/plain; x=multipart/form-data"], "PUT", false)
  {
    assert OccursAt("text/plain; x=multipart/form-data", MultipartFormData, 14);
  }

  /** The match is case-sensitive: a media type in other letter case is passed through. */
  lemma OtherCaseRejected()
    ensures !IsFormRequest(map[ContentTypeHeader := "Multipart/Form-Data"], "POST", false)
  {
    var s := "Multipart/Form-Data";
    assert s[0] != MultipartFormData[0];
    assert !OccursAt(s, MultipartFormData, 0);
  }
}
