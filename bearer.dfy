/**
 * `BearerAuth::authorize`: a request passes when its path is public, or when its
 * `Authorization` header is exactly `Bearer ` followed by the API token.
 */
module Bearer {
  import opened Wrappers
  import opened Bytes

  /** `HeaderValue::to_str` succeeds when every byte is visible ASCII or a tab. */
  predicate IsVisibleAscii(b: byte) {
    (32 <= b < 127) || b == 9
  }

  predicate VisibleHeader(h: seq<byte>) {
    forall i :: 0 <= i < |h| ==> IsVisibleAscii(h[i])
  }

  /** The bytes of `"Bearer "`. */
  const BearerPrefix: seq<byte> := [66, 101, 97, 114, 101, 114, 32]

  lemma BearerPrefixIsAscii()
    ensures BearerPrefix == AsciiBytes("Bearer ")
  {
  }

  /** `constant_time_eq`: equal lengths and equal bytes. */
  predicate ConstantTimeEq(a: seq<byte>, b: seq<byte>) {
    |a| == |b| && forall i :: 0 <= i < |a| ==> a[i] == b[i]
  }

  /** The closure over the `Authorization` header. */
  predicate HeaderAuthorizes(header: seq<byte>, apiToken: seq<byte>) {
    if !VisibleHeader(header) then false
    else if !(|header| >= 7 && header[..7] == BearerPrefix) then false
    else ConstantTimeEq(header[7..], apiToken)
  }

  datatype Decision = Authorized | Unauthorized

  /**
   * `authorize`: `isPublic` is the `RegexSet` of public paths, `authorization`
   * the request's `Authorization` header, if any. The request itself is only read.
   */
  function Authorize(isPublic: string -> bool, path: string, authorization: Option<seq<byte>>, apiToken: seq<byte>)
    : (d: Decision)
    ensures isPublic(path) ==> d == Authorized
    ensures !isPublic(path) && authorization.None? ==> d == Unauthorized
    ensures !isPublic(path) && authorization.Some? && !VisibleHeader(authorization.value) ==> d == Unauthorized
  {
    if !isPublic(path) && !(authorization.Some? && HeaderAuthorizes(authorization.value, apiToken)) then Unauthorized
    else Authorized
  }

  /** The reference rule: public, or the header is exactly `"Bearer " ++ token` and is visible ASCII. */
  lemma {:induction false} AuthorizeIffBearerToken(isPublic: string -> bool, path: string, authorization: Option<seq<byte>>, apiToken: seq<byte>)
    ensures Authorize(isPublic, path, authorization, apiToken) == Authorized
        <==> isPublic(path)
             || (authorization.Some? && VisibleHeader(authorization.value)
                 && authorization.value == BearerPrefix + apiToken)
  {
    if authorization.Some? {
      var h := authorization.value;
      if |h| >= 7 && h[..7] == BearerPrefix && ConstantTimeEq(h[7..], apiToken) {
        assert h[7..] == apiToken;
        assert h == h[..7] + h[7..];
      }
      if h == BearerPrefix + apiToken {
        assert h[..7] == BearerPrefix;
        assert h[7..] == apiToken;
      }
    }
  }

  /** The prefix check is exact: a differently cased scheme or a doubled space is refused. */
  lemma PrefixIsCaseAndSpaceSensitive(apiToken: seq<byte>, isPublic: string -> bool, path: string)
    requires !isPublic(path)
    ensures Authorize(isPublic, path, Some(AsciiBytes("bearer ") + apiToken), apiToken) == Unauthorized
    ensures Authorize(isPublic, path, Some(AsciiBytes("Bearer  ") + apiToken), apiToken) == Unauthorized
  {
    var lower := AsciiBytes("bearer ") + apiToken;
    assert lower[0] == 98;
    var doubled := AsciiBytes("Bearer  ") + apiToken;
    assert |doubled[7..]| == |apiToken| + 1;
  }
}
