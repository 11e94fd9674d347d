/**
 * api-gateway/src/server.js: the path rewrite every proxied route shares,
 * the per-route decorators of the outgoing request's headers, and the two
 * error handlers that answer 500 unless a response has already started.
 */
module Gateway {
  import opened Wrappers
  import opened Strings
  import opened Json

  const ApiPrefix: string := "/api"
  const VersionPrefix: string := "/v1"
  const JsonType: string := "application/json"
  const MultipartType: string := "multipart/form-data"

  /**
   * `req.originalUrl.replace(/^\/v1/, "/api")`: a textual rewrite of the
   * leading `/v1` only. A matching URL keeps everything after the prefix
   * and no longer starts with `/v1`; any other URL passes through as is.
   */
  function ProxyReqPath(url: string): (r: string)
    ensures StartsWith(url, VersionPrefix) ==>
      StartsWith(r, ApiPrefix) && r[|ApiPrefix|..] == url[|VersionPrefix|..] && !StartsWith(r, VersionPrefix)
    ensures !StartsWith(url, VersionPrefix) ==> r == url
  {
    if StartsWith(url, VersionPrefix) then
      var r := ApiPrefix + url[|VersionPrefix|..];
      assert r[..|ApiPrefix|] == ApiPrefix && r[1] == 'a';
      r
    else url
  }

  /** A `/v1` URL becomes `/api` followed by the remainder, untouched, wherever else `/v1` occurs in it. */
  lemma ProxyReqPathRewrites(rest: string)
    ensures ProxyReqPath(VersionPrefix + rest) == ApiPrefix + rest
  {
    assert StartsWith(VersionPrefix + rest, VersionPrefix) by {
      assert (VersionPrefix + rest)[..|VersionPrefix|] == VersionPrefix;
    }
    assert (VersionPrefix + rest)[|VersionPrefix|..] == rest;
  }

  /** The match is textual, not by path segment: `/v10/x` is forwarded as `/api0/x`. */
  lemma ProxyReqPathIsTextual()
    ensures ProxyReqPath("/v10/x") == "/api0/x"
  {
    ProxyReqPathRewrites("0/x");
    assert VersionPrefix + "0/x" == "/v10/x";
  }

  /** A rewritten path does not start with `/v1`, so rewriting twice is rewriting once. */
  lemma ProxyReqPathIdempotent(url: string)
    ensures ProxyReqPath(ProxyReqPath(url)) == ProxyReqPath(url)
  {
  }

  /** The `user` the token middleware attaches: its `userId` claim, if any. */
  datatype Claims = Claims(userId: Option<string>)

  /** What the decorators read of the incoming request. */
  datatype SourceRequest = SourceRequest(user: Option<Claims>, contentType: Option<string>)

  /** `srcReq.user && srcReq.user.userId`: the user id to forward, when both are present and non-empty. */
  function ForwardedUser(src: SourceRequest): (r: Option<string>)
    ensures r.Some? <==> src.user.Some? && src.user.value.userId.Some? && src.user.value.userId.value != ""
    ensures r.Some? ==> r == src.user.value.userId
  {
    if src.user.Some? && src.user.value.userId.Some? && src.user.value.userId.value != "" then src.user.value.userId
    else None
  }

  /** `proxyReqOpts.headers || {}`. */
  function HeadersOrEmpty(headers: Option<map<string, string>>): (h: map<string, string>)
    ensures headers.Some? ==> h == headers.value
    ensures headers.None? ==> h == map[]
  {
    if headers.Some? then headers.value else map[]
  }

  /** The headers the auth, post and search decorators send: JSON, plus the user for the last two. */
  function JsonHeaders(headers: Option<map<string, string>>, user: Option<string>): (h: map<string, string>)
    ensures "Content-Type" in h && h["Content-Type"] == JsonType
    ensures user.Some? ==> "x-user-id" in h && h["x-user-id"] == user.value
    ensures forall k :: k in h && k != "Content-Type" && (user.None? || k != "x-user-id") ==>
              k in HeadersOrEmpty(headers) && h[k] == HeadersOrEmpty(headers)[k]
    ensures forall k :: k in HeadersOrEmpty(headers) ==> k in h
  {
    var base := HeadersOrEmpty(headers)["Content-Type" := JsonType];
    if user.Some? then base["x-user-id" := user.value] else base
  }

  /** The outgoing request's options, which each decorator updates in place. */
  class ProxyReqOpts {
    var headers: Option<map<string, string>>

    constructor (headers: Option<map<string, string>>)
      ensures this.headers == headers
    {
      this.headers := headers;
    }

    /** The auth route's decorator: create the headers if absent and force JSON; no user id is ever forwarded. */
    method DecorateAuth(src: SourceRequest)
      modifies this
      ensures headers == Some(JsonHeaders(old(headers), None))
    {
      headers := Some(HeadersOrEmpty(headers));
      headers := Some(headers.value["Content-Type" := JsonType]);
    }

    /**
     * The posts route's decorator, and the search route's, which is the same
     * code: create the headers if absent, force JSON, forward the user id.
     */
    method DecorateJson(src: SourceRequest)
      modifies this
      ensures headers == Some(JsonHeaders(old(headers), ForwardedUser(src)))
    {
      headers := Some(HeadersOrEmpty(headers));
      headers := Some(headers.value["Content-Type" := JsonType]);
      var user := ForwardedUser(src);
      if user.Some? {
        headers := Some(headers.value["x-user-id" := user.value]);
      }
    }

    /**
     * The media route's decorator: forward the user id, then force JSON
     * unless the upload is multipart. It never creates `headers`, and reads
     * the incoming content type unguarded: either absence throws a
     * TypeError, after whatever was already written stays written.
     */
    method DecorateMedia(src: SourceRequest) returns (r: Outcome<string>)
      modifies this
      ensures old(headers).None? && (ForwardedUser(src).Some? || src.contentType.None? || !StartsWith(src.contentType.value, MultipartType))
              ==> r.Fail? && headers == old(headers)
      ensures old(headers).None? && ForwardedUser(src).None? && src.contentType.Some? && StartsWith(src.contentType.value, MultipartType)
              ==> r == Pass && headers == None
      ensures old(headers).Some? && src.contentType.None? ==>
                r.Fail? && headers == Some(if ForwardedUser(src).Some? then old(headers).value["x-user-id" := ForwardedUser(src).value]
                                           else old(headers).value)
      ensures old(headers).Some? && src.contentType.Some? ==>
                r == Pass &&
                var withUser := if ForwardedUser(src).Some? then old(headers).value["x-user-id" := ForwardedUser(src).value]
                                else old(headers).value;
                headers == Some(if StartsWith(src.contentType.value, MultipartType) then withUser
                                else withUser["Content-Type" := JsonType])
    {
      var user := ForwardedUser(src);
      if user.Some? {
        if headers.None? {
          return Fail("Cannot set properties of undefined (setting 'x-user-id')");
        }
        headers := Some(headers.value["x-user-id" := user.value]);
      }
      if src.contentType.None? {
        return Fail("Cannot read properties of undefined (reading 'startsWith')");
      }
      if !StartsWith(src.contentType.value, MultipartType) {
        if headers.None? {
          return Fail("Cannot set properties of undefined (setting 'Content-Type')");
        }
        headers := Some(headers.value["Content-Type" := JsonType]);
      }
      r := Pass;
    }
  }

  /** The part of Express's response object the error handlers use. */
  class ServerResponse {
    var headersSent: bool
    var status: Option<nat>
    var body: Option<Value>

    ghost predicate Valid()
      reads this
    {
      headersSent <==> status.Some?
    }

    constructor ()
      ensures Valid() && !headersSent && body.None?
    {
      headersSent, status, body := false, None, None;
    }

    /** `res.status(code).json(value)`: the response starts, once. */
    method Send(code: nat, value: Value)
      requires Valid() && !headersSent
      modifies this
      ensures Valid() && headersSent && status == Some(code) && body == Some(value)
    {
      headersSent, status, body := true, Some(code), Some(value);
    }

    /** `proxyErrorHandler`: a 500 naming the error, unless the response already started. */
    method ProxyErrorHandler(errMessage: Option<string>)
      requires Valid()
      modifies this
      ensures Valid() && headersSent
      ensures old(headersSent) ==> status == old(status) && body == old(body)
      ensures !old(headersSent) ==>
                status == Some(500)
                && body == Some(Obj(map["message" := Str("Internal server error in proxy"),
                                        "error" := Str(if errMessage.Some? && errMessage.value != "" then errMessage.value else "Unknown error")]))
    {
      if !headersSent {
        var error := if errMessage.Some? && errMessage.value != "" then errMessage.value else "Unknown error";
        Send(500, Obj(map["message" := Str("Internal server error in proxy"), "error" := Str(error)]));
      }
    }

    /** The global error handler: the same guard; an error without a message leaves `error` out of the body. */
    method GlobalErrorHandler(errMessage: Option<string>)
      requires Valid()
      modifies this
      ensures Valid() && headersSent
      ensures old(headersSent) ==> status == old(status) && body == old(body)
      ensures !old(headersSent) ==>
                status == Some(500)
                && var fields := map["success" := Bool(false), "message" := Str("An unexpected error occurred.")];
                   body == Some(Obj(if errMessage.Some? then fields["error" := Str(errMessage.value)] else fields))
    {
      if !headersSent {
        var fields := map["success" := Bool(false), "message" := Str("An unexpected error occurred.")];
        if errMessage.Some? {
          fields := fields["error" := Str(errMessage.value)];
        }
        Send(500, Obj(fields));
      }
    }
  }
}
