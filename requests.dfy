/** `Request` and its builder (lemon/.../core/request/Request.kt), and
    `Response`, its builder and `ResponseBody` (core/.../request/Response.kt,
    core/.../request/body/ResponseBody.kt). */
module Requests {
  import opened Wrappers
  import opened Text
  import opened MediaTypes
  import opened HeaderMaps
  import opened Bodies
  import opened HttpMethods
  import opened Urls

  // -----------------------------------------------------------------------
  // Request

  /** A request. The service class and the method it came from are kept by
      their names; the body is shared by reference, as in the source. */
  datatype Request = Request(
    originService: string,
    originMethod: string,
    url: string,
    httpMethod: HttpMethod,
    headers: Headers,
    body: Option<RequestBody>)
  {
    /** `hasBody()`: asked of the HTTP method, not of the body field. */
    function HasBody(): (r: bool)
      ensures r <==> httpMethod in {POST, PUT, PATCH}
    {
      HttpMethods.HasBody(httpMethod)
    }
  }

  /** A request whose headers are what `Headers.Builder.build()` makes of
      their own entries: every request the library creates is one. */
  predicate WellFormed(r: Request) {
    DistinctKeys(r.headers.entries) && BuildHeaders(r.headers.entries) == Ok(r.headers)
  }

  /** What `Request.Builder.build()` returns for the builder's fields. */
  function BuildRequest(originService: string, originMethod: string, url: string,
                        httpMethod: HttpMethod, entries: seq<Entry>,
                        body: Option<RequestBody>): (r: Result<Request>)
    ensures r.Ok? <==> BuildHeaders(entries).Ok?
    ensures r.Ok? ==> r.value.url == url && r.value.httpMethod == httpMethod
                      && r.value.headers.entries == entries && r.value.body == body
  {
    var h :- BuildHeaders(entries);
    Ok(Request(originService, originMethod, url, httpMethod, h, body))
  }

  /** `newBuilder().build()` gives back the request it started from. */
  lemma RequestRoundTrip(r: Request)
    requires WellFormed(r)
    ensures BuildRequest(r.originService, r.originMethod, r.url, r.httpMethod,
                         r.headers.entries, r.body) == Ok(r)
  {
  }

  /** A built request is well formed when its entries are distinct. */
  lemma BuiltIsWellFormed(originService: string, originMethod: string, url: string,
                          httpMethod: HttpMethod, entries: seq<Entry>,
                          body: Option<RequestBody>)
    requires DistinctKeys(entries)
    requires BuildRequest(originService, originMethod, url, httpMethod, entries, body).Ok?
    ensures WellFormed(BuildRequest(originService, originMethod, url, httpMethod, entries, body).value)
  {
  }

  const UrlMessage := "url must be HTTP or HTTPS!"

  function MethodMessage(m: HttpMethod): string {
    "Method: " + Name(m) + " must have a RuquestBody!"
  }

  /** `Request.Builder`. */
  class RequestBuilder {
    const originService: string
    const originMethod: string
    var url: string
    var httpMethod: HttpMethod
    const headers: HeadersBuilder
    var body: Option<RequestBody>

    ghost predicate Valid()
      reads this, headers
    {
      headers.Valid()
    }

    constructor(originService: string, originMethod: string, url: string,
                httpMethod: HttpMethod, headers: HeadersBuilder, body: Option<RequestBody>)
      ensures this.originService == originService && this.originMethod == originMethod
      ensures this.url == url && this.httpMethod == httpMethod
      ensures this.headers == headers && this.body == body
    {
      this.originService := originService;
      this.originMethod := originMethod;
      this.url := url;
      this.httpMethod := httpMethod;
      this.headers := headers;
      this.body := body;
    }

    /** `url(url)`: refuses a text that is not an HTTP URL, keeping the old
        one. */
    method Url(u: string) returns (r: Outcome)
      modifies this
      ensures IsHttpProtocol(u) ==> r == Done && url == u
      ensures !IsHttpProtocol(u) ==> r == Fail(IllegalArgument(UrlMessage)) && url == old(url)
      ensures httpMethod == old(httpMethod) && body == old(body)
    {
      if !IsHttpProtocol(u) {
        return Fail(IllegalArgument(UrlMessage));
      }
      url := u;
      r := Done;
    }

    /** `setHeader(key, value)`. */
    method SetHeader(key: string, value: string)
      requires Valid()
      modifies headers
      ensures Valid()
      ensures headers.entries == SetValues(old(headers.entries), key, [value])
    {
      headers.Set(key, value);
    }

    /** `addHeader(key, value)`. */
    method AddHeader(key: string, value: string)
      requires Valid()
      modifies headers
      ensures Valid()
      ensures headers.entries == AddValues(old(headers.entries), key, [value])
    {
      headers.Add(key, value);
    }

    /** `removeHeader(key)`. */
    method RemoveHeader(key: string)
      requires Valid()
      modifies headers
      ensures Valid()
      ensures headers.entries == RemoveKey(old(headers.entries), key)
    {
      headers.Remove(key);
    }

    /** `method(httpMethod, body)`: the verb is stored before the body test, so
        it stays changed when the call throws; a given body replaces the
        current one. */
    method Method(m: HttpMethod, b: Option<RequestBody>) returns (r: Outcome)
      modifies this
      ensures httpMethod == m && url == old(url)
      ensures r.Fail? <==> b.None? && HttpMethods.HasBody(m)
      ensures r.Fail? ==> r == Fail(IllegalArgument(MethodMessage(m)))
      ensures body == (if b.Some? then b else old(body))
    {
      httpMethod := m;
      if b.None? && HttpMethods.HasBody(m) {
        return Fail(IllegalArgument(MethodMessage(m)));
      }
      if b.Some? {
        SetBody(b);
      }
      r := Done;
    }

    /** `setBody(body)`. */
    method SetBody(b: Option<RequestBody>)
      modifies this
      ensures body == b && url == old(url) && httpMethod == old(httpMethod)
    {
      body := b;
    }

    /** `build()`. */
    method Build() returns (r: Result<Request>)
      ensures r == BuildRequest(originService, originMethod, url, httpMethod, headers.entries, body)
    {
      var h := headers.Build();
      if h.Err? {
        return Err(h.failure);
      }
      r := Ok(Request(originService, originMethod, url, httpMethod, h.value, body));
    }
  }

  /** `Request.newBuilder()`: the same fields and a copy of the headers. */
  method NewRequestBuilder(r: Request) returns (b: RequestBuilder)
    requires WellFormed(r)
    ensures fresh(b) && fresh(b.headers) && b.Valid()
    ensures b.originService == r.originService && b.originMethod == r.originMethod
    ensures b.url == r.url && b.httpMethod == r.httpMethod && b.body == r.body
    ensures b.headers.entries == r.headers.entries
  {
    var hb := NewBuilder(r.headers);
    b := new RequestBuilder(r.originService, r.originMethod, r.url, r.httpMethod, hb, r.body);
  }

  // -----------------------------------------------------------------------
  // ResponseBody

  /** A response body: its content type, its bytes and the length it
      reports (the abstract class reports -1; `create` reports the size). */
  datatype ResponseBody = ResponseBody(contentType: Option<ContentType>, bytes: seq<byte>, length: int)

  /** `ResponseBody.create(content, contentType)`. */
  function CreateResponseBody(content: seq<byte>, contentType: Option<ContentType>): (r: ResponseBody)
    ensures r.bytes == content && r.contentType == contentType
    ensures r.length == |content|
  {
    ResponseBody(contentType, content, |content|)
  }

  /** `ResponseBody.EMPTY_BODY`. */
  const EmptyResponseBody := CreateResponseBody([], None)

  // -----------------------------------------------------------------------
  // Response

  const TransferEncodingChunked := "chunked"

  datatype Response = Response(request: Request, code: int, headers: Headers, body: ResponseBody) {

    /** `isSuccess()`: the code lies in 200..299. */
    predicate IsSuccess() {
      200 <= code <= 299
    }

    /** `getHeader(key)`: `headers.getFirst(key)`. */
    function GetHeader(key: string): (r: Result<Option<string>>)
      ensures r == Ok(None) <==> headers.Get(key).None?
      ensures r.Ok? && r.value.Some? ==>
        headers.Get(key).Some? && headers.Get(key).value != [] && r.value.value == headers.Get(key).value[0]
    {
      headers.GetFirst(key)
    }

    /** `hasBodyData()`: a positive length, or a Transfer-Encoding whose
        first value is `chunked` ignoring case. The header is only read when
        the length is not positive; its `first()` throws on an empty list. */
    function HasBodyData(): (r: Result<bool>)
      ensures body.length > 0 ==> r == Ok(true)
      ensures r.Err? ==> body.length <= 0 && headers.Get(TransferEncodingKey) == Some([])
    {
      PositiveOrFirstIsIff(body.length, headers, TransferEncodingKey, TransferEncodingChunked);
      PositiveOrFirstIs(body.length, headers, TransferEncodingKey, TransferEncodingChunked)
    }
  }

  /** A positive length, or else a first value of `key` equal to `word`
      ignoring case; `first()` throws on an empty value list. */
  function PositiveOrFirstIs(length: int, h: Headers, key: string, word: string): (r: Result<bool>)
  {
    if length > 0 then Ok(true)
    else
      var first :- h.GetFirst(key);
      Ok(first.Some? && EqualsIgnoreCase(word, first.value))
  }

  lemma PositiveOrFirstIsIff(length: int, h: Headers, key: string, word: string)
    ensures PositiveOrFirstIs(length, h, key, word) == Ok(true) <==>
      length > 0 || (h.Get(key).Some? && h.Get(key).value != [] && EqualsIgnoreCase(word, h.Get(key).value[0]))
    ensures PositiveOrFirstIs(length, h, key, word).Err? <==> length <= 0 && h.Get(key) == Some([])
    ensures PositiveOrFirstIs(length, h, key, word).Err? ==> PositiveOrFirstIs(length, h, key, word) == Err(NoSuchElement)
  {
    if length <= 0 {
      FirstValueIs(h, key, word);
    }
  }

  /** `hasBodyData()` in terms of the header map: true exactly when the body
      reports a positive length or the first Transfer-Encoding value is
      `chunked`; it throws only for an empty Transfer-Encoding list behind a
      non-positive length. */
  lemma HasBodyDataIff(resp: Response)
    ensures resp.HasBodyData() == Ok(true) <==>
      resp.body.length > 0
      || (var te := resp.headers.Get(TransferEncodingKey);
          te.Some? && te.value != [] && EqualsIgnoreCase(TransferEncodingChunked, te.value[0]))
    ensures resp.HasBodyData().Err? <==>
      resp.body.length <= 0 && resp.headers.Get(TransferEncodingKey) == Some([])
    ensures resp.HasBodyData().Err? ==> resp.HasBodyData() == Err(NoSuchElement)
  {
    PositiveOrFirstIsIff(resp.body.length, resp.headers, TransferEncodingKey, TransferEncodingChunked);
  }

  /** Testing the first value of a header against a word, ignoring case:
      `first()` throws exactly when the header has an empty value list. */
  lemma FirstValueIs(h: Headers, key: string, word: string)
    ensures var g := h.GetFirst(key);
      (g.Ok? && g.value.Some? && EqualsIgnoreCase(word, g.value.value)) <==>
        (h.Get(key).Some? && h.Get(key).value != [] && EqualsIgnoreCase(word, h.Get(key).value[0]))
    ensures h.GetFirst(key).Err? <==> h.Get(key) == Some([])
    ensures h.GetFirst(key).Err? ==> h.GetFirst(key) == Err(NoSuchElement)
  {
  }

  /** An empty body without the chunked encoding has no data. */
  lemma EmptyBodyHasNoData(request: Request, code: int, headers: Headers)
    requires headers.Get(TransferEncodingKey).None?
    ensures Response(request, code, headers, EmptyResponseBody).HasBodyData() == Ok(false)
  {
  }

  function CodeMessage(code: int): string {
    "Response builder error: code < 0 (code:" + DecimalString(code) + ") !"
  }

  /** What `Response.Builder.build()` returns for the builder's fields. */
  function BuildResponse(request: Request, code: int, headers: Headers,
                         body: Option<ResponseBody>): Result<Response>
  {
    if code < 0 then Err(IllegalArgument(CodeMessage(code)))
    else Ok(Response(request, code, headers, if body.Some? then body.value else EmptyResponseBody))
  }

  /** `build()` throws exactly for a negative code; a missing body becomes
      EMPTY_BODY and a given one is kept; the other fields are passed on. */
  lemma BuildResponseSpec(request: Request, code: int, headers: Headers, body: Option<ResponseBody>)
    ensures BuildResponse(request, code, headers, body).Err? <==> code < 0
    ensures code < 0 ==> BuildResponse(request, code, headers, body) == Err(IllegalArgument(CodeMessage(code)))
    ensures code >= 0 ==>
      var r := BuildResponse(request, code, headers, body).value;
      r.request == request && r.code == code && r.headers == headers
      && (body.None? ==> r.body == EmptyResponseBody && r.body.length == 0)
      && (body.Some? ==> r.body == body.value)
  {
  }

  /** `newBuilder().build()` gives back a response with a non-negative
      code. */
  lemma ResponseRoundTrip(resp: Response)
    requires resp.code >= 0
    ensures BuildResponse(resp.request, resp.code, resp.headers, Some(resp.body)) == Ok(resp)
  {
  }

  /** A response the builder returns is a success exactly when the code it
      was given lies in 200..299; an error code never builds a success, and a
      code the builder refuses builds nothing. */
  lemma BuiltSuccessIff(request: Request, code: int, headers: Headers, body: Option<ResponseBody>)
    ensures BuildResponse(request, code, headers, body).Ok? && BuildResponse(request, code, headers, body).value.IsSuccess()
      <==> 200 <= code < 300
  {
    BuildResponseSpec(request, code, headers, body);
  }

  /** The message printed for a negative code carries the code with its
      sign. */
  lemma CodeMessageShowsSign(code: int)
    requires code < 0
    ensures CodeMessage(code)[|"Response builder error: code < 0 (code:"|] == '-'
  {
    var p := "Response builder error: code < 0 (code:";
    assert CodeMessage(code) == p + (DecimalString(code) + ") !");
  }

  /** `Response.Builder`. */
  class ResponseBuilder {
    var request: Request
    var code: int
    var headers: Headers
    var body: Option<ResponseBody>

    constructor(request: Request, code: int, headers: Headers, body: Option<ResponseBody>)
      ensures this.request == request && this.code == code
      ensures this.headers == headers && this.body == body
    {
      this.request := request;
      this.code := code;
      this.headers := headers;
      this.body := body;
    }

    method SetRequest(r: Request)
      modifies this
      ensures request == r && code == old(code) && headers == old(headers) && body == old(body)
    {
      request := r;
    }

    method SetCode(c: int)
      modifies this
      ensures code == c && request == old(request) && headers == old(headers) && body == old(body)
    {
      code := c;
    }

    method SetHeaders(h: Headers)
      modifies this
      ensures headers == h && request == old(request) && code == old(code) && body == old(body)
    {
      headers := h;
    }

    method SetBody(b: ResponseBody)
      modifies this
      ensures body == Some(b) && request == old(request) && code == old(code) && headers == old(headers)
    {
      body := Some(b);
    }

    /** `build()`. */
    method Build() returns (r: Result<Response>)
      ensures r == BuildResponse(request, code, headers, body)
    {
      if code < 0 {
        return Err(IllegalArgument(CodeMessage(code)));
      }
      var finalBody := if body.Some? then body.value else EmptyResponseBody;
      r := Ok(Response(request, code, headers, finalBody));
    }
  }

  /** `Response.newBuilder()`. */
  method NewResponseBuilder(resp: Response) returns (b: ResponseBuilder)
    ensures fresh(b)
    ensures b.request == resp.request && b.code == resp.code
    ensures b.headers == resp.headers && b.body == Some(resp.body)
  {
    b := new ResponseBuilder(resp.request, resp.code, resp.headers, Some(resp.body));
  }
}
