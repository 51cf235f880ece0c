/** `HttpClient.addDefaultHeaders` (lemon/.../core/client/HttpClient.kt):
    the headers every request gets before the transport sends it. The
    User-Agent text and the `host:port` that `java.net.URL` reads from the
    request URL are inputs. */
module Clients {
  import opened Wrappers
  import opened Text
  import opened MediaTypes
  import opened HeaderMaps
  import opened Bodies
  import opened Requests

  const KeepAlive := "Keep-Alive"
  const Chunked := "chunked"

  // -----------------------------------------------------------------------
  // The edits `addDefaultHeaders` makes, for any header name

  /** `if (request.header(key) == null) setHeader(key, value)`: the test is
      made on the request's own headers, the edit on the builder's. */
  function SetIfAbsent(original: seq<Entry>, current: seq<Entry>, key: string, value: string): seq<Entry> {
    if Lookup(original, key).None? then SetValues(current, key, [value]) else current
  }

  /** The same for a value whose computation may throw; it is computed only
      when the request lacks the header. */
  function SetIfAbsentFrom(original: seq<Entry>, current: seq<Entry>, key: string,
                           value: Result<string>): Result<seq<Entry>>
  {
    if Lookup(original, key).Some? then Ok(current)
    else
      var v :- value;
      Ok(SetValues(current, key, [v]))
  }

  /** `value?.let { setHeader(key, it) }`. */
  function SetIfPresent(es: seq<Entry>, key: string, value: Option<string>): seq<Entry> {
    if value.Some? then SetValues(es, key, [value.value]) else es
  }

  /** `setHeader(key, value)` followed by `removeHeader(dropped)`. */
  function SetDropping(es: seq<Entry>, key: string, value: string, dropped: string): seq<Entry> {
    RemoveKey(SetValues(es, key, [value]), dropped)
  }

  // -----------------------------------------------------------------------
  // The stages of `addDefaultHeaders`

  /** User-Agent, Host and Connection, each only when the request has none;
      reading `host:port` from the URL may throw. */
  function FixedStage(es: seq<Entry>, userAgent: string,
                      authority: Result<string>): Result<seq<Entry>>
  {
    var withAgent := SetIfAbsent(es, es, UserAgentKey, userAgent);
    var withHost :- SetIfAbsentFrom(es, withAgent, HostKey, authority);
    Ok(SetIfAbsent(es, withHost, ConnectionKey, KeepAlive))
  }

  /** The text `contentType.toString()` gives, if there is a type. */
  function TypeText(contentType: Option<ContentType>): Option<string> {
    if contentType.Some? then Some(contentType.value.value) else None
  }

  /** A known length sets Content-Length and drops Transfer-Encoding;
      length -1 sets `chunked` and drops Content-Length. */
  function LengthEntries(es: seq<Entry>, length: int): seq<Entry> {
    if length != -1 then SetDropping(es, ContentLengthKey, DecimalString(length), TransferEncodingKey)
    else SetDropping(es, TransferEncodingKey, Chunked, ContentLengthKey)
  }

  /** The body's headers: its type, then its length. */
  function BodyEntries(es: seq<Entry>, contentType: Option<ContentType>, length: int): seq<Entry> {
    LengthEntries(SetIfPresent(es, ContentTypeKey, TypeText(contentType)), length)
  }

  /** The body's headers; asking for the content type, then the length, may
      throw. */
  function BodyStage(es: seq<Entry>, content: Content): Result<seq<Entry>> {
    var contentType :- ContentTypeOf(content);
    var length :- Measure(content);
    Ok(BodyEntries(es, contentType, length))
  }

  /** The header entries `addDefaultHeaders` builds, in the order of its
      calls. */
  function DefaultEntries(request: Request, userAgent: string,
                          authority: Result<string>): Result<seq<Entry>>
  {
    var fixed :- FixedStage(request.headers.entries, userAgent, authority);
    if request.body.None? then Ok(fixed)
    else BodyStage(fixed, request.body.value.content)
  }

  /** The request `addDefaultHeaders` returns. */
  function DefaultHeaders(request: Request, userAgent: string,
                          authority: Result<string>): Result<Request>
  {
    var es :- DefaultEntries(request, userAgent, authority);
    BuildRequest(request.originService, request.originMethod, request.url, request.httpMethod, es, request.body)
  }

  ghost predicate BodyValid(body: Option<RequestBody>)
    reads if body.Some? then {body.value} else {}
  {
    body.Some? ==> body.value.Valid()
  }

  function BodyObjects(body: Option<RequestBody>): set<object> {
    if body.Some? then {body.value} else {}
  }

  /** An outcome and the entries it leaves, as a result. */
  function AsResult(o: Outcome, es: seq<Entry>): Result<seq<Entry>> {
    if o.Done? then Ok(es) else Err(o.failure)
  }

  // -----------------------------------------------------------------------
  // The method

  /** `addDefaultHeaders(request)`: successive `setHeader`/`removeHeader`
      calls on `request.newBuilder()`. Asking the body for its length may
      fill its cache. */
  method AddDefaultHeaders(request: Request, userAgent: string,
                           authority: Result<string>) returns (r: Result<Request>)
    requires WellFormed(request)
    requires BodyValid(request.body)
    modifies BodyObjects(request.body)
    ensures BodyValid(request.body)
    ensures r == DefaultHeaders(request, userAgent, authority)
  {
    var b := NewRequestBuilder(request);
    var o := PutDefaults(b, request, userAgent, authority);
    if o.Fail? {
      return Err(o.failure);
    }
    DefaultHeadersOf(request, userAgent, authority, b.headers.entries);
    r := b.Build();
  }

  /** The header edits of `addDefaultHeaders`, on the builder. */
  method PutDefaults(b: RequestBuilder, request: Request, userAgent: string,
                     authority: Result<string>) returns (o: Outcome)
    requires b.Valid() && b.headers.entries == request.headers.entries
    requires BodyValid(request.body)
    modifies b.headers, BodyObjects(request.body)
    ensures b.Valid() && BodyValid(request.body)
    ensures AsResult(o, b.headers.entries) == DefaultEntries(request, userAgent, authority)
  {
    DefaultEntriesSteps(request, userAgent, authority);
    o := PutFixed(b, request.headers.entries, userAgent, authority);
    if o.Done? && request.body.Some? {
      o := PutBodyHeaders(b, request.body.value);
    }
  }

  /** The User-Agent, Host and Connection steps of `addDefaultHeaders`. */
  method PutFixed(b: RequestBuilder, original: seq<Entry>, userAgent: string,
                  authority: Result<string>) returns (o: Outcome)
    requires b.Valid() && b.headers.entries == original
    modifies b.headers
    ensures b.Valid()
    ensures AsResult(o, b.headers.entries) == FixedStage(original, userAgent, authority)
  {
    PutIfAbsent(b, original, UserAgentKey, userAgent);
    o := PutIfAbsentFrom(b, original, HostKey, authority);
    if o.Done? {
      PutIfAbsent(b, original, ConnectionKey, KeepAlive);
    }
  }

  method PutIfAbsent(b: RequestBuilder, original: seq<Entry>, key: string, value: string)
    requires b.Valid()
    modifies b.headers
    ensures b.Valid()
    ensures b.headers.entries == SetIfAbsent(original, old(b.headers.entries), key, value)
  {
    if Lookup(original, key).None? {
      b.SetHeader(key, value);
    }
  }

  method PutIfAbsentFrom(b: RequestBuilder, original: seq<Entry>, key: string,
                         value: Result<string>) returns (o: Outcome)
    requires b.Valid()
    modifies b.headers
    ensures b.Valid()
    ensures AsResult(o, b.headers.entries) == SetIfAbsentFrom(original, old(b.headers.entries), key, value)
  {
    if Lookup(original, key).None? {
      if value.Err? {
        return Fail(value.failure);
      }
      b.SetHeader(key, value.value);
    }
    o := Done;
  }

  /** The body step of `addDefaultHeaders`. */
  method PutBodyHeaders(b: RequestBuilder, body: RequestBody) returns (o: Outcome)
    requires b.Valid() && body.Valid()
    modifies b.headers, body
    ensures b.Valid() && body.Valid()
    ensures AsResult(o, b.headers.entries) == BodyStage(old(b.headers.entries), body.content)
  {
    var contentType := body.ContentType();
    if contentType.Err? {
      return Fail(contentType.failure);
    }
    if contentType.value.Some? {
      b.SetHeader(ContentTypeKey, contentType.value.value.value);
    }
    var length := body.ContentLength();
    if length.Err? {
      return Fail(length.failure);
    }
    if length.value != -1 {
      PutDropping(b, ContentLengthKey, DecimalString(length.value), TransferEncodingKey);
    } else {
      PutDropping(b, TransferEncodingKey, Chunked, ContentLengthKey);
    }
    o := Done;
  }

  method PutDropping(b: RequestBuilder, key: string, value: string, dropped: string)
    requires b.Valid()
    modifies b.headers
    ensures b.Valid()
    ensures b.headers.entries == SetDropping(old(b.headers.entries), key, value, dropped)
  {
    b.SetHeader(key, value);
    b.RemoveHeader(dropped);
  }

  // -----------------------------------------------------------------------
  // Properties of the edits, for any header names

  /** What a header looks like once `SetIfAbsent` has run: the request's own
      values, or the default when the request had none. */
  function Filled(original: seq<Entry>, key: string, value: string): Option<seq<string>> {
    if Lookup(original, key).None? then Some([value]) else Lookup(original, key)
  }

  lemma SetIfAbsentEffect(original: seq<Entry>, current: seq<Entry>, key: string, value: string)
    requires DistinctKeys(current)
    requires Lookup(current, key) == Lookup(original, key)
    ensures DistinctKeys(SetIfAbsent(original, current, key, value))
    ensures Lookup(SetIfAbsent(original, current, key, value), key) == Filled(original, key, value)
  {
    if Lookup(original, key).None? {
      SetValuesDistinct(current, key, [value]);
      SetValuesEffect(current, key, [value]);
    }
  }

  lemma SetIfAbsentKeeps(original: seq<Entry>, current: seq<Entry>, key: string, value: string, other: string)
    requires DistinctKeys(current)
    requires !EqualsIgnoreCase(key, other)
    ensures Lookup(SetIfAbsent(original, current, key, value), other) == Lookup(current, other)
  {
    if Lookup(original, key).None? {
      SetValuesOther(current, key, [value], other);
    }
  }

  /** A header set from a value that may throw: the edit fails exactly when
      the request lacks the header and the value throws. */
  lemma SetIfAbsentFromEffect(original: seq<Entry>, current: seq<Entry>, key: string, value: Result<string>)
    requires DistinctKeys(current)
    requires Lookup(current, key) == Lookup(original, key)
    ensures var r := SetIfAbsentFrom(original, current, key, value);
      (r.Ok? <==> Lookup(original, key).Some? || value.Ok?)
      && (r.Err? ==> r.failure == value.failure)
      && (r.Ok? ==>
            DistinctKeys(r.value)
            && Lookup(r.value, key) == (if Lookup(original, key).None? then Some([value.value]) else Lookup(original, key)))
  {
    if Lookup(original, key).None? && value.Ok? {
      SetValuesDistinct(current, key, [value.value]);
      SetValuesEffect(current, key, [value.value]);
    }
  }

  lemma SetIfAbsentFromKeeps(original: seq<Entry>, current: seq<Entry>, key: string,
                             value: Result<string>, other: string)
    requires DistinctKeys(current)
    requires !EqualsIgnoreCase(key, other)
    ensures SetIfAbsentFrom(original, current, key, value).Ok? ==>
      Lookup(SetIfAbsentFrom(original, current, key, value).value, other) == Lookup(current, other)
  {
    if Lookup(original, key).None? && value.Ok? {
      SetValuesOther(current, key, [value.value], other);
    }
  }

  /** Filling in three different names, the second from a value that may
      throw: each ends up as `Filled` says, and every other name keeps its
      values. */
  lemma ThreeDefaults(es: seq<Entry>, a: string, aValue: string, h: string, hValue: Result<string>,
                      c: string, cValue: string, other: string)
    requires DistinctKeys(es)
    requires !EqualsIgnoreCase(a, h) && !EqualsIgnoreCase(a, c) && !EqualsIgnoreCase(h, c)
    ensures var r := SetIfAbsentFrom(es, SetIfAbsent(es, es, a, aValue), h, hValue);
      (r.Ok? <==> Lookup(es, h).Some? || hValue.Ok?)
      && (r.Err? ==> r.failure == hValue.failure)
      && (r.Ok? ==>
            var f := SetIfAbsent(es, r.value, c, cValue);
            DistinctKeys(f)
            && Lookup(f, a) == Filled(es, a, aValue)
            && Lookup(f, h) == (if Lookup(es, h).None? then Some([hValue.value]) else Lookup(es, h))
            && Lookup(f, c) == Filled(es, c, cValue)
            && (!EqualsIgnoreCase(a, other) && !EqualsIgnoreCase(h, other) && !EqualsIgnoreCase(c, other) ==>
                  Lookup(f, other) == Lookup(es, other)))
  {
    LowerSymmetric(a, h);
    LowerSymmetric(a, c);
    LowerSymmetric(h, c);
    var w := SetIfAbsent(es, es, a, aValue);
    SetIfAbsentEffect(es, es, a, aValue);
    SetIfAbsentKeeps(es, es, a, aValue, h);
    SetIfAbsentKeeps(es, es, a, aValue, c);
    var r := SetIfAbsentFrom(es, w, h, hValue);
    SetIfAbsentFromEffect(es, w, h, hValue);
    SetIfAbsentFromKeeps(es, w, h, hValue, a);
    SetIfAbsentFromKeeps(es, w, h, hValue, c);
    if r.Ok? {
      SetIfAbsentEffect(es, r.value, c, cValue);
      SetIfAbsentKeeps(es, r.value, c, cValue, a);
      SetIfAbsentKeeps(es, r.value, c, cValue, h);
      if !EqualsIgnoreCase(a, other) && !EqualsIgnoreCase(h, other) && !EqualsIgnoreCase(c, other) {
        SetIfAbsentKeeps(es, es, a, aValue, other);
        SetIfAbsentFromKeeps(es, w, h, hValue, other);
        SetIfAbsentKeeps(es, r.value, c, cValue, other);
      }
    }
  }

  /** Setting one name to a value and dropping another: the first has
      exactly that value, the second is gone, and every other name keeps its
      values. */
  lemma SetDroppingEffect(es: seq<Entry>, key: string, value: string, dropped: string, other: string)
    requires DistinctKeys(es)
    requires !EqualsIgnoreCase(key, dropped)
    ensures var r := SetDropping(es, key, value, dropped);
      DistinctKeys(r)
      && Lookup(r, key) == Some([value])
      && Lookup(r, dropped).None?
      && (!EqualsIgnoreCase(other, key) && !EqualsIgnoreCase(other, dropped) ==>
            Lookup(r, other) == Lookup(es, other))
  {
    var s := SetValues(es, key, [value]);
    SetValuesDistinct(es, key, [value]);
    SetValuesEffect(es, key, [value]);
    RemoveKeyDistinct(s, dropped);
    LowerSymmetric(key, dropped);
    RemoveKeyEffect(s, dropped, key);
    if !EqualsIgnoreCase(other, key) && !EqualsIgnoreCase(other, dropped) {
      LowerSymmetric(other, key);
      LowerSymmetric(other, dropped);
      SetValuesOther(es, key, [value], other);
      RemoveKeyEffect(s, dropped, other);
    }
  }

  /** A body's headers for any three different names: the type name has the
      type when there is one (else the request's own values), the length
      name has its one value, the dropped name is gone, every other name is
      left alone. */
  lemma TypeThenLength(es: seq<Entry>, t: string, typeText: Option<string>,
                       key: string, value: string, dropped: string, other: string)
    requires DistinctKeys(es)
    requires !EqualsIgnoreCase(t, key) && !EqualsIgnoreCase(t, dropped) && !EqualsIgnoreCase(key, dropped)
    ensures var r := SetDropping(SetIfPresent(es, t, typeText), key, value, dropped);
      DistinctKeys(r)
      && Lookup(r, t) == (if typeText.Some? then Some([typeText.value]) else Lookup(es, t))
      && Lookup(r, key) == Some([value])
      && Lookup(r, dropped).None?
      && (!EqualsIgnoreCase(other, t) && !EqualsIgnoreCase(other, key) && !EqualsIgnoreCase(other, dropped) ==>
            Lookup(r, other) == Lookup(es, other))
  {
    var typed := SetIfPresent(es, t, typeText);
    if typeText.Some? {
      SetValuesDistinct(es, t, [typeText.value]);
      SetValuesEffect(es, t, [typeText.value]);
      if !EqualsIgnoreCase(other, t) {
        LowerSymmetric(other, t);
        SetValuesOther(es, t, [typeText.value], other);
      }
    }
    LowerSymmetric(t, key);
    LowerSymmetric(t, dropped);
    SetDroppingEffect(typed, key, value, dropped, t);
    SetDroppingEffect(typed, key, value, dropped, other);
  }

  // -----------------------------------------------------------------------
  // Properties of the stages

  /** User-Agent, Host and Connection are filled in only when the request
      lacks them, ignoring case: a header the request has keeps its values.
      The stage fails exactly when the request has no Host and the URL
      cannot be read. */
  lemma FixedStageEffect(es: seq<Entry>, userAgent: string, authority: Result<string>)
    requires DistinctKeys(es)
    ensures var f := FixedStage(es, userAgent, authority);
      (f.Ok? <==> Lookup(es, HostKey).Some? || authority.Ok?)
      && (f.Err? ==> f.failure == authority.failure)
      && (f.Ok? ==>
            DistinctKeys(f.value)
            && Lookup(f.value, UserAgentKey) == Filled(es, UserAgentKey, userAgent)
            && Lookup(f.value, HostKey) ==
                 (if Lookup(es, HostKey).None? then Some([authority.value]) else Lookup(es, HostKey))
            && Lookup(f.value, ConnectionKey) == Filled(es, ConnectionKey, KeepAlive))
  {
    FixedKeysDiffer();
    ThreeDefaults(es, UserAgentKey, userAgent, HostKey, authority, ConnectionKey, KeepAlive, UserAgentKey);
  }

  /** The fixed defaults leave every other header alone. */
  lemma FixedStageKeeps(es: seq<Entry>, userAgent: string, authority: Result<string>, other: string)
    requires DistinctKeys(es)
    requires !EqualsIgnoreCase(UserAgentKey, other) && !EqualsIgnoreCase(HostKey, other)
    requires !EqualsIgnoreCase(ConnectionKey, other)
    ensures var f := FixedStage(es, userAgent, authority);
      f.Ok? ==> Lookup(f.value, other) == Lookup(es, other)
  {
    FixedKeysDiffer();
    ThreeDefaults(es, UserAgentKey, userAgent, HostKey, authority, ConnectionKey, KeepAlive, other);
  }

  /** The body's headers: the content type, when the body has one, is the
      one Content-Type value (else the request's own stays); a known length
      is the one Content-Length value and leaves no Transfer-Encoding;
      length -1 makes Transfer-Encoding exactly `chunked` and leaves no
      Content-Length. */
  lemma BodyEntriesEffect(es: seq<Entry>, contentType: Option<ContentType>, length: int)
    requires DistinctKeys(es)
    ensures var r := BodyEntries(es, contentType, length);
      DistinctKeys(r)
      && Lookup(r, ContentTypeKey) ==
           (if contentType.Some? then Some([contentType.value.value]) else Lookup(es, ContentTypeKey))
      && (length != -1 ==>
            Lookup(r, ContentLengthKey) == Some([DecimalString(length)]) && Lookup(r, TransferEncodingKey).None?)
      && (length == -1 ==>
            Lookup(r, TransferEncodingKey) == Some([Chunked]) && Lookup(r, ContentLengthKey).None?)
  {
    BodyKeysDiffer();
    if length != -1 {
      TypeThenLength(es, ContentTypeKey, TypeText(contentType), ContentLengthKey, DecimalString(length),
                     TransferEncodingKey, ContentTypeKey);
    } else {
      TypeThenLength(es, ContentTypeKey, TypeText(contentType), TransferEncodingKey, Chunked,
                     ContentLengthKey, ContentTypeKey);
    }
  }

  /** The body's headers leave every other header alone. */
  lemma BodyEntriesKeep(es: seq<Entry>, contentType: Option<ContentType>, length: int, other: string)
    requires DistinctKeys(es)
    requires !EqualsIgnoreCase(other, ContentTypeKey) && !EqualsIgnoreCase(other, ContentLengthKey)
    requires !EqualsIgnoreCase(other, TransferEncodingKey)
    ensures Lookup(BodyEntries(es, contentType, length), other) == Lookup(es, other)
  {
    BodyKeysDiffer();
    if length != -1 {
      TypeThenLength(es, ContentTypeKey, TypeText(contentType), ContentLengthKey, DecimalString(length),
                     TransferEncodingKey, other);
    } else {
      TypeThenLength(es, ContentTypeKey, TypeText(contentType), TransferEncodingKey, Chunked,
                     ContentLengthKey, other);
    }
  }

  // -----------------------------------------------------------------------
  // Properties of `addDefaultHeaders`

  /** The stages `DefaultEntries` runs, one after the other. */
  lemma DefaultEntriesSteps(request: Request, userAgent: string, authority: Result<string>)
    ensures var f := FixedStage(request.headers.entries, userAgent, authority);
      var d := DefaultEntries(request, userAgent, authority);
      (f.Err? ==> d == Err(f.failure))
      && (f.Ok? && request.body.None? ==> d == f)
      && (f.Ok? && request.body.Some? ==> d == BodyStage(f.value, request.body.value.content))
  {
  }

  /** The request built from the entries `DefaultEntries` gives. */
  lemma DefaultHeadersOf(request: Request, userAgent: string, authority: Result<string>, es: seq<Entry>)
    requires DefaultEntries(request, userAgent, authority) == Ok(es)
    ensures DefaultHeaders(request, userAgent, authority) ==
      BuildRequest(request.originService, request.originMethod, request.url, request.httpMethod, es, request.body)
  {
  }

  /** A body whose type and length can be read: `addDefaultHeaders` fails
      only as the fixed stage does. */
  lemma DefaultEntriesWithBody(request: Request, userAgent: string, authority: Result<string>,
                               contentType: Option<ContentType>, length: int)
    requires request.body.Some?
    requires ContentTypeOf(request.body.value.content) == Ok(contentType)
    requires Measure(request.body.value.content) == Ok(length)
    ensures var f := FixedStage(request.headers.entries, userAgent, authority);
      DefaultEntries(request, userAgent, authority) ==
        if f.Ok? then Ok(BodyEntries(f.value, contentType, length)) else Err(f.failure)
  {
    DefaultEntriesSteps(request, userAgent, authority);
  }

  /** Asking the body for its type, then for its length, throws through
      `addDefaultHeaders`. */
  lemma BodyFailures(request: Request, userAgent: string, authority: Result<string>)
    requires request.body.Some?
    ensures var f := FixedStage(request.headers.entries, userAgent, authority);
      var c := request.body.value.content;
      var d := DefaultEntries(request, userAgent, authority);
      f.Ok? ==>
        (ContentTypeOf(c).Err? ==> d == Err(ContentTypeOf(c).failure))
        && (ContentTypeOf(c).Ok? && Measure(c).Err? ==> d == Err(Measure(c).failure))
  {
    DefaultEntriesSteps(request, userAgent, authority);
  }

  /** On a request with a body: when `addDefaultHeaders` returns, the
      body's type (if any) is the Content-Type, its measured length the
      Content-Length, and no Transfer-Encoding is left (a length of -1
      gives `chunked` and no Content-Length). */
  lemma WithBody(request: Request, userAgent: string, authority: Result<string>,
                 contentType: Option<ContentType>, length: int)
    requires DistinctKeys(request.headers.entries) && request.body.Some?
    requires ContentTypeOf(request.body.value.content) == Ok(contentType)
    requires Measure(request.body.value.content) == Ok(length)
    ensures var d := DefaultEntries(request, userAgent, authority);
      var es := request.headers.entries;
      (d.Ok? <==> FixedStage(es, userAgent, authority).Ok?)
      && (d.Ok? ==>
            Lookup(d.value, ContentTypeKey) ==
              (if contentType.Some? then Some([contentType.value.value]) else Lookup(es, ContentTypeKey))
            && (length != -1 ==>
                  Lookup(d.value, ContentLengthKey) == Some([DecimalString(length)])
                  && Lookup(d.value, TransferEncodingKey).None?)
            && (length == -1 ==>
                  Lookup(d.value, TransferEncodingKey) == Some([Chunked])
                  && Lookup(d.value, ContentLengthKey).None?))
  {
    var es := request.headers.entries;
    var f := FixedStage(es, userAgent, authority);
    DefaultEntriesWithBody(request, userAgent, authority, contentType, length);
    if f.Ok? {
      FixedStageEffect(es, userAgent, authority);
      FixedKeysApartFromBody();
      FixedStageKeeps(es, userAgent, authority, ContentTypeKey);
      BodyEntriesEffect(f.value, contentType, length);
    }
  }

  /** Without a body no content header is touched. */
  lemma WithoutBody(request: Request, userAgent: string, authority: Result<string>)
    requires DistinctKeys(request.headers.entries) && request.body.None?
    ensures var d := DefaultEntries(request, userAgent, authority);
      var es := request.headers.entries;
      d == FixedStage(es, userAgent, authority)
      && (d.Ok? ==>
            Lookup(d.value, ContentTypeKey) == Lookup(es, ContentTypeKey)
            && Lookup(d.value, ContentLengthKey) == Lookup(es, ContentLengthKey)
            && Lookup(d.value, TransferEncodingKey) == Lookup(es, TransferEncodingKey))
  {
    var es := request.headers.entries;
    DefaultEntriesSteps(request, userAgent, authority);
    FixedKeysApartFromBody();
    FixedStageKeeps(es, userAgent, authority, ContentTypeKey);
    FixedStageKeeps(es, userAgent, authority, ContentLengthKey);
    FixedStageKeeps(es, userAgent, authority, TransferEncodingKey);
  }

  /** The fixed defaults survive the body's headers, so they hold of the
      request `addDefaultHeaders` returns. */
  lemma DefaultsSurvive(request: Request, userAgent: string, authority: Result<string>,
                        contentType: Option<ContentType>, length: int)
    requires DistinctKeys(request.headers.entries) && request.body.Some?
    requires ContentTypeOf(request.body.value.content) == Ok(contentType)
    requires Measure(request.body.value.content) == Ok(length)
    ensures var d := DefaultEntries(request, userAgent, authority);
      var f := FixedStage(request.headers.entries, userAgent, authority);
      d.Ok? ==>
        f.Ok? && DistinctKeys(d.value)
        && Lookup(d.value, UserAgentKey) == Lookup(f.value, UserAgentKey)
        && Lookup(d.value, HostKey) == Lookup(f.value, HostKey)
        && Lookup(d.value, ConnectionKey) == Lookup(f.value, ConnectionKey)
  {
    var es := request.headers.entries;
    var f := FixedStage(es, userAgent, authority);
    DefaultEntriesWithBody(request, userAgent, authority, contentType, length);
    if f.Ok? {
      FixedStageEffect(es, userAgent, authority);
      FixedKeysApartFromBody();
      BodyEntriesEffect(f.value, contentType, length);
      BodyEntriesKeep(f.value, contentType, length, UserAgentKey);
      BodyEntriesKeep(f.value, contentType, length, HostKey);
      BodyEntriesKeep(f.value, contentType, length, ConnectionKey);
    }
  }

  /** As written, the body stage's first edit throws for a request that
      already carries Content-Type but no Connection (a POST form whose
      `@Api` headers name its type): the fixed stage appends Connection
      last, so the Content-Type entry is no longer last when `setHeader`
      removes it. */
  lemma ContentTypeSetThrowsAsWritten(es: seq<Entry>, userAgent: string, authority: Result<string>, t: string)
    requires DistinctKeys(es)
    requires Lookup(es, ContentTypeKey).Some? && Lookup(es, ConnectionKey).None?
    requires FixedStage(es, userAgent, authority).Ok?
    ensures SetAsWritten(FixedStage(es, userAgent, authority).value, ContentTypeKey, [t]).Err?
  {
    var f := FixedStage(es, userAgent, authority).value;
    FixedStageEffect(es, userAgent, authority);
    FixedKeysApartFromBody();
    FixedStageKeeps(es, userAgent, authority, ContentTypeKey);
    FixedStageEndsWithConnection(es, userAgent, authority);
    assert !EqualsIgnoreCase(ContentTypeKey, f[|f| - 1].0);
    NotLastThrows(f, ContentTypeKey, [t]);
  }

  /** A request without Connection gets it as the last entry of the fixed
      stage. */
  lemma FixedStageEndsWithConnection(es: seq<Entry>, userAgent: string, authority: Result<string>)
    requires Lookup(es, ConnectionKey).None? && FixedStage(es, userAgent, authority).Ok?
    ensures var f := FixedStage(es, userAgent, authority).value;
      f != [] && f[|f| - 1].0 == ConnectionKey
  {
    var withAgent := SetIfAbsent(es, es, UserAgentKey, userAgent);
    var withHost := SetIfAbsentFrom(es, withAgent, HostKey, authority).value;
    assert FixedStage(es, userAgent, authority).value == SetValues(withHost, ConnectionKey, [KeepAlive]);
  }

  /** `set` as written throws for a name that is held, but not by the last
      entry. */
  lemma NotLastThrows(es: seq<Entry>, key: string, values: seq<string>)
    requires DistinctKeys(es) && es != []
    requires Lookup(es, key).Some? && !EqualsIgnoreCase(key, es[|es| - 1].0)
    ensures SetAsWritten(es, key, values).Err?
  {
    SetAsWrittenThrows(es, key, values);
  }
}
