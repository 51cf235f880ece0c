# Lemon, modelled in Dafny

Lemon is an HTTP client library for Kotlin and Android. An application
describes each HTTP endpoint as a method on an annotated interface. Lemon does
four jobs, and these Dafny modules model each of them:

- **The request compiler.** Lemon reads a method's annotations once and keeps
  the result in a cache. It builds a list of parameter handlers. Each call of
  the method runs those handlers over its arguments. The handlers fill a
  request factory, and the factory produces an HTTP request. The factory:
  - substitutes path templates, with a guard against path traversal;
  - accumulates form fields and multipart parts;
  - joins the query string;
  - selects the body.
- **The request data structures.** These are:
  - a header multimap whose names compare without regard to case;
  - the Content-Type parser;
  - byte, file, url-encoded form and multipart request bodies, with their
    serialisers and length measures;
  - requests and responses, with their builders.
- **The interceptor chain.** This is an index-driven recursion over an ordered
  list of interceptors. `Lemon.Builder.build` always appends the transport
  last. The client adds default headers before the request goes out.
- **The lookups and the event pipeline.** There are two first-match lookups:
  one for converters and one for API adapters. The event pipeline ("disposers")
  is a set of single-shot state machines:
  - `CreateDisposer` emits start, then a call or an error, then an end;
  - `EventActionDisposer` attaches `doStart`, `doEnd` and `doError` blocks;
  - `ConvertDisposer` hides the start and the end of the inner pipeline;
  - `LifecycleDisposer` cancels once when its bound UI lifecycle event fires.

The model has one module per source file:

| Dafny file | Module | Source file |
|---|---|---|
| `wrappers.dfy` | `Wrappers` | shared `Option`, `Result` and `Outcome` types |
| `text.dfy` | `Text` | JDK string helpers (see below) |
| `http_method.dfy` | `HttpMethods` | `HttpMethod.kt` |
| `headers.dfy` | `HeaderMaps` | `Headers.kt` |
| `media_type.dfy` | `MediaTypes` | `ContentType.kt` |
| `bodies.dfy` | `Bodies` | `RequestBody.kt`, `FormBody.kt`, `MultipartBody.kt` |
| `urls.dfy` | `Urls` | `TubeExtensions.kt` |
| `requests.dfy` | `Requests` | `Request.kt`, `Response.kt` |
| `chain.dfy` | `Chains` | `ApplyChain.kt` |
| `client.dfy` | `Clients` | `HttpClient.addDefaultHeaders` |
| `request_factory.dfy` | `RequestFactories` | `RequestFactory.kt` |
| `parameter_handler.dfy` | `ParameterHandlers` | `ParameterHandler.kt` |
| `api_method_parser.dfy` | `ApiMethodParsers` | `ApiMethodParser.kt` |
| `converter_finder.dfy` | `ConverterFinders` | `ConverterFinder.kt` |
| `adapter_finder.dfy` | `ApiAdapterFinders` | `ApiAdapterFinder.kt` |
| `api_method_factory.dfy` | `ApiMethodFactories` | `ApiMethodFactory.kt` |
| `events.dfy` | `Events` | callbacks of the `Accepter` interface |
| `create_disposer.dfy` | `CreateDisposers` | `CreateDisposer.kt` |
| `event_action_disposer.dfy` | `EventActionDisposers` | `EventActionDisposer.kt` |
| `convert_disposer.dfy` | `ConvertDisposers` | `ConvertDisposer.kt` |
| `lifecycle_disposer.dfy` | `LifecycleDisposers` | `LifecycleDisposer.kt` |
| `lemon.dfy` | `Lemons` | `Lemon.kt` |

`Text` covers the JDK helpers the core relies on:

- ASCII lower-casing;
- `indexOf`;
- `trim`;
- decimal printing;
- a UTF-8 encoder with its decoder;
- `URLEncoder.encode` for UTF-8.

Objects the source updates in place are Dafny classes:

- the header and request builders;
- the form and multipart builders;
- the request factory;
- the method parser;
- the method cache;
- the finders;
- the disposers and their accepters;
- `Lemon.Builder`.

Each state-changing method states its whole new state in terms of a
specification function. Lemmas prove what the library promises about those
functions.

Three behaviours of the code are worth stating plainly:

- **Body selection.** The request factory prefers a form over a multipart body.
- **Empty body.** Only POST gets an empty body when nothing else supplies one.
- **Content type.** `Headers.Builder.build` takes the content type from the
  first Content-Type entry.

Kotlin's `Long` lengths and `Int` indices are modelled as unbounded integers.
The values the code computes with never come near the bounds.

## Model

| member | source | states |
|---|---|---|
| HttpMethods.HasBody | core/src/main/java/com/lemon/core/request/HttpMethod.kt:67-72 | true exactly for POST, PUT and PATCH, and false exactly for GET, HEAD, DELETE and OPTIONS |
| HttpMethods.SevenVerbs | core/src/main/java/com/lemon/core/request/HttpMethod.kt:7-62 | the enum lists seven distinct verbs including every verb, and distinct verbs have distinct names |
| HttpMethods.ThreeWithBody | core/src/main/java/com/lemon/core/request/HttpMethod.kt:67-72 | exactly three verbs have a body; GET, HEAD, DELETE and OPTIONS have none |
| Text.Trim | lemon/src/main/java/com/lemon/core/apimethod/ApiMethodParser.kt:129-138 | the result is empty or starts and ends with a non-blank character |
| Text.TrimCutsBlanks | lemon/src/main/java/com/lemon/core/apimethod/ApiMethodParser.kt:129-138 | `trim()` keeps a slice of its input and cuts only whitespace off either end |
| Text.Utf8RoundTrip | lemon/src/main/java/com/lemon/http/request/body/RequestBody.kt:19-23 | decoding the UTF-8 bytes of a string gives the string back |
| Text.UrlEncodeSafeIdentity | lemon/src/main/java/com/lemon/core/request/RequestFactory.kt:54-60 | URL encoding leaves letters, digits and `.-*_` unchanged |
| Text.UrlEncode | lemon/src/main/java/com/lemon/core/request/RequestFactory.kt:54-60 | the encoding holds only `+`, `%` and the characters encoding leaves unchanged and is never shorter than the input |
| Text.UrlEncodeHasNoSlash | lemon/src/main/java/com/lemon/core/request/RequestFactory.kt:54-60 | an encoded value holds no `/`, CR or LF, so it cannot add a path segment or a line |
| HeaderMaps.FindKey | core/src/main/java/com/lemon/core/request/Headers.kt:81-89 | the index of the first name equal ignoring case, or -1 exactly when there is none |
| HeaderMaps.FindKeyDistinct | core/src/main/java/com/lemon/core/request/Headers.kt:81-89 | with distinct names, the found index is the only match |
| HeaderMaps.Lookup | core/src/main/java/com/lemon/core/request/Headers.kt:27-34 | the values of the first name equal ignoring case, or none when no name matches |
| HeaderMaps.Headers.Get | core/src/main/java/com/lemon/core/request/Headers.kt:27-34 | `get(key)` is present iff some name equals the key ignoring case, and then it holds the first match's values |
| HeaderMaps.Headers.GetFirst | core/src/main/java/com/lemon/core/request/Headers.kt:39 | the first value, none for a missing key, and NoSuchElement for an empty list |
| HeaderMaps.Headers.Keys | core/src/main/java/com/lemon/core/request/Headers.kt:44 | the names, in insertion order |
| HeaderMaps.Headers.RequestHeaders | core/src/main/java/com/lemon/core/request/Headers.kt:54-58 | one pair per entry, with the same name in the same order |
| HeaderMaps.RequestHeadersAgreeWithGet | core/src/main/java/com/lemon/core/request/Headers.kt:54-58 | each pair's value is the `;` join of what `get` returns for its name |
| HeaderMaps.RemoveKey | core/src/main/java/com/lemon/core/request/Headers.kt:135-141 | no remaining name equals the key, and every entry with another name is kept |
| HeaderMaps.RemoveAsWrittenThrows | core/src/main/java/com/lemon/core/request/Headers.kt:135-141 | the loop as written throws exactly when the matching entry is not the last; otherwise it agrees with RemoveKey |
| HeaderMaps.RemoveAsWrittenExample | core/src/main/java/com/lemon/core/request/Headers.kt:135-141 | removing "content-type" from [Content-Type, Host] throws as written, where RemoveKey leaves [Host] |
| HeaderMaps.RemoveKeyDistinct | core/src/main/java/com/lemon/core/request/Headers.kt:135-141 | removal keeps the names distinct |
| HeaderMaps.RemoveKeyAbsent | core/src/main/java/com/lemon/core/request/Headers.kt:135-141 | removing an absent key changes nothing |
| HeaderMaps.RemoveKeyOne | core/src/main/java/com/lemon/core/request/Headers.kt:135-141 | with distinct names, removal cuts the one matching entry out |
| HeaderMaps.RemoveKeyEffect | core/src/main/java/com/lemon/core/request/Headers.kt:135-141 | after removal `get(key)` is none, and other keys read as before |
| HeaderMaps.AddValuesDistinct | core/src/main/java/com/lemon/core/request/Headers.kt:94-97 | `add` keeps the names distinct |
| HeaderMaps.AddValuesEffect | core/src/main/java/com/lemon/core/request/Headers.kt:94-105 | `add` appends to an existing key and keeps its spelling, or creates the key; other keys read as before |
| HeaderMaps.SetValuesDistinct | core/src/main/java/com/lemon/core/request/Headers.kt:117-120 | `set` keeps the names distinct |
| HeaderMaps.SetValuesEffect | core/src/main/java/com/lemon/core/request/Headers.kt:117-120 | after `set` the key holds exactly the given list, under the new spelling |
| HeaderMaps.SetValuesOther | core/src/main/java/com/lemon/core/request/Headers.kt:117-120 | `set` leaves every other key as it was |
| HeaderMaps.FixedKeysDiffer | core/src/main/java/com/lemon/core/request/Headers.kt:13-18 | User-Agent, Host and Connection differ pairwise ignoring case |
| HeaderMaps.BodyKeysDiffer | core/src/main/java/com/lemon/core/request/Headers.kt:13-18 | Content-Type, Content-Length and Transfer-Encoding differ pairwise ignoring case |
| HeaderMaps.FixedKeysApartFromBody | core/src/main/java/com/lemon/core/request/Headers.kt:13-18 | none of the fixed keys equals a body key ignoring case |
| HeaderMaps.SetAllDistinct | core/src/main/java/com/lemon/core/request/Headers.kt:125-130 | setting a whole map keeps the names distinct |
| HeaderMaps.SetAllIntoEmpty | core/src/main/java/com/lemon/core/request/Headers.kt:68 | `set(map)` of entries with distinct names appends them, so `newBuilder()` copies the entries |
| HeaderMaps.BuildContentType | core/src/main/java/com/lemon/core/request/Headers.kt:148-160 | `build` parses the first Content-Type entry's values joined with `;`, and gives DEFAULT without one |
| HeaderMaps.HeadersBuilder.constructor | core/src/main/java/com/lemon/core/request/Headers.kt:76 | a new builder is empty |
| HeaderMaps.HeadersBuilder.IndexOf | core/src/main/java/com/lemon/core/request/Headers.kt:81-89 | the loop finds FindKey's index |
| HeaderMaps.HeadersBuilder.Add | core/src/main/java/com/lemon/core/request/Headers.kt:94-97 | the entries become AddValues of one value, and stay distinct |
| HeaderMaps.HeadersBuilder.AddAll | core/src/main/java/com/lemon/core/request/Headers.kt:102-105 | the entries become AddValues of the list |
| HeaderMaps.HeadersBuilder.Remove | core/src/main/java/com/lemon/core/request/Headers.kt:135-141 | the entries become RemoveKey of the old ones (the corrected removal) |
| HeaderMaps.HeadersBuilder.Set | core/src/main/java/com/lemon/core/request/Headers.kt:110-112 | the entries become SetValues of one value, with the corrected removal of the old entry (the source throws when the key is not the last entry, as SetAsWrittenThrows states) |
| HeaderMaps.HeadersBuilder.SetList | core/src/main/java/com/lemon/core/request/Headers.kt:117-120 | the entries become SetValues of the list, with the corrected removal (the source throws when the key is not the last entry, as SetAsWrittenThrows states) |
| HeaderMaps.HeadersBuilder.SetAll | core/src/main/java/com/lemon/core/request/Headers.kt:125-130 | the entries become SetAll of the map's entries, in order, with the corrected removal of each old entry |
| HeaderMaps.Headers.Size | core/src/main/java/com/lemon/core/request/Headers.kt:73 | the number of header names |
| HeaderMaps.SetAsWrittenThrows | core/src/main/java/com/lemon/core/request/Headers.kt:117-120 | as written, `set` throws exactly when the key sits in an entry other than the last; otherwise it agrees with SetValues |
| HeaderMaps.HeadersBuilder.Copy | core/src/main/java/com/lemon/core/request/Headers.kt:146 | a fresh builder with the same entries |
| HeaderMaps.HeadersBuilder.Build | core/src/main/java/com/lemon/core/request/Headers.kt:148-160 | the result is BuildHeaders of the entries |
| HeaderMaps.NewBuilder | core/src/main/java/com/lemon/core/request/Headers.kt:68 | `newBuilder()` is a fresh builder over the same entries |
| MediaTypes.TokenEnd | tubehttp/src/main/java/com/tube/http/request/ContentType.kt:24-27 | the end of the longest token run from a position |
| MediaTypes.SpaceEnd | tubehttp/src/main/java/com/tube/http/request/ContentType.kt:24-27 | the end of the whitespace run from a position |
| MediaTypes.NextSemicolon | tubehttp/src/main/java/com/tube/http/request/ContentType.kt:24-27 | the next `;` at or after a position, or none |
| MediaTypes.ParamAt | tubehttp/src/main/java/com/tube/http/request/ContentType.kt:24-27 | one `find()` of the parameter pattern: a `; name=value` pair, or a bare `;` |
| MediaTypes.TypeEnd | tubehttp/src/main/java/com/tube/http/request/ContentType.kt:24-27 | the `token/token` prefix `lookingAt` accepts, or none |
| MediaTypes.ParseContentType | tubehttp/src/main/java/com/tube/http/request/ContentType.kt:43-69 | the matcher loop computes Parse: it fails without a leading type, and otherwise keeps the raw text and stores the pairs |
| MediaTypes.Parse | tubehttp/src/main/java/com/tube/http/request/ContentType.kt:43-69 | succeeds iff the text starts with `token/token`, keeping the raw text; otherwise fails with the "Check type format" message |
| MediaTypes.AddParameter | tubehttp/src/main/java/com/tube/http/request/ContentType.kt:81-88 | the corrected addParameter: a result starts with the base text and ends with `attribute=value` |
| MediaTypes.AddParameterAsWritten | tubehttp/src/main/java/com/tube/http/request/ContentType.kt:81-88 | addParameter as written: a result starts with the base text and ends with `attribute=value` |
| MediaTypes.ParseOkIff | tubehttp/src/main/java/com/tube/http/request/ContentType.kt:43-51 | parse succeeds iff the text starts with a token, `/` and a token character |
| MediaTypes.ParseShape | tubehttp/src/main/java/com/tube/http/request/ContentType.kt:43-69 | `value` is the raw text; type and subtype are the lower-cased tokens |
| MediaTypes.ParseParametersLower | tubehttp/src/main/java/com/tube/http/request/ContentType.kt:58-66 | every stored parameter name and value is lower case |
| MediaTypes.ParseStopsAtMalformed | tubehttp/src/main/java/com/tube/http/request/ContentType.kt:58-66 | the loop stops at the first `;` not followed by a pair; nothing after it is stored |
| MediaTypes.ParseTrailingSemicolon | tubehttp/src/main/java/com/tube/http/request/ContentType.kt:58-66 | a trailing `;` adds no parameter |
| MediaTypes.TextPlain | tubehttp/src/main/java/com/tube/http/request/ContentType.kt:43-69 | "text/plain" parses to text and plain with no parameters |
| MediaTypes.ParseBare | tubehttp/src/main/java/com/tube/http/request/ContentType.kt:43-69 | a bare `type/subtype` parses with no parameters |
| MediaTypes.AddParameterStores | tubehttp/src/main/java/com/tube/http/request/ContentType.kt:81-88 | on a parsed text not ending with `;`, adding a token pair appends `;a=v`, stores the pair lower-cased and keeps the other parameters |
| MediaTypes.ParseAppendNew | tubehttp/src/main/java/com/tube/http/request/ContentType.kt:81-88 | parsing the text with `;name=value` appended adds that pair, lower-cased |
| MediaTypes.NoSeparatorAfterSemicolon | tubehttp/src/main/java/com/tube/http/request/ContentType.kt:83-85 | the corrected addParameter adds no second `;` after a text already ending with one |
| MediaTypes.SecondSeparatorAsWritten | tubehttp/src/main/java/com/tube/http/request/ContentType.kt:83-85 | as written, a text ending with `;` gets a second one, `;;` |
| MediaTypes.AddParameterAfterSemicolon | tubehttp/src/main/java/com/tube/http/request/ContentType.kt:81-88 | the corrected addParameter stores the pair after a trailing `;` |
| MediaTypes.AddParameterAsWrittenAfterSemicolon | tubehttp/src/main/java/com/tube/http/request/ContentType.kt:81-88 | as written, after a trailing `;` the parameters stay those of the base text |
| MediaTypes.AddParameterAsWrittenLosesCharset | tubehttp/src/main/java/com/tube/http/request/ContentType.kt:81-88 | adding charset=utf-8 to "text/plain;" stores nothing as written, and stores the charset when corrected |
| MediaTypes.AddParameterToBare | tubehttp/src/main/java/com/tube/http/request/ContentType.kt:81-88 | adding a pair to a bare media type stores exactly that pair |
| Bodies.CreateBytes | lemon/src/main/java/com/lemon/http/request/body/RequestBody.kt:28-40 | a byte body keeps its content and the type given at creation |
| Bodies.CreateString | lemon/src/main/java/com/lemon/http/request/body/RequestBody.kt:19-23 | a string body is the byte body of the string's UTF-8 bytes |
| Bodies.FilePart | lemon/src/main/java/com/lemon/http/request/body/MultipartBody.kt:151-163 | a file part carries the file's name and a file body |
| Bodies.ContentTypeOf | lemon/src/main/java/com/lemon/http/request/body/MultipartBody.kt:39-41 | each body's type: the one given, FROM for a form, and multipart/form-data with the boundary |
| Bodies.FormPairs | lemon/src/main/java/com/lemon/http/request/body/FormBody.kt:24-31 | one `name=value` text per field, in field order |
| Bodies.FileNameText | lemon/src/main/java/com/lemon/http/request/body/MultipartBody.kt:61-74 | empty exactly when the part has no file name |
| Bodies.TypeLine | lemon/src/main/java/com/lemon/http/request/body/MultipartBody.kt:76-79 | empty exactly when the body has no type |
| Bodies.EncodingLine | lemon/src/main/java/com/lemon/http/request/body/MultipartBody.kt:81-85 | non-empty exactly for a non-empty encoding |
| Bodies.LengthLineAsWritten | lemon/src/main/java/com/lemon/http/request/body/MultipartBody.kt:87-91 | as written, the length line is empty exactly when the length is 1 |
| Bodies.LengthLine | lemon/src/main/java/com/lemon/http/request/body/MultipartBody.kt:87-91 | the corrected line is empty exactly for an unknown length, -1 |
| Bodies.Measure | lemon/src/main/java/com/lemon/http/request/body/FormBody.kt:17-22 | `measureContentLength` of each body, never negative for the library's own bodies; a multipart part carries the corrected length line |
| Bodies.WriteContent | lemon/src/main/java/com/lemon/http/request/body/RequestBody.kt:32-34 | the sink receives exactly the bytes Write states, and the outcome is Write's; multipart parts carry the corrected length line |
| Bodies.Write | lemon/src/main/java/com/lemon/http/request/body/RequestBody.kt:28-34 | a byte body completes iff its offset is 0; a file or custom body always completes |
| Bodies.BoundaryTypeAgrees | lemon/src/main/java/com/lemon/http/request/body/MultipartBody.kt:40 | for a boundary not ending with `;`, the corrected and the as-written addParameter give the same multipart type |
| Bodies.WriteForm | lemon/src/main/java/com/lemon/http/request/body/FormBody.kt:24-31 | the loop writes the UTF-8 bytes of FormPairs |
| Bodies.WriteParts | lemon/src/main/java/com/lemon/http/request/body/MultipartBody.kt:57-102 | the loop writes each part in order and then the closing `--boundary--`, as Write states with the corrected length line |
| Bodies.WritePart | lemon/src/main/java/com/lemon/http/request/body/MultipartBody.kt:61-95 | one part's head, its body and CRLF, as PartOut states with the corrected length line (as written the line is left out at length 1 and reads `-1` for an unknown length) |
| Bodies.MeasureContent | lemon/src/main/java/com/lemon/http/request/body/RequestBody.kt:66-71 | the measure of a body, computed by writing it to a counting sink; multipart parts carry the corrected length line |
| Bodies.RequestBody.constructor | lemon/src/main/java/com/lemon/http/request/body/RequestBody.kt:58 | a new body's cached length is -1 |
| Bodies.RequestBody.ContentType | lemon/src/main/java/com/lemon/http/request/body/RequestBody.kt:60 | the type of the body, as ContentTypeOf states |
| Bodies.RequestBody.WriteTo | lemon/src/main/java/com/lemon/http/request/body/RequestBody.kt:62 | the sink receives exactly the bytes Write states, with the corrected multipart length line |
| Bodies.RequestBody.ContentLength | lemon/src/main/java/com/lemon/http/request/body/RequestBody.kt:66-71 | returns the body's measure (with the corrected multipart length line); a cached length is kept, and a measured one is cached |
| Bodies.FormBuilder.Add | lemon/src/main/java/com/lemon/http/request/body/FormBody.kt:40-49 | names and values grow together; only the value is encoded, and only when asked |
| Bodies.FormBuilder.Build | lemon/src/main/java/com/lemon/http/request/body/FormBody.kt:51 | the form holds the builder's lists |
| Bodies.NewFormBuilder | lemon/src/main/java/com/lemon/http/request/body/FormBody.kt:33 | `newBuilder()` copies both lists |
| Bodies.MultipartBuilder.AddPart | lemon/src/main/java/com/lemon/http/request/body/MultipartBody.kt:111-113 | the part is appended |
| Bodies.MultipartBuilder.AddFilePart | lemon/src/main/java/com/lemon/http/request/body/MultipartBody.kt:115-122 | a file part is appended |
| Bodies.MultipartBuilder.AddBodyPart | lemon/src/main/java/com/lemon/http/request/body/MultipartBody.kt:124-130 | a body part is appended |
| Bodies.MultipartBuilder.AddStringPart | lemon/src/main/java/com/lemon/http/request/body/MultipartBody.kt:132-138 | a string part is appended |
| Bodies.MultipartBuilder.Build | lemon/src/main/java/com/lemon/http/request/body/MultipartBody.kt:140 | the body holds the builder's boundary and parts |
| Bodies.NewMultipartBuilder | lemon/src/main/java/com/lemon/http/request/body/MultipartBody.kt:104 | `newBuilder()` keeps the boundary and the parts |
| Bodies.FormWritesText | lemon/src/main/java/com/lemon/http/request/body/FormBody.kt:24-31 | writeTo returns iff there are at least as many values as names, and then writes the UTF-8 of the `&`-joined pairs |
| Bodies.FormFromText | lemon/src/main/java/com/lemon/http/request/body/FormBody.kt:24-31 | from field `i` on, the form writes the UTF-8 of the remaining pairs joined with `&`, after a `&` when `i > 0` |
| Bodies.FormFromFails | lemon/src/main/java/com/lemon/http/request/body/FormBody.kt:24-31 | more names than values make writeTo throw IndexOutOfBounds |
| Bodies.MeasureIsWrittenSize | lemon/src/main/java/com/lemon/http/request/body/MultipartBody.kt:48-53 | for a body the library creates that writes, the measure is the number of bytes written |
| Bodies.ByteOffsetThrows | lemon/src/main/java/com/lemon/http/request/body/RequestBody.kt:28-40 | a byte body with a nonzero offset throws on write and writes nothing, yet measures `content.size` |
| Bodies.EmptyBodyIsEmpty | lemon/src/main/java/com/lemon/http/request/body/RequestBody.kt:17 | EMPTY_BODY has no type, writes nothing and measures 0 |
| Bodies.MultipartLayout | lemon/src/main/java/com/lemon/http/request/body/MultipartBody.kt:57-102 | when every part writes, the body is the parts in insertion order, then `--boundary--` CRLF; parts carry the corrected length line |
| Bodies.PartsBytesAppend | lemon/src/main/java/com/lemon/http/request/body/MultipartBody.kt:57-102 | the bytes of parts `a + b` are those of `a` followed by those of `b` |
| Bodies.PartLayout | lemon/src/main/java/com/lemon/http/request/body/MultipartBody.kt:61-95 | a written part: head, type and encoding lines, the corrected length line stating its size unless unknown, a blank line, the body, CRLF |
| Bodies.LengthOneOmittedAsWritten | lemon/src/main/java/com/lemon/http/request/body/MultipartBody.kt:87-91 | a one-byte body has a known length, yet as written its line is left out |
| Bodies.LengthLineKnown | lemon/src/main/java/com/lemon/http/request/body/MultipartBody.kt:87-91 | the corrected line is written for every known length, and agrees with the line as written except at 1 |
| Urls.HttpProtocolIff | tube/src/main/java/com/tube/http/TubeExtensions.kt:23-24 | a URL is HTTP iff it starts with `http`, ignoring case |
| Urls.IsHttpProtocol | tube/src/main/java/com/tube/http/TubeExtensions.kt:23-24 | starts with `http` or `https` ignoring case, as HttpProtocolIff reduces to `http` |
| Urls.AppendedPath | tube/src/main/java/com/tube/http/TubeExtensions.kt:29-40 | the base, one `/` unless the base ends with one, then the segments; AppendPath computes it |
| Urls.AppendPath | tube/src/main/java/com/tube/http/TubeExtensions.kt:29-40 | the loop computes AppendedPath |
| Urls.AppendedPathShape | tube/src/main/java/com/tube/http/TubeExtensions.kt:29-40 | the base is a prefix; `/` is inserted only when the base does not end with one; the segments follow verbatim |
| Urls.AppendedPathSnoc | tube/src/main/java/com/tube/http/TubeExtensions.kt:29-40 | one more segment is appended verbatim, with no separator |
| Urls.ConvertToQuery | tube/src/main/java/com/tube/http/TubeExtensions.kt:122-126 | the query is the text the form writes; more names than values fail with IndexOutOfBounds |
| Requests.Request.HasBody | lemon/src/main/java/com/lemon/core/request/Request.kt:23 | asked of the HTTP method: POST, PUT or PATCH |
| Requests.BuildRequest | lemon/src/main/java/com/lemon/core/request/Request.kt:90-99 | the build succeeds iff the headers build, and keeps the url, the method, the header entries and the body |
| Requests.RequestRoundTrip | lemon/src/main/java/com/lemon/core/request/Request.kt:25-34 | building `newBuilder()` of a well-formed request gives the request back |
| Requests.BuiltIsWellFormed | lemon/src/main/java/com/lemon/core/request/Request.kt:90-99 | a request built from entries with distinct names is well formed |
| Requests.RequestBuilder.Url | lemon/src/main/java/com/lemon/core/request/Request.kt:48-53 | a non-HTTP URL fails and keeps the old URL; an HTTP URL is set |
| Requests.RequestBuilder.SetHeader | lemon/src/main/java/com/lemon/core/request/Request.kt:58 | the header entries become SetValues of the value, with the corrected removal of the old entry |
| Requests.RequestBuilder.AddHeader | lemon/src/main/java/com/lemon/core/request/Request.kt:63 | the header entries become AddValues of the value |
| Requests.RequestBuilder.RemoveHeader | lemon/src/main/java/com/lemon/core/request/Request.kt:68 | the header entries become RemoveKey of the key, the corrected removal (the source throws when the key is not the last entry) |
| Requests.RequestBuilder.Method | lemon/src/main/java/com/lemon/core/request/Request.kt:73-83 | the method is set first, so it stays set when the call then fails; it fails iff the method has a body and none is given; a given body is set |
| Requests.RequestBuilder.SetBody | lemon/src/main/java/com/lemon/core/request/Request.kt:88 | the body is set |
| Requests.RequestBuilder.Build | lemon/src/main/java/com/lemon/core/request/Request.kt:90-99 | the result is BuildRequest of the fields |
| Requests.NewRequestBuilder | lemon/src/main/java/com/lemon/core/request/Request.kt:25-34 | `newBuilder()` holds the request's fields and a fresh header builder over its entries |
| Requests.Response.GetHeader | core/src/main/java/com/lemon/core/request/Response.kt:24 | the first value of the header, none when it is missing |
| Requests.PositiveOrFirstIsIff | core/src/main/java/com/lemon/core/request/Response.kt:34-37 | true iff the length is positive or the key's first value equals the word ignoring case; it fails only for a non-positive length and an empty list |
| Requests.HasBodyDataIff | core/src/main/java/com/lemon/core/request/Response.kt:34-37 | `hasBodyData` holds iff the length is positive or the first Transfer-Encoding value is `chunked`, ignoring case; NoSuchElement for an empty list |
| Requests.Response.HasBodyData | core/src/main/java/com/lemon/core/request/Response.kt:34-37 | a positive length has body data; the call throws only for a non-positive length and an empty Transfer-Encoding list |
| Requests.BuiltSuccessIff | core/src/main/java/com/lemon/core/request/Response.kt:19 | a response the builder returns is a success iff its code lies in 200..299 |
| Requests.Response.IsSuccess | core/src/main/java/com/lemon/core/request/Response.kt:19 | the code lies in 200..299, as BuiltSuccessIff relates to the builder |
| Requests.FirstValueIs | core/src/main/java/com/lemon/core/request/Response.kt:24 | `getFirst` gives a value equal to a word iff the first value `get` returns does; it fails iff the key holds an empty list |
| Requests.EmptyBodyHasNoData | core/src/main/java/com/lemon/core/request/Response.kt:34-37 | without chunked encoding, EMPTY_BODY has no data |
| Requests.BuildResponseSpec | core/src/main/java/com/lemon/core/request/Response.kt:54-59 | fails iff the code is negative, with the code in the message; otherwise keeps the request, the code and the headers, and a missing body becomes EMPTY_BODY |
| Requests.ResponseRoundTrip | core/src/main/java/com/lemon/core/request/Response.kt:29 | building `newBuilder()` of a response gives it back |
| Requests.CodeMessageShowsSign | core/src/main/java/com/lemon/core/request/Response.kt:54-59 | the error message names the negative code |
| Requests.ResponseBuilder.SetRequest | core/src/main/java/com/lemon/core/request/Response.kt:46 | the request is set |
| Requests.ResponseBuilder.SetCode | core/src/main/java/com/lemon/core/request/Response.kt:48 | the code is set |
| Requests.ResponseBuilder.SetHeaders | core/src/main/java/com/lemon/core/request/Response.kt:50 | the headers are set |
| Requests.ResponseBuilder.SetBody | core/src/main/java/com/lemon/core/request/Response.kt:52 | the body is set |
| Requests.ResponseBuilder.Build | core/src/main/java/com/lemon/core/request/Response.kt:54-59 | the result is BuildResponse of the fields |
| Requests.NewResponseBuilder | core/src/main/java/com/lemon/core/request/Response.kt:29 | `newBuilder()` holds the response's fields |
| Chains.Passed | core/src/main/java/com/lemon/core/interceptor/ApplyChain.kt:31-34 | the requests seen by the interceptors that proceed, never more than the interceptors left |
| Chains.PassedStep | core/src/main/java/com/lemon/core/interceptor/ApplyChain.kt:31-34 | `proceed(r)` calls the next interceptor with a chain whose request is `r` |
| Chains.PassedInOrder | core/src/main/java/com/lemon/core/interceptor/ApplyChain.kt:21-34 | interceptors run in list order, each seeing the request its predecessor passed on |
| Chains.ProceedUnwinds | core/src/main/java/com/lemon/core/interceptor/ApplyChain.kt:31-34 | the result is the innermost result passed back through the interceptors that proceeded, in reverse order |
| Chains.Proceed | core/src/main/java/com/lemon/core/interceptor/ApplyChain.kt:31-34 | past the end of the list it fails with IndexOutOfBounds; at the transport it answers what the client answers for the request |
| Chains.Start | core/src/main/java/com/lemon/core/interceptor/ApplyChain.kt:21-23 | an empty chain fails with IndexOutOfBounds; a transport first answers for the original request |
| Chains.OverrunIff | core/src/main/java/com/lemon/core/interceptor/ApplyChain.kt:31-34 | the chain runs past its end iff every interceptor proceeds, and then fails with IndexOutOfBounds |
| Chains.TransportLastNeverOverruns | core/src/main/java/com/lemon/core/interceptor/ApplyChain.kt:21-23 | with the transport last, no request runs past the end |
| Chains.TransportAlone | core/src/main/java/com/lemon/core/interceptor/ApplyChain.kt:21-23 | a chain that is only the transport answers what the client answers |
| Chains.EmptyChain | core/src/main/java/com/lemon/core/interceptor/ApplyChain.kt:21-23 | an empty chain fails with IndexOutOfBounds |
| Chains.TransparentPrefix | core/src/main/java/com/lemon/core/interceptor/ApplyChain.kt:21-34 | interceptors that pass request and response through change nothing |
| Chains.ShiftedTransparent | core/src/main/java/com/lemon/core/interceptor/ApplyChain.kt:31-34 | pass-through interceptors, seen from a later index |
| Chains.Shift | core/src/main/java/com/lemon/core/interceptor/ApplyChain.kt:31-34 | a prefix of the list does not change how the rest runs |
| Clients.AddDefaultHeaders | lemon/src/main/java/com/lemon/core/client/HttpClient.kt:45-82 | the request built from the entries DefaultEntries computes, with the corrected header removal |
| Clients.PutDefaults | lemon/src/main/java/com/lemon/core/client/HttpClient.kt:49-79 | the builder's entries become DefaultEntries of the request, with the corrected header removal |
| Clients.PutFixed | lemon/src/main/java/com/lemon/core/client/HttpClient.kt:49-63 | User-Agent, Host and Connection are set when absent |
| Clients.PutIfAbsent | lemon/src/main/java/com/lemon/core/client/HttpClient.kt:49-52 | a value is set only when the original request lacks the key |
| Clients.PutIfAbsentFrom | lemon/src/main/java/com/lemon/core/client/HttpClient.kt:54-58 | Host is set from the URL only when absent |
| Clients.PutBodyHeaders | lemon/src/main/java/com/lemon/core/client/HttpClient.kt:65-79 | Content-Type from the body, then the length headers, with the corrected header removal |
| Clients.PutDropping | lemon/src/main/java/com/lemon/core/client/HttpClient.kt:71-78 | one header is set and another removed, with the corrected header removal |
| Clients.SetIfAbsentEffect | lemon/src/main/java/com/lemon/core/client/HttpClient.kt:49-52 | afterwards the key reads the original values, or the default where it was absent |
| Clients.SetIfAbsentKeeps | lemon/src/main/java/com/lemon/core/client/HttpClient.kt:49-52 | other keys read as before |
| Clients.SetIfAbsentFromEffect | lemon/src/main/java/com/lemon/core/client/HttpClient.kt:54-58 | Host reads `host:port` where it was absent |
| Clients.SetIfAbsentFromKeeps | lemon/src/main/java/com/lemon/core/client/HttpClient.kt:54-58 | other keys read as before |
| Clients.ThreeDefaults | lemon/src/main/java/com/lemon/core/client/HttpClient.kt:49-63 | each of the three fixed keys reads its own original value or its default |
| Clients.SetDroppingEffect | lemon/src/main/java/com/lemon/core/client/HttpClient.kt:71-78 | after set-then-remove, one key reads the value, the dropped one reads nothing, and the rest are kept |
| Clients.TypeThenLength | lemon/src/main/java/com/lemon/core/client/HttpClient.kt:65-78 | for any three distinct keys: an optional value overwrites the first, then the second is set and the third dropped; other keys are kept |
| Clients.FixedStageEffect | lemon/src/main/java/com/lemon/core/client/HttpClient.kt:49-63 | fails only when Host is absent and reading the URL's `host:port` fails; otherwise each fixed key reads its original value or its default |
| Clients.FixedStageKeeps | lemon/src/main/java/com/lemon/core/client/HttpClient.kt:49-63 | the fixed stage keeps every other key |
| Clients.BodyEntriesEffect | lemon/src/main/java/com/lemon/core/client/HttpClient.kt:65-79 | with the corrected removal: a type overwrites Content-Type; a known length sets Content-Length and drops Transfer-Encoding; -1 sets chunked and drops Content-Length |
| Clients.BodyEntriesKeep | lemon/src/main/java/com/lemon/core/client/HttpClient.kt:65-79 | the body stage keeps every key other than the three body keys |
| Clients.DefaultEntriesSteps | lemon/src/main/java/com/lemon/core/client/HttpClient.kt:45-82 | the fixed stage, then the body stage when there is a body |
| Clients.DefaultHeadersOf | lemon/src/main/java/com/lemon/core/client/HttpClient.kt:81 | the result is `Request.Builder.build` over the default entries, keeping the url, the method and the body |
| Clients.DefaultEntriesWithBody | lemon/src/main/java/com/lemon/core/client/HttpClient.kt:65-79 | with a body, the body stage follows the fixed stage |
| Clients.BodyFailures | lemon/src/main/java/com/lemon/core/client/HttpClient.kt:65-71 | a body whose type or length fails makes the whole call fail |
| Clients.WithBody | lemon/src/main/java/com/lemon/core/client/HttpClient.kt:45-82 | with a body and the corrected removal, the call succeeds iff the fixed stage does, and the body keys then read the body's type and length |
| Clients.ContentTypeSetThrowsAsWritten | lemon/src/main/java/com/lemon/core/client/HttpClient.kt:49-68 | as written, the body stage's `setHeader(Content-Type)` throws for a request that already has Content-Type but no Connection |
| Clients.WithoutBody | lemon/src/main/java/com/lemon/core/client/HttpClient.kt:45-82 | without a body, no content header is touched |
| Clients.DefaultsSurvive | lemon/src/main/java/com/lemon/core/client/HttpClient.kt:45-82 | the body stage leaves User-Agent, Host and Connection as the fixed stage set them |
| RequestFactories.Segments | lemon/src/main/java/com/lemon/core/request/RequestFactory.kt:33 | `split("/")` never gives an empty list: the empty path has one empty segment |
| RequestFactories.SegmentsJoin | lemon/src/main/java/com/lemon/core/request/RequestFactory.kt:33 | joining the segments with `/` gives the path back |
| RequestFactories.TraversalIff | lemon/src/main/java/com/lemon/core/request/RequestFactory.kt:33 | the traversal pattern matches iff the path holds no line terminator and some whole segment is one or two dot tokens (`.`, `%2e`, `%2E`) |
| RequestFactories.TraversalSegment | lemon/src/main/java/com/lemon/core/request/RequestFactory.kt:33 | a match means one line and gives a segment made of one or two dot tokens |
| RequestFactories.SegmentTraversal | lemon/src/main/java/com/lemon/core/request/RequestFactory.kt:33 | on one line, a segment of one or two dot tokens makes the pattern match |
| RequestFactories.SegmentBounds | lemon/src/main/java/com/lemon/core/request/RequestFactory.kt:33 | each segment's position in the path, bounded by `/` or the ends |
| RequestFactories.SegmentFound | lemon/src/main/java/com/lemon/core/request/RequestFactory.kt:33 | text between two separators is a segment |
| RequestFactories.Placeholder | lemon/src/main/java/com/lemon/core/request/RequestFactory.kt:60 | `{name}` is never empty and starts with `{`, which SubstitutesEvery relies on |
| RequestFactories.SubstitutesEvery | lemon/src/main/java/com/lemon/core/request/RequestFactory.kt:54-65 | every occurrence of `{name}` becomes the value, encoded only when asked |
| RequestFactories.ReplaceAllJoin | lemon/src/main/java/com/lemon/core/request/RequestFactory.kt:60 | replacing in a join of pieces free of the target is the join with the value |
| RequestFactories.WithQueryAppends | lemon/src/main/java/com/lemon/core/request/RequestFactory.kt:102-115 | the text before the first `?` is kept; the query becomes the new one alone when there was none or an empty one, else the old one, `&` and the new one |
| RequestFactories.SelectUrlShape | lemon/src/main/java/com/lemon/core/request/RequestFactory.kt:119-129 | an absolute relative path is the URL; otherwise the URL ends with it and starts with the absolute service path, or else with the API URL followed by the service path; an HTTP API URL gives an HTTP URL |
| RequestFactories.PrefixKeepsHttp | lemon/src/main/java/com/lemon/core/request/RequestFactory.kt:119-129 | appending to an HTTP URL gives an HTTP URL |
| RequestFactories.ChooseSpec | lemon/src/main/java/com/lemon/core/request/RequestFactory.kt:131-147 | an explicit body wins; else a form goes to the query on GET and to the body otherwise; else multipart; else POST gets EMPTY_BODY; else none |
| RequestFactories.AppendQueryParams | lemon/src/main/java/com/lemon/core/request/RequestFactory.kt:102-115 | the URL with the builder's encoded fields as `name=value` pairs, placed as WithQueryAppends states |
| RequestFactories.PartFor | lemon/src/main/java/com/lemon/core/request/RequestFactory.kt:86-91 | the part made of a file, a body or a string value |
| RequestFactories.AddPartTo | lemon/src/main/java/com/lemon/core/request/RequestFactory.kt:86-91 | appends PartFor to the builder |
| RequestFactories.RequestFactory.constructor | lemon/src/main/java/com/lemon/core/request/RequestFactory.kt:19-30 | the factory starts with the method's path, keeps the given header builder itself (not a copy), and has no body, form or multipart |
| RequestFactories.RequestFactory.SetHeader | lemon/src/main/java/com/lemon/core/request/RequestFactory.kt:39 | the headers become SetValues of the value, with the corrected removal of the old entry |
| RequestFactories.RequestFactory.AddHeader | lemon/src/main/java/com/lemon/core/request/RequestFactory.kt:44 | the headers become AddValues of the value |
| RequestFactories.RequestFactory.RemoveHeader | lemon/src/main/java/com/lemon/core/request/RequestFactory.kt:49 | the headers become RemoveKey of the key, the corrected removal (the source throws when the key is not the last entry) |
| RequestFactories.RequestFactory.AddPathParam | lemon/src/main/java/com/lemon/core/request/RequestFactory.kt:54-66 | substitutes the placeholder; a traversal fails and leaves the path unchanged |
| RequestFactories.RequestFactory.AddFormField | lemon/src/main/java/com/lemon/core/request/RequestFactory.kt:71-76 | creates the form builder on first use and appends the field |
| RequestFactories.RequestFactory.AddPart | lemon/src/main/java/com/lemon/core/request/RequestFactory.kt:81-92 | creates the multipart builder on first use and appends the part |
| RequestFactories.RequestFactory.SetBody | lemon/src/main/java/com/lemon/core/request/RequestFactory.kt:97 | the explicit body is set |
| RequestFactories.RequestFactory.BaseUrl | lemon/src/main/java/com/lemon/core/request/RequestFactory.kt:119-129 | the URL SelectUrl chooses |
| RequestFactories.RequestFactory.SettleBody | lemon/src/main/java/com/lemon/core/request/RequestFactory.kt:131-147 | the body and URL the choice gives |
| RequestFactories.RequestFactory.Build | lemon/src/main/java/com/lemon/core/request/RequestFactory.kt:117-157 | the request built from the planned URL and body, the method and the headers |
| ParameterHandlers.AsPart | core/src/main/java/com/lemon/core/apimethod/parameter/ParameterHandler.kt:168-172 | a value that is not a file, a body or a part becomes a part over its `toString` text |
| ParameterHandlers.FirstNull | core/src/main/java/com/lemon/core/apimethod/parameter/ParameterHandler.kt:76-94 | the position of the first entry whose value is null, or the size when none is |
| ParameterHandlers.AddEntries | core/src/main/java/com/lemon/core/apimethod/parameter/ParameterHandler.kt:78-90 | fields and headers stop at the first null value, parts take every entry; the state is EntriesAdded over the entries taken |
| ParameterHandlers.AddEntry | core/src/main/java/com/lemon/core/apimethod/parameter/ParameterHandler.kt:81-89 | one entry is added as a field, a header or a part |
| ParameterHandlers.ApplyBody | core/src/main/java/com/lemon/core/apimethod/parameter/ParameterHandler.kt:29-46 | as Applied states: a null value or a converter IO error fails with the parameter's index; otherwise the body is the one given back, or a new one of unknown length |
| ParameterHandlers.Apply | core/src/main/java/com/lemon/core/apimethod/parameter/ParameterHandler.kt:15-196 | each handler kind's effect on the factory, as Applied states |
| ParameterHandlers.ApplyStrictMap | core/src/main/java/com/lemon/core/apimethod/parameter/ParameterHandler.kt:76-94 | a null map or a null value fails; otherwise every entry is added |
| ParameterHandlers.Keys | core/src/main/java/com/lemon/core/apimethod/parameter/ParameterHandler.kt:76-94 | the keys of a map's entries, in order |
| ParameterHandlers.FieldTexts | core/src/main/java/com/lemon/core/apimethod/parameter/ParameterHandler.kt:76-94 | each value's `toString`, in order |
| ParameterHandlers.FieldEntriesInOrder | core/src/main/java/com/lemon/core/apimethod/parameter/ParameterHandler.kt:76-94 | a field map with no null value appends its keys and their texts in order and changes nothing else |
| ParameterHandlers.PartEntriesInOrder | core/src/main/java/com/lemon/core/apimethod/parameter/ParameterHandler.kt:183-195 | a part map appends its parts in order, keeps the boundary and changes nothing else |
| ParameterHandlers.HeaderEntriesOnly | core/src/main/java/com/lemon/core/apimethod/parameter/ParameterHandler.kt:119-137 | a header map changes only the headers |
| ParameterHandlers.StrictMapFails | core/src/main/java/com/lemon/core/apimethod/parameter/ParameterHandler.kt:76-94 | fails iff the value is not a map or holds a null value, and then names the first null entry's key with the parameter's index |
| ParameterHandlers.NullArgument | core/src/main/java/com/lemon/core/apimethod/parameter/ParameterHandler.kt:60-64 | a null argument never changes the factory; it succeeds iff the handler is a field, header or part handler |
| ApiMethodParsers.HeaderLine | lemon/src/main/java/com/lemon/core/apimethod/ApiMethodParser.kt:128-140 | the corrected header parse fails iff the trimmed line has no `:`, or has its first `:` before position 3 or last, and the failure names the line |
| ApiMethodParsers.ParamParsed | lemon/src/main/java/com/lemon/core/apimethod/ApiMethodParser.kt:155-363 | the handler one parameter adds, or the error it raises |
| ApiMethodParsers.ApiMethodParser.constructor | lemon/src/main/java/com/lemon/core/apimethod/ApiMethodParser.kt:19-31 | the parser holds its inputs, a fresh header builder, an empty service URL, the initial method state and no handlers |
| ApiMethodParsers.ApiMethodParser.ParseClassAnnotation | lemon/src/main/java/com/lemon/core/apimethod/ApiMethodParser.kt:81-97 | a second `@ApiUrl` fails; one sets the service URL |
| ApiMethodParsers.ApiMethodParser.ParseMethodAnnotation | lemon/src/main/java/com/lemon/core/apimethod/ApiMethodParser.kt:102-110 | the `@Api` annotations are parsed into the method state MethodParsed states, the first failure being the result; without `@Api` the defaults POST and an empty path stay; header lines use the corrected split |
| ApiMethodParsers.ApiMethodParser.ParseApiAnnotation | lemon/src/main/java/com/lemon/core/apimethod/ApiMethodParser.kt:115-141 | sets the path, the method and the flag; multipart without POST fails; the header lines are added with the corrected split |
| ApiMethodParsers.ApiMethodParser.AddHeaderLines | lemon/src/main/java/com/lemon/core/apimethod/ApiMethodParser.kt:127-140 | the header lines are added in order, until one is malformed, each split by the corrected HeaderLine |
| ApiMethodParsers.ApiMethodParser.ParseParameter | lemon/src/main/java/com/lemon/core/apimethod/ApiMethodParser.kt:146-365 | the handlers ParamsParsed computes |
| ApiMethodParsers.ApiMethodParser.ParseOne | lemon/src/main/java/com/lemon/core/apimethod/ApiMethodParser.kt:151-363 | one parameter's step, as ParamParsed states |
| ApiMethodParsers.ApiMethodParser.FieldHandlerFor | lemon/src/main/java/com/lemon/core/apimethod/ApiMethodParser.kt:189-241 | the step ParamParsed gives an `@ApiField` parameter, reached only with no body so far and outside multipart |
| ApiMethodParsers.ApiMethodParser.HeaderHandlerFor | lemon/src/main/java/com/lemon/core/apimethod/ApiMethodParser.kt:242-278 | the step ParamParsed gives an `@ApiHeader` parameter |
| ApiMethodParsers.ApiMethodParser.PartHandlerFor | lemon/src/main/java/com/lemon/core/apimethod/ApiMethodParser.kt:291-355 | the step ParamParsed gives an `@ApiPart` parameter, reached only in multipart with no body so far |
| ApiMethodParsers.ApiMethodParser.BuildRequest | lemon/src/main/java/com/lemon/core/apimethod/ApiMethodParser.kt:45-65 | the corrected build: a new header builder per call, and each handler given its own parameter's argument |
| ApiMethodParsers.ApiMethodParser.BuildRequestAsWritten | lemon/src/main/java/com/lemon/core/apimethod/ApiMethodParser.kt:45-65 | as written: the parser's own header builder is shared by every call, and the i-th argument goes to the i-th handler, as ApplyEachAsWritten states |
| ApiMethodParsers.ApiMethodParser.RunAsWritten | lemon/src/main/java/com/lemon/core/apimethod/ApiMethodParser.kt:59-64 | the loop hands `args[i]` to the i-th handler, as ApplyEachAsWritten states |
| ApiMethodParsers.ApiMethodParser.Run | lemon/src/main/java/com/lemon/core/apimethod/ApiMethodParser.kt:59-64 | the handlers are applied in declaration order |
| ApiMethodParsers.NewApiMethodParser | lemon/src/main/java/com/lemon/core/apimethod/ApiMethodParser.kt:33-40 | the class, then the method, then the parameters are parsed; the first failure is the result; header lines use the corrected split |
| ApiMethodParsers.IndexedStep | lemon/src/main/java/com/lemon/core/apimethod/ApiMethodParser.kt:151-363 | one step keeps the handler indices increasing and below the next position |
| ApiMethodParsers.ParsedInOrder | lemon/src/main/java/com/lemon/core/apimethod/ApiMethodParser.kt:151-363 | handler indices are increasing and below the number of parameters, so no parameter has two handlers and the earlier handlers are kept as a prefix |
| ApiMethodParsers.OneHandlerPerParameter | lemon/src/main/java/com/lemon/core/apimethod/ApiMethodParser.kt:151-363 | when every parameter carries a known annotation, handler `k` belongs to parameter `k` |
| ApiMethodParsers.AsWrittenAgreesWhenAligned | lemon/src/main/java/com/lemon/core/apimethod/ApiMethodParser.kt:59-62 | when every parameter has a handler, the build as written agrees with the corrected one |
| ApiMethodParsers.OtherAnnotationShiftsArguments | lemon/src/main/java/com/lemon/core/apimethod/ApiMethodParser.kt:60-62 | a parameter without a handler shifts the arguments as written |
| ApiMethodParsers.HeadersAccumulateAsWritten | lemon/src/main/java/com/lemon/core/apimethod/ApiMethodParser.kt:45-65 | as written, a header parameter's values pile up across calls of one method |
| ApiMethodParsers.HeaderParameterAdds | lemon/src/main/java/com/lemon/core/apimethod/ApiMethodParser.kt:59-62 | a header handler adds the argument's value |
| ApiMethodParsers.SecondApiUrlThrows | lemon/src/main/java/com/lemon/core/apimethod/ApiMethodParser.kt:85-93 | once a non-empty `@ApiUrl` is taken, any later `@ApiUrl` fails (an empty first one leaves room for another) |
| ApiMethodParsers.ApiUrlAfterOne | lemon/src/main/java/com/lemon/core/apimethod/ApiMethodParser.kt:85-93 | with a non-empty service URL already held, a later `@ApiUrl` fails |
| ApiMethodParsers.OneApiUrl | lemon/src/main/java/com/lemon/core/apimethod/ApiMethodParser.kt:81-97 | with no `@ApiUrl` the URL already held is kept, and with exactly one (none held before) it is that annotation's value |
| ApiMethodParsers.MultipartNeedsPost | lemon/src/main/java/com/lemon/core/apimethod/ApiMethodParser.kt:120-125 | multipart with any method but POST fails |
| ApiMethodParsers.HeaderLineRoundTrip | lemon/src/main/java/com/lemon/core/apimethod/ApiMethodParser.kt:129-139 | a name and a value joined with `:` parse back to themselves |
| ApiMethodParsers.HeaderLineSplits | lemon/src/main/java/com/lemon/core/apimethod/ApiMethodParser.kt:129-139 | a parsed line is the name, `:` and the value, up to blanks |
| ApiMethodParsers.HeaderLineAsWrittenCutsEarly | lemon/src/main/java/com/lemon/core/apimethod/ApiMethodParser.kt:137-138 | as written, " abc:d" splits into "ab" and ":d" |
| ApiMethodParsers.CorrectedCut | lemon/src/main/java/com/lemon/core/apimethod/ApiMethodParser.kt:137-138 | corrected, " abc:d" splits into "abc" and "d" |
| ApiMethodParsers.AsWrittenSplits | lemon/src/main/java/com/lemon/core/apimethod/ApiMethodParser.kt:129-139 | when the index of `:` in the trimmed line is at least 3 and below the last index of the untrimmed line, the split as written cuts the untrimmed line there and yields its trimmed halves |
| ApiMethodParsers.HeaderLineAsWrittenKeepsEmptyValue | lemon/src/main/java/com/lemon/core/apimethod/ApiMethodParser.kt:130-138 | as written, "abc: " passes the format test with an empty value; corrected, it fails |
| ApiMethodParsers.ParamRejectedAnywhere | lemon/src/main/java/com/lemon/core/apimethod/ApiMethodParser.kt:151-364 | a parameter rejected in every state fails the whole parse, wherever it stands |
| ApiMethodParsers.BodyExclusive | lemon/src/main/java/com/lemon/core/apimethod/ApiMethodParser.kt:171-195 | two `@ApiBody` parameters, or an `@ApiBody` and an `@ApiField` in either order, fail the parse |
| ApiMethodParsers.FlagBlocks | lemon/src/main/java/com/lemon/core/apimethod/ApiMethodParser.kt:171-195 | after a body, a later body or field fails the parse; after a field, a later body does |
| ConverterFinders.Convert | tube/src/main/java/com/tube/http/converter/ConverterFinder.kt:96-111 | the built-in request converter: a string becomes a body of its bytes, and a body is kept |
| ConverterFinders.CharsetName | tube/src/main/java/com/tube/http/converter/ConverterFinder.kt:79 | a charset is named iff there is a content type carrying a `charset` parameter; UTF-8 is used otherwise |
| ConverterFinders.ConvertResponse | tube/src/main/java/com/tube/http/converter/ConverterFinder.kt:72-91 | the built-in response converter: the text of the bytes, or the body itself |
| ConverterFinders.RequestConverterOf | tube/src/main/java/com/tube/http/converter/ConverterFinder.kt:96-111 | the built-in handles only String and RequestBody |
| ConverterFinders.ResponseConverterOf | tube/src/main/java/com/tube/http/converter/ConverterFinder.kt:72-91 | the built-in handles only String and ResponseBody |
| ConverterFinders.ConverterFinder.constructor | tube/src/main/java/com/tube/http/converter/ConverterFinder.kt:20-23 | the built-in factory is inserted at index 0 |
| ConverterFinders.ConverterFinder.FindRequestBodyConverter | tube/src/main/java/com/tube/http/converter/ConverterFinder.kt:29-44 | the first converter in factory order, or a failure when none matches |
| ConverterFinders.ConverterFinder.FindResponseBodyConverter | tube/src/main/java/com/tube/http/converter/ConverterFinder.kt:49-62 | the first converter in factory order, or a failure when none matches |
| ConverterFinders.RequestConverterMissing | tube/src/main/java/com/tube/http/converter/ConverterFinder.kt:29-44 | the lookup fails iff no factory matches |
| ConverterFinders.RequestConverterFirst | tube/src/main/java/com/tube/http/converter/ConverterFinder.kt:29-44 | the lookup returns the first factory's converter that matches |
| ConverterFinders.ResponseConverterMissing | tube/src/main/java/com/tube/http/converter/ConverterFinder.kt:49-62 | the lookup fails iff no factory matches |
| ConverterFinders.ResponseConverterFirst | tube/src/main/java/com/tube/http/converter/ConverterFinder.kt:49-62 | the lookup returns the first factory's converter that matches |
| ConverterFinders.BuildInFirst | tube/src/main/java/com/tube/http/converter/ConverterFinder.kt:20-23 | String and body types are always served by the built-in |
| ApiAdapterFinders.Adapt | lemon/src/main/java/com/lemon/http/adapter/ApiAdapterFinder.kt:57 | DefaultApiAdapter returns the block's value as it is |
| ApiAdapterFinders.ActualType | lemon/src/main/java/com/lemon/http/adapter/ApiAdapterFinder.kt:59 | the default adapter's actual type is the return type |
| ApiAdapterFinders.AdapterOf | lemon/src/main/java/com/lemon/http/adapter/ApiAdapterFinder.kt:46-50 | the built-in factory always gives the default adapter |
| ApiAdapterFinders.ApiAdapterFinder.constructor | lemon/src/main/java/com/lemon/http/adapter/ApiAdapterFinder.kt:19-22 | the built-in factory is appended last |
| ApiAdapterFinders.ApiAdapterFinder.FindApiAdapter | lemon/src/main/java/com/lemon/http/adapter/ApiAdapterFinder.kt:28-41 | the first adapter in factory order, or a failure when none matches |
| ApiAdapterFinders.AdapterMissingIff | lemon/src/main/java/com/lemon/http/adapter/ApiAdapterFinder.kt:28-41 | the lookup fails iff no factory matches |
| ApiAdapterFinders.AdapterFirst | lemon/src/main/java/com/lemon/http/adapter/ApiAdapterFinder.kt:28-41 | the lookup returns the first factory's adapter that matches |
| ApiAdapterFinders.BuildInLastNeverMisses | lemon/src/main/java/com/lemon/http/adapter/ApiAdapterFinder.kt:19-22 | with the built-in last, the lookup never fails |
| ApiMethodFactories.Describe | lemon/src/main/java/com/lemon/core/apimethod/ApiMethodParser.kt:70-76 | usable iff the method parses, an adapter is found for the return type and a response converter for the adapter's actual type; a parse failure is reported first |
| ApiMethodFactories.ApiMethodFactory.constructor | core/src/main/java/com/lemon/core/apimethod/ApiMethodFactory.kt:12-15 | the cache starts empty |
| ApiMethodFactories.ApiMethodFactory.GetApiMethod | core/src/main/java/com/lemon/core/apimethod/ApiMethodFactory.kt:35-36 | succeeds iff Describe does, with its failure otherwise; a success is a fresh method over a fresh parser holding the parse, the adapter and the converter |
| ApiMethodFactories.ApiMethodFactory.Create | core/src/main/java/com/lemon/core/apimethod/ApiMethodFactory.kt:22-30 | a hit returns the cached instance and changes nothing; a miss answers as Describe does and caches only a success; no entry is ever replaced |
| ApiMethodFactories.CreateTwice | core/src/main/java/com/lemon/core/apimethod/ApiMethodFactory.kt:22-30 | two creates for one method return the same instance |
| ApiMethodFactories.BuiltInsResolve | lemon/src/main/java/com/lemon/core/apimethod/ApiMethodParser.kt:70-76 | with only the built-ins, a String method resolves to the default adapter and the built-in converter |
| ApiMethodFactories.UserAdapterUnwraps | lemon/src/main/java/com/lemon/core/apimethod/ApiMethodParser.kt:70-76 | a user adapter's actual type is what the converter is looked up for |
| CreateDisposers.CreateDisposer.constructor | disposer/src/main/java/com/tube/http/disposer/impl/CreateDisposer.kt:11-21 | a new disposer is neither cancelled nor in only-call mode |
| CreateDisposers.CreateDisposer.OnlyCall | disposer/src/main/java/com/tube/http/disposer/impl/CreateDisposer.kt:27 | switches on only-call mode |
| CreateDisposers.CreateDisposer.Transmit | disposer/src/main/java/com/tube/http/disposer/impl/CreateDisposer.kt:29-47 | delivers what Emitted states for its mode |
| CreateDisposers.CreateDisposer.Cancel | disposer/src/main/java/com/tube/http/disposer/impl/CreateDisposer.kt:49-51 | marks the disposer cancelled |
| CreateDisposers.CancelledDeliversNothing | disposer/src/main/java/com/tube/http/disposer/impl/CreateDisposer.kt:30-33 | after cancel, transmit delivers nothing |
| CreateDisposers.OnlyCallDeliversCallAlone | disposer/src/main/java/com/tube/http/disposer/impl/CreateDisposer.kt:35-36 | in only-call mode, only `call(value)` is delivered |
| CreateDisposers.NormalMode | disposer/src/main/java/com/tube/http/disposer/impl/CreateDisposer.kt:38-45 | start, then a call or an error, then exactly one end |
| EventActionDisposers.EventActionAccepter.Call | disposer/src/main/java/com/lemon/http/disposer/impl/EventActionDisposer.kt:28-30 | a call is passed on unchanged |
| EventActionDisposers.EventActionAccepter.OnStart | disposer/src/main/java/com/lemon/http/disposer/impl/EventActionDisposer.kt:32-38 | passed on, then a start action runs |
| EventActionDisposers.EventActionAccepter.OnEnd | disposer/src/main/java/com/lemon/http/disposer/impl/EventActionDisposer.kt:40-47 | passed on, then an end action runs and is cleared |
| EventActionDisposers.EventActionAccepter.OnError | disposer/src/main/java/com/lemon/http/disposer/impl/EventActionDisposer.kt:49-55 | passed on, then an error action runs |
| EventActionDisposers.EventActionAccepter.Accept | disposer/src/main/java/com/lemon/http/disposer/impl/EventActionDisposer.kt:28-55 | one callback's step, as Step states |
| EventActionDisposers.EventActionDisposer.constructor | disposer/src/main/java/com/lemon/http/disposer/impl/EventActionDisposer.kt:11-14 | holds the upstream and the action |
| EventActionDisposers.EventActionDisposer.Transmit | disposer/src/main/java/com/lemon/http/disposer/impl/EventActionDisposer.kt:16-18 | without an upstream nothing happens; otherwise the upstream's callbacks go through a new accepter |
| EventActionDisposers.EventActionDisposer.CancelAsWritten | disposer/src/main/java/com/lemon/http/disposer/impl/EventActionDisposer.kt:90-96 | as written, the end action runs on cancel even after a normal end |
| EventActionDisposers.EventActionDisposer.Cancel | disposer/src/main/java/com/lemon/http/disposer/impl/EventActionDisposer.kt:90-96 | corrected: the end action runs on cancel only when no end has run |
| EventActionDisposers.ForwardsThenMatching | disposer/src/main/java/com/lemon/http/disposer/impl/EventActionDisposer.kt:28-55 | each callback is passed on and then only the matching kind of action runs |
| EventActionDisposers.PassesEverythingOn | disposer/src/main/java/com/lemon/http/disposer/impl/EventActionDisposer.kt:28-55 | every callback reaches the downstream, in order |
| EventActionDisposers.EndActionOnce | disposer/src/main/java/com/lemon/http/disposer/impl/EventActionDisposer.kt:40-47 | through one accepter, the end action runs at most once |
| EventActionDisposers.CancelAfterEndRunsTwice | disposer/src/main/java/com/lemon/http/disposer/impl/EventActionDisposer.kt:90-96 | as written, a normal end and then cancel run the end action twice |
| EventActionDisposers.CancelRunsEndActionAtMostOnce | disposer/src/main/java/com/lemon/http/disposer/impl/EventActionDisposer.kt:40-47 | corrected, the end action runs at most once, cancel included |
| ConvertDisposers.EventActionAdapterAccepter.Accept | disposer/src/main/java/com/lemon/http/disposer/impl/ConvertDisposer.kt:50-65 | calls and errors are passed on; start and end are dropped |
| ConvertDisposers.ConvertAccepter.Call | disposer/src/main/java/com/lemon/http/disposer/impl/ConvertDisposer.kt:37-39 | the block's disposer is transmitted to an adapter; without a block, nothing |
| ConvertDisposers.ConvertAccepter.Accept | disposer/src/main/java/com/lemon/http/disposer/impl/AbstractEventActionAccepter.kt:15-31 | start, end and error pass through; a call goes to the block |
| ConvertDisposers.ConvertAccepter.AcceptAll | disposer/src/main/java/com/lemon/http/disposer/impl/ConvertDisposer.kt:17-24 | the upstream's callbacks in order, as Converted states |
| ConvertDisposers.ConvertAccepter.Cancel | disposer/src/main/java/com/lemon/http/disposer/impl/ConvertDisposer.kt:41-43 | drops the block |
| ConvertDisposers.ConvertDisposer.Transmit | disposer/src/main/java/com/lemon/http/disposer/impl/ConvertDisposer.kt:17-24 | without an upstream nothing happens; otherwise a new accepter is kept and receives the upstream's callbacks |
| ConvertDisposers.ConvertDisposer.Cancel | disposer/src/main/java/com/lemon/http/disposer/impl/ConvertDisposer.kt:67-73 | cancels and drops the upstream, and drops the block and the accepter's block |
| ConvertDisposers.InnerStartAndEndDropped | disposer/src/main/java/com/lemon/http/disposer/impl/ConvertDisposer.kt:50-65 | of the inner disposer, only calls and errors reach the application |
| ConvertDisposers.OnlyUpstreamStartsAndEnds | disposer/src/main/java/com/lemon/http/disposer/impl/ConvertDisposer.kt:32-65 | the application sees exactly the upstream's starts and ends |
| ConvertDisposers.CancelledAccepterDropsCalls | disposer/src/main/java/com/lemon/http/disposer/impl/ConvertDisposer.kt:41-43 | without its block, the accepter drops every call |
| ConvertDisposers.ConvertedCreateDisposer | disposer/src/main/java/com/lemon/http/disposer/impl/ConvertDisposer.kt:37-39 | converting a normal-mode CreateDisposer shows one start and one end |
| LifecycleDisposers.UiLifecycleObserver.EventOnChange | disposer/src/main/java/com/lemon/http/disposer/impl/LifecycleDisposer.kt:85-97 | cancels only on the bound event, and only once |
| LifecycleDisposers.LifecycleAccepter.Pass | disposer/src/main/java/com/lemon/http/disposer/impl/LifecycleDisposer.kt:67-71 | passes a callback on while a downstream is held |
| LifecycleDisposers.LifecycleAccepter.OnEnd | disposer/src/main/java/com/lemon/http/disposer/impl/LifecycleDisposer.kt:73-79 | a normal end removes the observer; any end drops the downstream |
| LifecycleDisposers.LifecycleAccepter.Accept | disposer/src/main/java/com/lemon/http/disposer/impl/LifecycleDisposer.kt:67-80 | one callback's step |
| LifecycleDisposers.LifecycleDisposer.constructor | disposer/src/main/java/com/lemon/http/disposer/impl/LifecycleDisposer.kt:14-28 | the observer is registered on construction |
| LifecycleDisposers.LifecycleDisposer.RemoveObserver | disposer/src/main/java/com/lemon/http/disposer/impl/LifecycleDisposer.kt:57-62 | the observer is unregistered and dropped |
| LifecycleDisposers.LifecycleDisposer.Transmit | disposer/src/main/java/com/lemon/http/disposer/impl/LifecycleDisposer.kt:31-38 | wraps the accepter only while the upstream exists |
| LifecycleDisposers.LifecycleDisposer.Cancel | disposer/src/main/java/com/lemon/http/disposer/impl/LifecycleDisposer.kt:46-52 | removes the observer, sends an end (Cancel) downstream, then cancels and drops the upstream |
| LifecycleDisposers.AtMostOneEnd | disposer/src/main/java/com/lemon/http/disposer/impl/LifecycleDisposer.kt:67-80 | at most one end reaches the downstream |
| LifecycleDisposers.EndOnceWithCancel | disposer/src/main/java/com/lemon/http/disposer/impl/LifecycleDisposer.kt:46-52 | cancel after the upstream's callbacks adds no second end |
| LifecycleDisposers.CancelTwice | disposer/src/main/java/com/lemon/http/disposer/impl/LifecycleDisposer.kt:46-52 | a second cancel sends no second end |
| Lemons.RealCall | lemon/src/main/java/com/lemon/http/Lemon.kt:106-108 | the transport interceptor over the client |
| Lemons.BuildCheck | lemon/src/main/java/com/lemon/http/Lemon.kt:97-103 | build passes iff the URL is set and is HTTP; each failure has its own message |
| Lemons.Lemon.constructor | lemon/src/main/java/com/lemon/http/Lemon.kt:20-27 | holds the URL, the finders and the chain, with an empty method cache |
| Lemons.Builder.SetApiUrl | lemon/src/main/java/com/lemon/http/Lemon.kt:70 | sets the URL |
| Lemons.Builder.AddApiAdapterFactory | lemon/src/main/java/com/lemon/http/Lemon.kt:75-77 | appends the factory |
| Lemons.Builder.AddConverterFactory | lemon/src/main/java/com/lemon/http/Lemon.kt:82-83 | appends the factory |
| Lemons.Builder.AddInterceptor | lemon/src/main/java/com/lemon/http/Lemon.kt:88-89 | appends the interceptor after the earlier ones |
| Lemons.Builder.SetHttpClient | lemon/src/main/java/com/lemon/http/Lemon.kt:94 | sets the client |
| Lemons.Builder.Build | lemon/src/main/java/com/lemon/http/Lemon.kt:96-116 | fails and changes nothing on a bad URL; otherwise appends the transport, using the default client when none is set, and builds the finders over the builder's lists |
| Lemons.BuiltChainShape | lemon/src/main/java/com/lemon/http/Lemon.kt:106-108 | the interceptors in the order they were added, then the transport; no request runs past the end |
| Lemons.TransparentInterceptorsReachClient | lemon/src/main/java/com/lemon/http/Lemon.kt:106-115 | with pass-through interceptors, a built Lemon answers what the client answers |
| Lemons.BuildTwice | lemon/src/main/java/com/lemon/http/Lemon.kt:96-116 | building twice appends a second transport and a second built-in converter factory |

## Left out

- Sockets and I/O. The transport (`LemonClient`, HttpURLConnection) is a
  parameter `lemonClient` of type `Request -> Result<Response>`. Streams are
  byte sinks.
- The GZIP and the logging interceptors. The chain itself and the
  `Interceptor` contract are modelled.
- An interceptor calls `proceed` at most once, because an `Action` either
  forwards one request or replies. An interceptor that retries by calling
  `proceed` twice is outside the model.
- Randomness. The multipart boundary that `getRandomUUID32` draws is a
  parameter.
- Reflection.
  - Annotations, parameter types and methods are plain records.
  - Method identity is a value (`MethodDecl`).
  - `Lemon.create`, the dynamic proxy and `ApiMethod.invoke` are left out.
- Threads and the UI scheduler. `runUiThread` is immediate, and the UI
  lifecycle is a class with an observer list. `ConcurrentHashMap` and
  `synchronized` become a plain map.
- Charsets. Strings are encoded as UTF-8 only, so `getCharset` always ends in
  UTF-8. Case folding covers ASCII letters only.
- The eighth argument, `isMultipart`, of the builder call in
  `buildRequest` (lemon/src/main/java/com/lemon/core/apimethod/ApiMethodParser.kt:47-56).
  The model reads that call as the seven-parameter `RequestFactory`
  constructor, and nothing reads the flag.
- Aliasing of header value lists. `Headers.Builder.build` returns
  `headerMap.toMap()`, and `Headers.Builder.copy` fills the new builder with
  `putAll`; both share the value lists with the original builder. With the
  parser's shared builder, a later `add` would change the headers of a
  request built earlier. The model's entries are values, so `Build` and
  `Copy` copy the lists instead.
- The Host value. The `host:port` text that `addDefaultHeaders` computes
  from the URL is a parameter `authority`, so the source's `host:-1` for a
  URL without an explicit port is not modelled.
- User converters and adapters are abstract functions, identified by name.
- Exceptions thrown by an application's accepter are not modelled. Neither
  are an application's doStart, doEnd and doError blocks beyond the fact that
  they ran.
- Upstream disposers are `Source` objects that deliver a fixed script of
  callbacks. `CreateDisposer`'s `onEnd()` with no state is an end in the
  Normal state.
- Chunked writes of the same bytes are not modelled. A write of a buffer and
  a write of its pieces give the same bytes.
- ApiMethodParsers.ApiMethodParser.ParseParameter: after a failed parse, the
  parser's remaining fields are not specified. The failure propagates to the
  caller, which discards the parser.
- Bodies.Measure: Kotlin `Long` overflow of a length is not modelled.
- HeaderMaps.HeadersBuilder.Set: follows the corrected header removal; the source's `remove` throws ConcurrentModificationException when the key sits in an entry other than the last (SetAsWrittenThrows), and that throw is not modelled here.
- HeaderMaps.HeadersBuilder.SetList: follows the corrected header removal; the source's `remove` throws ConcurrentModificationException when the key sits in an entry other than the last (SetAsWrittenThrows), and that throw is not modelled here.
- HeaderMaps.HeadersBuilder.SetAll: follows the corrected header removal; the source's `remove` throws ConcurrentModificationException when the key sits in an entry other than the last (SetAsWrittenThrows), and that throw is not modelled here.
- Requests.RequestBuilder.SetHeader: follows the corrected header removal; the source's `remove` throws ConcurrentModificationException when the key sits in an entry other than the last (SetAsWrittenThrows), and that throw is not modelled here.
- Requests.RequestBuilder.RemoveHeader: follows the corrected header removal; the source's `remove` throws ConcurrentModificationException when the key sits in an entry other than the last (SetAsWrittenThrows), and that throw is not modelled here.
- RequestFactories.RequestFactory.SetHeader: follows the corrected header removal; the source's `remove` throws ConcurrentModificationException when the key sits in an entry other than the last (SetAsWrittenThrows), and that throw is not modelled here.
- RequestFactories.RequestFactory.RemoveHeader: follows the corrected header removal; the source's `remove` throws ConcurrentModificationException when the key sits in an entry other than the last (SetAsWrittenThrows), and that throw is not modelled here.
- Clients.AddDefaultHeaders: follows the corrected header removal; the source's `remove` throws ConcurrentModificationException when the key sits in an entry other than the last (SetAsWrittenThrows), and that throw is not modelled here.
- Clients.PutDefaults: follows the corrected header removal; the source's `remove` throws ConcurrentModificationException when the key sits in an entry other than the last (SetAsWrittenThrows), and that throw is not modelled here.
- Clients.PutBodyHeaders: follows the corrected header removal; the source's `remove` throws ConcurrentModificationException when the key sits in an entry other than the last (SetAsWrittenThrows), and that throw is not modelled here.
- Clients.PutDropping: follows the corrected header removal; the source's `remove` throws ConcurrentModificationException when the key sits in an entry other than the last (SetAsWrittenThrows), and that throw is not modelled here.
- Clients.BodyEntriesEffect: follows the corrected header removal; the source's `remove` throws ConcurrentModificationException when the key sits in an entry other than the last (SetAsWrittenThrows), and that throw is not modelled here.
- Clients.WithBody: follows the corrected header removal; the source's `remove` throws ConcurrentModificationException when the key sits in an entry other than the last (SetAsWrittenThrows), and that throw is not modelled here; in the body stage this throws for a request whose headers already hold Content-Type, as ContentTypeSetThrowsAsWritten states.
- Bodies.Write: uses the corrected part length line; as written the line is left out for a part of length 1 and reads `Content-Length: -1` for an unknown length (LengthOneOmittedAsWritten).
- Bodies.Measure: uses the corrected part length line; as written the line is left out for a part of length 1 and reads `Content-Length: -1` for an unknown length (LengthOneOmittedAsWritten).
- Bodies.WriteContent: uses the corrected part length line; as written the line is left out for a part of length 1 and reads `Content-Length: -1` for an unknown length (LengthOneOmittedAsWritten).
- Bodies.WriteParts: uses the corrected part length line; as written the line is left out for a part of length 1 and reads `Content-Length: -1` for an unknown length (LengthOneOmittedAsWritten).
- Bodies.WritePart: uses the corrected part length line; as written the line is left out for a part of length 1 and reads `Content-Length: -1` for an unknown length (LengthOneOmittedAsWritten).
- Bodies.MeasureContent: uses the corrected part length line; as written the line is left out for a part of length 1 and reads `Content-Length: -1` for an unknown length (LengthOneOmittedAsWritten).
- Bodies.RequestBody.WriteTo: uses the corrected part length line; as written the line is left out for a part of length 1 and reads `Content-Length: -1` for an unknown length (LengthOneOmittedAsWritten).
- Bodies.RequestBody.ContentLength: uses the corrected part length line; as written the line is left out for a part of length 1 and reads `Content-Length: -1` for an unknown length (LengthOneOmittedAsWritten).
- Bodies.MultipartLayout: uses the corrected part length line; as written the line is left out for a part of length 1 and reads `Content-Length: -1` for an unknown length (LengthOneOmittedAsWritten).
- Bodies.PartLayout: uses the corrected part length line; as written the line is left out for a part of length 1 and reads `Content-Length: -1` for an unknown length (LengthOneOmittedAsWritten).
- ApiMethodParsers.ApiMethodParser.ParseMethodAnnotation: splits `@Api` header lines with the corrected HeaderLine; as written `"abc: "` gives `("abc", "")` and `" abc:d"` gives `("ab", ":d")`.
- ApiMethodParsers.ApiMethodParser.ParseApiAnnotation: splits `@Api` header lines with the corrected HeaderLine; as written `"abc: "` gives `("abc", "")` and `" abc:d"` gives `("ab", ":d")`.
- ApiMethodParsers.ApiMethodParser.AddHeaderLines: splits `@Api` header lines with the corrected HeaderLine; as written `"abc: "` gives `("abc", "")` and `" abc:d"` gives `("ab", ":d")`.
- ApiMethodParsers.NewApiMethodParser: splits `@Api` header lines with the corrected HeaderLine; as written `"abc: "` gives `("abc", "")` and `" abc:d"` gives `("ab", ":d")`.
- The `.` of `PATH_TRAVERSAL` excludes the line terminators, which are
  modelled as `\n`, `\r`, U+0085, U+2028 and U+2029, which is Java's set.

## Findings

| source | as written | input that shows it | evidently intended | confidence | as-written member | corrected member |
|---|---|---|---|---|---|---|
| core/src/main/java/com/lemon/core/request/Headers.kt:135-141 | `remove` removes from the map while iterating over its entries, so the iterator throws ConcurrentModificationException when the removed entry is not the last | entries [Content-Type, Host], `remove("content-type")` | every entry equal ignoring case is removed and the others are kept | not executed | HeaderMaps.RemoveAsWrittenExample | HeaderMaps.HeadersBuilder.Remove |
| lemon/src/main/java/com/lemon/core/apimethod/ApiMethodParser.kt:129-138 | the `:` index is taken on the trimmed header but the cut is made on the untrimmed one (and the end test uses the untrimmed length) | header " abc:d" gives name "ab" and value ":d"; "abc: " is accepted with an empty value | cut the trimmed header at its own `:` | not executed | ApiMethodParsers.HeaderLineAsWrittenCutsEarly | ApiMethodParsers.CorrectedCut |
| lemon/src/main/java/com/lemon/http/request/body/MultipartBody.kt:87-91 | the Content-Length line is left out when the length is 1 | a part whose body is a single byte | leave the line out only for an unknown length, -1 | not executed | Bodies.LengthOneOmittedAsWritten | Bodies.LengthLineKnown |
| lemon/src/main/java/com/lemon/core/apimethod/ApiMethodParser.kt:45-65 | the parser's single `headersBuilder` is handed to every request factory, so `@ApiHeader` values from earlier calls of a cached method stay | two calls with header values v1 and then v2 give [v1, v2] | each call starts from the method's own headers | not executed | ApiMethodParsers.HeadersAccumulateAsWritten | ApiMethodParsers.ApiMethodParser.BuildRequest |
| disposer/src/main/java/com/lemon/http/disposer/impl/EventActionDisposer.kt:90-96 | `cancel` runs the end action even after the accepter ran it at a normal end, because the accepter clears only its own copy of the action | start, call, a normal end, then cancel | the end action runs at most once | not executed | EventActionDisposers.CancelAfterEndRunsTwice | EventActionDisposers.CancelRunsEndActionAtMostOnce |
| tubehttp/src/main/java/com/tube/http/request/ContentType.kt:83-85 | the separator test looks at the parameter value and the attribute instead of the media type's text, so a text ending with `;` gets `;;` and the parser stops before the new pair | "text/plain;" plus charset=utf-8 keeps no parameter | add `;` only when the text does not already end with one | not executed | MediaTypes.AddParameterAsWrittenLosesCharset | MediaTypes.AddParameterAfterSemicolon |
| lemon/src/main/java/com/lemon/core/apimethod/ApiMethodParser.kt:59-62 | argument `i` is given to the `i`-th handler, but a parameter with an unknown annotation gets no handler, so later arguments shift | parameters (unknown annotation, `@ApiField`) with arguments x and y put x into the field | each handler gets its own parameter's argument | not executed | ApiMethodParsers.OtherAnnotationShiftsArguments | ApiMethodParsers.AsWrittenAgreesWhenAligned |
