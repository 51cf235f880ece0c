/** `RequestFactory` (lemon/.../core/request/RequestFactory.kt): the parameter
    handlers fill it in — path parameters substituted into the relative path
    under a path-traversal guard, form fields and multipart parts collected —
    and `build()` picks the URL and the body of the request. */
module RequestFactories {
  import opened Wrappers
  import opened Text
  import opened HeaderMaps
  import opened Bodies
  import opened HttpMethods
  import opened Urls
  import opened Requests

  // -----------------------------------------------------------------------
  // The path-traversal guard `(.*/)?(\.|%2e|%2E){1,2}(/.*)?`, matched
  // against the whole path (`matcher(path).matches()`).

  /** The characters `.` of java.util.regex does not match. */
  predicate IsLineTerminator(c: char) {
    c == '\n' || c == '\r' || c == '\U{0085}' || c == '\U{2028}' || c == '\U{2029}'
  }

  /** `.*`: a run of characters none of which ends a line. */
  predicate AnyRun(s: string) {
    forall i :: 0 <= i < |s| ==> !IsLineTerminator(s[i])
  }

  /** `\.|%2e|%2E`. */
  predicate IsDotToken(t: string) {
    t == "." || t == "%2e" || t == "%2E"
  }

  /** `(\.|%2e|%2E){1,2}`. */
  predicate IsDots(d: string) {
    IsDotToken(d) || exists m :: 0 < m < |d| && IsDotToken(d[..m]) && IsDotToken(d[m..])
  }

  /** The optional leading group: any one-line text ending with a slash. */
  predicate PrefixGroup(p: string) {
    p == [] || (p[|p| - 1] == '/' && AnyRun(p[..|p| - 1]))
  }

  /** The optional trailing group: a slash, then any one-line text. */
  predicate SuffixGroup(q: string) {
    q == [] || (q[0] == '/' && AnyRun(q[1..]))
  }

  /** `PATH_TRAVERSAL.matcher(s).matches()`. */
  predicate MatchesTraversal(s: string) {
    exists i, j :: 0 <= i <= j <= |s| && PrefixGroup(s[..i]) && IsDots(s[i..j]) && SuffixGroup(s[j..])
  }

  /** `s.split("/")`: the texts between slashes, empty ones included. */
  function Segments(s: string): (r: seq<string>)
    ensures r != []
    decreases |s|
  {
    if s == [] then [[]]
    else
      var rest := Segments(s[1..]);
      if s[0] == '/' then [[]] + rest else [[s[0]] + rest[0]] + rest[1..]
  }

  /** Splitting on `/` loses nothing: the segments joined by `/` give the
      path back. */
  lemma {:induction false} SegmentsJoin(s: string)
    ensures Join(Segments(s), "/") == s
    decreases |s|
  {
    if s != [] {
      var rest := Segments(s[1..]);
      SegmentsJoin(s[1..]);
      if s[0] == '/' {
        assert ([[]] + rest)[1..] == rest;
      } else {
        var r := Segments(s);
        assert r[0] == [s[0]] + rest[0];
        if |rest| > 1 {
          assert r[1..] == rest[1..];
        }
      }
    }
  }

  /** The guard rejects exactly the single-line paths one of whose
      `/`-separated segments is `.` or `..`, in any mix of `.`, `%2e` and
      `%2E`. */
  lemma TraversalIff(s: string)
    ensures MatchesTraversal(s) <==>
      AnyRun(s) && exists k :: 0 <= k < |Segments(s)| && IsDots(Segments(s)[k])
  {
    if MatchesTraversal(s) {
      var i, j :| 0 <= i <= j <= |s| && PrefixGroup(s[..i]) && IsDots(s[i..j]) && SuffixGroup(s[j..]);
      var k := TraversalSegment(s, i, j);
    }
    if AnyRun(s) && exists k :: 0 <= k < |Segments(s)| && IsDots(Segments(s)[k]) {
      var k :| 0 <= k < |Segments(s)| && IsDots(Segments(s)[k]);
      SegmentTraversal(s, k);
    }
  }

  /** A match of the guard: the path is one line and the dots are a segment. */
  lemma TraversalSegment(s: string, i: nat, j: nat) returns (k: nat)
    requires i <= j <= |s| && PrefixGroup(s[..i]) && IsDots(s[i..j]) && SuffixGroup(s[j..])
    ensures AnyRun(s) && k < |Segments(s)| && IsDots(Segments(s)[k])
  {
    PrefixGroupAt(s, i);
    SuffixGroupAt(s, j);
    DotsChars(s[i..j]);
    assert forall x :: i <= x < j ==> s[x] == s[i..j][x - i];
    k := SegmentFound(s, i, j);
  }

  /** A one-line path with a dots segment matches the guard. */
  lemma SegmentTraversal(s: string, k: nat)
    requires AnyRun(s) && k < |Segments(s)| && IsDots(Segments(s)[k])
    ensures MatchesTraversal(s)
  {
    var i, j := SegmentBounds(s, k);
    PrefixGroupAt(s, i);
    SuffixGroupAt(s, j);
  }

  /** The leading group, read off the path itself. */
  lemma PrefixGroupAt(s: string, i: nat)
    requires i <= |s|
    ensures PrefixGroup(s[..i]) <==>
      i == 0 || (s[i - 1] == '/' && forall x :: 0 <= x < i - 1 ==> !IsLineTerminator(s[x]))
  {
    if i > 0 {
      assert s[..i][..i - 1] == s[..i - 1];
      assert forall x :: 0 <= x < i - 1 ==> s[..i - 1][x] == s[x];
    }
  }

  /** The trailing group, read off the path itself. */
  lemma SuffixGroupAt(s: string, j: nat)
    requires j <= |s|
    ensures SuffixGroup(s[j..]) <==>
      j == |s| || (s[j] == '/' && forall x :: j < x < |s| ==> !IsLineTerminator(s[x]))
  {
    if j < |s| {
      assert s[j..][1..] == s[j + 1..];
      assert forall x :: j < x < |s| ==> s[j + 1..][x - j - 1] == s[x];
    }
  }

  /** The characters a run of dot tokens is made of. */
  predicate IsDotChar(c: char) {
    c == '.' || c == '%' || c == '2' || c == 'e' || c == 'E'
  }

  lemma DotsChars(d: string)
    requires IsDots(d)
    ensures forall x :: 0 <= x < |d| ==> IsDotChar(d[x])
  {
    if !IsDotToken(d) {
      var m :| 0 < m < |d| && IsDotToken(d[..m]) && IsDotToken(d[m..]);
      forall x | 0 <= x < |d|
        ensures IsDotChar(d[x])
      {
        if x < m {
          assert d[x] == d[..m][x];
        } else {
          assert d[x] == d[m..][x - m];
        }
      }
    }
  }

  /** A slice of a suffix is a slice of the whole. */
  lemma SliceOfSuffix<T>(s: seq<T>, d: nat, i: nat, j: nat)
    requires d <= |s| && i <= j <= |s| - d
    ensures s[d..][i..j] == s[d + i..d + j]
    ensures i > 0 ==> s[d..][i - 1] == s[d + i - 1]
    ensures j < |s| - d ==> s[d..][j] == s[d + j]
  {
  }

  /** Where segment `k` sits in `s`: between two slashes, or an end. */
  lemma {:induction false} SegmentBounds(s: string, k: nat) returns (i: nat, j: nat)
    requires k < |Segments(s)|
    ensures i <= j <= |s| && s[i..j] == Segments(s)[k]
    ensures i == 0 <==> k == 0
    ensures i == 0 || s[i - 1] == '/'
    ensures j == |s| || s[j] == '/'
    decreases |s|
  {
    if s == [] {
      i, j := 0, 0;
    } else {
      var rest := Segments(s[1..]);
      if s[0] == '/' {
        if k == 0 {
          i, j := 0, 0;
        } else {
          var i', j' := SegmentBounds(s[1..], k - 1);
          SliceOfSuffix(s, 1, i', j');
          i, j := i' + 1, j' + 1;
        }
      } else {
        var i', j' := SegmentBounds(s[1..], k);
        SliceOfSuffix(s, 1, i', j');
        if k == 0 {
          i, j := 0, j' + 1;
          assert s[..j] == [s[0]] + s[1..][..j'];
        } else {
          i, j := i' + 1, j' + 1;
        }
      }
    }
  }

  /** The first segment runs up to the first slash. */
  lemma {:induction false} FirstSegment(s: string, j: nat)
    requires j <= |s| && (j == |s| || s[j] == '/')
    requires forall x :: 0 <= x < j ==> s[x] != '/'
    ensures Segments(s)[0] == s[..j]
  {
    if j > 0 {
      FirstSegment(s[1..], j - 1);
      assert s[..j] == [s[0]] + s[1..][..j - 1];
    }
  }

  /** A slash-free stretch between two slashes (or the ends) is a segment. */
  lemma {:induction false} SegmentFound(s: string, i: nat, j: nat) returns (k: nat)
    requires i <= j <= |s|
    requires i == 0 || s[i - 1] == '/'
    requires j == |s| || s[j] == '/'
    requires forall x :: i <= x < j ==> s[x] != '/'
    ensures k < |Segments(s)| && Segments(s)[k] == s[i..j]
    ensures k == 0 <==> i == 0
    decreases |s|
  {
    if i == 0 {
      FirstSegment(s, j);
      k := 0;
    } else {
      SliceOfSuffix(s, 1, i - 1, j - 1);
      var k' := SegmentFound(s[1..], i - 1, j - 1);
      if s[0] == '/' {
        k := k' + 1;
      } else {
        k := k';
      }
    }
  }

  // -----------------------------------------------------------------------
  // Path parameters

  /** `"{$name}"`. */
  function Placeholder(name: string): (r: string)
    ensures r != [] && r[0] == '{'
  {
    "{" + name + "}"
  }

  /** The relative path after `addPathParam(name, value, encode)`: every
      placeholder replaced by the value, URL-encoded only when asked. */
  function Substituted(path: string, name: string, value: string, encode: bool): string {
    ReplaceAll(path, Placeholder(name), if encode then UrlEncode(value) else value)
  }

  const TraversalMessage := "@ApiPath parameters shouldn't perform path traversal ('.' or '..'):"

  /** A template written as pieces around its placeholders, none of which
      holds a `{`, has every placeholder replaced and nothing else changed. */
  lemma {:induction false} SubstitutesEvery(pieces: seq<string>, name: string, value: string, encode: bool)
    requires forall k :: 0 <= k < |pieces| ==> '{' !in pieces[k]
    ensures Substituted(Join(pieces, Placeholder(name)), name, value, encode)
         == Join(pieces, if encode then UrlEncode(value) else value)
  {
    ReplaceAllJoin(pieces, Placeholder(name), if encode then UrlEncode(value) else value);
  }

  lemma {:induction false} ReplaceAllJoin(pieces: seq<string>, target: string, v: string)
    requires target != []
    requires forall k :: 0 <= k < |pieces| ==> target[0] !in pieces[k]
    ensures ReplaceAll(Join(pieces, target), target, v) == Join(pieces, v)
  {
    if |pieces| == 1 {
      ReplaceSkip(pieces[0], [], target, v);
      assert pieces[0] + [] == pieces[0];
    } else if |pieces| > 1 {
      var rest := Join(pieces[1..], target);
      ReplaceSkip(pieces[0], target + rest, target, v);
      assert (target + rest)[..|target|] == target;
      assert (target + rest)[|target|..] == rest;
      ReplaceAllJoin(pieces[1..], target, v);
      assert Join(pieces, target) == pieces[0] + (target + rest);
    }
  }

  /** Text before which the first character of the target never occurs is
      copied as it is. */
  lemma {:induction false} ReplaceSkip(p: string, x: string, target: string, v: string)
    requires target != [] && target[0] !in p
    ensures ReplaceAll(p + x, target, v) == p + ReplaceAll(x, target, v)
    decreases |p|
  {
    if p != [] {
      var s := p + x;
      if |s| >= |target| {
        assert s[..|target|][0] == p[0];
        assert s[1..] == p[1..] + x;
        ReplaceSkip(p[1..], x, target, v);
        assert [p[0]] + p[1..] == p;
      } else {
        assert |x| < |target|;
      }
    } else {
      assert p + x == x;
    }
  }

  // -----------------------------------------------------------------------
  // Query string and URL

  /** `appendQueryParams`: the query after the URL, joined by `?` when the
      URL has none, by nothing when its first `?` is its last character,
      and by `&` otherwise. */
  function WithQuery(url: string, query: string): string {
    var i := IndexOf(url, '?');
    if i == -1 then url + "?" + query
    else if i == |url| - 1 then url + query
    else url + "&" + query
  }

  /** The first `c` of `s` is at `k`. */
  lemma FirstIndex(s: string, c: char, k: nat)
    requires k < |s| && s[k] == c && c !in s[..k]
    ensures IndexOf(s, c) == k
  {
    var r := IndexOf(s, c);
    assert s[k] in s;
    assert forall x :: 0 <= x < k ==> s[x] == s[..k][x];
    assert forall x :: 0 <= x < r ==> s[x] == s[..r][x];
  }

  /** The text before the first `?`. */
  function PathPart(u: string): string {
    var i := IndexOf(u, '?');
    if i == -1 then u else u[..i]
  }

  /** The text after the first `?`, if there is one. */
  function QueryPart(u: string): Option<string> {
    var i := IndexOf(u, '?');
    if i == -1 then None else Some(u[i + 1..])
  }

  /** Appending a query keeps the path and adds the query as the last
      parameters: it becomes the whole query when there was none (or an
      empty one), and follows the old one after a single `&` otherwise. */
  lemma WithQueryAppends(url: string, query: string)
    ensures PathPart(WithQuery(url, query)) == PathPart(url)
    ensures QueryPart(WithQuery(url, query)) ==
      Some(if QueryPart(url).None? || QueryPart(url) == Some([]) then query
           else QueryPart(url).value + "&" + query)
  {
    var i := IndexOf(url, '?');
    var r := WithQuery(url, query);
    if i == -1 {
      var tail := "?" + query;
      assert r == url + tail;
      ConcatSlices(url, tail, |url|);
      FirstIndex(r, '?', |url|);
      assert r[|url| + 1..] == query;
    } else {
      var tail := if i == |url| - 1 then query else "&" + query;
      assert r == url + tail;
      ConcatSlices(url, tail, i);
      ConcatSlices(url, tail, i + 1);
      FirstIndex(r, '?', i);
      assert QueryPart(r) == Some(url[i + 1..] + tail);
      if i == |url| - 1 {
        assert url[i + 1..] == [];
      } else {
        assert url[i + 1..] != [];
        assert url[i + 1..] + tail == url[i + 1..] + "&" + query;
      }
    }
  }

  /** Slicing a concatenation inside its first part. */
  lemma ConcatSlices(a: string, b: string, n: nat)
    requires n <= |a|
    ensures (a + b)[..n] == a[..n] && (a + b)[n..] == a[n..] + b
    ensures n < |a| ==> (a + b)[n] == a[n]
  {
  }

  /** The URL `build()` starts from. */
  function SelectUrl(apiUrl: string, serviceUrlPath: string, relativePath: string): string {
    if IsHttpProtocol(relativePath) then relativePath
    else if IsHttpProtocol(serviceUrlPath) then AppendedPath(serviceUrlPath, [relativePath])
    else AppendedPath(apiUrl, [serviceUrlPath, relativePath])
  }

  /** An absolute relative path is the URL; otherwise the relative path ends
      the URL, after the absolute service path or, failing that, after the
      API URL and the service path; and an HTTP API URL makes every URL an
      HTTP one. */
  lemma SelectUrlShape(apiUrl: string, serviceUrlPath: string, relativePath: string)
    ensures var r := SelectUrl(apiUrl, serviceUrlPath, relativePath);
      (IsHttpProtocol(relativePath) ==> r == relativePath)
      && (!IsHttpProtocol(relativePath) && IsHttpProtocol(serviceUrlPath) ==>
            StartsWith(r, serviceUrlPath) && EndsWith(r, relativePath))
      && (!IsHttpProtocol(relativePath) && !IsHttpProtocol(serviceUrlPath) ==>
            StartsWith(r, apiUrl) && EndsWith(r, serviceUrlPath + relativePath))
      && (IsHttpProtocol(apiUrl) ==> IsHttpProtocol(r))
  {
    var r := SelectUrl(apiUrl, serviceUrlPath, relativePath);
    if !IsHttpProtocol(relativePath) {
      if IsHttpProtocol(serviceUrlPath) {
        JoinSingle(relativePath);
        PathEnds(serviceUrlPath, [relativePath], relativePath);
        AppendedPathShape(serviceUrlPath, [relativePath]);
        PrefixKeepsHttp(serviceUrlPath, r);
      } else {
        JoinPair(serviceUrlPath, relativePath);
        PathEnds(apiUrl, [serviceUrlPath, relativePath], serviceUrlPath + relativePath);
        AppendedPathShape(apiUrl, [serviceUrlPath, relativePath]);
        PrefixKeepsHttp(apiUrl, r);
      }
    }
  }

  lemma PathEnds(base: string, paths: seq<string>, tail: string)
    requires Join(paths, "") == tail
    ensures EndsWith(AppendedPath(base, paths), tail)
  {
    var r := AppendedPath(base, paths);
    assert r[|r| - |tail|..] == tail;
  }

  lemma JoinSingle(a: string)
    ensures Join([a], "") == a
  {
  }

  lemma JoinPair(a: string, b: string)
    ensures Join([a, b], "") == a + b
  {
    assert [a, b][1..] == [b];
  }

  lemma PrefixKeepsHttp(base: string, r: string)
    requires StartsWith(r, base)
    ensures IsHttpProtocol(base) ==> IsHttpProtocol(r)
  {
    HttpProtocolIff(base);
    HttpProtocolIff(r);
    if StartsWithIgnoreCase(base, "http") {
      assert r[..4] == base[..4];
    }
  }

  // -----------------------------------------------------------------------
  // Body selection

  /** What `build()` does for the payload. */
  datatype Choice =
    | KeepBody                  // the body given with setBody
    | AsQuery(form: Content)    // a form on GET, appended to the URL
    | AsBody(content: Content)  // a form or multipart body built now
    | EmptyShared               // POST without payload: EMPTY_BODY
    | NoBody

  function Choose(hasBody: bool, form: Option<Content>, multipart: Option<Content>, m: HttpMethod): Choice {
    if hasBody then KeepBody
    else if form.Some? then (if m == GET then AsQuery(form.value) else AsBody(form.value))
    else if multipart.Some? then AsBody(multipart.value)
    else if m == POST then EmptyShared
    else NoBody
  }

  /** The request ends up carrying a body. */
  predicate Carries(c: Choice) {
    c.KeepBody? || c.AsBody? || c.EmptyShared?
  }

  /** The body choice: an explicit body always wins; a form goes into the
      query on GET and becomes the body on every other verb, shadowing any
      parts; parts are the body only without a form; a POST always carries
      a body; and every other verb without payload carries none. */
  lemma ChooseSpec(hasBody: bool, form: Option<Content>, multipart: Option<Content>, m: HttpMethod)
    ensures var c := Choose(hasBody, form, multipart, m);
      (c.KeepBody? <==> hasBody)
      && (c.AsQuery? <==> !hasBody && form.Some? && m == GET)
      && (c.AsQuery? ==> c.form == form.value)
      && (c.AsBody? ==> (form.Some? && c.content == form.value && m != GET)
                        || (form.None? && multipart.Some? && c.content == multipart.value))
      && (m == POST ==> Carries(c))
      && (Carries(c) <==> hasBody || (form.Some? && m != GET) || (form.None? && (multipart.Some? || m == POST)))
  {
  }

  /** The URL the request is sent to. */
  function TargetUrl(c: Choice, base: string): string {
    if c.AsQuery? && c.form.Form? && |c.form.encodedNames| <= |c.form.encodedValues| then
      WithQuery(base, FormText(c.form.encodedNames, c.form.encodedValues))
    else base
  }

  /** `appendQueryParams(relativeUrl, formBuilder)`. */
  method AppendQueryParams(relativeUrl: string, formBuilder: FormBuilder) returns (r: string)
    requires formBuilder.Valid()
    ensures r == WithQuery(relativeUrl, FormText(formBuilder.names, formBuilder.values))
  {
    var form := formBuilder.Build();
    var query := ConvertToQuery(form.encodedNames, form.encodedValues);
    var i := IndexOf(relativeUrl, '?');
    if i == -1 {
      r := relativeUrl + "?" + query.value;
    } else if i == |relativeUrl| - 1 {
      r := relativeUrl + query.value;
    } else {
      r := relativeUrl + "&" + query.value;
    }
  }

  // -----------------------------------------------------------------------
  // The factory

  /** How `addPart` sees its argument: a ready part, a file, a body, or any
      other object, added as the text of its `toString()`. */
  datatype PartValue =
    | PartObject(part: Part)
    | FileObject(fileName: string, data: seq<byte>)
    | BodyObject(body: RequestBody)
    | OtherObject(text: string)

  /** The part `addPart(name, encoding, value)` adds. */
  function PartFor(name: string, encoding: string, v: PartValue): (p: Part)
    ensures !v.PartObject? ==> p.name == name && p.encoding == Some(encoding)
    ensures v.PartObject? ==> p == v.part
    ensures v.FileObject? ==> p.fileName == Some(v.fileName) && p.body == FileData(None, v.fileName, v.data)
    ensures v.BodyObject? ==> p.fileName == None && p.body == v.body.content
    ensures v.OtherObject? ==> p.fileName == None && p.body == Bytes(Utf8(v.text), None, 0)
  {
    match v
    case PartObject(part) => part
    case FileObject(fileName, data) => FilePart(name, Some(encoding), None, fileName, data)
    case BodyObject(b) => Part(name, None, Some(encoding), b.content)
    case OtherObject(text) => Part(name, None, Some(encoding), CreateString(text, None))
  }

  /** What the parameter handlers can change in a factory, as a value: the
      relative path, the content of the body set so far, the header
      entries, the form fields and the parts (`None` while no builder
      exists). */
  datatype FactoryState = FactoryState(path: string, body: Option<Content>, headers: seq<Entry>,
                                       form: Option<Content>, multipart: Option<Content>)

  function FormNames(form: Option<Content>): seq<string> {
    if form.Some? && form.value.Form? then form.value.encodedNames else []
  }

  function FormValues(form: Option<Content>): seq<string> {
    if form.Some? && form.value.Form? then form.value.encodedValues else []
  }

  function PartList(multipart: Option<Content>): seq<Part> {
    if multipart.Some? && multipart.value.Multipart? then multipart.value.parts else []
  }

  /** The boundary of the multipart body, or the one a new builder gets. */
  function BoundaryOf(multipart: Option<Content>, drawn: string): string {
    if multipart.Some? && multipart.value.Multipart? then multipart.value.boundary else drawn
  }

  /** `addFormField` on the state. */
  function FieldAdded(s: FactoryState, name: string, value: string, encode: bool): FactoryState {
    s.(form := Some(Form(FormNames(s.form) + [name],
                         FormValues(s.form) + [if encode then UrlEncode(value) else value])))
  }

  /** `addPart` on the state; `boundary` is the one a new builder draws. */
  function PartAdded(s: FactoryState, boundary: string, p: Part): FactoryState {
    s.(multipart := Some(Multipart(BoundaryOf(s.multipart, boundary), PartList(s.multipart) + [p])))
  }

  /** `addHeader` on the state. */
  function HeaderAdded(s: FactoryState, key: string, value: string): FactoryState {
    s.(headers := AddValues(s.headers, key, [value]))
  }

  /** `addPathParam` on the state: the guard throws and keeps the path. */
  function PathParamAdded(s: FactoryState, name: string, value: string, encode: bool): (Outcome, FactoryState) {
    var path := Substituted(s.path, name, value, encode);
    if MatchesTraversal(path) then (Fail(IllegalArgument(TraversalMessage + value)), s)
    else (Done, s.(path := path))
  }

  /** The content of a request's body, if it has one. */
  function BodyContent(b: Option<RequestBody>): Option<Content> {
    if b.Some? then Some(b.value.content) else None
  }

  /** The body `build()` gives a request whose body so far had content
      `kept`. */
  function PlannedBody(c: Choice, kept: Option<Content>): Option<Content> {
    match c
    case KeepBody => kept
    case AsBody(content) => Some(content)
    case EmptyShared => Some(EmptyBody)
    case _ => None
  }

  /** Where `build()` sends a factory in state `s`, and the body it sends. */
  datatype Plan = Plan(url: string, body: Option<Content>)

  function Planned(s: FactoryState, apiUrl: string, serviceUrlPath: string, m: HttpMethod): Plan {
    var c := Choose(s.body.Some?, s.form, s.multipart, m);
    Plan(TargetUrl(c, SelectUrl(apiUrl, serviceUrlPath, s.path)), PlannedBody(c, s.body))
  }

  /** The `when (part)` of `addPart`: which builder method takes the value. */
  method AddPartTo(builder: MultipartBuilder, name: string, encoding: string, part: PartValue)
    modifies builder
    ensures builder.parts == old(builder.parts) + [PartFor(name, encoding, part)]
  {
    match part
    case PartObject(p) => builder.AddPart(p);
    case FileObject(fileName, data) => builder.AddFilePart(name, Some(encoding), None, fileName, data);
    case BodyObject(b) => builder.AddBodyPart(name, Some(encoding), b.content);
    case OtherObject(text) => builder.AddStringPart(name, Some(encoding), text);
  }

  class RequestFactory {
    const originService: string
    const originMethod: string
    const apiUrl: string
    const httpMethod: HttpMethod
    const serviceUrlPath: string
    var relativePath: string
    const headersBuilder: HeadersBuilder
    var body: Option<RequestBody>
    var formBuilder: FormBuilder?
    var multipartBuilder: MultipartBuilder?
    /** The boundary a new `MultipartBody.Builder` draws at random. */
    const boundary: string
    /** `RequestBody.EMPTY_BODY`: one object shared by every request. */
    const emptyBody: RequestBody

    ghost predicate Valid()
      reads this, headersBuilder, formBuilder
    {
      headersBuilder.Valid() && (formBuilder != null ==> formBuilder.Valid())
      && emptyBody.content == EmptyBody
    }

    /** The form fields added so far, as the form they make. */
    ghost function FormContent(): Option<Content>
      reads this, formBuilder
    {
      if formBuilder == null then None else Some(Form(formBuilder.names, formBuilder.values))
    }

    /** The parts added so far, as the multipart body they make. */
    ghost function MultipartContent(): Option<Content>
      reads this, multipartBuilder
    {
      if multipartBuilder == null then None else Some(Multipart(multipartBuilder.boundary, multipartBuilder.parts))
    }

    ghost function FieldNames(): seq<string>
      reads this, formBuilder
    {
      if formBuilder == null then [] else formBuilder.names
    }

    ghost function FieldValues(): seq<string>
      reads this, formBuilder
    {
      if formBuilder == null then [] else formBuilder.values
    }

    ghost function Parts(): seq<Part>
      reads this, multipartBuilder
    {
      if multipartBuilder == null then [] else multipartBuilder.parts
    }

    /** This factory as a `FactoryState`. */
    ghost function State(): FactoryState
      reads this, headersBuilder, formBuilder, multipartBuilder
    {
      FactoryState(relativePath, if body.Some? then Some(body.value.content) else None,
                   headersBuilder.entries, FormContent(), MultipartContent())
    }

    constructor(originService: string, originMethod: string, apiUrl: string, httpMethod: HttpMethod,
                serviceUrlPath: string, relativePath: string, headersBuilder: HeadersBuilder,
                boundary: string, emptyBody: RequestBody)
      requires headersBuilder.Valid() && emptyBody.content == EmptyBody
      ensures Valid()
      ensures this.originService == originService && this.originMethod == originMethod
      ensures this.apiUrl == apiUrl && this.httpMethod == httpMethod
      ensures this.serviceUrlPath == serviceUrlPath && this.relativePath == relativePath
      ensures this.headersBuilder == headersBuilder && this.boundary == boundary
      ensures this.emptyBody == emptyBody
      ensures body == None && formBuilder == null && multipartBuilder == null
    {
      this.originService := originService;
      this.originMethod := originMethod;
      this.apiUrl := apiUrl;
      this.httpMethod := httpMethod;
      this.serviceUrlPath := serviceUrlPath;
      this.relativePath := relativePath;
      this.headersBuilder := headersBuilder;
      this.boundary := boundary;
      this.emptyBody := emptyBody;
      body := None;
      formBuilder := null;
      multipartBuilder := null;
    }

    method SetHeader(key: string, value: string)
      requires Valid()
      modifies headersBuilder
      ensures Valid()
      ensures headersBuilder.entries == SetValues(old(headersBuilder.entries), key, [value])
    {
      headersBuilder.Set(key, value);
    }

    method AddHeader(key: string, value: string)
      requires Valid()
      modifies headersBuilder
      ensures Valid()
      ensures headersBuilder.entries == AddValues(old(headersBuilder.entries), key, [value])
      ensures State() == HeaderAdded(old(State()), key, value)
    {
      headersBuilder.Add(key, value);
    }

    method RemoveHeader(key: string)
      requires Valid()
      modifies headersBuilder
      ensures Valid()
      ensures headersBuilder.entries == RemoveKey(old(headersBuilder.entries), key)
    {
      headersBuilder.Remove(key);
    }

    /** `addPathParam(name, value, encode)`: the substituted path is kept
        unless the guard matches it, in which case the call throws and the
        path stays as it was. */
    method AddPathParam(name: string, value: string, encode: bool) returns (r: Outcome)
      requires Valid()
      modifies this
      ensures Valid()
      ensures var path := Substituted(old(relativePath), name, value, encode);
        if MatchesTraversal(path) then
          r == Fail(IllegalArgument(TraversalMessage + value)) && relativePath == old(relativePath)
        else
          r == Done && relativePath == path
      ensures body == old(body) && formBuilder == old(formBuilder) && multipartBuilder == old(multipartBuilder)
      ensures (r, State()) == PathParamAdded(old(State()), name, value, encode)
    {
      var encodedValue := if encode then UrlEncode(value) else value;
      var newUrlPath := ReplaceAll(relativePath, "{" + name + "}", encodedValue);
      if MatchesTraversal(newUrlPath) {
        return Fail(IllegalArgument(TraversalMessage + value));
      }
      relativePath := newUrlPath;
      r := Done;
    }

    /** `addFormField(name, value, encode)`: the form builder is created on
        first use; fields are kept in call order. */
    method AddFormField(name: string, value: string, encode: bool)
      requires Valid()
      modifies this, formBuilder
      ensures Valid()
      ensures formBuilder != null
      ensures old(formBuilder) == null ==> fresh(formBuilder)
      ensures old(formBuilder) != null ==> formBuilder == old(formBuilder)
      ensures FieldNames() == old(FieldNames()) + [name]
      ensures FieldValues() == old(FieldValues()) + [if encode then UrlEncode(value) else value]
      ensures relativePath == old(relativePath) && body == old(body) && multipartBuilder == old(multipartBuilder)
      ensures State() == FieldAdded(old(State()), name, value, encode)
    {
      if formBuilder == null {
        formBuilder := new FormBuilder();
      }
      formBuilder.Add(name, value, encode);
    }

    /** `addPart(name, encoding, part)`: the multipart builder is created on
        first use; parts are kept in call order. */
    method AddPart(name: string, encoding: string, part: PartValue)
      requires Valid()
      modifies this, multipartBuilder
      ensures Valid()
      ensures multipartBuilder != null && multipartBuilder.boundary == (if old(multipartBuilder) == null then boundary else old(multipartBuilder).boundary)
      ensures old(multipartBuilder) == null ==> fresh(multipartBuilder)
      ensures old(multipartBuilder) != null ==> multipartBuilder == old(multipartBuilder)
      ensures Parts() == old(Parts()) + [PartFor(name, encoding, part)]
      ensures relativePath == old(relativePath) && body == old(body) && formBuilder == old(formBuilder)
      ensures State() == PartAdded(old(State()), boundary, PartFor(name, encoding, part))
    {
      if multipartBuilder == null {
        multipartBuilder := new MultipartBuilder(boundary, []);
      }
      AddPartTo(multipartBuilder, name, encoding, part);
    }

    /** `setBody(body)`. */
    method SetBody(b: Option<RequestBody>)
      requires Valid()
      modifies this
      ensures Valid()
      ensures body == b
      ensures State() == old(State()).(body := if b.Some? then Some(b.value.content) else None)
      ensures relativePath == old(relativePath) && formBuilder == old(formBuilder) && multipartBuilder == old(multipartBuilder)
    {
      body := b;
    }

    /** The URL `build()` starts from: the relative path when it is
        absolute, else the paths appended to the service path or the API
        URL. */
    method BaseUrl() returns (u: string)
      ensures u == SelectUrl(apiUrl, serviceUrlPath, relativePath)
    {
      if IsHttpProtocol(relativePath) {
        u := relativePath;
      } else if IsHttpProtocol(serviceUrlPath) {
        u := AppendPath(serviceUrlPath, [relativePath]);
      } else {
        u := AppendPath(apiUrl, [serviceUrlPath, relativePath]);
      }
    }

    /** The payload step of `build()`: sets `body` as `Choose` says and
        returns the URL, with the form appended on GET. */
    method SettleBody(relativeUrl: string) returns (u: string)
      requires Valid()
      modifies this
      ensures Valid()
      ensures relativePath == old(relativePath) && formBuilder == old(formBuilder) && multipartBuilder == old(multipartBuilder)
      ensures var c := Choose(old(body).Some?, old(FormContent()), old(MultipartContent()), httpMethod);
        (c.KeepBody? ==> body == old(body))
        && (c.AsBody? ==> body.Some? && fresh(body.value) && body.value.content == c.content
                          && body.value.contentLength == -1)
        && (c.EmptyShared? ==> body == Some(emptyBody))
        && (c.AsQuery? || c.NoBody? ==> body == None)
        && u == TargetUrl(c, relativeUrl)
    {
      u := relativeUrl;
      if body.None? {
        if formBuilder != null {
          if httpMethod == GET {
            u := AppendQueryParams(relativeUrl, formBuilder);
          } else {
            var form := formBuilder.Build();
            var b := new RequestBody(form);
            body := Some(b);
          }
        } else if multipartBuilder != null {
          var parts := multipartBuilder.Build();
          var b := new RequestBody(parts);
          body := Some(b);
        } else if httpMethod == POST {
          body := Some(emptyBody);
        }
      }
    }

    /** `build()`: the URL from the paths, the payload by `Choose`, and the
        request from `Request.Builder`; a body built here stays in the
        factory's `body`. */
    method Build() returns (r: Result<Request>)
      requires Valid()
      modifies this
      ensures Valid()
      ensures relativePath == old(relativePath) && formBuilder == old(formBuilder) && multipartBuilder == old(multipartBuilder)
      ensures var c := Choose(old(body).Some?, old(FormContent()), old(MultipartContent()), httpMethod);
        (c.KeepBody? ==> body == old(body))
        && (c.AsBody? ==> body.Some? && fresh(body.value) && body.value.content == c.content
                          && body.value.contentLength == -1)
        && (c.EmptyShared? ==> body == Some(emptyBody))
        && (c.AsQuery? || c.NoBody? ==> body == None)
        && r == BuildRequest(originService, originMethod,
                             TargetUrl(c, SelectUrl(apiUrl, serviceUrlPath, relativePath)),
                             httpMethod, headersBuilder.entries, body)
      ensures r.Ok? <==> BuildHeaders(old(State()).headers).Ok?
      ensures r.Ok? ==> var p := Planned(old(State()), apiUrl, serviceUrlPath, httpMethod);
        r.value.url == p.url && BodyContent(r.value.body) == p.body
        && r.value.httpMethod == httpMethod && r.value.headers.entries == old(State()).headers
    {
      var relativeUrl := BaseUrl();
      relativeUrl := SettleBody(relativeUrl);
      var builder := new RequestBuilder(originService, originMethod, relativeUrl, httpMethod, headersBuilder, body);
      r := builder.Build();
    }
  }
}
