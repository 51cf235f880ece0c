/** `ApiMethodParser` (lemon/.../core/apimethod/ApiMethodParser.kt): reads the
    annotations of a service interface, of one of its methods and of that
    method's parameters, rejects the combinations the library does not
    support, and turns each annotated parameter into a parameter handler;
    `buildRequest` then runs the handlers on a fresh `RequestFactory`.

    Reflection is replaced by records: a service and a method are given by
    their names and annotations, a parameter by its annotations and by what
    the reflection helpers answer about its type. Each parsing step is
    stated once as a function (`ClassUrl`, `MethodParsed`, `ParamsParsed`),
    the parser's methods are proved to follow them, and the rules the
    source enforces are proved about those functions. */
module ApiMethodParsers {
  import opened Wrappers
  import opened Text
  import opened HeaderMaps
  import opened Bodies
  import opened HttpMethods
  import opened Requests
  import opened RequestFactories
  import opened ParameterHandlers
  import opened ConverterFinders

  // -----------------------------------------------------------------------
  // Annotations as records

  /** The annotations of a service interface: `@ApiUrl` or another one. */
  datatype ClassAnnotation = ApiUrl(value: string) | OtherClassAnnotation

  /** The annotations of a method: `@Api` or another one. */
  datatype MethodAnnotation =
    | Api(value: string, httpMethod: HttpMethod, isMultipart: bool, headers: seq<string>)
    | OtherMethodAnnotation

  /** The annotations of a parameter. */
  datatype ParamAnnotation =
    | ApiBody
    | ApiField(value: string, encoded: bool)
    | ApiHeader(value: string)
    | ApiPath(value: string, encoded: bool)
    | ApiPart(value: string, encoding: string)
    | OtherParamAnnotation

  /** A parameter's declared type, with the answers of the reflection
      helpers: `isMapParameterizedType`, `isInvalidGenericParameterType`,
      and `isInvalidParameterType` and `isPartType` of its raw type. */
  datatype ParamType = ParamType(ref: TypeRef, isMap: bool, invalidGeneric: bool, invalidRaw: bool, isPart: bool)

  datatype Parameter = Parameter(ptype: ParamType, annotations: seq<ParamAnnotation>)

  /** A service interface: its name and its annotations. */
  datatype ServiceDecl = ServiceDecl(name: string, annotations: seq<ClassAnnotation>)

  /** A method of a service: its `referenceName()`, annotations, parameters
      and generic return type. */
  datatype MethodDecl = MethodDecl(referenceName: string, annotations: seq<MethodAnnotation>,
                                   params: seq<Parameter>, returnType: TypeRef)

  // -----------------------------------------------------------------------
  // Messages
  //
  // Each message is the source's text, written as a concatenation of short
  // literals: the solver handles short pieces far more cheaply than one long
  // literal, and the text is the same.

  function ApiUrlTwice(service: string): Failure {
    IllegalArgument("Only one " + "@ApiUrl " + "annotation " + "can be " + "used!for " + "class:" + service)
  }

  function MultipartNotPost(m: string): Failure {
    IllegalArgument("When @Api's " + "isMultipart " + "property is " + "set to true, " + "the " + "httpMethod " + "property must " + "be POST!for " + "method:" + m)
  }

  function BadHeader(h: string, m: string): Failure {
    IllegalArgument("Check @Api " + "headers " + "format for " + h + "!for method:" + m)
  }

  /** A rejected parameter: the rule's text, then the method and the type. */
  function Rejected(text: string, m: string, t: TypeRef): Failure {
    IllegalArgument(text + "for method:" + m + ",typeName:" + TypeName(t))
  }

  const OneAnnotation := "Method " + "parameters " + "have one and " + "only one " + "annotation"
  const BodyWithMultipart := "@ApiBody " + "cannot be " + "used in " + "conjunction " + "with the " + "isMultipart " + "attribute of " + "the @Api!"
  const BodyWithField := "@ApiBody " + "cannot be " + "used with an " + "@ApiField!"
  const SecondBody := "Only one " + "@ApiBody can " + "be used for a " + "method!"
  const FieldWithBody := "@ApiField " + "cannot be " + "used with an " + "@ApiBody!"
  const FieldWithMultipart := "@Api cannot " + "use @ApiField " + "when the " + "isMultipart " + "property is " + "set to true, " + "use @ApiPart " + "instead!"
  const FieldMapNamed := "Map type " + "@ApiField " + "annotation " + "value must be " + "empty!"
  const FieldMapGeneric := "@ApiField Map " + "generic types " + "must be " + "defined " + "(e.g., " + "Map<String, " + "String>)!"
  const FieldUnnamed := "@ApiField " + "annotation " + "value cannot " + "be empty!"
  const FieldInvalid := "@ApiField " + "parameter " + "type is " + "invalid!"
  const HeaderMapNamed := "Map type " + "@ApiHeader " + "annotation " + "value must be " + "empty!"
  const HeaderMapGeneric := "@ApiHeader " + "Map generic " + "types must be " + "defined " + "(e.g., " + "Map<String, " + "String>)!"
  const HeaderUnnamed := "@ApiHeader " + "annotation " + "value cannot " + "be empty!"
  const HeaderInvalid := "@ApiHeader " + "parameter " + "type is " + "invalid!"
  const PathInvalid := "@ApiPath " + "parameter " + "type is " + "invalid!"
  const PartWithoutMultipart := "@ApiPart use " + "you must set " + "@Api's " + "isMultipart " + "property to " + "true\U{FF01}"
  const PartWithBody := "The @ApiBody " + "annotation " + "cannot be " + "used when the " + "@Api " + "isMultipart " + "property is " + "set to true\U{FF01}"
  const PartMapNamed := "Map type " + "@ApiPart " + "annotation " + "value must be " + "empty!"
  const PartMapGeneric := "@ApiPart Map " + "generic types " + "must be " + "defined " + "(e.g., " + "Map<String, " + "File>)!"
  const PartObjectNamed := "MultipartBody.Part " + "type @ApiPart " + "annotation " + "value must be " + "empty!"
  const PartInvalid := "@ApiPart " + "parameter " + "type is " + "invalid!"
  const PartUnnamed := "@ApiPart " + "value is " + "empty, the " + "parameter " + "type must be " + "MultipartBody.Part!"

  // -----------------------------------------------------------------------
  // The class annotations

  /** `parseClassAnnotation()` from the `i`-th annotation on, with `url`
      the value found so far: an `@ApiUrl` is taken while none has been
      (a non-empty one) and throws after one has. */
  function ClassUrl(anns: seq<ClassAnnotation>, i: nat, url: string, service: string): Result<string>
    requires i <= |anns|
    decreases |anns| - i
  {
    if i == |anns| then Ok(url)
    else match anns[i]
      case ApiUrl(value) => if url == [] then ClassUrl(anns, i + 1, value, service) else Err(ApiUrlTwice(service))
      case OtherClassAnnotation => ClassUrl(anns, i + 1, url, service)
  }

  // -----------------------------------------------------------------------
  // The method annotations

  /** The fields `parseApiAnotation` sets. */
  datatype MethodState = MethodState(relativePath: string, httpMethod: HttpMethod, isMultipart: bool, headers: seq<Entry>)

  /** One header string of `@Api`, split at its first `:` into a trimmed
      name and value; rejected when the colon is missing, leaves fewer than
      three characters before it, or ends the text. The colon is looked for
      in the trimmed text and the text is cut there (see `HeaderLineAsWritten`
      for the source, which cuts the untrimmed text). */
  function HeaderLine(h: string, m: string): (r: Result<(string, string)>)
    ensures var t := Trim(h);
      r.Err? <==> (':' !in t || IndexOf(t, ':') < 3 || IndexOf(t, ':') == |t| - 1)
    ensures r.Err? ==> r == Err(BadHeader(h, m))
  {
    var t := Trim(h);
    var index := IndexOf(t, ':');
    if index < 3 || index == |t| - 1 then Err(BadHeader(h, m))
    else Ok((Trim(t[..index]), Trim(t[index + 1..])))
  }

  /** The header split as written: the colon's index is taken in the
      trimmed text, but the untrimmed text is compared with it and cut at
      it. */
  function HeaderLineAsWritten(h: string, m: string): Result<(string, string)> {
    var index := IndexOf(Trim(h), ':');
    if index < 3 || index == |h| - 1 then Err(BadHeader(h, m))
    else Ok((Trim(h[..index]), Trim(h[index + 1..])))
  }

  /** The header loop from the `i`-th string on: each line is added with
      `headersBuilder.add`; the first bad line throws. */
  function HeadersParsed(hs: seq<string>, i: nat, es: seq<Entry>, m: string): Result<seq<Entry>>
    requires i <= |hs|
    decreases |hs| - i
  {
    if i == |hs| then Ok(es)
    else match HeaderLine(hs[i], m)
      case Err(f) => Err(f)
      case Ok(line) => HeadersParsed(hs, i + 1, AddValues(es, line.0, [line.1]), m)
  }

  /** `parseApiAnotation(annotation)`. */
  function ApiParsed(value: string, httpMethod: HttpMethod, isMultipart: bool, headers: seq<string>,
                     ms: MethodState, m: string): Result<MethodState>
  {
    if isMultipart && httpMethod != POST then Err(MultipartNotPost(m))
    else match HeadersParsed(headers, 0, ms.headers, m)
      case Err(f) => Err(f)
      case Ok(es) => Ok(MethodState(value, httpMethod, isMultipart, es))
  }

  /** `parseMethodAnnotation()` from the `i`-th annotation on. */
  function MethodParsed(anns: seq<MethodAnnotation>, i: nat, ms: MethodState, m: string): Result<MethodState>
    requires i <= |anns|
    decreases |anns| - i
  {
    if i == |anns| then Ok(ms)
    else match anns[i]
      case Api(value, httpMethod, isMultipart, headers) =>
        (match ApiParsed(value, httpMethod, isMultipart, headers, ms, m)
         case Err(f) => Err(f)
         case Ok(next) => MethodParsed(anns, i + 1, next, m))
      case OtherMethodAnnotation => MethodParsed(anns, i + 1, ms, m)
  }

  // -----------------------------------------------------------------------
  // The parameters

  /** The fields `parseParameter` updates. */
  datatype ParamState = ParamState(handlers: seq<Handler>, multiApiBody: bool, hasApiField: bool)

  function Added(st: ParamState, h: Handler): ParamState {
    st.(handlers := st.handlers + [h])
  }

  /** One iteration of `parseParameter()`, for the parameter at `index`:
      the checks in the source's order, and the handler it adds (none for
      an annotation the library does not know). `fs` are the converter
      factories the `@ApiBody` converter is looked up in. */
  function ParamParsed(index: nat, p: Parameter, st: ParamState, isMultipart: bool, m: string,
                       fs: seq<ConverterFactory>): (r: Result<ParamState>)
    ensures r.Ok? ==> st.handlers <= r.value.handlers && |r.value.handlers| <= |st.handlers| + 1
    ensures r.Ok? && |r.value.handlers| > |st.handlers| ==> r.value.handlers[|st.handlers|].index == index
    ensures r.Ok? ==> (st.multiApiBody ==> r.value.multiApiBody) && (st.hasApiField ==> r.value.hasApiField)
    ensures |p.annotations| != 1 ==> r == Err(Rejected(OneAnnotation, m, p.ptype.ref))
    ensures p.annotations == [OtherParamAnnotation] ==> r == Ok(st)
    ensures p.annotations == [ApiBody] && isMultipart ==> r.Err?
    ensures p.annotations != [] && p.annotations[0].ApiPart? && !isMultipart ==> r.Err?
    ensures (p.annotations != [] && (p.annotations[0].ApiField? || p.annotations[0].ApiHeader? || p.annotations[0].ApiPart?)
             && p.ptype.isMap && p.annotations[0].value != []) ==> r.Err?
    ensures (p.annotations != [] && (p.annotations[0].ApiField? || p.annotations[0].ApiHeader?)
             && !p.ptype.isMap && p.annotations[0].value == []) ==> r.Err?
  {
    var t := p.ptype;
    if |p.annotations| != 1 then Err(Rejected(OneAnnotation, m, t.ref))
    else match p.annotations[0]
      case ApiBody =>
        if isMultipart then Err(Rejected(BodyWithMultipart, m, t.ref))
        else if st.hasApiField then Err(Rejected(BodyWithField, m, t.ref))
        else if st.multiApiBody then Err(Rejected(SecondBody, m, t.ref))
        else (match FirstRequestConverter(fs, t.ref, m)
              case Err(f) => Err(f)
              case Ok(c) => Ok(Added(st.(multiApiBody := true), BodyHandler(index, Converter(c)))))
      case ApiField(name, encoded) =>
        if st.multiApiBody then Err(Rejected(FieldWithBody, m, t.ref))
        else if isMultipart then Err(Rejected(FieldWithMultipart, m, t.ref))
        else if t.isMap then
          (if name != [] then Err(Rejected(FieldMapNamed, m, t.ref))
           else if t.invalidGeneric then Err(Rejected(FieldMapGeneric, m, t.ref))
           else Ok(Added(st.(hasApiField := true), FieldMapHandler(index, encoded))))
        else if name == [] then Err(Rejected(FieldUnnamed, m, t.ref))
        else if t.invalidRaw then Err(Rejected(FieldInvalid, m, t.ref))
        else Ok(Added(st.(hasApiField := true), FieldHandler(index, name, encoded)))
      case ApiHeader(name) =>
        if t.isMap then
          (if name != [] then Err(Rejected(HeaderMapNamed, m, t.ref))
           else if t.invalidGeneric then Err(Rejected(HeaderMapGeneric, m, t.ref))
           else Ok(Added(st, HeaderMapHandler(index))))
        else if name == [] then Err(Rejected(HeaderUnnamed, m, t.ref))
        else if t.invalidRaw then Err(Rejected(HeaderInvalid, m, t.ref))
        else Ok(Added(st, HeaderHandler(index, name)))
      case ApiPath(name, encoded) =>
        if t.invalidRaw then Err(Rejected(PathInvalid, m, t.ref))
        else Ok(Added(st, PathHandler(index, name, encoded)))
      case ApiPart(name, encoding) =>
        if !isMultipart then Err(Rejected(PartWithoutMultipart, m, t.ref))
        else if st.multiApiBody then Err(Rejected(PartWithBody, m, t.ref))
        else if t.isMap then
          (if name != [] then Err(Rejected(PartMapNamed, m, t.ref))
           else if t.invalidGeneric then Err(Rejected(PartMapGeneric, m, t.ref))
           else Ok(Added(st, PartMapHandler(index, encoding))))
        else if t.isPart then
          (if name != [] then Err(Rejected(PartObjectNamed, m, t.ref))
           else Ok(Added(st, PartHandler(index, name, encoding))))
        else if t.invalidRaw then Err(Rejected(PartInvalid, m, t.ref))
        else if name == [] then Err(Rejected(PartUnnamed, m, t.ref))
        else Ok(Added(st, PartHandler(index, name, encoding)))
      case OtherParamAnnotation => Ok(st)
  }

  /** `parseParameter()` from the `i`-th parameter on. */
  function ParamsParsed(ps: seq<Parameter>, i: nat, st: ParamState, isMultipart: bool, m: string,
                        fs: seq<ConverterFactory>): Result<ParamState>
    requires i <= |ps|
    decreases |ps| - i
  {
    if i == |ps| then Ok(st)
    else match ParamParsed(i, ps[i], st, isMultipart, m, fs)
      case Err(f) => Err(f)
      case Ok(next) => ParamsParsed(ps, i + 1, next, isMultipart, m, fs)
  }

  /** The handlers' parameter indices are below `n` and increase. */
  predicate Indexed(hs: seq<Handler>, n: nat) {
    (forall k :: 0 <= k < |hs| ==> hs[k].index < n)
    && (forall j, k :: 0 <= j < k < |hs| ==> hs[j].index < hs[k].index)
  }

  /** What the whole of `init` makes of a service and a method. */
  datatype Parsed = Parsed(apiUrl: string, methods: MethodState, params: ParamState)

  const InitialMethod := MethodState("", POST, false, [])
  const InitialParams := ParamState([], false, false)

  function ParseAll(service: ServiceDecl, decl: MethodDecl, fs: seq<ConverterFactory>): Result<Parsed> {
    var url :- ClassUrl(service.annotations, 0, "", service.name);
    var ms :- MethodParsed(decl.annotations, 0, InitialMethod, decl.referenceName);
    var ps :- ParamsParsed(decl.params, 0, InitialParams, ms.isMultipart, decl.referenceName, fs);
    Ok(Parsed(url, ms, ps))
  }

  // -----------------------------------------------------------------------
  // Running the handlers

  /** The factory `buildRequest` starts from. */
  function Started(path: string, headers: seq<Entry>): FactoryState {
    FactoryState(path, None, headers, None, None)
  }

  /** The handler loop of `buildRequest` from the `i`-th handler on, each
      handler given the argument of the parameter it was made for; the
      first failure stops it. */
  function ApplyEach(hs: seq<Handler>, i: nat, args: seq<Value>, s: FactoryState, boundary: string): (Outcome, FactoryState)
    requires i <= |hs| && forall k :: 0 <= k < |hs| ==> hs[k].index < |args|
    decreases |hs| - i
  {
    if i == |hs| then (Done, s)
    else
      var (o, t) := Applied(hs[i], args[hs[i].index], s, boundary);
      if o.Fail? then (o, t) else ApplyEach(hs, i + 1, args, t, boundary)
  }

  /** The loop as written: the `i`-th handler is given the `i`-th
      argument, whichever parameter it was made for. */
  function ApplyEachAsWritten(hs: seq<Handler>, i: nat, args: seq<Value>, s: FactoryState, boundary: string): (Outcome, FactoryState)
    requires i <= |hs| <= |args|
    decreases |hs| - i
  {
    if i == |hs| then (Done, s)
    else
      var (o, t) := Applied(hs[i], args[i], s, boundary);
      if o.Fail? then (o, t) else ApplyEachAsWritten(hs, i + 1, args, t, boundary)
  }

  /** What `build()` returns for a factory left in state `s`. */
  predicate Sent(r: Result<Request>, s: FactoryState, apiUrl: string, serviceUrlPath: string, m: HttpMethod) {
    (r.Ok? <==> BuildHeaders(s.headers).Ok?)
    && (r.Ok? ==> var p := Planned(s, apiUrl, serviceUrlPath, m);
          r.value.url == p.url && BodyContent(r.value.body) == p.body
          && r.value.httpMethod == m && r.value.headers.entries == s.headers)
  }

  // -----------------------------------------------------------------------
  // The parser

  class ApiMethodParser {
    const lemonApiUrl: string
    const converterFinder: ConverterFinder
    const service: ServiceDecl
    const decl: MethodDecl
    var apiUrl: string
    var relativePath: string
    var httpMethod: HttpMethod
    const headersBuilder: HeadersBuilder
    var parameterHandlers: seq<Handler>
    var isMultipart: bool
    var multiApiBody: bool
    var hasApiField: bool

    ghost predicate Valid()
      reads this, headersBuilder
    {
      headersBuilder.Valid() && Indexed(parameterHandlers, |decl.params|)
    }

    /** The fields `parseApiAnotation` sets, as a value. */
    ghost function MethodNow(): MethodState
      reads this, headersBuilder
    {
      MethodState(relativePath, httpMethod, isMultipart, headersBuilder.entries)
    }

    /** The fields hold what `ParseAll` computed. */
    ghost predicate Holds(p: Parsed)
      reads this, headersBuilder
    {
      apiUrl == p.apiUrl && MethodNow() == p.methods
      && parameterHandlers == p.params.handlers
      && multiApiBody == p.params.multiApiBody && hasApiField == p.params.hasApiField
    }

    /** The field initialisers, before `init` runs. */
    constructor(lemonApiUrl: string, converterFinder: ConverterFinder, service: ServiceDecl, decl: MethodDecl)
      ensures Valid() && fresh(headersBuilder)
      ensures this.lemonApiUrl == lemonApiUrl && this.converterFinder == converterFinder
      ensures this.service == service && this.decl == decl && apiUrl == ""
      ensures MethodNow() == InitialMethod && parameterHandlers == [] && !multiApiBody && !hasApiField
    {
      this.lemonApiUrl := lemonApiUrl;
      this.converterFinder := converterFinder;
      this.service := service;
      this.decl := decl;
      apiUrl := "";
      relativePath := "";
      httpMethod := POST;
      headersBuilder := new HeadersBuilder();
      parameterHandlers := [];
      isMultipart := false;
      multiApiBody := false;
      hasApiField := false;
    }

    /** `parseClassAnnotation()`. */
    method ParseClassAnnotation() returns (r: Outcome)
      modifies this
      ensures var u := ClassUrl(service.annotations, 0, old(apiUrl), service.name);
        (u.Ok? ==> r == Done && apiUrl == u.value) && (u.Err? ==> r == Fail(u.failure))
      ensures relativePath == old(relativePath) && httpMethod == old(httpMethod) && isMultipart == old(isMultipart)
      ensures parameterHandlers == old(parameterHandlers)
      ensures multiApiBody == old(multiApiBody) && hasApiField == old(hasApiField)
    {
      var anns := service.annotations;
      var url := apiUrl;
      var i := 0;
      while i < |anns|
        invariant 0 <= i <= |anns|
        invariant ClassUrl(anns, 0, old(apiUrl), service.name) == ClassUrl(anns, i, url, service.name)
      {
        if anns[i].ApiUrl? {
          if url == [] {
            url := anns[i].value;
          } else {
            return Fail(ApiUrlTwice(service.name));
          }
        }
        i := i + 1;
      }
      apiUrl := url;
      r := Done;
    }

    /** `parseMethodAnnotation()`. */
    method ParseMethodAnnotation() returns (r: Outcome)
      requires Valid()
      modifies this, headersBuilder
      ensures Valid()
      ensures var res := MethodParsed(decl.annotations, 0, old(MethodNow()), decl.referenceName);
        (res.Ok? ==> r == Done && MethodNow() == res.value) && (res.Err? ==> r == Fail(res.failure))
      ensures apiUrl == old(apiUrl) && parameterHandlers == old(parameterHandlers)
      ensures multiApiBody == old(multiApiBody) && hasApiField == old(hasApiField)
    {
      var anns := decl.annotations;
      var i := 0;
      while i < |anns|
        invariant 0 <= i <= |anns|
        invariant Valid()
        invariant apiUrl == old(apiUrl) && parameterHandlers == old(parameterHandlers)
        invariant multiApiBody == old(multiApiBody) && hasApiField == old(hasApiField)
        invariant MethodParsed(anns, 0, old(MethodNow()), decl.referenceName)
               == MethodParsed(anns, i, MethodNow(), decl.referenceName)
      {
        if anns[i].Api? {
          ghost var before := MethodNow();
          var a := anns[i];
          var o := ParseApiAnnotation(a.value, a.httpMethod, a.isMultipart, a.headers);
          ghost var res := ApiParsed(a.value, a.httpMethod, a.isMultipart, a.headers, before, decl.referenceName);
          if o.Fail? {
            assert MethodParsed(anns, i, before, decl.referenceName) == Err(res.failure);
            return o;
          }
          assert MethodParsed(anns, i, before, decl.referenceName)
              == MethodParsed(anns, i + 1, MethodNow(), decl.referenceName);
        }
        i := i + 1;
      }
      r := Done;
    }

    /** `parseApiAnotation(annotation)`. */
    method ParseApiAnnotation(value: string, m: HttpMethod, multipart: bool, headers: seq<string>) returns (r: Outcome)
      requires Valid()
      modifies this, headersBuilder
      ensures Valid()
      ensures var res := ApiParsed(value, m, multipart, headers, old(MethodNow()), decl.referenceName);
        (res.Ok? ==> r == Done && MethodNow() == res.value) && (res.Err? ==> r == Fail(res.failure))
      ensures apiUrl == old(apiUrl) && parameterHandlers == old(parameterHandlers)
      ensures multiApiBody == old(multiApiBody) && hasApiField == old(hasApiField)
    {
      ghost var hs0 := headersBuilder.entries;
      relativePath := value;
      httpMethod := m;
      isMultipart := multipart;
      if isMultipart && httpMethod != POST {
        return Fail(MultipartNotPost(decl.referenceName));
      }
      r := AddHeaderLines(headers);
      ghost var res := HeadersParsed(headers, 0, hs0, decl.referenceName);
      assert res.Ok? ==> MethodNow() == MethodState(value, m, multipart, res.value);
    }

    /** The header loop of `parseApiAnotation`: each line goes to the
        parser's headers builder. */
    method AddHeaderLines(headers: seq<string>) returns (r: Outcome)
      requires headersBuilder.Valid()
      modifies headersBuilder
      ensures headersBuilder.Valid()
      ensures var res := HeadersParsed(headers, 0, old(headersBuilder.entries), decl.referenceName);
        (res.Ok? ==> r == Done && headersBuilder.entries == res.value) && (res.Err? ==> r == Fail(res.failure))
    {
      var i := 0;
      while i < |headers|
        invariant 0 <= i <= |headers|
        invariant headersBuilder.Valid()
        invariant HeadersParsed(headers, 0, old(headersBuilder.entries), decl.referenceName)
               == HeadersParsed(headers, i, headersBuilder.entries, decl.referenceName)
      {
        var line := HeaderLine(headers[i], decl.referenceName);
        if line.Err? {
          return Fail(line.failure);
        }
        headersBuilder.Add(line.value.0, line.value.1);
        i := i + 1;
      }
      r := Done;
    }

    /** `parseParameter()`. */
    method ParseParameter() returns (r: Outcome)
      requires Valid() && Indexed(parameterHandlers, 0)
      modifies this
      ensures Valid()
      ensures var res := ParamsParsed(decl.params, 0, old(ParamState(parameterHandlers, multiApiBody, hasApiField)),
                                      isMultipart, decl.referenceName, converterFinder.factories.items);
        (res.Ok? ==> r == Done && parameterHandlers == res.value.handlers
                     && multiApiBody == res.value.multiApiBody && hasApiField == res.value.hasApiField)
        && (res.Err? ==> r == Fail(res.failure))
      ensures apiUrl == old(apiUrl) && MethodNow() == old(MethodNow())
    {
      var ps := decl.params;
      var st := ParamState(parameterHandlers, multiApiBody, hasApiField);
      ghost var st0 := st;
      ghost var fs := converterFinder.factories.items;
      ghost var mp, nm := isMultipart, decl.referenceName;
      var i := 0;
      while i < |ps|
        invariant 0 <= i <= |ps|
        invariant Indexed(st.handlers, i)
        invariant unchanged(this)
        invariant ParamsParsed(ps, 0, st0, mp, nm, fs) == ParamsParsed(ps, i, st, mp, nm, fs)
      {
        var next := ParseOne(i, ps[i], st);
        if next.Err? {
          return Fail(next.failure);
        }
        IndexedStep(i, ps[i], st, mp, nm, fs);
        st := next.value;
        i := i + 1;
      }
      parameterHandlers := st.handlers;
      multiApiBody := st.multiApiBody;
      hasApiField := st.hasApiField;
      r := Done;
    }

    /** The `when (annotation)` of one iteration of `parseParameter()`. */
    method ParseOne(index: nat, p: Parameter, st: ParamState) returns (r: Result<ParamState>)
      ensures r == ParamParsed(index, p, st, isMultipart, decl.referenceName, converterFinder.factories.items)
    {
      var t := p.ptype;
      var m := decl.referenceName;
      if |p.annotations| != 1 {
        return Err(Rejected(OneAnnotation, m, t.ref));
      }
      match p.annotations[0]
      case ApiBody =>
        if isMultipart {
          return Err(Rejected(BodyWithMultipart, m, t.ref));
        }
        if st.hasApiField {
          return Err(Rejected(BodyWithField, m, t.ref));
        }
        if st.multiApiBody {
          return Err(Rejected(SecondBody, m, t.ref));
        }
        var c := converterFinder.FindRequestBodyConverter(t.ref, m);
        if c.Err? {
          return Err(c.failure);
        }
        r := Ok(Added(st.(multiApiBody := true), BodyHandler(index, Converter(c.value))));
      case ApiField(name, encoded) =>
        if st.multiApiBody {
          return Err(Rejected(FieldWithBody, m, t.ref));
        }
        if isMultipart {
          return Err(Rejected(FieldWithMultipart, m, t.ref));
        }
        r := FieldHandlerFor(index, t, name, encoded, st);
      case ApiHeader(name) =>
        r := HeaderHandlerFor(index, t, name, st);
      case ApiPath(name, encoded) =>
        if t.invalidRaw {
          return Err(Rejected(PathInvalid, m, t.ref));
        }
        r := Ok(Added(st, PathHandler(index, name, encoded)));
      case ApiPart(name, encoding) =>
        if !isMultipart {
          return Err(Rejected(PartWithoutMultipart, m, t.ref));
        }
        if st.multiApiBody {
          return Err(Rejected(PartWithBody, m, t.ref));
        }
        r := PartHandlerFor(index, t, name, encoding, st);
      case OtherParamAnnotation =>
        r := Ok(st);
    }

    /** The `@ApiField` branch after its flag checks. */
    method FieldHandlerFor(index: nat, t: ParamType, name: string, encoded: bool, st: ParamState) returns (r: Result<ParamState>)
      requires !st.multiApiBody && !isMultipart
      ensures r == ParamParsed(index, Parameter(t, [ApiField(name, encoded)]), st, isMultipart,
                               decl.referenceName, converterFinder.factories.items)
    {
      var m := decl.referenceName;
      var flagged := st.(hasApiField := true);
      if t.isMap {
        if name != [] {
          return Err(Rejected(FieldMapNamed, m, t.ref));
        }
        if t.invalidGeneric {
          return Err(Rejected(FieldMapGeneric, m, t.ref));
        }
        r := Ok(Added(flagged, FieldMapHandler(index, encoded)));
      } else {
        if name == [] {
          return Err(Rejected(FieldUnnamed, m, t.ref));
        }
        if t.invalidRaw {
          return Err(Rejected(FieldInvalid, m, t.ref));
        }
        r := Ok(Added(flagged, FieldHandler(index, name, encoded)));
      }
    }

    /** The `@ApiHeader` branch. */
    method HeaderHandlerFor(index: nat, t: ParamType, name: string, st: ParamState) returns (r: Result<ParamState>)
      ensures r == ParamParsed(index, Parameter(t, [ApiHeader(name)]), st, isMultipart,
                               decl.referenceName, converterFinder.factories.items)
    {
      var m := decl.referenceName;
      if t.isMap {
        if name != [] {
          return Err(Rejected(HeaderMapNamed, m, t.ref));
        }
        if t.invalidGeneric {
          return Err(Rejected(HeaderMapGeneric, m, t.ref));
        }
        r := Ok(Added(st, HeaderMapHandler(index)));
      } else {
        if name == [] {
          return Err(Rejected(HeaderUnnamed, m, t.ref));
        }
        if t.invalidRaw {
          return Err(Rejected(HeaderInvalid, m, t.ref));
        }
        r := Ok(Added(st, HeaderHandler(index, name)));
      }
    }

    /** The `@ApiPart` branch after its flag checks. */
    method PartHandlerFor(index: nat, t: ParamType, name: string, encoding: string, st: ParamState) returns (r: Result<ParamState>)
      requires isMultipart && !st.multiApiBody
      ensures r == ParamParsed(index, Parameter(t, [ApiPart(name, encoding)]), st, isMultipart,
                               decl.referenceName, converterFinder.factories.items)
    {
      var m := decl.referenceName;
      if t.isMap {
        if name != [] {
          return Err(Rejected(PartMapNamed, m, t.ref));
        }
        if t.invalidGeneric {
          return Err(Rejected(PartMapGeneric, m, t.ref));
        }
        r := Ok(Added(st, PartMapHandler(index, encoding)));
      } else if t.isPart {
        if name != [] {
          return Err(Rejected(PartObjectNamed, m, t.ref));
        }
        r := Ok(Added(st, PartHandler(index, name, encoding)));
      } else {
        if t.invalidRaw {
          return Err(Rejected(PartInvalid, m, t.ref));
        }
        if name == [] {
          return Err(Rejected(PartUnnamed, m, t.ref));
        }
        r := Ok(Added(st, PartHandler(index, name, encoding)));
      }
    }

    /** `buildRequest(args)`, with the parser's headers copied into the
        factory (the source hands over the parser's own builder; see
        `BuildRequestAsWritten`) and each handler given the argument of its
        own parameter. `boundary` is the one a multipart builder would draw
        and `emptyBody` is `RequestBody.EMPTY_BODY`. */
    method BuildRequest(args: seq<Value>, boundary: string, emptyBody: RequestBody) returns (r: Result<Request>)
      requires Valid() && |args| == |decl.params| && emptyBody.content == EmptyBody
      ensures var (o, s) := ApplyEach(parameterHandlers, 0, args, Started(relativePath, headersBuilder.entries), boundary);
        (o.Fail? ==> r == Err(o.failure))
        && (o.Done? ==> Sent(r, s, lemonApiUrl, apiUrl, httpMethod)
                        && (r.Ok? ==> r.value.originService == service.name && r.value.originMethod == decl.referenceName))
    {
      var headers := headersBuilder.Copy();
      var rf := new RequestFactory(service.name, decl.referenceName, lemonApiUrl, httpMethod,
                                   apiUrl, relativePath, headers, boundary, emptyBody);
      r := Run(rf, args);
    }

    /** `buildRequest(args)` as written: the factory works on the parser's
        own headers builder, so the headers the handlers add stay in the
        parser, and the `i`-th handler is given the `i`-th argument. */
    method BuildRequestAsWritten(args: seq<Value>, boundary: string, emptyBody: RequestBody) returns (r: Result<Request>)
      requires Valid() && |args| == |decl.params| && emptyBody.content == EmptyBody
      modifies headersBuilder
      ensures Valid()
      ensures |parameterHandlers| <= |args|
      ensures var (o, s) := ApplyEachAsWritten(parameterHandlers, 0, args, Started(relativePath, old(headersBuilder.entries)), boundary);
        (o.Fail? ==> r == Err(o.failure))
        && (o.Done? ==> Sent(r, s, lemonApiUrl, apiUrl, httpMethod))
        && headersBuilder.entries == s.headers
    {
      IndexedBound(parameterHandlers, |decl.params|);
      var rf := new RequestFactory(service.name, decl.referenceName, lemonApiUrl, httpMethod,
                                   apiUrl, relativePath, headersBuilder, boundary, emptyBody);
      r := RunAsWritten(rf, args);
    }

    /** The handler loop as written, `handlers[i].apply(builder, args[i])`,
        and the final `build()`. */
    method RunAsWritten(rf: RequestFactory, args: seq<Value>) returns (r: Result<Request>)
      requires rf.Valid() && rf.body == None && rf.formBuilder == null && rf.multipartBuilder == null
      requires |parameterHandlers| <= |args|
      requires rf.originService == service.name && rf.originMethod == decl.referenceName
      requires rf.apiUrl == lemonApiUrl && rf.serviceUrlPath == apiUrl && rf.httpMethod == httpMethod
      modifies rf, rf.headersBuilder
      ensures rf.headersBuilder.Valid()
      ensures var (o, s) := ApplyEachAsWritten(parameterHandlers, 0, args, old(rf.State()), rf.boundary);
        (o.Fail? ==> r == Err(o.failure))
        && (o.Done? ==> Sent(r, s, lemonApiUrl, apiUrl, httpMethod))
        && rf.headersBuilder.entries == s.headers
    {
      var hs := parameterHandlers;
      var i := 0;
      while i < |hs|
        invariant 0 <= i <= |hs|
        invariant rf.Valid()
        invariant rf.formBuilder == null || fresh(rf.formBuilder)
        invariant rf.multipartBuilder == null || fresh(rf.multipartBuilder)
        invariant ApplyEachAsWritten(hs, 0, args, old(rf.State()), rf.boundary) == ApplyEachAsWritten(hs, i, args, rf.State(), rf.boundary)
      {
        var o := Apply(hs[i], rf, args[i]);
        if o.Fail? {
          return Err(o.failure);
        }
        i := i + 1;
      }
      ghost var s := rf.State();
      r := rf.Build();
      assert rf.headersBuilder.entries == s.headers;
    }

    /** The handler loop of `buildRequest` and the final `build()`. */
    method Run(rf: RequestFactory, args: seq<Value>) returns (r: Result<Request>)
      requires rf.Valid() && rf.body == None && rf.formBuilder == null && rf.multipartBuilder == null
      requires Indexed(parameterHandlers, |args|)
      requires rf.originService == service.name && rf.originMethod == decl.referenceName
      requires rf.apiUrl == lemonApiUrl && rf.serviceUrlPath == apiUrl && rf.httpMethod == httpMethod
      modifies rf, rf.headersBuilder
      ensures rf.headersBuilder.Valid()
      ensures var (o, s) := ApplyEach(parameterHandlers, 0, args, old(rf.State()), rf.boundary);
        (o.Fail? ==> r == Err(o.failure))
        && (o.Done? ==> Sent(r, s, lemonApiUrl, apiUrl, httpMethod)
                        && (r.Ok? ==> r.value.originService == service.name && r.value.originMethod == decl.referenceName))
        && rf.headersBuilder.entries == s.headers
    {
      var hs := parameterHandlers;
      var i := 0;
      while i < |hs|
        invariant 0 <= i <= |hs|
        invariant rf.Valid()
        invariant rf.formBuilder == null || fresh(rf.formBuilder)
        invariant rf.multipartBuilder == null || fresh(rf.multipartBuilder)
        invariant ApplyEach(hs, 0, args, old(rf.State()), rf.boundary) == ApplyEach(hs, i, args, rf.State(), rf.boundary)
      {
        var o := Apply(hs[i], rf, args[hs[i].index]);
        if o.Fail? {
          return Err(o.failure);
        }
        i := i + 1;
      }
      ghost var s := rf.State();
      r := rf.Build();
      assert rf.headersBuilder.entries == s.headers;
    }
  }

  /** The constructor and `init`: the class, method and parameter
      annotations are parsed in that order, and the first rule broken is
      the failure. */
  method NewApiMethodParser(lemonApiUrl: string, converterFinder: ConverterFinder,
                            service: ServiceDecl, decl: MethodDecl) returns (r: Result<ApiMethodParser>)
    ensures var p := ParseAll(service, decl, converterFinder.factories.items);
      (r.Ok? <==> p.Ok?) && (r.Err? ==> r.failure == p.failure)
      && (r.Ok? ==> fresh(r.value) && fresh(r.value.headersBuilder) && r.value.Valid() && r.value.Holds(p.value)
                    && r.value.service == service && r.value.decl == decl
                    && r.value.lemonApiUrl == lemonApiUrl && r.value.converterFinder == converterFinder)
  {
    var parser := new ApiMethodParser(lemonApiUrl, converterFinder, service, decl);
    var o := parser.ParseClassAnnotation();
    if o.Fail? {
      return Err(o.failure);
    }
    o := parser.ParseMethodAnnotation();
    if o.Fail? {
      return Err(o.failure);
    }
    o := parser.ParseParameter();
    if o.Fail? {
      return Err(o.failure);
    }
    r := Ok(parser);
  }

  // -----------------------------------------------------------------------
  // Properties

  /** A parsed parameter keeps the handler list indexed. */
  lemma IndexedStep(i: nat, p: Parameter, st: ParamState, isMultipart: bool, m: string, fs: seq<ConverterFactory>)
    requires Indexed(st.handlers, i)
    requires ParamParsed(i, p, st, isMultipart, m, fs).Ok?
    ensures Indexed(ParamParsed(i, p, st, isMultipart, m, fs).value.handlers, i + 1)
  {
    var hs := ParamParsed(i, p, st, isMultipart, m, fs).value.handlers;
    assert forall k :: 0 <= k < |st.handlers| ==> hs[k] == st.handlers[k];
  }

  /** The handlers come out in declaration order, one at most per
      parameter, each made for a parameter of the method. */
  /** Handlers with increasing indices below `n` number at most `n`. */
  lemma IndexedBound(hs: seq<Handler>, n: nat)
    requires Indexed(hs, n)
    ensures |hs| <= n
  {
    if hs != [] {
      IndexedAtLeast(hs, n, |hs| - 1);
    }
  }

  lemma {:induction false} IndexedAtLeast(hs: seq<Handler>, n: nat, k: nat)
    requires Indexed(hs, n) && k < |hs|
    ensures hs[k].index >= k
    decreases k
  {
    if k > 0 {
      IndexedAtLeast(hs, n, k - 1);
    }
  }

  lemma {:induction false} ParsedInOrder(ps: seq<Parameter>, i: nat, st: ParamState, isMultipart: bool, m: string,
                                         fs: seq<ConverterFactory>)
    requires i <= |ps| && Indexed(st.handlers, i)
    requires ParamsParsed(ps, i, st, isMultipart, m, fs).Ok?
    ensures var hs := ParamsParsed(ps, i, st, isMultipart, m, fs).value.handlers;
      Indexed(hs, |ps|) && st.handlers <= hs && |hs| <= |st.handlers| + |ps| - i
    decreases |ps| - i
  {
    if i < |ps| {
      IndexedStep(i, ps[i], st, isMultipart, m, fs);
      var next := ParamParsed(i, ps[i], st, isMultipart, m, fs).value;
      ParsedInOrder(ps, i + 1, next, isMultipart, m, fs);
    }
  }

  /** When every parameter carries one of the library's annotations, the
      parameter at position `k` gets the handler at position `k`. */
  lemma {:induction false} OneHandlerPerParameter(ps: seq<Parameter>, i: nat, st: ParamState, isMultipart: bool, m: string,
                                                  fs: seq<ConverterFactory>)
    requires i <= |ps| && |st.handlers| == i
    requires forall k :: 0 <= k < |st.handlers| ==> st.handlers[k].index == k
    requires forall k :: i <= k < |ps| ==> ps[k].annotations != [] && !ps[k].annotations[0].OtherParamAnnotation?
    requires ParamsParsed(ps, i, st, isMultipart, m, fs).Ok?
    ensures var hs := ParamsParsed(ps, i, st, isMultipart, m, fs).value.handlers;
      |hs| == |ps| && forall k :: 0 <= k < |hs| ==> hs[k].index == k
    decreases |ps| - i
  {
    if i < |ps| {
      var next := ParamParsed(i, ps[i], st, isMultipart, m, fs).value;
      assert |next.handlers| == i + 1;
      assert forall k :: 0 <= k < i ==> next.handlers[k] == st.handlers[k];
      OneHandlerPerParameter(ps, i + 1, next, isMultipart, m, fs);
    }
  }

  /** With a handler per parameter in order, the loop as written gives each
      handler its own argument. */
  lemma {:induction false} AsWrittenAgreesWhenAligned(hs: seq<Handler>, i: nat, args: seq<Value>, s: FactoryState, boundary: string)
    requires i <= |hs| == |args| && forall k :: 0 <= k < |hs| ==> hs[k].index == k
    ensures ApplyEachAsWritten(hs, i, args, s, boundary) == ApplyEach(hs, i, args, s, boundary)
    decreases |hs| - i
  {
    if i < |hs| {
      var (o, t) := Applied(hs[i], args[i], s, boundary);
      if o.Done? {
        AsWrittenAgreesWhenAligned(hs, i + 1, args, t, boundary);
      }
    }
  }

  /** A parameter with another annotation gets no handler, so the loop as
      written shifts the arguments: with `(@Other x, @ApiField("a") y)` the
      field `a` is given `x`. Corrected, it is given `y`. */
  lemma OtherAnnotationShiftsArguments(t: ParamType, name: string, isMultipart: bool, m: string,
                                       fs: seq<ConverterFactory>, x: string, y: string, s: FactoryState, boundary: string)
    requires name != [] && !t.isMap && !t.invalidRaw && !isMultipart
    ensures var ps := [Parameter(t, [OtherParamAnnotation]), Parameter(t, [ApiField(name, false)])];
      var args := [Obj(x, Plain), Obj(y, Plain)];
      var p := ParamsParsed(ps, 0, InitialParams, isMultipart, m, fs);
      p.Ok? && p.value.handlers == [FieldHandler(1, name, false)]
      && ApplyEachAsWritten(p.value.handlers, 0, args, s, boundary) == (Done, FieldAdded(s, name, x, false))
      && ApplyEach(p.value.handlers, 0, args, s, boundary) == (Done, FieldAdded(s, name, y, false))
  {
    var ps := [Parameter(t, [OtherParamAnnotation]), Parameter(t, [ApiField(name, false)])];
    var h := FieldHandler(1, name, false);
    assert ParamParsed(0, ps[0], InitialParams, isMultipart, m, fs) == Ok(InitialParams);
    assert [] + [h] == [h];
    assert ParamParsed(1, ps[1], InitialParams, isMultipart, m, fs) == Ok(ParamState([h], false, true));
    var st := ParamState([h], false, true);
    assert ParamsParsed(ps, 2, st, isMultipart, m, fs) == Ok(st);
    assert ParamsParsed(ps, 1, InitialParams, isMultipart, m, fs) == Ok(st);
  }

  /** The parser's headers as written: a second call of the same method
      starts from the headers the first call added, so a header parameter
      given `v1` and then `v2` is sent with both values the second time.
      Corrected, each call starts from the parser's own headers. */
  lemma HeadersAccumulateAsWritten(path: string, base: seq<Entry>, name: string, v1: string, v2: string, boundary: string)
    requires FindKey(base, name) < 0
    ensures var hs := [HeaderHandler(0, name)];
      var first := ApplyEach(hs, 0, [Obj(v1, Plain)], Started(path, base), boundary).1;
      var second := ApplyEach(hs, 0, [Obj(v2, Plain)], Started(path, first.headers), boundary).1;
      var again := ApplyEach(hs, 0, [Obj(v2, Plain)], Started(path, base), boundary).1;
      Lookup(first.headers, name) == Some([v1])
      && Lookup(second.headers, name) == Some([v1, v2])
      && Lookup(again.headers, name) == Some([v2])
  {
    var hs := [HeaderHandler(0, name)];
    var once := AddValues(base, name, [v1]);
    HeaderParameterAdds(name, v1, Started(path, base), boundary);
    HeaderParameterAdds(name, v2, Started(path, once), boundary);
    HeaderParameterAdds(name, v2, Started(path, base), boundary);
    AddValuesEffect(base, name, [v1]);
    AddValuesEffect(once, name, [v2]);
    AddValuesEffect(base, name, [v2]);
    assert [v1] + [v2] == [v1, v2];
  }

  /** One header parameter adds its argument's text under its name. */
  lemma HeaderParameterAdds(name: string, v: string, s: FactoryState, boundary: string)
    ensures ApplyEach([HeaderHandler(0, name)], 0, [Obj(v, Plain)], s, boundary)
         == (Done, s.(headers := AddValues(s.headers, name, [v])))
  {
    var hs := [HeaderHandler(0, name)];
    assert Applied(hs[0], Obj(v, Plain), s, boundary) == (Done, HeaderAdded(s, name, v));
    assert ApplyEach(hs, 1, [Obj(v, Plain)], HeaderAdded(s, name, v), boundary) == (Done, HeaderAdded(s, name, v));
  }

  /** A service may carry one `@ApiUrl`: once a non-empty one is taken, a
      later one throws. */
  lemma {:induction false} SecondApiUrlThrows(anns: seq<ClassAnnotation>, k: nat, url: string, service: string, i: nat, j: nat)
    requires k <= i < j < |anns|
    requires anns[i].ApiUrl? && anns[i].value != [] && anns[j].ApiUrl?
    ensures ClassUrl(anns, k, url, service) == Err(ApiUrlTwice(service))
    decreases i - k
  {
    if k == i {
      if url == [] {
        ApiUrlAfterOne(anns, k + 1, anns[i].value, service, j);
      }
    } else if anns[k].ApiUrl? && url == [] {
      SecondApiUrlThrows(anns, k + 1, anns[k].value, service, i, j);
    } else if anns[k].OtherClassAnnotation? {
      SecondApiUrlThrows(anns, k + 1, url, service, i, j);
    }
  }

  lemma {:induction false} ApiUrlAfterOne(anns: seq<ClassAnnotation>, k: nat, url: string, service: string, j: nat)
    requires k <= j < |anns| && url != [] && anns[j].ApiUrl?
    ensures ClassUrl(anns, k, url, service) == Err(ApiUrlTwice(service))
    decreases j - k
  {
    if k < j && anns[k].OtherClassAnnotation? {
      ApiUrlAfterOne(anns, k + 1, url, service, j);
    }
  }

  /** Without `@ApiUrl` the service URL is the one already found, and with
      exactly one it is that annotation's value. */
  lemma {:induction false} OneApiUrl(anns: seq<ClassAnnotation>, k: nat, url: string, service: string, p: int)
    requires k <= |anns| && p < |anns|
    requires forall q :: k <= q < |anns| && q != p ==> anns[q].OtherClassAnnotation?
    requires p >= k ==> anns[p].ApiUrl? && url == []
    ensures ClassUrl(anns, k, url, service) == Ok(if p >= k then anns[p].value else url)
    decreases |anns| - k
  {
    if k < |anns| {
      if k == p {
        OneApiUrl(anns, k + 1, anns[p].value, service, p);
      } else {
        OneApiUrl(anns, k + 1, url, service, p);
      }
    }
  }

  /** A multipart `@Api` on any verb but POST makes the method annotations
      fail, wherever it stands. */
  lemma {:induction false} MultipartNeedsPost(anns: seq<MethodAnnotation>, k: nat, ms: MethodState, m: string, p: nat)
    requires k <= p < |anns| && anns[p].Api? && anns[p].isMultipart && anns[p].httpMethod != POST
    ensures MethodParsed(anns, k, ms, m).Err?
    decreases p - k
  {
    if k < p && anns[k].Api? {
      var a := anns[k];
      var next := ApiParsed(a.value, a.httpMethod, a.isMultipart, a.headers, ms, m);
      if next.Ok? {
        MultipartNeedsPost(anns, k + 1, next.value, m, p);
      }
    } else if k < p {
      MultipartNeedsPost(anns, k + 1, ms, m, p);
    }
  }

  /** A header of the form `name:value`, the name at least three
      characters long without a colon, the value not empty, and neither with
      whitespace at either end, is split back into that name and value. */
  lemma HeaderLineRoundTrip(name: string, value: string, m: string)
    requires |name| >= 3 && ':' !in name && !IsWhitespace(name[0]) && !IsWhitespace(name[|name| - 1])
    requires value != [] && !IsWhitespace(value[0]) && !IsWhitespace(value[|value| - 1])
    ensures HeaderLine(name + ":" + value, m) == Ok((name, value))
  {
    var h := name + ":" + value;
    JoinedTrimmed(name, value);
    ColonAfterName(name, value);
    assert h[..|name|] == name;
    assert h[|name| + 1..] == value;
    TrimmedAlready(name);
    TrimmedAlready(value);
    HeaderLineSplits(h, h, m, |name|, name, value);
  }

  lemma JoinedTrimmed(name: string, value: string)
    requires name != [] && !IsWhitespace(name[0])
    requires value != [] && !IsWhitespace(value[|value| - 1])
    ensures Trim(name + ":" + value) == name + ":" + value
  {
    var h := name + ":" + value;
    assert h[0] == name[0] && h[|h| - 1] == value[|value| - 1];
    TrimmedAlready(h);
  }

  lemma ColonAfterName(name: string, value: string)
    requires ':' !in name
    ensures IndexOf(name + ":" + value, ':') == |name|
  {
    var h := name + ":" + value;
    assert h[..|name|] == name;
    IndexOfAt(h, ':', |name|);
  }

  /** `HeaderLine` on a text that is its own trim, once the colon and the
      two trimmed halves are known. */
  lemma HeaderLineSplits(h: string, t: string, m: string, index: int, name: string, value: string)
    requires Trim(h) == t && IndexOf(t, ':') == index && 3 <= index < |t| - 1
    requires Trim(t[..index]) == name && Trim(t[index + 1..]) == value
    ensures HeaderLine(h, m) == Ok((name, value))
  {
  }

  /** The first occurrence of `c` is where `IndexOf` finds it. */
  lemma IndexOfAt(s: string, c: char, k: nat)
    requires k < |s| && s[k] == c && c !in s[..k]
    ensures IndexOf(s, c) == k
  {
  }

  /** A text with no whitespace at either end is its own trim. */
  lemma TrimmedAlready(s: string)
    requires s != [] && !IsWhitespace(s[0]) && !IsWhitespace(s[|s| - 1])
    ensures Trim(s) == s
  {
  }

  /** As written, a header with a leading blank is cut one place early:
      `" abc:d"` gives the name `ab` and the value `:d`, where the
      corrected split gives `abc` and `d`. */
  lemma HeaderLineAsWrittenCutsEarly(m: string)
    ensures HeaderLineAsWritten(" abc:d", m) == Ok(("ab", ":d"))
    ensures HeaderLine(" abc:d", m) == Ok(("abc", "d"))
  {
    var h := " abc:d";
    LeadingBlankColon();
    assert h[..3] == " ab";
    assert SkipBlank(" ab", 0) == 1 && SkipBlankBack(" ab", 1, 3) == 3;
    assert Trim(" ab") == "ab";
    assert h[4..] == ":d";
    TrimmedAlready(":d");
    AsWrittenSplits(h, m, 3, "ab", ":d");
    CorrectedCut(m);
  }

  lemma LeadingBlankColon()
    ensures Trim(" abc:d") == "abc:d" && IndexOf("abc:d", ':') == 3
  {
    var t := "abc:d";
    assert SkipBlank(" abc:d", 0) == 1 && SkipBlankBack(" abc:d", 1, 6) == 6;
    assert " abc:d"[1..6] == t;
    assert t[..3] == "abc";
    IndexOfAt(t, ':', 3);
  }

  lemma CorrectedCut(m: string)
    requires Trim(" abc:d") == "abc:d" && IndexOf("abc:d", ':') == 3
    ensures HeaderLine(" abc:d", m) == Ok(("abc", "d"))
  {
    var t := "abc:d";
    assert t[..3] == "abc";
    TrimmedAlready("abc");
    assert t[4..] == "d";
    TrimmedAlready("d");
    HeaderLineSplits(" abc:d", t, m, 3, "abc", "d");
  }

  /** `HeaderLineAsWritten` once the colon and the two halves are known. */
  lemma AsWrittenSplits(h: string, m: string, index: int, name: string, value: string)
    requires IndexOf(Trim(h), ':') == index && 3 <= index && index != |h| - 1 && index < |h|
    requires Trim(h[..index]) == name && Trim(h[index + 1..]) == value
    ensures HeaderLineAsWritten(h, m) == Ok((name, value))
  {
  }

  /** As written, a header whose trimmed text ends with its colon but whose
      text does not (`"abc: "`) is taken with an empty value. */
  lemma HeaderLineAsWrittenKeepsEmptyValue(m: string)
    ensures HeaderLineAsWritten("abc: ", m) == Ok(("abc", ""))
    ensures HeaderLine("abc: ", m).Err?
  {
    var h := "abc: ";
    TrailingBlankColon();
    assert h[..3] == "abc";
    TrimmedAlready("abc");
    assert h[4..] == " ";
    assert SkipBlank(" ", 0) == 1 && SkipBlankBack(" ", 1, 1) == 1;
    assert Trim(" ") == "";
    AsWrittenSplits(h, m, 3, "abc", "");
  }

  lemma TrailingBlankColon()
    ensures Trim("abc: ") == "abc:" && IndexOf("abc:", ':') == 3
  {
    var t := "abc:";
    assert SkipBlank("abc: ", 0) == 0 && SkipBlankBack("abc: ", 0, 5) == 4;
    assert "abc: "[0..4] == t;
    assert t[..3] == "abc";
    IndexOfAt(t, ':', 3);
  }

  /** A parameter that fails whatever was parsed before it makes the whole
      parameter list fail. */
  lemma {:induction false} ParamRejectedAnywhere(ps: seq<Parameter>, i: nat, st: ParamState, isMultipart: bool, m: string,
                                                 fs: seq<ConverterFactory>, p: nat)
    requires i <= p < |ps|
    requires forall s: ParamState :: ParamParsed(p, ps[p], s, isMultipart, m, fs).Err?
    ensures ParamsParsed(ps, i, st, isMultipart, m, fs).Err?
    decreases p - i
  {
    if i < p {
      var next := ParamParsed(i, ps[i], st, isMultipart, m, fs);
      if next.Ok? {
        ParamRejectedAnywhere(ps, i + 1, next.value, isMultipart, m, fs, p);
      }
    } else {
      assert ParamParsed(p, ps[p], st, isMultipart, m, fs).Err?;
    }
  }

  /** The `@ApiBody` exclusions in either order: a second `@ApiBody`, or an
      `@ApiField` after or before it, makes the parameters fail. */
  lemma {:induction false} BodyExclusive(ps: seq<Parameter>, i: nat, st: ParamState, isMultipart: bool, m: string,
                                         fs: seq<ConverterFactory>, a: nat, b: nat)
    requires i <= a < b < |ps|
    requires (ps[a].annotations == [ApiBody] && (ps[b].annotations == [ApiBody] || (|ps[b].annotations| == 1 && ps[b].annotations[0].ApiField?)))
          || (|ps[a].annotations| == 1 && ps[a].annotations[0].ApiField? && ps[b].annotations == [ApiBody])
    ensures ParamsParsed(ps, i, st, isMultipart, m, fs).Err?
    decreases a - i
  {
    var next := ParamParsed(i, ps[i], st, isMultipart, m, fs);
    if next.Ok? {
      if i < a {
        BodyExclusive(ps, i + 1, next.value, isMultipart, m, fs, a, b);
      } else {
        FlagBlocks(ps, i + 1, next.value, isMultipart, m, fs, b);
      }
    }
  }

  /** Once `multiApiBody` is set a later `@ApiBody` or `@ApiField` fails,
      and once `hasApiField` is set a later `@ApiBody` fails. */
  lemma {:induction false} FlagBlocks(ps: seq<Parameter>, i: nat, st: ParamState, isMultipart: bool, m: string,
                                      fs: seq<ConverterFactory>, b: nat)
    requires i <= b < |ps|
    requires (st.multiApiBody && (ps[b].annotations == [ApiBody] || (|ps[b].annotations| == 1 && ps[b].annotations[0].ApiField?)))
          || (st.hasApiField && ps[b].annotations == [ApiBody])
    ensures ParamsParsed(ps, i, st, isMultipart, m, fs).Err?
    decreases b - i
  {
    var next := ParamParsed(i, ps[i], st, isMultipart, m, fs);
    if next.Ok? && i < b {
      FlagBlocks(ps, i + 1, next.value, isMultipart, m, fs, b);
    }
  }
}
