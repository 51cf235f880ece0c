/** `ApiMethodFactory` (core/.../apimethod/ApiMethodFactory.kt) and
    `ApiMethodParser.getApiMethod`: a method of a service interface is
    parsed once, its api adapter and response converter are looked up, and
    the resulting `ApiMethod` is cached under the method. */
module ApiMethodFactories {
  import opened Wrappers
  import opened ConverterFinders
  import opened ApiAdapterFinders
  import opened ApiMethodParsers

  /** What `getApiMethod` settles for one declaration. */
  datatype Descriptor = Descriptor(parsed: Parsed, adapter: ApiAdapter, converter: ResponseConverter)

  /** The three steps in the library's order: parse the declaration, find an
      adapter for the declared return type, then find a response converter
      for the type that adapter unwraps. The first failure is the result. */
  function Describe(service: ServiceDecl, decl: MethodDecl, convs: seq<ConverterFactory>,
                    adapters: seq<ApiAdapterFactory>): (r: Result<Descriptor>)
    ensures r.Ok? <==> ParseAll(service, decl, convs).Ok?
                       && FirstAdapter(adapters, decl.returnType, decl.referenceName).Ok?
                       && FirstResponseConverter(convs, ActualType(FirstAdapter(adapters, decl.returnType, decl.referenceName).value, decl.returnType), decl.referenceName).Ok?
    ensures ParseAll(service, decl, convs).Err? ==> r == Err(ParseAll(service, decl, convs).failure)
  {
    var p :- ParseAll(service, decl, convs);
    var a :- FirstAdapter(adapters, decl.returnType, decl.referenceName);
    var c :- FirstResponseConverter(convs, ActualType(a, decl.returnType), decl.referenceName);
    Ok(Descriptor(p, a, c))
  }

  /** `ApiMethod(lemon, parser, converter, apiAdapter)`: what `invoke`
      works from. */
  class ApiMethod {
    const parser: ApiMethodParser
    const responseConverter: ResponseConverter
    const apiAdapter: ApiAdapter

    constructor(parser: ApiMethodParser, responseConverter: ResponseConverter, apiAdapter: ApiAdapter)
      ensures this.parser == parser && this.responseConverter == responseConverter && this.apiAdapter == apiAdapter
    {
      this.parser := parser;
      this.responseConverter := responseConverter;
      this.apiAdapter := apiAdapter;
    }
  }

  class ApiMethodFactory {
    const lemonApiUrl: string
    const converterFinder: ConverterFinder
    const adapterFinder: ApiAdapterFinder
    /** `methodCache`; a method is identified by its declaration. */
    var cache: map<MethodDecl, ApiMethod>

    /** Every cached `ApiMethod` was parsed from the method it is cached
        under. */
    ghost predicate Keyed()
      reads this
    {
      forall d :: d in cache ==> cache[d].parser.decl == d
    }

    constructor(lemonApiUrl: string, converterFinder: ConverterFinder, adapterFinder: ApiAdapterFinder)
      ensures this.lemonApiUrl == lemonApiUrl && this.converterFinder == converterFinder
      ensures this.adapterFinder == adapterFinder && cache == map[] && Keyed()
    {
      this.lemonApiUrl := lemonApiUrl;
      this.converterFinder := converterFinder;
      this.adapterFinder := adapterFinder;
      cache := map[];
    }

    /** `getApiMethod(service, method)`: a new parser, then
        `ApiMethodParser.getApiMethod()`. */
    method GetApiMethod(service: ServiceDecl, decl: MethodDecl) returns (r: Result<ApiMethod>)
      ensures var d := Describe(service, decl, converterFinder.factories.items, adapterFinder.factories.items);
        (r.Ok? <==> d.Ok?) && (r.Err? ==> r.failure == d.failure)
        && (r.Ok? ==> fresh(r.value) && fresh(r.value.parser) && r.value.parser.Valid()
                      && r.value.parser.Holds(d.value.parsed)
                      && r.value.parser.service == service && r.value.parser.decl == decl
                      && r.value.parser.lemonApiUrl == lemonApiUrl && r.value.parser.converterFinder == converterFinder
                      && r.value.apiAdapter == d.value.adapter && r.value.responseConverter == d.value.converter)
    {
      var p := NewApiMethodParser(lemonApiUrl, converterFinder, service, decl);
      if p.Err? {
        return Err(p.failure);
      }
      var parser := p.value;
      var a := adapterFinder.FindApiAdapter(decl.returnType, decl.referenceName);
      if a.Err? {
        return Err(a.failure);
      }
      var c := converterFinder.FindResponseBodyConverter(ActualType(a.value, decl.returnType), decl.referenceName);
      if c.Err? {
        return Err(c.failure);
      }
      var m := new ApiMethod(parser, c.value, a.value);
      r := Ok(m);
    }

    /** `create(service, method)`: a cached `ApiMethod` is returned as it
        is; otherwise the method is parsed and, when that succeeds, the new
        `ApiMethod` is cached. A failure caches nothing, and no entry is ever
        replaced. */
    method Create(service: ServiceDecl, decl: MethodDecl) returns (r: Result<ApiMethod>)
      requires Keyed()
      modifies this
      ensures Keyed()
      ensures forall d :: d in old(cache) ==> d in cache && cache[d] == old(cache)[d]
      ensures decl in old(cache) ==> r == Ok(old(cache)[decl]) && cache == old(cache)
      ensures decl !in old(cache) ==>
        var d := Describe(service, decl, converterFinder.factories.items, adapterFinder.factories.items);
        (r.Ok? <==> d.Ok?)
        && (r.Err? ==> r.failure == d.failure && cache == old(cache))
        && (r.Ok? ==> fresh(r.value) && cache == old(cache)[decl := r.value]
                      && r.value.parser.Holds(d.value.parsed)
                      && r.value.apiAdapter == d.value.adapter && r.value.responseConverter == d.value.converter)
    {
      if decl in cache {
        return Ok(cache[decl]);
      }
      r := GetApiMethod(service, decl);
      if r.Ok? {
        cache := cache[decl := r.value];
      }
    }
  }

  /** Two `create` calls for the same method return the same instance, and
      the second one leaves the cache as the first left it. */
  method CreateTwice(f: ApiMethodFactory, service: ServiceDecl, decl: MethodDecl)
      returns (first: Result<ApiMethod>, second: Result<ApiMethod>)
    requires f.Keyed()
    modifies f
    ensures first.Ok? ==> second == first
    ensures first.Ok? ==> decl in f.cache && f.cache[decl] == first.value
  {
    first := f.Create(service, decl);
    second := f.Create(service, decl);
  }

  // -----------------------------------------------------------------------
  // Properties

  /** With only the built-in factories in play for a method returning
      `String` or `ResponseBody`, the lookups never fail: the method is
      usable exactly when its declaration parses, with the default adapter
      and the matching built-in converter. */
  lemma BuiltInsResolve(service: ServiceDecl, decl: MethodDecl, userConvs: seq<ConverterFactory>,
                        userAdapters: seq<ApiAdapterFactory>)
    requires decl.returnType.StringType? || decl.returnType.ResponseBodyType?
    requires forall i :: 0 <= i < |userAdapters| ==> AdapterOf(userAdapters[i], decl.returnType).None?
    ensures var r := Describe(service, decl, [BuildInConverterFactory] + userConvs, userAdapters + [BuildInApiAdapterFactory]);
      (r.Ok? <==> ParseAll(service, decl, [BuildInConverterFactory] + userConvs).Ok?)
      && (r.Ok? ==> r.value.adapter == DefaultApiAdapter
                    && r.value.converter == (if decl.returnType.StringType? then BodyToString else SameResponseBody))
  {
    BuildInLastNeverMisses(userAdapters, decl.returnType, decl.referenceName);
    BuildInFirst(userConvs, decl.returnType, decl.referenceName);
  }

  /** An application adapter that claims the return type wins over the
      built-in one, and the converter is then looked up for the type it
      unwraps rather than for the declared type. */
  lemma UserAdapterUnwraps(service: ServiceDecl, decl: MethodDecl, convs: seq<ConverterFactory>,
                           userAdapters: seq<ApiAdapterFactory>, k: nat)
    requires k < |userAdapters| && AdapterOf(userAdapters[k], decl.returnType).Some?
    requires forall j :: 0 <= j < k ==> AdapterOf(userAdapters[j], decl.returnType).None?
    requires ParseAll(service, decl, convs).Ok?
    ensures var a := AdapterOf(userAdapters[k], decl.returnType).value;
      Describe(service, decl, convs, userAdapters + [BuildInApiAdapterFactory]).Ok?
      <==> FirstResponseConverter(convs, ActualType(a, decl.returnType), decl.referenceName).Ok?
  {
    var fs := userAdapters + [BuildInApiAdapterFactory];
    assert fs[k] == userAdapters[k];
    assert forall j :: 0 <= j < k ==> fs[j] == userAdapters[j];
    AdapterFirst(fs, decl.returnType, decl.referenceName, k);
  }
}
