/** `Lemon` and `Lemon.Builder` (lemon/src/main/java/com/lemon/http/Lemon.kt):
    the builder collects the API URL, the factories, the interceptors and an
    optional client; `build` checks the URL, puts the transport after the
    application's interceptors and hands the factory lists to the finders. */
module Lemons {
  import opened Wrappers
  import opened Requests
  import opened Chains
  import opened Urls
  import opened ConverterFinders
  import opened ApiAdapterFinders
  import opened ApiMethodFactories

  /** An `HttpClient`, by what `execute` answers for a request. */
  type HttpClient = Request -> Result<Response>

  /** `RealCallInterceptor(httpClient)`. */
  function RealCall(client: HttpClient): (ic: Interceptor)
    ensures ic.Transport? && ic.execute == client
  {
    Transport(client)
  }

  /** The two checks of `build`. */
  function UrlRequired(): Failure {
    IllegalArgument("Lemon apiUrl required!")
  }

  function UrlNotHttp(): Failure {
    IllegalArgument("Lemon apiUrl must be HTTP or HTTPS!")
  }

  /** What `build` answers for a builder holding `apiUrl`: which check
      fails, if one does. */
  function BuildCheck(apiUrl: Option<string>): (r: Outcome)
    ensures r == Done <==> apiUrl.Some? && IsHttpProtocol(apiUrl.value)
    ensures apiUrl.None? ==> r == Fail(UrlRequired())
    ensures apiUrl.Some? && !IsHttpProtocol(apiUrl.value) ==> r == Fail(UrlNotHttp())
  {
    if apiUrl.None? then Fail(UrlRequired())
    else if !IsHttpProtocol(apiUrl.value) then Fail(UrlNotHttp())
    else Done
  }

  /** The chain a built `Lemon` runs: the interceptors added so far, in the
      order they were added, and the transport over the client. */
  function BuiltChain(added: seq<Interceptor>, client: HttpClient): seq<Interceptor> {
    added + [RealCall(client)]
  }

  class Lemon {
    const apiUrl: string
    const converterFinder: ConverterFinder
    const apiAdapterFinder: ApiAdapterFinder
    const interceptors: seq<Interceptor>
    /** `apiMthodFactory = ApiMethodFactory(this)`. */
    const apiMethodFactory: ApiMethodFactory

    constructor(apiUrl: string, converterFinder: ConverterFinder, apiAdapterFinder: ApiAdapterFinder,
                interceptors: seq<Interceptor>)
      ensures this.apiUrl == apiUrl && this.converterFinder == converterFinder
      ensures this.apiAdapterFinder == apiAdapterFinder && this.interceptors == interceptors
      ensures fresh(apiMethodFactory) && apiMethodFactory.cache == map[]
      ensures apiMethodFactory.lemonApiUrl == apiUrl && apiMethodFactory.converterFinder == converterFinder
      ensures apiMethodFactory.adapterFinder == apiAdapterFinder && apiMethodFactory.Keyed()
    {
      this.apiUrl := apiUrl;
      this.converterFinder := converterFinder;
      this.apiAdapterFinder := apiAdapterFinder;
      this.interceptors := interceptors;
      apiMethodFactory := new ApiMethodFactory(apiUrl, converterFinder, apiAdapterFinder);
    }
  }

  class Builder {
    var apiUrl: Option<string>
    const apiAdapterFactorys: ApiAdapterFactoryList
    const converterFactors: ConverterFactoryList
    var interceptors: seq<Interceptor>
    var httpClient: Option<HttpClient>

    constructor()
      ensures apiUrl.None? && interceptors == [] && httpClient.None?
      ensures fresh(apiAdapterFactorys) && apiAdapterFactorys.items == []
      ensures fresh(converterFactors) && converterFactors.items == []
    {
      apiUrl := None;
      apiAdapterFactorys := new ApiAdapterFactoryList([]);
      converterFactors := new ConverterFactoryList([]);
      interceptors := [];
      httpClient := None;
    }

    /** `setApiUrl(apiUrl)`. */
    method SetApiUrl(url: string) returns (self: Builder)
      modifies this
      ensures self == this && apiUrl == Some(url)
      ensures interceptors == old(interceptors) && httpClient == old(httpClient)
    {
      apiUrl := Some(url);
      self := this;
    }

    /** `addApiAdapterFactory(factory)`. */
    method AddApiAdapterFactory(f: ApiAdapterFactory) returns (self: Builder)
      modifies apiAdapterFactorys
      ensures self == this && apiAdapterFactorys.items == old(apiAdapterFactorys.items) + [f]
    {
      apiAdapterFactorys.items := apiAdapterFactorys.items + [f];
      self := this;
    }

    /** `addConverterFactory(factory)`. */
    method AddConverterFactory(f: ConverterFactory) returns (self: Builder)
      modifies converterFactors
      ensures self == this && converterFactors.items == old(converterFactors.items) + [f]
    {
      converterFactors.items := converterFactors.items + [f];
      self := this;
    }

    /** `addInterceptor(interceptor)`: appended after the ones added before. */
    method AddInterceptor(ic: Interceptor) returns (self: Builder)
      modifies this
      ensures self == this && interceptors == old(interceptors) + [ic]
      ensures apiUrl == old(apiUrl) && httpClient == old(httpClient)
    {
      interceptors := interceptors + [ic];
      self := this;
    }

    /** `setHttpClient(httpClient)`. */
    method SetHttpClient(client: HttpClient) returns (self: Builder)
      modifies this
      ensures self == this && httpClient == Some(client)
      ensures apiUrl == old(apiUrl) && interceptors == old(interceptors)
    {
      httpClient := Some(client);
      self := this;
    }

    /** `build()`. Without a URL, or with one that is not HTTP(S), it throws
        and changes nothing. Otherwise the transport over the client set
        (`lemonClient` when none was) is appended to the builder's own
        interceptor list, the finders take the builder's own factory lists
        (the converter finder putting the built-in factory first, the
        adapter finder appending it), and the new `Lemon` holds a copy of
        the interceptor list. */
    method Build(lemonClient: HttpClient) returns (r: Result<Lemon>)
      modifies this, converterFactors, apiAdapterFactorys
      ensures apiUrl == old(apiUrl) && httpClient == old(httpClient)
      ensures BuildCheck(apiUrl).Fail? ==>
        r == Err(BuildCheck(apiUrl).failure) && interceptors == old(interceptors)
        && converterFactors.items == old(converterFactors.items)
        && apiAdapterFactorys.items == old(apiAdapterFactorys.items)
      ensures BuildCheck(apiUrl).Done? ==>
        var client := if httpClient.Some? then httpClient.value else lemonClient;
        r.Ok? && fresh(r.value) && r.value.apiUrl == apiUrl.value
        && interceptors == BuiltChain(old(interceptors), client)
        && r.value.interceptors == interceptors
        && converterFactors.items == [BuildInConverterFactory] + old(converterFactors.items)
        && apiAdapterFactorys.items == old(apiAdapterFactorys.items) + [BuildInApiAdapterFactory]
        && r.value.converterFinder.factories == converterFactors
        && r.value.apiAdapterFinder.factories == apiAdapterFactorys
        && r.value.apiMethodFactory.cache == map[]
    {
      if apiUrl.None? {
        return Err(UrlRequired());
      }
      var finalApiUrl := apiUrl.value;
      if !IsHttpProtocol(finalApiUrl) {
        return Err(UrlNotHttp());
      }
      var client := if httpClient.Some? then httpClient.value else lemonClient;
      interceptors := interceptors + [RealCall(client)];
      var converterFinder := new ConverterFinder(converterFactors);
      var apiAdapterFinder := new ApiAdapterFinder(apiAdapterFactorys);
      var lemon := new Lemon(finalApiUrl, converterFinder, apiAdapterFinder, interceptors);
      r := Ok(lemon);
    }
  }

  // -----------------------------------------------------------------------
  // Properties

  /** The chain of a built `Lemon` keeps the application's interceptors in
      the order they were added and ends with the transport, so no request
      runs past its end. */
  lemma BuiltChainShape(added: seq<Interceptor>, client: HttpClient, req: Request)
    ensures var ics := BuiltChain(added, client);
      |ics| == |added| + 1 && ics[..|added|] == added && ics[|added|] == Transport(client)
      && Final(ics, 0, req).Some?
  {
    var ics := BuiltChain(added, client);
    assert ics[|ics| - 1] == Transport(client);
    TransportLastNeverOverruns(ics, req);
  }

  /** With no interceptors of its own, or only ones that pass the request
      and the response through, a built `Lemon` answers what the client
      answers. */
  lemma TransparentInterceptorsReachClient(added: seq<Interceptor>, client: HttpClient, req: Request)
    requires forall k :: 0 <= k < |added| ==>
      added[k].Custom? && added[k].before(req) == Forward(req)
      && forall res :: added[k].after(req, res) == res
    ensures Start(BuiltChain(added, client), req) == client(req)
  {
    TransparentPrefix(added, [Transport(client)], req);
    TransportAlone(client, req);
  }

  /** A builder built twice: the second `Lemon` runs the transport of the
      first build followed by a second one, and the converter list holds
      the built-in factory twice. */
  method BuildTwice(b: Builder, lemonClient: HttpClient) returns (first: Result<Lemon>, second: Result<Lemon>)
    requires b.apiUrl.Some? && IsHttpProtocol(b.apiUrl.value)
    modifies b, b.converterFactors, b.apiAdapterFactorys
    ensures var client := if b.httpClient.Some? then b.httpClient.value else lemonClient;
      first.Ok? && second.Ok?
      && second.value.interceptors == old(b.interceptors) + [Transport(client), Transport(client)]
      && b.converterFactors.items == [BuildInConverterFactory, BuildInConverterFactory] + old(b.converterFactors.items)
      && b.apiAdapterFactorys.items == old(b.apiAdapterFactorys.items) + [BuildInApiAdapterFactory, BuildInApiAdapterFactory]
  {
    first := b.Build(lemonClient);
    second := b.Build(lemonClient);
  }
}
