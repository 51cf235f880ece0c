/** `ConverterFinder` (tube/.../converter/ConverterFinder.kt): the converter
    factories of a client, the built-in one first, and the lookups that
    return the first converter a factory offers for a type. */
module ConverterFinders {
  import opened Wrappers
  import opened Text
  import opened Bodies
  import opened ParameterHandlers
  import opened MediaTypes
  import opened Requests

  /** A Java type as the lookups see it: the three classes the built-in
      factory knows, compared by identity, and every other type. */
  datatype TypeRef = StringType | RequestBodyType | ResponseBodyType | OtherType(name: string)

  /** The type as it appears in an error message. */
  function TypeName(t: TypeRef): string {
    match t
    case StringType => "class java.lang.String"
    case RequestBodyType => "class com.tube.http.request.body.RequestBody"
    case ResponseBodyType => "class com.tube.http.request.body.ResponseBody"
    case OtherType(name) => name
  }

  /** A `Converter<*, RequestBody>`: the built-in ones, or an application
      converter given by what its `convert` does. */
  datatype RequestConverter =
    | ToStringBody
    | SameRequestBody
    | UserRequestConverter(run: Value -> Result<Converted>)

  /** A `Converter<ResponseBody, *>`: the built-in ones, or an application
      converter, named. */
  datatype ResponseConverter = BodyToString | SameResponseBody | UserResponseConverter(name: string)

  /** `convert(value)`: the string converter makes a UTF-8 body of
      `toString()`; the identity converter returns the body it is given
      (any other object fails its cast). */
  function Convert(c: RequestConverter, v: Value): (r: Result<Converted>)
    requires !v.Null?
    ensures c.ToStringBody? ==> r == Ok(Created(Bytes(Utf8(v.text), None, 0)))
    ensures c.SameRequestBody? && v.Obj? && v.shape.IsBody? ==> r == Ok(Same(v.shape.body))
  {
    match c
    case ToStringBody => Ok(Created(CreateString(v.text, None)))
    case SameRequestBody => if v.Obj? && v.shape.IsBody? then Ok(Same(v.shape.body)) else Err(ClassCast)
    case UserRequestConverter(run) => run(v)
  }

  /** The converter as the body handler applies it. */
  function Converter(c: RequestConverter): Value -> Result<Converted> {
    (v: Value) => if v.Null? then Err(ClassCast) else Convert(c, v)
  }

  /** What a response converter produces: the body's bytes decoded with
      the named charset (the content type's `charset` parameter; none means
      UTF-8), the body itself, or an application value. */
  datatype ResponseValue =
    | Decoded(bytes: seq<byte>, charset: Option<string>)
    | SameBody(body: ResponseBody)
    | UserValue(converter: string, body: ResponseBody)

  /** `getCharset()` as far as the name it looks up. */
  function CharsetName(ct: Option<ContentType>): (r: Option<string>)
    ensures r.Some? <==> ct.Some? && "charset" in ct.value.parameters
  {
    if ct.Some? && "charset" in ct.value.parameters then Some(ct.value.parameters["charset"]) else None
  }

  /** `convert(value)` of a response converter. */
  function ConvertResponse(c: ResponseConverter, b: ResponseBody): (r: ResponseValue)
    ensures c.BodyToString? ==> r.Decoded? && r.bytes == b.bytes
    ensures c.BodyToString? && b.contentType == None ==> r.charset == None
    ensures c.SameResponseBody? ==> r == SameBody(b)
  {
    match c
    case BodyToString => Decoded(b.bytes, CharsetName(b.contentType))
    case SameResponseBody => SameBody(b)
    case UserResponseConverter(name) => UserValue(name, b)
  }

  datatype ConverterFactory =
    | BuildInConverterFactory
    | UserConverterFactory(requestFor: TypeRef -> Option<RequestConverter>,
                           responseFor: TypeRef -> Option<ResponseConverter>)

  /** `requestBodyConverter(type, origin)`: the built-in factory knows only
      String and RequestBody. */
  function RequestConverterOf(f: ConverterFactory, t: TypeRef): (r: Option<RequestConverter>)
    ensures f.BuildInConverterFactory? ==>
      r == (if t.StringType? then Some(ToStringBody) else if t.RequestBodyType? then Some(SameRequestBody) else None)
  {
    match f
    case BuildInConverterFactory =>
      if t == StringType then Some(ToStringBody)
      else if t == RequestBodyType then Some(SameRequestBody)
      else None
    case UserConverterFactory(requestFor, _) => requestFor(t)
  }

  /** `responseBodyConverter(type, origin)`: the built-in factory knows only
      String and ResponseBody. */
  function ResponseConverterOf(f: ConverterFactory, t: TypeRef): (r: Option<ResponseConverter>)
    ensures f.BuildInConverterFactory? ==>
      r == (if t.StringType? then Some(BodyToString) else if t.ResponseBodyType? then Some(SameResponseBody) else None)
  {
    match f
    case BuildInConverterFactory =>
      if t == StringType then Some(BodyToString)
      else if t == ResponseBodyType then Some(SameResponseBody)
      else None
    case UserConverterFactory(_, responseFor) => responseFor(t)
  }

  function RequestMissing(t: TypeRef, origin: string): Failure {
    IllegalArgument("Could not find RequestBody converter for method:" + origin + ",typeName:" + TypeName(t))
  }

  function ResponseMissing(t: TypeRef, origin: string): Failure {
    IllegalArgument("Could not locate ResponseBody converter!for method:" + origin + ",typeName:" + TypeName(t))
  }

  /** The first request converter in factory order, or the error. */
  function FirstRequestConverter(fs: seq<ConverterFactory>, t: TypeRef, origin: string): Result<RequestConverter>
    decreases |fs|
  {
    if fs == [] then Err(RequestMissing(t, origin))
    else match RequestConverterOf(fs[0], t)
      case Some(c) => Ok(c)
      case None => FirstRequestConverter(fs[1..], t, origin)
  }

  /** The first response converter in factory order, or the error. */
  function FirstResponseConverter(fs: seq<ConverterFactory>, t: TypeRef, origin: string): Result<ResponseConverter>
    decreases |fs|
  {
    if fs == [] then Err(ResponseMissing(t, origin))
    else match ResponseConverterOf(fs[0], t)
      case Some(c) => Ok(c)
      case None => FirstResponseConverter(fs[1..], t, origin)
  }

  /** A `MutableList<Converter.Factory>` shared between its owner and the
      finder made from it. */
  class ConverterFactoryList {
    var items: seq<ConverterFactory>

    constructor(items: seq<ConverterFactory>)
      ensures this.items == items
    {
      this.items := items;
    }
  }

  class ConverterFinder {
    const factories: ConverterFactoryList

    /** `ConverterFinder.create(list)`: puts the built-in factory at the
        front of the caller's own list and keeps that list. */
    constructor(list: ConverterFactoryList)
      modifies list
      ensures list.items == [BuildInConverterFactory] + old(list.items)
      ensures factories == list
    {
      list.items := [BuildInConverterFactory] + list.items;
      factories := list;
    }

    /** `findRequestBodyConverter(type, origin)`. */
    method FindRequestBodyConverter(t: TypeRef, origin: string) returns (r: Result<RequestConverter>)
      ensures r == FirstRequestConverter(factories.items, t, origin)
    {
      var fs := factories.items;
      var i := 0;
      while i < |fs|
        invariant 0 <= i <= |fs|
        invariant FirstRequestConverter(fs, t, origin) == FirstRequestConverter(fs[i..], t, origin)
      {
        var c := RequestConverterOf(fs[i], t);
        if c.Some? {
          return Ok(c.value);
        }
        assert fs[i..][1..] == fs[i + 1..];
        i := i + 1;
      }
      r := Err(RequestMissing(t, origin));
    }

    /** `findResponseBodyConverter(type, origin)`. */
    method FindResponseBodyConverter(t: TypeRef, origin: string) returns (r: Result<ResponseConverter>)
      ensures r == FirstResponseConverter(factories.items, t, origin)
    {
      var fs := factories.items;
      var i := 0;
      while i < |fs|
        invariant 0 <= i <= |fs|
        invariant FirstResponseConverter(fs, t, origin) == FirstResponseConverter(fs[i..], t, origin)
      {
        var c := ResponseConverterOf(fs[i], t);
        if c.Some? {
          return Ok(c.value);
        }
        assert fs[i..][1..] == fs[i + 1..];
        i := i + 1;
      }
      r := Err(ResponseMissing(t, origin));
    }
  }

  // -----------------------------------------------------------------------
  // Properties

  /** The request lookup throws (the error `RequestMissing`) exactly when
      no factory offers a converter. */
  lemma {:induction false} RequestConverterMissing(fs: seq<ConverterFactory>, t: TypeRef, origin: string)
    ensures FirstRequestConverter(fs, t, origin).Err?
            <==> forall i :: 0 <= i < |fs| ==> RequestConverterOf(fs[i], t).None?
    decreases |fs|
  {
    if fs != [] {
      var o := RequestConverterOf(fs[0], t);
      if o.None? {
        RequestConverterMissing(fs[1..], t, origin);
        assert FirstRequestConverter(fs, t, origin) == FirstRequestConverter(fs[1..], t, origin);
        assert forall i :: 1 <= i < |fs| ==> fs[i] == fs[1..][i - 1];
      } else {
        assert FirstRequestConverter(fs, t, origin) == Ok(o.value);
      }
    }
  }

  /** It returns the converter of the first factory that offers one. */
  lemma {:induction false} RequestConverterFirst(fs: seq<ConverterFactory>, t: TypeRef, origin: string, k: nat)
    requires k < |fs| && RequestConverterOf(fs[k], t).Some?
    requires forall j :: 0 <= j < k ==> RequestConverterOf(fs[j], t).None?
    ensures FirstRequestConverter(fs, t, origin) == Ok(RequestConverterOf(fs[k], t).value)
    decreases k
  {
    if k > 0 {
      assert fs[1..][k - 1] == fs[k];
      assert forall j :: 0 <= j < k - 1 ==> fs[1..][j] == fs[j + 1];
      RequestConverterFirst(fs[1..], t, origin, k - 1);
    }
  }

  /** The response lookup throws exactly when no factory offers a
      converter. */
  lemma {:induction false} ResponseConverterMissing(fs: seq<ConverterFactory>, t: TypeRef, origin: string)
    ensures FirstResponseConverter(fs, t, origin).Err?
            <==> forall i :: 0 <= i < |fs| ==> ResponseConverterOf(fs[i], t).None?
    decreases |fs|
  {
    if fs != [] {
      var o := ResponseConverterOf(fs[0], t);
      if o.None? {
        ResponseConverterMissing(fs[1..], t, origin);
        assert FirstResponseConverter(fs, t, origin) == FirstResponseConverter(fs[1..], t, origin);
        assert forall i :: 1 <= i < |fs| ==> fs[i] == fs[1..][i - 1];
      } else {
        assert FirstResponseConverter(fs, t, origin) == Ok(o.value);
      }
    }
  }

  /** It returns the converter of the first factory that offers one. */
  lemma {:induction false} ResponseConverterFirst(fs: seq<ConverterFactory>, t: TypeRef, origin: string, k: nat)
    requires k < |fs| && ResponseConverterOf(fs[k], t).Some?
    requires forall j :: 0 <= j < k ==> ResponseConverterOf(fs[j], t).None?
    ensures FirstResponseConverter(fs, t, origin) == Ok(ResponseConverterOf(fs[k], t).value)
    decreases k
  {
    if k > 0 {
      assert fs[1..][k - 1] == fs[k];
      assert forall j :: 0 <= j < k - 1 ==> fs[1..][j] == fs[j + 1];
      ResponseConverterFirst(fs[1..], t, origin, k - 1);
    }
  }

  /** With the built-in factory in front, String and RequestBody bodies are
      always converted by it, whatever the application adds; every other
      type goes to the application factories in order. */
  lemma BuildInFirst(user: seq<ConverterFactory>, t: TypeRef, origin: string)
    ensures var r := FirstRequestConverter([BuildInConverterFactory] + user, t, origin);
      (t.StringType? ==> r == Ok(ToStringBody))
      && (t.RequestBodyType? ==> r == Ok(SameRequestBody))
      && (!t.StringType? && !t.RequestBodyType? ==> r == FirstRequestConverter(user, t, origin))
    ensures var r := FirstResponseConverter([BuildInConverterFactory] + user, t, origin);
      (t.StringType? ==> r == Ok(BodyToString))
      && (t.ResponseBodyType? ==> r == Ok(SameResponseBody))
      && (!t.StringType? && !t.ResponseBodyType? ==> r == FirstResponseConverter(user, t, origin))
  {
    assert ([BuildInConverterFactory] + user)[1..] == user;
  }
}
