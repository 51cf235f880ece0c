/** `ApiAdapterFinder` (lemon/.../adapter/ApiAdapterFinder.kt): the api
    adapter factories of a client, the built-in one last, and the lookup
    that returns the first adapter a factory offers for a return type. */
module ApiAdapterFinders {
  import opened Wrappers
  import opened ConverterFinders

  /** An `ApiAdapter`: the built-in one, or an application adapter given by
      its name and what its `getActualType` answers. */
  datatype ApiAdapter = DefaultApiAdapter | UserApiAdapter(name: string, actual: TypeRef -> TypeRef)

  /** What `adapt(block)` returns for a block that produces `x`: the value
      itself, or the application adapter's wrapping of it. */
  datatype Adapted<T> = Direct(value: T) | Wrapped(adapter: string, value: T)

  function Adapt<T>(a: ApiAdapter, x: T): (r: Adapted<T>)
    ensures a.DefaultApiAdapter? <==> r == Direct(x)
  {
    match a
    case DefaultApiAdapter => Direct(x)
    case UserApiAdapter(name, _) => Wrapped(name, x)
  }

  /** `getActualType(type)`: the type whose converter is looked up for a
      method returning `type`. */
  function ActualType(a: ApiAdapter, t: TypeRef): (r: TypeRef)
    ensures a.DefaultApiAdapter? ==> r == t
  {
    match a
    case DefaultApiAdapter => t
    case UserApiAdapter(_, actual) => actual(t)
  }

  datatype ApiAdapterFactory = BuildInApiAdapterFactory | UserApiAdapterFactory(createFor: TypeRef -> Option<ApiAdapter>)

  /** `create(type, method)`: the built-in factory answers every type. */
  function AdapterOf(f: ApiAdapterFactory, t: TypeRef): (r: Option<ApiAdapter>)
    ensures f.BuildInApiAdapterFactory? ==> r == Some(DefaultApiAdapter)
  {
    match f
    case BuildInApiAdapterFactory => Some(DefaultApiAdapter)
    case UserApiAdapterFactory(createFor) => createFor(t)
  }

  function AdapterMissing(t: TypeRef, origin: string): Failure {
    IllegalArgument("Could not find api method adapter for method:" + origin + ",typeName:" + TypeName(t))
  }

  /** The first adapter in factory order, or the error. */
  function FirstAdapter(fs: seq<ApiAdapterFactory>, t: TypeRef, origin: string): Result<ApiAdapter>
    decreases |fs|
  {
    if fs == [] then Err(AdapterMissing(t, origin))
    else match AdapterOf(fs[0], t)
      case Some(a) => Ok(a)
      case None => FirstAdapter(fs[1..], t, origin)
  }

  /** A `MutableList<ApiAdapter.Factory>` shared between its owner and the
      finder made from it. */
  class ApiAdapterFactoryList {
    var items: seq<ApiAdapterFactory>

    constructor(items: seq<ApiAdapterFactory>)
      ensures this.items == items
    {
      this.items := items;
    }
  }

  class ApiAdapterFinder {
    const factories: ApiAdapterFactoryList

    /** `ApiAdapterFinder.create(list)`: appends the built-in factory to the
        caller's own list and keeps that list. */
    constructor(list: ApiAdapterFactoryList)
      modifies list
      ensures list.items == old(list.items) + [BuildInApiAdapterFactory]
      ensures factories == list
    {
      list.items := list.items + [BuildInApiAdapterFactory];
      factories := list;
    }

    /** `findApiAdapter(type, method)`. */
    method FindApiAdapter(t: TypeRef, origin: string) returns (r: Result<ApiAdapter>)
      ensures r == FirstAdapter(factories.items, t, origin)
    {
      var fs := factories.items;
      var i := 0;
      while i < |fs|
        invariant 0 <= i <= |fs|
        invariant FirstAdapter(fs, t, origin) == FirstAdapter(fs[i..], t, origin)
      {
        var a := AdapterOf(fs[i], t);
        if a.Some? {
          return Ok(a.value);
        }
        assert fs[i..][1..] == fs[i + 1..];
        i := i + 1;
      }
      r := Err(AdapterMissing(t, origin));
    }
  }

  // -----------------------------------------------------------------------
  // Properties

  /** The lookup throws (the error `AdapterMissing`) exactly when no
      factory offers an adapter. */
  lemma {:induction false} AdapterMissingIff(fs: seq<ApiAdapterFactory>, t: TypeRef, origin: string)
    ensures FirstAdapter(fs, t, origin).Err? <==> forall i :: 0 <= i < |fs| ==> AdapterOf(fs[i], t).None?
    decreases |fs|
  {
    if fs != [] {
      var o := AdapterOf(fs[0], t);
      if o.None? {
        AdapterMissingIff(fs[1..], t, origin);
        assert forall i :: 1 <= i < |fs| ==> fs[i] == fs[1..][i - 1];
      }
    }
  }

  /** It returns the adapter of the first factory that offers one. */
  lemma {:induction false} AdapterFirst(fs: seq<ApiAdapterFactory>, t: TypeRef, origin: string, k: nat)
    requires k < |fs| && AdapterOf(fs[k], t).Some?
    requires forall j :: 0 <= j < k ==> AdapterOf(fs[j], t).None?
    ensures FirstAdapter(fs, t, origin) == Ok(AdapterOf(fs[k], t).value)
    decreases k
  {
    if k > 0 {
      assert fs[1..][k - 1] == fs[k];
      assert forall j :: 0 <= j < k - 1 ==> fs[1..][j] == fs[j + 1];
      AdapterFirst(fs[1..], t, origin, k - 1);
    }
  }

  /** With the built-in factory at the end the lookup never throws: the
      first application adapter wins, else the default one. */
  lemma {:induction false} BuildInLastNeverMisses(user: seq<ApiAdapterFactory>, t: TypeRef, origin: string)
    ensures FirstAdapter(user + [BuildInApiAdapterFactory], t, origin).Ok?
    ensures (forall i :: 0 <= i < |user| ==> AdapterOf(user[i], t).None?) ==>
            FirstAdapter(user + [BuildInApiAdapterFactory], t, origin) == Ok(DefaultApiAdapter)
    decreases |user|
  {
    if user != [] {
      assert (user + [BuildInApiAdapterFactory])[1..] == user[1..] + [BuildInApiAdapterFactory];
      if AdapterOf(user[0], t).None? {
        assert forall i :: 1 <= i < |user| ==> user[i] == user[1..][i - 1];
        BuildInLastNeverMisses(user[1..], t, origin);
      }
    }
  }
}
