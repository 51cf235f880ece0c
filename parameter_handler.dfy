/** The parameter handlers (core/.../apimethod/parameter/ParameterHandler.kt):
    one per annotated parameter of an API method, each applying the
    argument of a call to the `RequestFactory` of that call. What `apply`
    does is stated once as a function on `FactoryState` (`Applied`), and
    `Apply` is proved to change the factory exactly so. */
module ParameterHandlers {
  import opened Wrappers
  import opened Text
  import opened HeaderMaps
  import opened Bodies
  import opened RequestFactories

  /** How an object passes through `addPart`'s `when`: a ready part, a
      file, a request body, or anything else. */
  datatype Shape =
    | IsPart(part: Part)
    | IsFile(fileName: string, data: seq<byte>)
    | IsBody(body: RequestBody)
    | Plain

  /** An argument as a handler sees it: `null`, an object (its `toString()`
      and its shape), or a `Map` (its `toString()` and its entries in
      iteration order). */
  datatype Value =
    | Null
    | Obj(text: string, shape: Shape)
    | MapObj(text: string, entries: seq<(string, Value)>)

  /** The value `addPart` receives for a non-null object. */
  function AsPart(v: Value): (r: PartValue)
    requires !v.Null?
    ensures r.OtherObject? ==> r.text == v.text
  {
    if v.MapObj? then OtherObject(v.text)
    else match v.shape
      case IsPart(p) => PartObject(p)
      case IsFile(fileName, data) => FileObject(fileName, data)
      case IsBody(b) => BodyObject(b)
      case Plain => OtherObject(v.text)
  }

  /** What a `Converter<T, RequestBody>` returns: a body it was given or a
      body it creates. */
  datatype Converted = Same(body: RequestBody) | Created(content: Content)

  function ContentOf(c: Converted): Content {
    if c.Same? then c.body.content else c.content
  }

  /** The handlers; `index` is the position of the parameter, reported in
      every parameter error. */
  datatype Handler =
    | BodyHandler(index: nat, convert: Value -> Result<Converted>)
    | FieldHandler(index: nat, name: string, encoded: bool)
    | FieldMapHandler(index: nat, encoded: bool)
    | HeaderHandler(index: nat, name: string)
    | HeaderMapHandler(index: nat)
    | PathHandler(index: nat, name: string, encoded: bool)
    | PartHandler(index: nat, name: string, encoding: string)
    | PartMapHandler(index: nat, encoding: string)

  const BodyNullMessage := "ApiBody parameter value must not be null!"
  const ConvertErrorMessage := "RequestBody convert error! value:"
  const FieldMapNullMessage := "ApiField Map value must not be null!"
  const FieldEntryNullMessage := "ApiField Map value is null for key:"
  const HeaderMapNullMessage := "ApiHeader Map value must not be null!"
  const HeaderEntryNullMessage := "ApiHeader Map value is null for key:"
  const PartMapNullMessage := "ApiPart Map value must not be null!"

  function PathNullMessage(name: string): string {
    "Path " + name + " value must not be null!"
  }

  // -----------------------------------------------------------------------
  // Map entries

  /** The position of the first entry whose value is null, or the size. */
  function FirstNull(es: seq<(string, Value)>): (k: nat)
    ensures k <= |es|
    ensures forall j :: 0 <= j < k ==> !es[j].1.Null?
    ensures k < |es| ==> es[k].1.Null?
  {
    if es == [] then 0 else if es[0].1.Null? then 0 else 1 + FirstNull(es[1..])
  }

  /** Which factory call a map handler makes for each entry. */
  datatype MapKind = FieldEntries(encoded: bool) | HeaderEntries | PartEntries(encoding: string)

  /** One entry of a map handler; a null value changes nothing. */
  function EntryAdded(how: MapKind, s: FactoryState, boundary: string, e: (string, Value)): FactoryState {
    if e.1.Null? then s
    else match how
      case FieldEntries(encoded) => FieldAdded(s, e.0, e.1.text, encoded)
      case HeaderEntries => HeaderAdded(s, e.0, e.1.text)
      case PartEntries(encoding) => PartAdded(s, boundary, PartFor(e.0, encoding, AsPart(e.1)))
  }

  /** The entries of a map, in order. */
  function EntriesAdded(how: MapKind, s: FactoryState, boundary: string, es: seq<(string, Value)>): FactoryState
    decreases |es|
  {
    if es == [] then s
    else EntryAdded(how, EntriesAdded(how, s, boundary, es[..|es| - 1]), boundary, es[|es| - 1])
  }

  /** A field or header map: the entries before the first null value are
      added, and a null value throws naming its key. */
  function StrictMapApplied(index: nat, how: MapKind, mapNull: string, entryNull: string,
                            v: Value, s: FactoryState, boundary: string): (Outcome, FactoryState)
  {
    if v.Null? then (Fail(ParameterError(index, mapNull)), s)
    else if v.Obj? then (Fail(ClassCast), s)
    else
      var k := FirstNull(v.entries);
      (if k < |v.entries| then Fail(ParameterError(index, entryNull + v.entries[k].0 + "!")) else Done,
       EntriesAdded(how, s, boundary, v.entries[..k]))
  }

  /** `apply(requestFactory, value)` on the state of the factory;
      `boundary` is the one a new multipart builder draws. */
  function Applied(h: Handler, v: Value, s: FactoryState, boundary: string): (Outcome, FactoryState) {
    match h
    case BodyHandler(index, convert) =>
      if v.Null? then (Fail(ParameterError(index, BodyNullMessage)), s)
      else (match convert(v)
        case Ok(c) => (Done, s.(body := Some(ContentOf(c))))
        case Err(f) => (Fail(if f.Io? then ParameterError(index, ConvertErrorMessage + v.text) else f), s))
    case FieldHandler(_, name, encoded) =>
      if v.Null? then (Done, s) else (Done, FieldAdded(s, name, v.text, encoded))
    case FieldMapHandler(index, encoded) =>
      StrictMapApplied(index, FieldEntries(encoded), FieldMapNullMessage, FieldEntryNullMessage, v, s, boundary)
    case HeaderHandler(_, name) =>
      if v.Null? then (Done, s) else (Done, HeaderAdded(s, name, v.text))
    case HeaderMapHandler(index) =>
      StrictMapApplied(index, HeaderEntries, HeaderMapNullMessage, HeaderEntryNullMessage, v, s, boundary)
    case PathHandler(index, name, encoded) =>
      if v.Null? then (Fail(ParameterError(index, PathNullMessage(name))), s)
      else PathParamAdded(s, name, v.text, encoded)
    case PartHandler(_, name, encoding) =>
      if v.Null? then (Done, s) else (Done, PartAdded(s, boundary, PartFor(name, encoding, AsPart(v))))
    case PartMapHandler(index, encoding) =>
      if v.Null? then (Fail(ParameterError(index, PartMapNullMessage)), s)
      else if v.Obj? then (Fail(ClassCast), s)
      else (Done, EntriesAdded(PartEntries(encoding), s, boundary, v.entries))
  }

  // -----------------------------------------------------------------------
  // apply

  /** The `for (entry in value.entries)` loop of the map handlers: the
      entries up to the first null value are added (all non-null ones for
      parts, which skip nulls), and `k` is where a field or header map
      stopped. */
  method AddEntries(how: MapKind, rf: RequestFactory, es: seq<(string, Value)>) returns (k: nat)
    requires rf.Valid()
    modifies rf, rf.headersBuilder, rf.formBuilder, rf.multipartBuilder
    ensures rf.Valid()
    ensures rf.formBuilder == old(rf.formBuilder) || fresh(rf.formBuilder)
    ensures rf.multipartBuilder == old(rf.multipartBuilder) || fresh(rf.multipartBuilder)
    ensures k == if how.PartEntries? then |es| else FirstNull(es)
    ensures rf.State() == EntriesAdded(how, old(rf.State()), rf.boundary, es[..k])
  {
    k := if how.PartEntries? then |es| else FirstNull(es);
    ghost var s0 := rf.State();
    ghost var acc := s0;
    var i := 0;
    while i < k
      invariant 0 <= i <= k
      invariant rf.Valid()
      invariant rf.formBuilder == old(rf.formBuilder) || fresh(rf.formBuilder)
      invariant rf.multipartBuilder == old(rf.multipartBuilder) || fresh(rf.multipartBuilder)
      invariant rf.State() == acc
      invariant acc == EntriesAdded(how, s0, rf.boundary, es[..i])
    {
      AddEntry(how, rf, es[i]);
      EntriesSnoc(how, s0, rf.boundary, es, i);
      acc := EntryAdded(how, acc, rf.boundary, es[i]);
      i := i + 1;
    }
  }

  /** Helper of `AddEntries`: one more entry. */
  lemma EntriesSnoc(how: MapKind, s: FactoryState, boundary: string, es: seq<(string, Value)>, i: nat)
    requires i < |es|
    ensures EntriesAdded(how, s, boundary, es[..i + 1])
      == EntryAdded(how, EntriesAdded(how, s, boundary, es[..i]), boundary, es[i])
  {
    assert es[..i + 1][..i] == es[..i];
  }

  /** The factory call for one entry; a null one is skipped. */
  method AddEntry(how: MapKind, rf: RequestFactory, e: (string, Value))
    requires rf.Valid()
    modifies rf, rf.headersBuilder, rf.formBuilder, rf.multipartBuilder
    ensures rf.Valid()
    ensures rf.formBuilder == old(rf.formBuilder) || fresh(rf.formBuilder)
    ensures rf.multipartBuilder == old(rf.multipartBuilder) || fresh(rf.multipartBuilder)
    ensures rf.State() == EntryAdded(how, old(rf.State()), rf.boundary, e)
  {
    var (name, value) := e;
    if value.Null? {
      return;
    }
    match how
    case FieldEntries(encoded) => rf.AddFormField(name, value.text, encoded);
    case HeaderEntries => rf.AddHeader(name, value.text);
    case PartEntries(encoding) => rf.AddPart(name, encoding, AsPart(value));
  }

  /** `Body.apply`: a null argument or a body the converter cannot write
      (an IOException) is a parameter error; any other failure of the
      converter propagates. */
  method ApplyBody(index: nat, convert: Value -> Result<Converted>, rf: RequestFactory, v: Value) returns (r: Outcome)
    requires rf.Valid()
    modifies rf
    ensures rf.Valid()
    ensures (r, rf.State()) == Applied(BodyHandler(index, convert), v, old(rf.State()), rf.boundary)
    ensures rf.formBuilder == old(rf.formBuilder) && rf.multipartBuilder == old(rf.multipartBuilder)
    ensures !v.Null? && convert(v).Ok? && convert(v).value.Same? ==> rf.body == Some(convert(v).value.body)
    ensures !v.Null? && convert(v).Ok? && convert(v).value.Created? ==>
      rf.body.Some? && fresh(rf.body.value) && rf.body.value.contentLength == -1
  {
    if v.Null? {
      return Fail(ParameterError(index, BodyNullMessage));
    }
    match convert(v)
    case Ok(c) =>
      var b: RequestBody;
      if c.Same? {
        b := c.body;
      } else {
        b := new RequestBody(c.content);
      }
      rf.SetBody(Some(b));
      r := Done;
    case Err(f) =>
      if f.Io? {
        r := Fail(ParameterError(index, ConvertErrorMessage + v.text));
      } else {
        r := Fail(f);
      }
  }

  /** `apply(requestFactory, value)` of any handler. */
  method Apply(h: Handler, rf: RequestFactory, v: Value) returns (r: Outcome)
    requires rf.Valid()
    modifies rf, rf.headersBuilder, rf.formBuilder, rf.multipartBuilder
    ensures rf.Valid()
    ensures rf.formBuilder == old(rf.formBuilder) || fresh(rf.formBuilder)
    ensures rf.multipartBuilder == old(rf.multipartBuilder) || fresh(rf.multipartBuilder)
    ensures (r, rf.State()) == Applied(h, v, old(rf.State()), rf.boundary)
  {
    match h
    case BodyHandler(index, convert) =>
      r := ApplyBody(index, convert, rf, v);
    case FieldHandler(_, name, encoded) =>
      r := Done;
      if !v.Null? {
        rf.AddFormField(name, v.text, encoded);
      }
    case FieldMapHandler(index, encoded) =>
      r := ApplyStrictMap(index, FieldEntries(encoded), FieldMapNullMessage, FieldEntryNullMessage, rf, v);
    case HeaderHandler(_, name) =>
      r := Done;
      if !v.Null? {
        rf.AddHeader(name, v.text);
      }
    case HeaderMapHandler(index) =>
      r := ApplyStrictMap(index, HeaderEntries, HeaderMapNullMessage, HeaderEntryNullMessage, rf, v);
    case PathHandler(index, name, encoded) =>
      if v.Null? {
        return Fail(ParameterError(index, PathNullMessage(name)));
      }
      r := rf.AddPathParam(name, v.text, encoded);
    case PartHandler(_, name, encoding) =>
      r := Done;
      if !v.Null? {
        rf.AddPart(name, encoding, AsPart(v));
      }
    case PartMapHandler(index, encoding) =>
      if v.Null? {
        return Fail(ParameterError(index, PartMapNullMessage));
      } else if v.Obj? {
        return Fail(ClassCast);
      }
      var k := AddEntries(PartEntries(encoding), rf, v.entries);
      assert v.entries[..k] == v.entries;
      r := Done;
  }

  /** `FieldMap.apply` and `HeaderMap.apply`. */
  method ApplyStrictMap(index: nat, how: MapKind, mapNull: string, entryNull: string,
                        rf: RequestFactory, v: Value) returns (r: Outcome)
    requires rf.Valid() && !how.PartEntries?
    modifies rf, rf.headersBuilder, rf.formBuilder, rf.multipartBuilder
    ensures rf.Valid()
    ensures rf.formBuilder == old(rf.formBuilder) || fresh(rf.formBuilder)
    ensures rf.multipartBuilder == old(rf.multipartBuilder) || fresh(rf.multipartBuilder)
    ensures (r, rf.State()) == StrictMapApplied(index, how, mapNull, entryNull, v, old(rf.State()), rf.boundary)
  {
    if v.Null? {
      return Fail(ParameterError(index, mapNull));
    } else if v.Obj? {
      return Fail(ClassCast);
    }
    var k := AddEntries(how, rf, v.entries);
    if k < |v.entries| {
      r := Fail(ParameterError(index, entryNull + v.entries[k].0 + "!"));
    } else {
      r := Done;
    }
  }

  // -----------------------------------------------------------------------
  // Properties

  /** The keys of a map's entries, in order. */
  function Keys(es: seq<(string, Value)>): (r: seq<string>)
    ensures |r| == |es|
    decreases |es|
  {
    if es == [] then [] else Keys(es[..|es| - 1]) + [es[|es| - 1].0]
  }

  /** The values a field map adds, encoded when asked, in order. */
  function FieldTexts(es: seq<(string, Value)>, encoded: bool): (r: seq<string>)
    requires forall j :: 0 <= j < |es| ==> !es[j].1.Null?
    ensures |r| == |es|
    decreases |es|
  {
    if es == [] then []
    else
      var t := es[|es| - 1].1.text;
      FieldTexts(es[..|es| - 1], encoded) + [if encoded then UrlEncode(t) else t]
  }

  /** The parts a part map adds: one per non-null entry, in order. */
  function MapParts(es: seq<(string, Value)>, encoding: string): seq<Part>
    decreases |es|
  {
    if es == [] then []
    else
      var e := es[|es| - 1];
      MapParts(es[..|es| - 1], encoding) + (if e.1.Null? then [] else [PartFor(e.0, encoding, AsPart(e.1))])
  }

  /** A field map's entries become form fields in iteration order, names
      as given and values encoded only when asked; nothing else changes. */
  lemma {:induction false} FieldEntriesInOrder(encoded: bool, s: FactoryState, boundary: string, es: seq<(string, Value)>)
    requires forall j :: 0 <= j < |es| ==> !es[j].1.Null?
    ensures var t := EntriesAdded(FieldEntries(encoded), s, boundary, es);
      FormNames(t.form) == FormNames(s.form) + Keys(es)
      && FormValues(t.form) == FormValues(s.form) + FieldTexts(es, encoded)
      && (es != [] ==> t.form.Some? && t.form.value.Form?)
      && t.(form := s.form) == s
    decreases |es|
  {
    if es != [] {
      FieldEntriesInOrder(encoded, s, boundary, es[..|es| - 1]);
    }
  }

  /** A part map adds one part per non-null entry, in iteration order, to
      the multipart body, whose boundary is kept; nothing else changes. */
  lemma {:induction false} PartEntriesInOrder(encoding: string, s: FactoryState, boundary: string, es: seq<(string, Value)>)
    ensures var t := EntriesAdded(PartEntries(encoding), s, boundary, es);
      PartList(t.multipart) == PartList(s.multipart) + MapParts(es, encoding)
      && BoundaryOf(t.multipart, boundary) == BoundaryOf(s.multipart, boundary)
      && t.(multipart := s.multipart) == s
    decreases |es|
  {
    if es != [] {
      PartEntriesInOrder(encoding, s, boundary, es[..|es| - 1]);
    }
  }

  /** A header map changes the headers and nothing else. */
  lemma {:induction false} HeaderEntriesOnly(s: FactoryState, boundary: string, es: seq<(string, Value)>)
    ensures EntriesAdded(HeaderEntries, s, boundary, es).(headers := s.headers) == s
    decreases |es|
  {
    if es != [] {
      HeaderEntriesOnly(s, boundary, es[..|es| - 1]);
    }
  }

  /** A field or header map throws exactly when it is null, not a map, or
      holds a null value; the error names the first such key. */
  lemma StrictMapFails(index: nat, how: MapKind, mapNull: string, entryNull: string,
                       v: Value, s: FactoryState, boundary: string)
    ensures var (r, _) := StrictMapApplied(index, how, mapNull, entryNull, v, s, boundary);
      (r.Fail? <==> !v.MapObj? || exists j :: 0 <= j < |v.entries| && v.entries[j].1.Null?)
      && (v.MapObj? && r.Fail? ==>
            exists j :: 0 <= j < |v.entries| && v.entries[j].1.Null?
                        && r == Fail(ParameterError(index, entryNull + v.entries[j].0 + "!"))
                        && forall i :: 0 <= i < j ==> !v.entries[i].1.Null?)
  {
    if v.MapObj? {
      var k := FirstNull(v.entries);
      if k < |v.entries| {
        assert v.entries[k].1.Null?;
      }
    }
  }

  /** A null argument never changes the factory; it is skipped by the
      field, header and part handlers and an error for every other one. */
  lemma NullArgument(h: Handler, s: FactoryState, boundary: string)
    ensures var (r, t) := Applied(h, Null, s, boundary);
      t == s && (r == Done <==> h.FieldHandler? || h.HeaderHandler? || h.PartHandler?)
  {
  }
}
