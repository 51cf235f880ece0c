/** Request bodies (lemon/.../request/body): byte and file bodies, the
    url-encoded form and multipart/form-data. What a body's `writeTo` puts
    on an `OutputStream`, and whether it returns or throws, is the function
    `Write`; the stream itself is a `ByteSink`. */
module Bodies {
  import opened Wrappers
  import opened Text
  import opened MediaTypes

  /** The bodies the library creates, and a body of an application's own
      `RequestBody` subclass. A file is given by its name and the bytes it
      holds when it is read. An application's body is given by the type
      it reports, the bytes its `writeTo` writes and the length its
      `measureContentLength` reports (-1 when it does not know). */
  datatype Content =
    | Bytes(content: seq<byte>, byteType: Option<ContentType>, offset: int)
    | FileData(fileType: Option<ContentType>, fileName: string, data: seq<byte>)
    | Form(encodedNames: seq<string>, encodedValues: seq<string>)
    | Multipart(boundary: string, parts: seq<Part>)
    | Custom(customType: Option<ContentType>, emitted: seq<byte>, reported: int)

  /** `MultipartBody.Part`. */
  datatype Part = Part(name: string, fileName: Option<string>, encoding: Option<string>, body: Content)

  /** What `writeTo` wrote before it returned (`Done`) or threw (`Fail`). */
  datatype Written = Written(bytes: seq<byte>, outcome: Outcome)

  /** `RequestBody.create(content, contentType, offset)`. */
  function CreateBytes(content: seq<byte>, contentType: Option<ContentType>, offset: int): (r: Content)
    ensures r.Bytes? && r.content == content && r.byteType == contentType
  {
    Bytes(content, contentType, offset)
  }

  /** `RequestBody.create(content: String, contentType)`, encoded as UTF-8. */
  function CreateString(content: string, contentType: Option<ContentType>): (r: Content)
    ensures r == Bytes(Utf8(content), contentType, 0)
  {
    CreateBytes(Utf8(content), contentType, 0)
  }

  /** `RequestBody.EMPTY_BODY`. */
  const EmptyBody := Bytes([], None, 0)

  /** `Part.create(name, encoding, contentType, file)`. */
  function FilePart(name: string, encoding: Option<string>, contentType: Option<ContentType>,
                    fileName: string, data: seq<byte>): (r: Part)
    ensures r.fileName == Some(fileName) && r.body == FileData(contentType, fileName, data)
  {
    Part(name, Some(fileName), encoding, FileData(contentType, fileName, data))
  }

  /** `contentType()` of each body; a multipart body's is
      `MULTIPART_FORM_DATA.addParameter("boundary", boundary)`. */
  function ContentTypeOf(c: Content): (r: Result<Option<ContentType>>)
    ensures c.Bytes? ==> r == Ok(c.byteType)
    ensures c.FileData? ==> r == Ok(c.fileType)
    ensures c.Form? ==> r == Ok(Some(FormType))
    ensures c.Custom? ==> r == Ok(c.customType)
    ensures c.Multipart? ==>
      (r.Ok? <==> AddParameter(MultipartType, "boundary", c.boundary).Ok?)
      && (r.Ok? ==> r.value == Some(AddParameter(MultipartType, "boundary", c.boundary).value))
  {
    match c
    case Bytes(_, t, _) => Ok(t)
    case FileData(t, _, _) => Ok(t)
    case Form(_, _) => Ok(Some(FormType))
    case Custom(t, _, _) => Ok(t)
    case Multipart(b, _) =>
      // The corrected addParameter is used here; it agrees with the one as
      // written for every boundary that does not end with `;`, which holds
      // for the hexadecimal UUID text the builder draws (BoundaryTypeAgrees).
      var t :- AddParameter(MultipartType, "boundary", b);
      Ok(Some(t))
  }

  /** For a boundary not ending with `;` (a hexadecimal UUID never does),
      both readings of addParameter give the same multipart media type. */
  lemma BoundaryTypeAgrees(b: string)
    requires !EndsWith(b, ";")
    ensures AddParameter(MultipartType, "boundary", b) == AddParameterAsWritten(MultipartType, "boundary", b)
  {
    assert !EndsWith(MultipartValue, ";") by {
      assert MultipartValue[|MultipartValue| - 1] == 'a';
    }
    assert !StartsWith("boundary", ";");
  }

  // -----------------------------------------------------------------------
  // The url-encoded form

  /** `writeTo` of a form from the `i`-th name on: `&` before every pair
      but the first, then `name=value`; `encodedValues[i]` past the end of
      the list throws. */
  function FormFrom(names: seq<string>, values: seq<string>, i: nat): Written
    requires i <= |names|
    decreases |names| - i
  {
    if i == |names| then Written([], Done)
    else
      var head := Utf8((if i > 0 then "&" else "") + names[i] + "=");
      if i >= |values| then Written(head, Fail(IndexOutOfBounds))
      else
        var rest := FormFrom(names, values, i + 1);
        Written(head + Utf8(values[i]) + rest.bytes, rest.outcome)
  }

  /** The pairs `name=value` of a form. */
  function FormPairs(names: seq<string>, values: seq<string>): (r: seq<string>)
    requires |names| <= |values|
    ensures |r| == |names|
    ensures forall i :: 0 <= i < |names| ==> r[i] == names[i] + "=" + values[i]
  {
    seq(|names|, i requires 0 <= i < |names| => names[i] + "=" + values[i])
  }

  /** The text of a form: its pairs joined with `&`. */
  function FormText(names: seq<string>, values: seq<string>): string
    requires |names| <= |values|
  {
    Join(FormPairs(names, values), "&")
  }

  // -----------------------------------------------------------------------
  // multipart/form-data

  const Crlf := "\r\n"

  /** `; filename="…"` when the part has a file name. */
  function FileNameText(fileName: Option<string>): (r: string)
    ensures fileName.None? <==> r == ""
  {
    match fileName
    case None => ""
    case Some(n) => "; filename=\"" + n + "\""
  }

  /** The delimiter line and the Content-Disposition line of a part. */
  function PartHead(boundary: string, p: Part): string {
    "--" + boundary + Crlf + "Content-Disposition:form-data; name=\"" + p.name + "\""
    + FileNameText(p.fileName) + Crlf
  }

  /** `Content-Type:` line, only for a body that has a media type. */
  function TypeLine(ct: Option<ContentType>): (r: string)
    ensures ct.None? <==> r == ""
  {
    match ct
    case None => ""
    case Some(t) => "Content-Type:" + t.value + Crlf
  }

  /** `Content-Transfer-Encoding:` line, only for a non-empty encoding. */
  function EncodingLine(encoding: Option<string>): (r: string)
    ensures (encoding.Some? && encoding.value != "") <==> r != ""
  {
    if encoding.Some? && encoding.value != "" then
      "Content-Transfer-Encoding:" + encoding.value + Crlf
    else ""
  }

  /** `Content-Length:` line as written: left out when the length is 1. */
  function LengthLineAsWritten(length: int): (r: string)
    ensures r == "" <==> length == 1
  {
    if length != 1 then "Content-Length: " + DecimalString(length) + Crlf else ""
  }

  /** `Content-Length:` line left out only for an unknown length (-1), as
      `addDefaultHeaders` treats -1. */
  function LengthLine(length: int): (r: string)
    ensures r == "" <==> length == -1
  {
    if length != -1 then "Content-Length: " + DecimalString(length) + Crlf else ""
  }

  /** The closing delimiter `--boundary--` and CRLF. */
  function Closing(boundary: string): string {
    "--" + boundary + "--" + Crlf
  }

  // -----------------------------------------------------------------------
  // writeTo and measureContentLength

  /** `writeTo(outputStream)`. A byte body writes `write(content, offset,
      content.size)`, which throws unless the offset is 0; a file body
      copies the file. */
  function Write(c: Content): (r: Written)
    ensures c.Bytes? ==> (r.outcome.Done? <==> c.offset == 0)
    ensures c.FileData? || c.Custom? ==> r.outcome.Done?
    decreases c, 1
  {
    match c
    case Bytes(content, _, offset) =>
      if offset == 0 then Written(content, Done) else Written([], Fail(IndexOutOfBounds))
    case FileData(_, _, data) => Written(data, Done)
    case Form(names, values) => FormFrom(names, values, 0)
    case Multipart(_, _) => PartsFrom(c, 0)
    case Custom(_, emitted, _) => Written(emitted, Done)
  }

  /** `writeTo` of a multipart body from part `i` on: the parts in order,
      then the closing delimiter. */
  function PartsFrom(c: Content, i: nat): Written
    requires c.Multipart? && i <= |c.parts|
    decreases c, 0, |c.parts| - i, 1
  {
    if i == |c.parts| then Written(Utf8(Closing(c.boundary)), Done)
    else
      var w := PartAt(c, i);
      if w.outcome.Fail? then w
      else
        var rest := PartsFrom(c, i + 1);
        Written(w.bytes + rest.bytes, rest.outcome)
  }

  /** What part `i` of a multipart body writes. */
  function PartAt(c: Content, i: nat): Written
    requires c.Multipart? && i < |c.parts|
    decreases c, 0, |c.parts| - i, 0
  {
    PartOut(c.boundary, c.parts[i])
  }

  /** One part: its head, its type, encoding and length lines, a blank
      line, its body and CRLF. */
  function PartOut(boundary: string, p: Part): Written
    decreases p
  {
    var head := Utf8(PartHead(boundary, p));
    match ContentTypeOf(p.body)
    case Err(f) => Written(head, Fail(f))
    case Ok(ct) =>
      var pre := head + Utf8(TypeLine(ct) + EncodingLine(p.encoding));
      match Measure(p.body)
      case Err(f) => Written(pre, Fail(f))
      case Ok(length) =>
        var w := Write(p.body);
        var upTo := pre + Utf8(LengthLine(length) + Crlf) + w.bytes;
        if w.outcome.Fail? then Written(upTo, w.outcome)
        else Written(upTo + Utf8(Crlf), Done)
  }

  /** `measureContentLength()`: the size of a byte array or file; for a
      form or multipart body, the size of what `writeTo` writes into a
      `ByteArrayOutputStream` (a throw propagates). */
  function Measure(c: Content): (r: Result<int>)
    ensures r.Ok? && !c.Custom? ==> r.value >= 0
    decreases c, 2
  {
    match c
    case Bytes(content, _, _) => Ok(|content|)
    case FileData(_, _, data) => Ok(|data|)
    case Custom(_, _, reported) => Ok(reported)
    case _ =>
      var w := Write(c);
      if w.outcome.Fail? then Err(w.outcome.failure) else Ok(|w.bytes|)
  }

  // -----------------------------------------------------------------------
  // The stream

  /** An `OutputStream` (a `ByteArrayOutputStream` when fresh). */
  class ByteSink {
    var data: seq<byte>

    constructor()
      ensures data == []
    {
      data := [];
    }

    method Put(bs: seq<byte>)
      modifies this
      ensures data == old(data) + bs
    {
      data := data + bs;
    }
  }

  /** `writeTo(outputStream)` of every body, as the source writes it piece
      by piece. */
  method WriteContent(c: Content, sink: ByteSink) returns (r: Outcome)
    modifies sink
    ensures sink.data == old(sink.data) + Write(c).bytes
    ensures r == Write(c).outcome
    decreases c, 1
  {
    match c
    case Bytes(content, _, offset) =>
      if offset != 0 {
        return Fail(IndexOutOfBounds);
      }
      sink.Put(content);
      r := Done;
    case FileData(_, _, data) =>
      sink.Put(data);
      r := Done;
    case Form(names, values) =>
      r := WriteForm(names, values, sink);
    case Multipart(_, _) =>
      r := WriteParts(c, sink);
    case Custom(_, emitted, _) =>
      sink.Put(emitted);
      r := Done;
  }

  /** `FormBody.writeTo`: the loop over the name indices. */
  method WriteForm(names: seq<string>, values: seq<string>, sink: ByteSink) returns (r: Outcome)
    modifies sink
    ensures sink.data == old(sink.data) + FormFrom(names, values, 0).bytes
    ensures r == FormFrom(names, values, 0).outcome
  {
    var i := 0;
    ghost var done: seq<byte> := [];
    while i < |names|
      invariant 0 <= i <= |names| && i <= |values|
      invariant sink.data == old(sink.data) + done
      invariant done + FormFrom(names, values, i).bytes == FormFrom(names, values, 0).bytes
      invariant FormFrom(names, values, i).outcome == FormFrom(names, values, 0).outcome
    {
      ghost var start := sink.data;
      if i > 0 {
        sink.Put(Utf8("&"));
      }
      sink.Put(Utf8(names[i]));
      sink.Put(Utf8("="));
      ghost var head := Utf8((if i > 0 then "&" else "") + names[i] + "=");
      assert sink.data == start + head by {
        if i == 0 {
          assert start == start + Utf8("");
        }
        FormHead(start, if i > 0 then "&" else "", names[i], "=", sink.data);
      }
      if i >= |values| {
        Cat(old(sink.data), done, head);
        return Fail(IndexOutOfBounds);
      }
      sink.Put(Utf8(values[i]));
      FormStep(names, values, i, done, head);
      Cat(old(sink.data), done, head);
      Cat(old(sink.data), done + head, Utf8(values[i]));
      done := done + head + Utf8(values[i]);
      i := i + 1;
    }
    r := Done;
  }

  lemma Cat<T>(a: seq<T>, b: seq<T>, c: seq<T>)
    ensures a + b + c == a + (b + c)
  {
  }

  /** The writes of a pair's separator and name add up to its head. */
  lemma FormHead(start: seq<byte>, sep: string, name: string, eq: string, data: seq<byte>)
    requires data == start + Utf8(sep) + Utf8(name) + Utf8(eq)
    ensures data == start + Utf8(sep + name + eq)
  {
    Utf8Append(sep + name, eq);
    Utf8Append(sep, name);
    Cat(start, Utf8(sep), Utf8(name));
    Cat(start, Utf8(sep) + Utf8(name), Utf8(eq));
  }

  lemma FormStep(names: seq<string>, values: seq<string>, i: nat, done: seq<byte>, head: seq<byte>)
    requires i < |names| && i < |values|
    requires head == Utf8((if i > 0 then "&" else "") + names[i] + "=")
    requires done + FormFrom(names, values, i).bytes == FormFrom(names, values, 0).bytes
    ensures done + head + Utf8(values[i]) + FormFrom(names, values, i + 1).bytes
         == FormFrom(names, values, 0).bytes
    ensures FormFrom(names, values, i + 1).outcome == FormFrom(names, values, i).outcome
  {
    var rest := FormFrom(names, values, i + 1).bytes;
    assert FormFrom(names, values, i).bytes == head + Utf8(values[i]) + rest;
    calc {
      done + head + Utf8(values[i]) + rest;
      { Cat(done + head, Utf8(values[i]), rest); Cat(done, head, Utf8(values[i]) + rest); }
      done + (head + (Utf8(values[i]) + rest));
      { Cat(head, Utf8(values[i]), rest); }
      done + FormFrom(names, values, i).bytes;
    }
  }

  /** `MultipartBody.writeTo`: the loop over the parts, then the closing
      delimiter. */
  method WriteParts(c: Content, sink: ByteSink) returns (r: Outcome)
    requires c.Multipart?
    modifies sink
    ensures sink.data == old(sink.data) + PartsFrom(c, 0).bytes
    ensures r == PartsFrom(c, 0).outcome
    decreases c, 0
  {
    ghost var total := old(sink.data) + PartsFrom(c, 0).bytes;
    var i := 0;
    while i < |c.parts|
      invariant 0 <= i <= |c.parts|
      invariant sink.data + PartsFrom(c, i).bytes == total
      invariant PartsFrom(c, i).outcome == PartsFrom(c, 0).outcome
    {
      ghost var pre := sink.data;
      var o := WritePart(c.boundary, c.parts[i], sink);
      PartsStep(c, i, pre, total);
      if o.Fail? {
        return o;
      }
      i := i + 1;
    }
    sink.Put(Utf8(Closing(c.boundary)));
    r := Done;
  }

  /** One turn of `writeTo`'s loop: a part that fails ends the output with
      its own outcome; one that succeeds moves the split point past it. */
  lemma PartsStep(c: Content, i: nat, pre: seq<byte>, total: seq<byte>)
    requires c.Multipart? && i < |c.parts|
    requires pre + PartsFrom(c, i).bytes == total
    ensures var w := PartOut(c.boundary, c.parts[i]);
      if w.outcome.Fail? then
        pre + w.bytes == total && w.outcome == PartsFrom(c, i).outcome
      else
        (pre + w.bytes) + PartsFrom(c, i + 1).bytes == total
        && PartsFrom(c, i + 1).outcome == PartsFrom(c, i).outcome
  {
    var w := PartOut(c.boundary, c.parts[i]);
    if w.outcome.Done? {
      Cat(pre, w.bytes, PartsFrom(c, i + 1).bytes);
    }
  }

  /** The body of `writeTo`'s loop for one part. The length comes from the
      body's `contentLength()`. */
  method WritePart(boundary: string, p: Part, sink: ByteSink) returns (r: Outcome)
    modifies sink
    ensures sink.data == old(sink.data) + PartOut(boundary, p).bytes
    ensures r == PartOut(boundary, p).outcome
    decreases p
  {
    var head := Utf8(PartHead(boundary, p));
    sink.Put(head);
    var ct := ContentTypeOf(p.body);
    if ct.Err? {
      return Fail(ct.failure);
    }
    var lines := Utf8(TypeLine(ct.value) + EncodingLine(p.encoding));
    sink.Put(lines);
    Cat(old(sink.data), head, lines);
    var length := MeasureContent(p.body);
    if length.Err? {
      return Fail(length.failure);
    }
    var lengthLine := Utf8(LengthLine(length.value) + Crlf);
    sink.Put(lengthLine);
    var w := WriteContent(p.body, sink);
    Cat(old(sink.data), head + lines, lengthLine);
    Cat(old(sink.data), head + lines + lengthLine, Write(p.body).bytes);
    if w.Fail? {
      return w;
    }
    sink.Put(Utf8(Crlf));
    Cat(old(sink.data), head + lines + lengthLine + Write(p.body).bytes, Utf8(Crlf));
    r := Done;
  }

  /** `measureContentLength()`: a byte or file body knows its size; a form
      or multipart body is written into a fresh `ByteArrayOutputStream`. */
  method MeasureContent(c: Content) returns (r: Result<int>)
    ensures r == Measure(c)
    decreases c, 2
  {
    match c
    case Bytes(content, _, _) => r := Ok(|content|);
    case FileData(_, _, data) => r := Ok(|data|);
    case Custom(_, _, reported) => r := Ok(reported);
    case _ =>
      var out := new ByteSink();
      var o := WriteContent(c, out);
      if o.Fail? {
        return Err(o.failure);
      }
      r := Ok(|out.data|);
  }

  // -----------------------------------------------------------------------
  // RequestBody and its memoised length

  /** `RequestBody`: a body with the `contentLength` cache (-1 until
      measured). */
  class RequestBody {
    const content: Content
    var contentLength: int

    /** The cache is either empty or holds the measured length. */
    ghost predicate Valid()
      reads this
    {
      contentLength == -1 || Measure(content) == Ok(contentLength)
    }

    constructor(c: Content)
      ensures content == c && contentLength == -1 && Valid()
    {
      content := c;
      contentLength := -1;
    }

    function ContentType(): (r: Result<Option<ContentType>>)
      ensures r == ContentTypeOf(content)
    {
      ContentTypeOf(content)
    }

    /** `contentLength()`: measures only while the cache holds -1. */
    method ContentLength() returns (r: Result<int>)
      requires Valid()
      modifies this
      ensures Valid()
      ensures r == Measure(content)
      ensures old(contentLength) != -1 ==> contentLength == old(contentLength)
      ensures r.Ok? ==> contentLength == r.value
    {
      if contentLength == -1 {
        var m := MeasureContent(content);
        if m.Err? {
          return m;
        }
        contentLength := m.value;
      }
      r := Ok(contentLength);
    }

    method WriteTo(sink: ByteSink) returns (r: Outcome)
      modifies sink
      ensures sink.data == old(sink.data) + Write(content).bytes
      ensures r == Write(content).outcome
    {
      r := WriteContent(content, sink);
    }
  }

  // -----------------------------------------------------------------------
  // The builders

  /** `FormBody.Builder`: parallel lists of names and values. */
  class FormBuilder {
    var names: seq<string>
    var values: seq<string>

    ghost predicate Valid()
      reads this
    {
      |names| == |values|
    }

    constructor()
      ensures names == [] && values == [] && Valid()
    {
      names := [];
      values := [];
    }

    /** `add(name, value, encode)`: only the value is URL-encoded, and only
        when asked. */
    method Add(name: string, value: string, encode: bool)
      requires Valid()
      modifies this
      ensures Valid()
      ensures names == old(names) + [name]
      ensures values == old(values) + [if encode then UrlEncode(value) else value]
    {
      names := names + [name];
      var encodedValue := if encode then UrlEncode(value) else value;
      values := values + [encodedValue];
    }

    method Build() returns (r: Content)
      ensures r == Form(names, values)
    {
      r := Form(names, values);
    }
  }

  /** `FormBody.newBuilder()`. */
  method NewFormBuilder(form: Content) returns (b: FormBuilder)
    requires form.Form?
    ensures fresh(b)
    ensures b.names == form.encodedNames && b.values == form.encodedValues
  {
    b := new FormBuilder();
    b.names := form.encodedNames;
    b.values := form.encodedValues;
  }

  /** `MultipartBody.Builder`; the boundary, a random UUID by default, is
      given. */
  class MultipartBuilder {
    const boundary: string
    var parts: seq<Part>

    constructor(boundary: string, parts: seq<Part>)
      ensures this.boundary == boundary && this.parts == parts
    {
      this.boundary := boundary;
      this.parts := parts;
    }

    method AddPart(p: Part)
      modifies this
      ensures parts == old(parts) + [p]
    {
      parts := parts + [p];
    }

    /** `addPart(name, encoding, contentType, file)`. */
    method AddFilePart(name: string, encoding: Option<string>, contentType: Option<ContentType>,
                       fileName: string, data: seq<byte>)
      modifies this
      ensures parts == old(parts) + [Part(name, Some(fileName), encoding, FileData(contentType, fileName, data))]
    {
      AddPart(FilePart(name, encoding, contentType, fileName, data));
    }

    /** `addPart(name, encoding, requestBody)`: no file name. */
    method AddBodyPart(name: string, encoding: Option<string>, body: Content)
      modifies this
      ensures parts == old(parts) + [Part(name, None, encoding, body)]
    {
      AddPart(Part(name, None, encoding, body));
    }

    /** `addPart(name, encoding, content: String)`: a UTF-8 body without a
        media type. */
    method AddStringPart(name: string, encoding: Option<string>, content: string)
      modifies this
      ensures parts == old(parts) + [Part(name, None, encoding, Bytes(Utf8(content), None, 0))]
    {
      AddBodyPart(name, encoding, CreateString(content, None));
    }

    method Build() returns (r: Content)
      ensures r == Multipart(boundary, parts)
    {
      r := Multipart(boundary, parts);
    }
  }

  /** `MultipartBody.newBuilder()`. */
  method NewMultipartBuilder(m: Content) returns (b: MultipartBuilder)
    requires m.Multipart?
    ensures fresh(b) && b.boundary == m.boundary && b.parts == m.parts
  {
    b := new MultipartBuilder(m.boundary, m.parts);
  }

  // -----------------------------------------------------------------------
  // Properties

  /** A form with a value for every name writes `n1=v1&n2=v2…`: its pairs
      joined with `&`, no `&` before the first or after the last; a name
      without a value throws IndexOutOfBounds. */
  lemma FormWritesText(names: seq<string>, values: seq<string>)
    ensures Write(Form(names, values)).outcome.Done? <==> |names| <= |values|
    ensures |names| <= |values| ==>
      Write(Form(names, values)) == Written(Utf8(FormText(names, values)), Done)
    ensures |names| > |values| ==>
      Write(Form(names, values)).outcome == Fail(IndexOutOfBounds)
  {
    if |names| <= |values| {
      if names != [] {
        FormFromText(names, values, 0);
        assert FormPairs(names, values)[0..] == FormPairs(names, values);
        assert "" + FormText(names, values) == FormText(names, values);
      }
    } else {
      FormFromFails(names, values, 0);
    }
  }

  lemma {:induction false} FormFromText(names: seq<string>, values: seq<string>, i: nat)
    requires i < |names| <= |values|
    ensures FormFrom(names, values, i)
         == Written(Utf8((if i > 0 then "&" else "") + Join(FormPairs(names, values)[i..], "&")), Done)
    decreases |names| - i
  {
    var sep := if i > 0 then "&" else "";
    var pairs := FormPairs(names, values);
    FormFromHead(names, values, i);
    if i + 1 == |names| {
      assert pairs[i..] == [pairs[i]];
      assert Utf8(sep + pairs[i]) + [] == Utf8(sep + pairs[i]);
    } else {
      FormFromText(names, values, i + 1);
      JoinStep(pairs, i);
      PairsStep(sep, pairs[i], Join(pairs[i + 1..], "&"));
    }
  }

  /** The first pair written from position `i`, and what follows it. */
  lemma FormFromHead(names: seq<string>, values: seq<string>, i: nat)
    requires i < |names| <= |values|
    ensures var rest := FormFrom(names, values, i + 1);
      FormFrom(names, values, i)
      == Written(Utf8((if i > 0 then "&" else "") + FormPairs(names, values)[i]) + rest.bytes, rest.outcome)
  {
    var sep := if i > 0 then "&" else "";
    Utf8Append(sep + names[i] + "=", values[i]);
    assert sep + names[i] + "=" + values[i] == sep + FormPairs(names, values)[i];
  }

  lemma JoinStep(pairs: seq<string>, i: nat)
    requires i + 1 < |pairs|
    ensures Join(pairs[i..], "&") == pairs[i] + "&" + Join(pairs[i + 1..], "&")
  {
    assert pairs[i..][1..] == pairs[i + 1..];
  }

  lemma PairsStep(sep: string, pair: string, rest: string)
    ensures Utf8(sep + pair) + Utf8("&" + rest) == Utf8(sep + (pair + "&" + rest))
  {
    Utf8Append(sep + pair, "&" + rest);
    Cat(sep, pair, "&" + rest);
    Cat(pair, "&", rest);
  }

  lemma {:induction false} FormFromFails(names: seq<string>, values: seq<string>, i: nat)
    requires |values| < |names| && i <= |values|
    ensures FormFrom(names, values, i).outcome == Fail(IndexOutOfBounds)
    decreases |values| - i
  {
    if i < |values| {
      FormFromFails(names, values, i + 1);
    }
  }

  /** `measureContentLength()` is the size of what `writeTo` writes,
      whenever `writeTo` returns normally. */
  lemma MeasureIsWrittenSize(c: Content)
    requires !c.Custom?
    requires Write(c).outcome.Done?
    ensures Measure(c) == Ok(|Write(c).bytes|)
  {
  }

  /** A byte body with a non-zero offset reports its whole size, but its
      `writeTo` throws: `write(content, offset, content.size)` reads past
      the end of the array. */
  lemma ByteOffsetThrows(content: seq<byte>, contentType: Option<ContentType>, offset: int)
    requires offset != 0
    ensures Measure(CreateBytes(content, contentType, offset)) == Ok(|content|)
    ensures Write(CreateBytes(content, contentType, offset)) == Written([], Fail(IndexOutOfBounds))
  {
  }

  /** `EMPTY_BODY` has no media type, length 0 and writes nothing. */
  lemma EmptyBodyIsEmpty()
    ensures ContentTypeOf(EmptyBody) == Ok(None)
    ensures Measure(EmptyBody) == Ok(0)
    ensures Write(EmptyBody) == Written([], Done)
  {
  }

  /** No part fails to write. */
  predicate PartsOk(boundary: string, ps: seq<Part>) {
    forall i :: 0 <= i < |ps| ==> PartOut(boundary, ps[i]).outcome.Done?
  }

  /** The parts written one after the other. */
  function PartsBytes(boundary: string, ps: seq<Part>): seq<byte> {
    if ps == [] then [] else PartOut(boundary, ps[0]).bytes + PartsBytes(boundary, ps[1..])
  }

  /** A multipart body whose parts all write is its parts in insertion
      order followed by `--boundary--` and CRLF. */
  lemma MultipartLayout(boundary: string, ps: seq<Part>)
    requires PartsOk(boundary, ps)
    ensures Write(Multipart(boundary, ps)) == Written(PartsBytes(boundary, ps) + Utf8(Closing(boundary)), Done)
  {
    PartsFromLayout(Multipart(boundary, ps), 0);
    assert ps[0..] == ps;
  }

  lemma {:induction false} PartsFromLayout(c: Content, i: nat)
    requires c.Multipart? && i <= |c.parts| && PartsOk(c.boundary, c.parts)
    ensures PartsFrom(c, i) == Written(PartsBytes(c.boundary, c.parts[i..]) + Utf8(Closing(c.boundary)), Done)
    decreases |c.parts| - i
  {
    if i < |c.parts| {
      PartsFromLayout(c, i + 1);
      assert c.parts[i..][1..] == c.parts[i + 1..];
      Cat(PartOut(c.boundary, c.parts[i]).bytes, PartsBytes(c.boundary, c.parts[i + 1..]),
          Utf8(Closing(c.boundary)));
    }
  }

  /** `addPart` puts the new part's bytes after those already added. */
  lemma {:induction false} PartsBytesAppend(boundary: string, ps: seq<Part>, p: Part)
    ensures PartsBytes(boundary, ps + [p]) == PartsBytes(boundary, ps) + PartOut(boundary, p).bytes
  {
    if ps == [] {
      assert [] + [p] == [p];
    } else {
      assert (ps + [p])[1..] == ps[1..] + [p];
      PartsBytesAppend(boundary, ps[1..], p);
      Cat(PartOut(boundary, ps[0]).bytes, PartsBytes(boundary, ps[1..]), PartOut(boundary, p).bytes);
    }
  }

  /** As written, a part whose body is one byte long gets no Content-Length
      line; every other known length gets one. With the test on -1 every
      known length is announced. */
  lemma LengthOneOmittedAsWritten(x: byte, contentType: Option<ContentType>)
    ensures Measure(CreateBytes([x], contentType, 0)) == Ok(1)
    ensures LengthLineAsWritten(1) == ""
    ensures LengthLine(1) == "Content-Length: 1\r\n"
  {
  }

  /** The corrected line is written for every known length, and agrees with
      the line as written everywhere but at 1. */
  lemma LengthLineKnown(length: int)
    requires length >= 0
    ensures LengthLine(length) == "Content-Length: " + DecimalString(length) + Crlf
    ensures length != 1 ==> LengthLineAsWritten(length) == LengthLine(length)
  {
  }

  /** A part whose body writes: the disposition head, the type and encoding
      lines, a length line stating the size of the body, a blank line, the
      body and CRLF. */
  lemma PartLayout(boundary: string, p: Part)
    requires !p.body.Custom? && ContentTypeOf(p.body).Ok? && Write(p.body).outcome.Done?
    ensures var body := Write(p.body).bytes;
      PartOut(boundary, p) == Written(
        Utf8(PartHead(boundary, p) + TypeLine(ContentTypeOf(p.body).value) + EncodingLine(p.encoding)
             + LengthLine(|body|) + Crlf)
        + body + Utf8(Crlf), Done)
  {
    var w := Write(p.body);
    MeasureIsWrittenSize(p.body);
    var ct := ContentTypeOf(p.body).value;
    var h, t, l := PartHead(boundary, p), TypeLine(ct) + EncodingLine(p.encoding), LengthLine(|w.bytes|) + Crlf;
    assert PartOut(boundary, p) == Written(Utf8(h) + Utf8(t) + Utf8(l) + w.bytes + Utf8(Crlf), Done);
    var text := h + TypeLine(ct) + EncodingLine(p.encoding) + LengthLine(|w.bytes|) + Crlf;
    assert text == (h + t) + l;
    Utf8Append(h, t);
    Utf8Append(h + t, l);
    assert Utf8(text) == Utf8(h) + Utf8(t) + Utf8(l);
  }
}
