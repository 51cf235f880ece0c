/** URL helpers of tube/.../TubeExtensions.kt: `isHttpProtocol`,
    `appendPath` and `FormBody.convertToQuery`. */
module Urls {
  import opened Wrappers
  import opened Text
  import opened Bodies

  /** `isHttpProtocol()`: starts with `http` or `https`, ignoring case. */
  predicate IsHttpProtocol(s: string) {
    StartsWithIgnoreCase(s, "http") || StartsWithIgnoreCase(s, "https")
  }

  /** The `https` test adds nothing: a text is an HTTP URL exactly when it
      starts with `http` ignoring case. */
  lemma HttpProtocolIff(s: string)
    ensures IsHttpProtocol(s) <==> StartsWithIgnoreCase(s, "http")
  {
    if StartsWithIgnoreCase(s, "https") {
      var l := Lower(s[..5]);
      assert l == Lower("https");
      assert s[..5][..4] == s[..4];
      assert Lower(s[..4]) == l[..4];
      assert Lower("https")[..4] == Lower("http");
    }
  }

  /** The value `appendPath(base, paths…)` builds: the base, `/` unless the
      base already ends with one, then the segments as they are. */
  function AppendedPath(base: string, paths: seq<string>): string {
    base + (if EndsWith(base, "/") then "" else "/") + Join(paths, "")
  }

  /** `appendPath`, with its StringBuilder loop. */
  method AppendPath(base: string, paths: seq<string>) returns (r: string)
    ensures r == AppendedPath(base, paths)
  {
    var baseSeparator := if EndsWith(base, "/") then "" else "/";
    r := base + baseSeparator;
    var i := 0;
    while i < |paths|
      invariant 0 <= i <= |paths|
      invariant r + Join(paths[i..], "") == AppendedPath(base, paths)
    {
      JoinEmptyStep(paths[i..]);
      assert paths[i..][1..] == paths[i + 1..];
      r := r + paths[i];
      i := i + 1;
    }
  }

  /** Joining with the empty separator is concatenation. */
  lemma JoinEmptyStep(ps: seq<string>)
    requires ps != []
    ensures Join(ps, "") == ps[0] + Join(ps[1..], "")
  {
    if |ps| == 1 {
      assert ps[1..] == [];
    }
  }

  /** The base is a prefix of the result, followed by exactly one `/` at the
      join when the base does not end with one, and the segments follow
      verbatim. */
  lemma AppendedPathShape(base: string, paths: seq<string>)
    ensures StartsWith(AppendedPath(base, paths), base)
    ensures EndsWith(base, "/") ==> AppendedPath(base, paths) == base + Join(paths, "")
    ensures !EndsWith(base, "/") ==> AppendedPath(base, paths) == base + "/" + Join(paths, "")
    ensures !EndsWith(base, "/") ==> |AppendedPath(base, paths)| > |base| && AppendedPath(base, paths)[|base|] == '/'
  {
    var r := AppendedPath(base, paths);
    assert r[..|base|] == base;
  }

  /** Appending one more segment extends the result by that segment. */
  lemma {:induction false} AppendedPathSnoc(base: string, paths: seq<string>, p: string)
    ensures AppendedPath(base, paths + [p]) == AppendedPath(base, paths) + p
  {
    JoinEmptySnoc(paths, p);
  }

  lemma {:induction false} JoinEmptySnoc(ps: seq<string>, p: string)
    ensures Join(ps + [p], "") == Join(ps, "") + p
  {
    if ps == [] {
      assert [] + [p] == [p];
    } else {
      JoinEmptyStep(ps + [p]);
      assert (ps + [p])[1..] == ps[1..] + [p];
      JoinEmptySnoc(ps[1..], p);
      JoinEmptyStep(ps);
    }
  }

  /** `FormBody.convertToQuery()`: the form written into a
      `ByteArrayOutputStream`, decoded as UTF-8. */
  method ConvertToQuery(names: seq<string>, values: seq<string>) returns (r: Result<string>)
    ensures |names| <= |values| ==> r == Ok(FormText(names, values))
    ensures |names| > |values| ==> r == Err(IndexOutOfBounds)
  {
    var out := new ByteSink();
    var o := WriteContent(Form(names, values), out);
    FormWritesText(names, values);
    if o.Fail? {
      return Err(o.failure);
    }
    assert out.data == Utf8(FormText(names, values));
    Utf8RoundTrip(FormText(names, values));
    r := Ok(Utf8Decode(out.data).value);
  }
}
