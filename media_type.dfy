/** `ContentType` (tubehttp/.../request/ContentType.kt): a media type parsed
    with the patterns `token/token` (looked for at the start of the text) and
    `;\s*(?:token=(token))?` (searched repeatedly after it). */
module MediaTypes {
  import opened Wrappers
  import opened Text

  datatype ContentType = ContentType(
    value: string,                       // the raw text that was parsed
    mainType: string,                    // `type`, lower-cased
    subType: string,                     // lower-cased
    parameters: map<string, string>)     // lower-cased names to lower-cased values

  /** `ContentType.DEFAULT`. */
  const Default := ContentType("", "", "", map[])

  /** Characters of the `token` class `[a-zA-Z0-9-!#$%&'*+.^_`{|}~]`. */
  predicate IsTokenChar(c: char) {
    c == '!' || ('#' <= c <= '\'') || ('*' <= c <= '+') || ('-' <= c <= '.')
    || ('0' <= c <= '9') || ('A' <= c <= 'Z') || ('^' <= c <= '~')
  }

  predicate IsToken(s: string) {
    s != [] && forall i :: 0 <= i < |s| ==> IsTokenChar(s[i])
  }

  /** `\s` of java.util.regex: `[ \t\n\x0B\f\r]`. */
  predicate IsRegexSpace(c: char) {
    c == ' ' || c == '\t' || c == '\n' || c == '\U{000B}' || c == '\U{000C}' || c == '\r'
  }

  /** End of the longest run of token characters starting at `i`
      (a greedy `token+` stops there). */
  function TokenEnd(s: string, i: nat): (r: nat)
    requires i <= |s|
    ensures i <= r <= |s|
    ensures forall k :: i <= k < r ==> IsTokenChar(s[k])
    ensures r == |s| || !IsTokenChar(s[r])
    decreases |s| - i
  {
    if i < |s| && IsTokenChar(s[i]) then TokenEnd(s, i + 1) else i
  }

  /** End of the run of `\s` characters starting at `i`. */
  function SpaceEnd(s: string, i: nat): (r: nat)
    requires i <= |s|
    ensures i <= r <= |s|
    ensures forall k :: i <= k < r ==> IsRegexSpace(s[k])
    ensures r == |s| || !IsRegexSpace(s[r])
    decreases |s| - i
  {
    if i < |s| && IsRegexSpace(s[i]) then SpaceEnd(s, i + 1) else i
  }

  /** Where `find()` next matches: the first `;` at or after `from`, or -1. */
  function NextSemicolon(s: string, from: nat): (r: int)
    requires from <= |s|
    ensures r == -1 || (from <= r < |s| && s[r] == ';')
    ensures r == -1 ==> forall k :: from <= k < |s| ==> s[k] != ';'
    ensures r >= 0 ==> forall k :: from <= k < r ==> s[k] != ';'
    decreases |s| - from
  {
    if from == |s| then -1
    else if s[from] == ';' then from
    else NextSemicolon(s, from + 1)
  }

  /** One parameter match starting at the `;` at `k`: the attribute, the
      value and the end of the match, or None when the optional group does
      not match (then both groups are null). */
  datatype Param = Param(attribute: string, val: string, end: nat)

  function ParamAt(s: string, k: nat): (r: Option<Param>)
    requires k < |s| && s[k] == ';'
    ensures r.Some? ==> k < r.value.end <= |s|
  {
    var w := SpaceEnd(s, k + 1);
    var a := TokenEnd(s, w);
    if a == w || a == |s| || s[a] != '=' then None
    else
      var v := TokenEnd(s, a + 1);
      if v == a + 1 then None else Some(Param(s[w..a], s[a + 1..v], v))
  }

  /** The parameter loop: every matched pair is stored lower-cased; the
      first match without a pair ends the loop. */
  function ParseParams(s: string, pos: nat, acc: map<string, string>): map<string, string>
    requires pos <= |s|
    decreases |s| - pos
  {
    var k := NextSemicolon(s, pos);
    if k < 0 then acc
    else match ParamAt(s, k)
      case None => acc
      case Some(p) => ParseParams(s, p.end, acc[Lower(p.attribute) := Lower(p.val)])
  }

  /** Where the `type/subtype` match ends, when there is one. */
  function TypeEnd(s: string): (r: Option<(nat, nat)>)
    ensures r.Some? ==> 0 < r.value.0 && r.value.0 + 1 < r.value.1 <= |s|
  {
    var t := TokenEnd(s, 0);
    if t == 0 || t == |s| || s[t] != '/' then None
    else
      var u := TokenEnd(s, t + 1);
      if u == t + 1 then None else Some((t, u))
  }

  /** `ContentType.parse`. */
  function Parse(s: string): (r: Result<ContentType>)
    ensures r.Ok? <==> TypeEnd(s).Some?
    ensures r.Ok? ==> r.value.value == s
  {
    match TypeEnd(s)
    case None => Err(IllegalArgument("Check type format for " + s + "!"))
    case Some((t, u)) =>
      Ok(ContentType(s, Lower(s[..t]), Lower(s[t + 1..u]), ParseParams(s, u, map[])))
  }

  /** `ContentType.parse` as the source runs it, with the matcher loop. */
  method ParseContentType(s: string) returns (r: Result<ContentType>)
    ensures r == Parse(s)
  {
    var ends := TypeEnd(s);
    if ends.None? {
      return Err(IllegalArgument("Check type format for " + s + "!"));
    }
    var (t, u) := ends.value;
    var parameterMap: map<string, string> := map[];
    var pos: nat := u;
    while true
      invariant pos <= |s|
      invariant ParseParams(s, pos, parameterMap) == ParseParams(s, u, map[])
      decreases |s| - pos
    {
      var k := NextSemicolon(s, pos);
      if k < 0 {
        break;
      }
      var p := ParamAt(s, k);
      if p.None? {
        break;
      }
      parameterMap := parameterMap[Lower(p.value.attribute) := Lower(p.value.val)];
      pos := p.value.end;
    }
    r := Ok(ContentType(s, Lower(s[..t]), Lower(s[t + 1..u]), parameterMap));
  }

  /** `addParameter` as written: the separator test looks at the new
      parameter's value instead of at the existing text. */
  function AddParameterAsWritten(ct: ContentType, attribute: string, parameterValue: string): (r: Result<ContentType>)
    ensures r.Ok? ==> StartsWith(r.value.value, ct.value) && EndsWith(r.value.value, attribute + "=" + parameterValue)
  {
    var dash := if !EndsWith(parameterValue, ";") && !StartsWith(attribute, ";") then ";" else "";
    AppendedEnds(ct.value, dash, attribute, parameterValue);
    Parse(ct.value + dash + attribute + "=" + parameterValue)
  }

  /** `addParameter` with the separator test on the existing text, as the
      method evidently intends. */
  function AddParameter(ct: ContentType, attribute: string, parameterValue: string): (r: Result<ContentType>)
    ensures r.Ok? ==> StartsWith(r.value.value, ct.value) && EndsWith(r.value.value, attribute + "=" + parameterValue)
  {
    var dash := if !EndsWith(ct.value, ";") && !StartsWith(attribute, ";") then ";" else "";
    AppendedEnds(ct.value, dash, attribute, parameterValue);
    Parse(ct.value + dash + attribute + "=" + parameterValue)
  }

  /** The text addParameter parses starts with the base and ends with the
      new pair. */
  lemma AppendedEnds(v: string, dash: string, attribute: string, parameterValue: string)
    ensures StartsWith(v + dash + attribute + "=" + parameterValue, v)
    ensures EndsWith(v + dash + attribute + "=" + parameterValue, attribute + "=" + parameterValue)
  {
    var pair := attribute + "=" + parameterValue;
    var s := v + dash + attribute + "=" + parameterValue;
    assert s == v + (dash + pair);
    assert s == (v + dash) + pair;
    assert s[..|v|] == v;
    assert s[|s| - |pair|..] == pair;
  }

  // -----------------------------------------------------------------------
  // Properties of the parser

  /** Parsing succeeds exactly when the text starts with `token/token`. */
  lemma ParseOkIff(s: string)
    ensures Parse(s).Ok? <==>
      exists t :: 0 < t < |s| - 1 && s[t] == '/' && IsToken(s[..t]) && IsTokenChar(s[t + 1])
  {
    if Parse(s).Ok? {
      var t := TokenEnd(s, 0);
      assert IsToken(s[..t]);
    }
    if exists t :: 0 < t < |s| - 1 && s[t] == '/' && IsToken(s[..t]) && IsTokenChar(s[t + 1]) {
      var t :| 0 < t < |s| - 1 && s[t] == '/' && IsToken(s[..t]) && IsTokenChar(s[t + 1]);
      assert forall k :: 0 <= k < t ==> IsTokenChar(s[k]) by {
        assert forall k :: 0 <= k < t ==> s[..t][k] == s[k];
      }
      TokenRun(s, 0, t);
    }
  }

  /** The parsed value keeps the raw text; type and subtype are lower-case
      tokens. */
  lemma ParseShape(s: string)
    requires Parse(s).Ok?
    ensures Parse(s).value.value == s
    ensures IsToken(Parse(s).value.mainType) && IsToken(Parse(s).value.subType)
    ensures Lower(Parse(s).value.mainType) == Parse(s).value.mainType
    ensures Lower(Parse(s).value.subType) == Parse(s).value.subType
  {
    var (t, u) := TypeEnd(s).value;
    LowerKeepsToken(s[..t]);
    LowerKeepsToken(s[t + 1..u]);
    LowerIdempotent(s[..t]);
    LowerIdempotent(s[t + 1..u]);
  }

  lemma LowerKeepsToken(s: string)
    requires forall i :: 0 <= i < |s| ==> IsTokenChar(s[i])
    ensures forall i :: 0 <= i < |s| ==> IsTokenChar(Lower(s)[i])
  {
  }

  lemma LowerIdempotent(s: string)
    ensures Lower(Lower(s)) == Lower(s)
  {
  }

  /** Every stored parameter name and value is a lower-case token. */
  predicate LowerTokenMap(m: map<string, string>) {
    forall k :: k in m ==> IsToken(k) && Lower(k) == k && IsToken(m[k]) && Lower(m[k]) == m[k]
  }

  lemma {:induction false} ParseParamsLower(s: string, pos: nat, acc: map<string, string>)
    requires pos <= |s|
    requires LowerTokenMap(acc)
    ensures LowerTokenMap(ParseParams(s, pos, acc))
    decreases |s| - pos
  {
    var k := NextSemicolon(s, pos);
    if k >= 0 && ParamAt(s, k).Some? {
      var p := ParamAt(s, k).value;
      ParamTokens(s, k);
      StoreLower(acc, p.attribute, p.val);
      ParseParamsLower(s, p.end, acc[Lower(p.attribute) := Lower(p.val)]);
    }
  }

  /** A matched parameter is two tokens. */
  lemma ParamTokens(s: string, k: nat)
    requires k < |s| && s[k] == ';' && ParamAt(s, k).Some?
    ensures IsToken(ParamAt(s, k).value.attribute) && IsToken(ParamAt(s, k).value.val)
  {
    var w := SpaceEnd(s, k + 1);
    var a := TokenEnd(s, w);
    var v := TokenEnd(s, a + 1);
    assert ParamAt(s, k).value.attribute == s[w..a];
    assert ParamAt(s, k).value.val == s[a + 1..v];
  }

  /** Storing a lower-cased pair of tokens keeps the map lower-case. */
  lemma StoreLower(acc: map<string, string>, a: string, v: string)
    requires LowerTokenMap(acc) && IsToken(a) && IsToken(v)
    ensures LowerTokenMap(acc[Lower(a) := Lower(v)])
  {
    LowerKeepsToken(a);
    LowerKeepsToken(v);
    LowerIdempotent(a);
    LowerIdempotent(v);
  }

  lemma ParseParametersLower(s: string)
    requires Parse(s).Ok?
    ensures LowerTokenMap(Parse(s).value.parameters)
  {
    var (t, u) := TypeEnd(s).value;
    ParseParamsLower(s, u, map[]);
  }

  /** Parsing of parameters stops at the first `;` that is not followed by
      `token=token`: nothing after it is read. */
  lemma ParseStopsAtMalformed(s: string, pos: nat, acc: map<string, string>)
    requires pos <= |s|
    requires NextSemicolon(s, pos) >= 0 && ParamAt(s, NextSemicolon(s, pos)).None?
    ensures ParseParams(s, pos, acc) == acc
  {
  }

  // -----------------------------------------------------------------------
  // Appending a parameter

  /** Scanning from `pos` reads every `;` of `s` as a well-formed parameter. */
  predicate CleanTail(s: string, pos: nat)
    requires pos <= |s|
    decreases |s| - pos
  {
    var k := NextSemicolon(s, pos);
    k < 0 || (ParamAt(s, k).Some? && CleanTail(s, ParamAt(s, k).value.end))
  }

  lemma {:induction false} TokenEndAppend(s: string, t: string, i: nat)
    requires i <= |s|
    requires t != [] && !IsTokenChar(t[0])
    ensures TokenEnd(s + t, i) == TokenEnd(s, i)
    decreases |s| - i
  {
    if i < |s| && IsTokenChar(s[i]) {
      TokenEndAppend(s, t, i + 1);
    } else if i == |s| {
      assert (s + t)[i] == t[0];
    }
  }

  lemma {:induction false} SpaceEndAppend(s: string, t: string, i: nat)
    requires i <= |s|
    requires t != [] && !IsRegexSpace(t[0])
    ensures SpaceEnd(s + t, i) == SpaceEnd(s, i)
    decreases |s| - i
  {
    if i < |s| && IsRegexSpace(s[i]) {
      SpaceEndAppend(s, t, i + 1);
    } else if i == |s| {
      assert (s + t)[i] == t[0];
    }
  }

  lemma {:induction false} NextSemicolonAppend(s: string, t: string, from: nat)
    requires from <= |s|
    requires NextSemicolon(s, from) >= 0
    ensures NextSemicolon(s + t, from) == NextSemicolon(s, from)
    decreases |s| - from
  {
    if s[from] != ';' {
      NextSemicolonAppend(s, t, from + 1);
    }
  }

  lemma {:induction false} NextSemicolonAtEnd(s: string, t: string, from: nat)
    requires from <= |s|
    requires NextSemicolon(s, from) < 0
    requires t != [] && t[0] == ';'
    ensures NextSemicolon(s + t, from) == |s|
    decreases |s| - from
  {
    if from < |s| {
      NextSemicolonAtEnd(s, t, from + 1);
    } else {
      assert (s + t)[from] == t[0];
    }
  }

  /** The parameter at `k` reads the same when text starting with `;` follows. */
  lemma ParamAtAppend(s: string, t: string, k: nat)
    requires k < |s| && s[k] == ';'
    requires t != [] && t[0] == ';'
    ensures ParamAt(s + t, k) == ParamAt(s, k)
  {
    var x := s + t;
    SpaceEndAppend(s, t, k + 1);
    var w := SpaceEnd(s, k + 1);
    TokenEndAppend(s, t, w);
    var a := TokenEnd(s, w);
    assert SpaceEnd(x, k + 1) == w && TokenEnd(x, w) == a;
    if a == w {
      assert ParamAt(s, k) == None;
      assert ParamAt(x, k) == None;
    } else if a == |s| {
      assert x[a] == ';';
      assert ParamAt(s, k) == None;
      assert ParamAt(x, k) == None;
    } else if s[a] != '=' {
      assert x[a] == s[a];
      assert ParamAt(s, k) == None;
      assert ParamAt(x, k) == None;
    } else {
      ParamPairAppend(s, t, k, w, a);
    }
  }

  lemma ParamPairAppend(s: string, t: string, k: nat, w: nat, a: nat)
    requires k < |s| && s[k] == ';'
    requires t != [] && t[0] == ';'
    requires w == SpaceEnd(s, k + 1) && w == SpaceEnd(s + t, k + 1)
    requires a == TokenEnd(s, w) && a == TokenEnd(s + t, w)
    requires a != w && a < |s| && s[a] == '='
    ensures ParamAt(s + t, k) == ParamAt(s, k)
  {
    var x := s + t;
    assert x[a] == '=';
    TokenEndAppend(s, t, a + 1);
    var v := TokenEnd(s, a + 1);
    assert TokenEnd(x, a + 1) == v;
    if v != a + 1 {
      ParamFullAppend(s, t, k, w, a, v);
    }
  }

  lemma ParamFullAppend(s: string, t: string, k: nat, w: nat, a: nat, v: nat)
    requires k < |s| && s[k] == ';'
    requires t != [] && t[0] == ';'
    requires w == SpaceEnd(s, k + 1) && w == SpaceEnd(s + t, k + 1)
    requires a == TokenEnd(s, w) && a == TokenEnd(s + t, w)
    requires a != w && a < |s| && s[a] == '='
    requires v == TokenEnd(s, a + 1) && v == TokenEnd(s + t, a + 1) && v != a + 1
    ensures ParamAt(s + t, k) == ParamAt(s, k)
  {
    var x := s + t;
    assert x[a] == '=';
    assert x[w..a] == s[w..a];
    assert x[a + 1..v] == s[a + 1..v];
  }

  /** The last parameter `;a=v` itself. */
  lemma ParamAtNew(s: string, a: string, v: string)
    requires IsToken(a) && IsToken(v)
    ensures ParamAt(s + ";" + a + "=" + v, |s|)
      == Some(Param(a, v, |s + ";" + a + "=" + v|))
  {
    var p := s + ";";
    var q := p + a + "=";
    var x := q + v;
    assert x == s + ";" + a + "=" + v;
    assert x[|s|] == ';';
    assert !IsRegexSpace(x[|p|]) by { assert x[|p|] == a[0]; }
    assert SpaceEnd(x, |p|) == |p|;
    var ae := |p| + |a|;
    assert forall i :: |p| <= i < ae ==> x[i] == a[i - |p|];
    assert x[ae] == '=';
    TokenRun(x, |p|, ae);
    assert forall i :: |q| <= i < |x| ==> x[i] == v[i - |q|];
    TokenRun(x, |q|, |x|);
    assert x[|p|..ae] == a;
    assert x[|q|..|x|] == v;
    assert |q| == ae + 1;
    assert TokenEnd(x, |p|) == ae;
    assert TokenEnd(x, ae + 1) == |x|;
    assert ParamAt(x, |s|) == Some(Param(x[|p|..ae], x[ae + 1..|x|], |x|));
  }

  /** A run of token characters ending at a non-token (or the end) is what
      `TokenEnd` finds. */
  lemma {:induction false} TokenRun(s: string, i: nat, j: nat)
    requires i <= j <= |s|
    requires forall k :: i <= k < j ==> IsTokenChar(s[k])
    requires j == |s| || !IsTokenChar(s[j])
    ensures TokenEnd(s, i) == j
    decreases j - i
  {
    if i < j {
      TokenRun(s, i + 1, j);
    }
  }

  /** Text starting with `;` appended to `s` leaves the parameters of `s`
      as they were read, and scanning goes on at the appended `;`. */
  lemma {:induction false} ParseParamsSplit(s: string, t: string, pos: nat, acc: map<string, string>)
    requires pos <= |s| && CleanTail(s, pos)
    requires t != [] && t[0] == ';'
    ensures ParseParams(s + t, pos, acc) == ParseParams(s + t, |s|, ParseParams(s, pos, acc))
    decreases |s| - pos
  {
    var k := NextSemicolon(s, pos);
    if k < 0 {
      NextSemicolonAtEnd(s, t, pos);
      NextSemicolonAtEnd(s, t, |s|);
    } else {
      NextSemicolonAppend(s, t, pos);
      ParamAtAppend(s, t, k);
      var p := ParamAt(s, k).value;
      ParseParamsSplit(s, t, p.end, acc[Lower(p.attribute) := Lower(p.val)]);
    }
  }

  lemma TypeEndAppend(s: string, t: string)
    requires TypeEnd(s).Some?
    requires t != [] && t[0] == ';'
    ensures TypeEnd(s + t) == TypeEnd(s)
    ensures (s + t)[..TypeEnd(s).value.0] == s[..TypeEnd(s).value.0]
    ensures (s + t)[TypeEnd(s).value.0 + 1..TypeEnd(s).value.1]
         == s[TypeEnd(s).value.0 + 1..TypeEnd(s).value.1]
  {
    var x := s + t;
    TokenEndAppend(s, t, 0);
    var e := TokenEnd(s, 0);
    assert TokenEnd(x, 0) == e;
    assert x[e] == s[e];
    TokenEndAppend(s, t, e + 1);
    var u := TokenEnd(s, e + 1);
    assert TokenEnd(x, e + 1) == u;
    assert TypeEnd(s) == Some((e, u));
    assert x[..e] == s[..e];
    assert x[e + 1..u] == s[e + 1..u];
  }

  /** Parsing `s` followed by text that starts with `;`. */
  lemma ParseAppend(s: string, t: string)
    requires TypeEnd(s).Some? && CleanTail(s, TypeEnd(s).value.1)
    requires t != [] && t[0] == ';'
    ensures Parse(s).Ok? && Parse(s + t).Ok?
    ensures Parse(s + t) == Ok(ContentType(s + t, Parse(s).value.mainType, Parse(s).value.subType,
      ParseParams(s + t, |s|, Parse(s).value.parameters)))
  {
    TypeEndAppend(s, t);
    ParseParamsSplit(s, t, TypeEnd(s).value.1, map[]);
  }

  /** A `;` followed by nothing or by another `;` matches without a pair. */
  lemma EmptyParamAt(s: string, r: string)
    requires r == [] || r[0] == ';'
    ensures ParamAt(s + ";" + r, |s|).None?
  {
    var x := s + ";" + r;
    assert x[|s|] == ';';
    if r != [] {
      assert x[|s| + 1] == ';';
    }
    assert SpaceEnd(x, |s| + 1) == |s| + 1;
    assert TokenEnd(x, |s| + 1) == |s| + 1;
  }

  /** Adding a well-formed parameter to a media type whose parameters were
      all read keeps type and subtype and stores the new pair. */
  lemma AddParameterStores(ct: ContentType, a: string, v: string)
    requires Parse(ct.value) == Ok(ct)
    requires TypeEnd(ct.value).Some? && CleanTail(ct.value, TypeEnd(ct.value).value.1)
    requires !EndsWith(ct.value, ";")
    requires IsToken(a) && IsToken(v)
    ensures AddParameter(ct, a, v) == Ok(ContentType(
      ct.value + ";" + a + "=" + v, ct.mainType, ct.subType, ct.parameters[Lower(a) := Lower(v)]))
  {
    var s := ct.value;
    var tail := ";" + a + "=" + v;
    AddParameterText(ct, a, v);
    ParseAppend(s, tail);
    ParamsAfterNew(s, a, v, ct.parameters);
  }

  /** With a token attribute and a text not ending with `;`, addParameter
      parses the text with `;attribute=value` appended. */
  lemma AddParameterText(ct: ContentType, a: string, v: string)
    requires !EndsWith(ct.value, ";") && IsToken(a)
    ensures ct.value + ";" + a + "=" + v == ct.value + (";" + a + "=" + v)
    ensures AddParameter(ct, a, v) == Parse(ct.value + (";" + a + "=" + v))
  {
    assert !StartsWith(a, ";") by { assert a[0] != ';'; }
    assert ct.value + ";" + a + "=" + v == ct.value + (";" + a + "=" + v);
  }

  lemma ParamsAfterNew(s: string, a: string, v: string, m: map<string, string>)
    requires IsToken(a) && IsToken(v)
    ensures ParseParams(s + (";" + a + "=" + v), |s|, m) == m[Lower(a) := Lower(v)]
  {
    var x := s + (";" + a + "=" + v);
    assert x == s + ";" + a + "=" + v;
    ParamAtNew(s, a, v);
    assert x[|s|] == ';';
    ParamsStep(x, |s|, m, |s|, Param(a, v, |x|));
    assert NextSemicolon(x, |x|) == -1;
  }

  /** One round of the parameter loop. */
  lemma ParamsStep(s: string, pos: nat, acc: map<string, string>, k: nat, p: Param)
    requires pos <= k < |s| && s[k] == ';'
    requires forall i :: pos <= i < k ==> s[i] != ';'
    requires ParamAt(s, k) == Some(p)
    ensures NextSemicolon(s, pos) == k
    ensures ParseParams(s, pos, acc) == ParseParams(s, p.end, acc[Lower(p.attribute) := Lower(p.val)])
  {
    NextSemicolonAt(s, pos, k);
  }

  lemma {:induction false} NextSemicolonAt(s: string, pos: nat, k: nat)
    requires pos <= k < |s| && s[k] == ';'
    requires forall i :: pos <= i < k ==> s[i] != ';'
    ensures NextSemicolon(s, pos) == k
    decreases k - pos
  {
    if pos < k {
      NextSemicolonAt(s, pos + 1, k);
    }
  }

  /** A media type whose text ends with `;` has the parameters of the text
      before that `;`. */
  lemma ParseTrailingSemicolon(base: string)
    requires TypeEnd(base).Some? && CleanTail(base, TypeEnd(base).value.1)
    ensures Parse(base).Ok? && Parse(base + ";").Ok?
    ensures Parse(base + ";").value == Parse(base).value.(value := base + ";")
  {
    ParseAppend(base, ";");
    EmptyParamAt(base, "");
    assert base + ";" + "" == base + ";";
  }

  /** `s` followed by one more well-formed parameter. */
  lemma ParseAppendNew(s: string, a: string, v: string)
    requires TypeEnd(s).Some? && CleanTail(s, TypeEnd(s).value.1)
    requires IsToken(a) && IsToken(v)
    ensures Parse(s).Ok?
    ensures Parse(s + (";" + a + "=" + v)) == Ok(ContentType(s + (";" + a + "=" + v),
      Parse(s).value.mainType, Parse(s).value.subType,
      Parse(s).value.parameters[Lower(a) := Lower(v)]))
  {
    ParseAppend(s, ";" + a + "=" + v);
    ParamsAfterNew(s, a, v, Parse(s).value.parameters);
  }

  /** Text that already ends with `;` gets no separator. */
  lemma NoSeparatorAfterSemicolon(ct: ContentType, base: string, a: string, v: string)
    requires ct.value == base + ";"
    ensures AddParameter(ct, a, v) == Parse(base + (";" + a + "=" + v))
  {
    assert EndsWith(ct.value, ";");
    assert ct.value + "" + a + "=" + v == base + (";" + a + "=" + v);
  }

  /** As written, a value without a trailing `;` gets a separator even when
      the text already ends with one. */
  lemma SecondSeparatorAsWritten(ct: ContentType, base: string, a: string, v: string)
    requires ct.value == base + ";"
    requires IsToken(a) && IsToken(v)
    ensures AddParameterAsWritten(ct, a, v) == Parse(base + (";" + (";" + a + "=" + v)))
  {
    assert !StartsWith(a, ";") by { assert a[0] != ';'; }
    assert !EndsWith(v, ";") by { assert v[|v| - 1] != ';'; }
    assert ct.value + ";" + a + "=" + v == base + (";" + (";" + a + "=" + v));
  }

  /** The evidently intended `addParameter` on a media type whose text ends
      with `;` (the separator is already there) stores the pair. */
  lemma AddParameterAfterSemicolon(base: string, a: string, v: string)
    requires TypeEnd(base).Some? && CleanTail(base, TypeEnd(base).value.1)
    requires IsToken(a) && IsToken(v)
    ensures Parse(base).Ok? && Parse(base + ";").Ok?
    ensures AddParameter(Parse(base + ";").value, a, v) == Ok(ContentType(
      base + (";" + a + "=" + v), Parse(base).value.mainType, Parse(base).value.subType,
      Parse(base).value.parameters[Lower(a) := Lower(v)]))
  {
    ParseTrailingSemicolon(base);
    NoSeparatorAfterSemicolon(Parse(base + ";").value, base, a, v);
    ParseAppendNew(base, a, v);
  }

  /** `addParameter` as written on the same media type puts a second `;`
      in front of the pair, and the pair is lost. */
  lemma AddParameterAsWrittenAfterSemicolon(base: string, a: string, v: string)
    requires TypeEnd(base).Some? && CleanTail(base, TypeEnd(base).value.1)
    requires IsToken(a) && IsToken(v)
    ensures Parse(base).Ok? && Parse(base + ";").Ok?
    ensures AddParameterAsWritten(Parse(base + ";").value, a, v).Ok?
    ensures AddParameterAsWritten(Parse(base + ";").value, a, v).value.parameters
         == Parse(base).value.parameters
  {
    ParseTrailingSemicolon(base);
    SecondSeparatorAsWritten(Parse(base + ";").value, base, a, v);
    ParseAppendEmpty(base, ";" + a + "=" + v);
  }

  /** `s` followed by `;` and text that starts with another `;`. */
  lemma ParseAppendEmpty(s: string, r: string)
    requires TypeEnd(s).Some? && CleanTail(s, TypeEnd(s).value.1)
    requires r != [] && r[0] == ';'
    ensures Parse(s).Ok? && Parse(s + (";" + r)).Ok?
    ensures Parse(s + (";" + r)).value.parameters == Parse(s).value.parameters
  {
    ParseAppend(s, ";" + r);
    ParamsAfterEmpty(s, r, Parse(s).value.parameters);
  }

  lemma ParamsAfterEmpty(s: string, r: string, m: map<string, string>)
    requires r == [] || r[0] == ';'
    ensures ParseParams(s + (";" + r), |s|, m) == m
  {
    var x := s + (";" + r);
    assert ParamAt(x, |s|).None? by {
      assert x == s + ";" + r;
      EmptyParamAt(s, r);
    }
    assert NextSemicolon(x, |s|) == |s| by {
      assert x[|s|] == ';';
    }
  }

  lemma LowerNoUpper(s: string)
    requires forall i :: 0 <= i < |s| ==> !IsAsciiUpper(s[i])
    ensures Lower(s) == s
  {
  }

  lemma TextPlain(b: string)
    requires b == "text/plain"
    ensures TypeEnd(b) == Some((4, 10)) && CleanTail(b, 10)
    ensures Parse(b) == Ok(ContentType(b, "text", "plain", map[]))
  {
    assert TypeEnd(b) == Some((4, 10)) by {
      TokenRun(b, 0, 4);
      TokenRun(b, 5, 10);
    }
    assert Lower(b[..4]) == "text" && Lower(b[5..10]) == "plain" by {
      assert b[..4] == "text" && b[5..10] == "plain";
      LowerNoUpper("text");
      LowerNoUpper("plain");
    }
  }

  lemma CharsetTokens(a: string, v: string)
    requires a == "charset" && v == "utf-8"
    ensures IsToken(a) && IsToken(v) && Lower(a) == a && Lower(v) == v
  {
    LowerNoUpper(a);
    LowerNoUpper(v);
  }

  /** `text/plain;` plus `charset=utf-8`: as written the charset is lost,
      with the separator test on the existing text it is stored. */
  lemma AddParameterAsWrittenLosesCharset(b: string, a: string, v: string)
    requires b == "text/plain" && a == "charset" && v == "utf-8"
    ensures Parse(b + ";").Ok? && Parse(b + ";").value.parameters == map[]
    ensures AddParameterAsWritten(Parse(b + ";").value, a, v).Ok?
    ensures AddParameterAsWritten(Parse(b + ";").value, a, v).value.parameters == map[]
    ensures AddParameter(Parse(b + ";").value, a, v).Ok?
    ensures AddParameter(Parse(b + ";").value, a, v).value.parameters == map[a := v]
  {
    TextPlain(b);
    CharsetTokens(a, v);
    ParseTrailingSemicolon(b);
    AddParameterAfterSemicolon(b, a, v);
    AddParameterAsWrittenAfterSemicolon(b, a, v);
  }

  // -----------------------------------------------------------------------
  // The predefined media types

  /** `ContentType.FROM`, the media type of a form body. */
  const FormValue := "application/x-www-form-urlencoded"
  const FormType := ContentType(FormValue, "application", "x-www-form-urlencoded", map[])

  /** `ContentType.MULTIPART_FORM_DATA`. */
  const MultipartValue := "multipart/form-data"
  const MultipartType := ContentType(MultipartValue, "multipart", "form-data", map[])

  /** `type/subtype` without parameters. */
  lemma TypeEndBare(m: string, f: string)
    requires IsToken(m) && IsToken(f)
    ensures TypeEnd(m + "/" + f) == Some((|m|, |m| + 1 + |f|))
    ensures (m + "/" + f)[..|m|] == m && (m + "/" + f)[|m| + 1..|m| + 1 + |f|] == f
  {
    var p := m + "/";
    var s := p + f;
    assert forall k :: 0 <= k < |m| ==> s[k] == m[k];
    assert s[|m|] == '/';
    TokenRun(s, 0, |m|);
    assert forall k :: |p| <= k < |s| ==> s[k] == f[k - |p|];
    TokenRun(s, |p|, |s|);
    assert s[..|m|] == m;
    assert s[|p|..|s|] == f;
  }

  lemma ParseFound(s: string, t: nat, u: nat)
    requires TypeEnd(s) == Some((t, u))
    ensures Parse(s) == Ok(ContentType(s, Lower(s[..t]), Lower(s[t + 1..u]), ParseParams(s, u, map[])))
  {
  }

  /** A bare `type/subtype` has no parameters and no trailing `;`. */
  lemma BareTail(m: string, f: string)
    requires IsToken(m) && IsToken(f)
    ensures TypeEnd(m + "/" + f) == Some((|m|, |m| + 1 + |f|))
    ensures CleanTail(m + "/" + f, |m| + 1 + |f|) && !EndsWith(m + "/" + f, ";")
  {
    TypeEndBare(m, f);
    var s := m + "/" + f;
    assert NextSemicolon(s, |s|) == -1;
    assert s[|s| - 1] == f[|f| - 1];
  }

  lemma ParseBare(m: string, f: string)
    requires IsToken(m) && IsToken(f)
    ensures Parse(m + "/" + f) == Ok(ContentType(m + "/" + f, Lower(m), Lower(f), map[]))
  {
    TypeEndBare(m, f);
    var s := m + "/" + f;
    var t, u := |m|, |m| + 1 + |f|;
    ParseFound(s, t, u);
    assert s[..t] == m && s[t + 1..u] == f;
    assert NextSemicolon(s, u) == -1;
    assert ParseParams(s, u, map[]) == map[];
  }

  /** A parameter added to a bare `type/subtype` is its only parameter. */
  lemma AddParameterToBare(m: string, f: string, a: string, v: string)
    requires IsToken(m) && IsToken(f) && IsToken(a) && IsToken(v)
    ensures Parse(m + "/" + f).Ok?
    ensures AddParameter(Parse(m + "/" + f).value, a, v) == Ok(ContentType(
      m + "/" + f + ";" + a + "=" + v, Lower(m), Lower(f), map[Lower(a) := Lower(v)]))
  {
    BareTail(m, f);
    ParseBare(m, f);
    AddParameterStores(Parse(m + "/" + f).value, a, v);
  }

}
