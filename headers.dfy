/** `Headers` and `Headers.Builder` (core/.../request/Headers.kt): a
    multimap from header names to value lists whose names are compared
    ignoring case. The builder's `LinkedHashMap` becomes a sequence of
    entries in insertion order. */
module HeaderMaps {
  import opened Wrappers
  import opened Text
  import opened MediaTypes

  /** One `(name, values)` entry of the map. */
  type Entry = (string, seq<string>)

  const ContentTypeKey := "Content-Type"
  const UserAgentKey := "User-Agent"
  const HostKey := "Host"
  const ConnectionKey := "Connection"
  const ContentLengthKey := "Content-Length"
  const TransferEncodingKey := "Transfer-Encoding"

  /** No two names are equal ignoring case: the builder never creates a
      second spelling of a name it already holds. */
  predicate DistinctKeys(es: seq<Entry>) {
    forall i, j :: 0 <= i < j < |es| ==> !EqualsIgnoreCase(es[i].0, es[j].0)
  }

  /** Index of the first entry whose name equals `key` ignoring case, or -1. */
  function FindKey(es: seq<Entry>, key: string): (r: int)
    ensures -1 <= r < |es|
    ensures r >= 0 ==> EqualsIgnoreCase(key, es[r].0)
    ensures forall k :: 0 <= k < |es| && (r < 0 || k < r) ==> !EqualsIgnoreCase(key, es[k].0)
  {
    if es == [] then -1
    else
      var p := FindKey(es[..|es| - 1], key);
      if p >= 0 then p
      else if EqualsIgnoreCase(key, es[|es| - 1].0) then |es| - 1
      else -1
  }

  /** With distinct names, an entry whose name matches is the one found. */
  lemma FindKeyDistinct(es: seq<Entry>, key: string, i: nat)
    requires DistinctKeys(es)
    requires i < |es| && EqualsIgnoreCase(key, es[i].0)
    ensures FindKey(es, key) == i
  {
  }

  function Lookup(es: seq<Entry>, key: string): (r: Option<seq<string>>)
    ensures r.None? <==> FindKey(es, key) < 0
    ensures r.Some? ==> r.value == es[FindKey(es, key)].1
  {
    var i := FindKey(es, key);
    if i < 0 then None else Some(es[i].1)
  }

  // -----------------------------------------------------------------------
  // The builder's operations on entries

  /** `add(key, values)`: append to the entry found ignoring case, keeping
      its spelling, or create the entry at the end. */
  function AddValues(es: seq<Entry>, key: string, values: seq<string>): seq<Entry> {
    var i := FindKey(es, key);
    if i >= 0 then es[i := (es[i].0, es[i].1 + values)] else es + [(key, values)]
  }

  /** Every entry whose name equals `key` ignoring case removed; the others
      kept in order. */
  function RemoveKey(es: seq<Entry>, key: string): (r: seq<Entry>)
    ensures |r| <= |es|
    ensures forall e :: e in r ==> e in es && !EqualsIgnoreCase(key, e.0)
    ensures forall e :: e in es && !EqualsIgnoreCase(key, e.0) ==> e in r
  {
    if es == [] then []
    else (if EqualsIgnoreCase(key, es[0].0) then [] else [es[0]]) + RemoveKey(es[1..], key)
  }

  /** `set(key, values)`: remove every match, then store the list under the
      given spelling at the end. */
  function SetValues(es: seq<Entry>, key: string, values: seq<string>): seq<Entry> {
    RemoveKey(es, key) + [(key, values)]
  }

  /** `set(headers)`: `set` for each entry of the map, in its order. */
  function SetAllValues(es: seq<Entry>, headers: seq<Entry>): seq<Entry>
    decreases |headers|
  {
    if headers == [] then es
    else SetAllValues(SetValues(es, headers[0].0, headers[0].1), headers[1..])
  }

  /** `remove(key)` as written: it removes inside the `for` loop over
      `headerMap.entries`. Removing an entry that is not the last makes the
      iterator's next step throw ConcurrentModificationException. */
  function RemoveAsWritten(es: seq<Entry>, key: string): Result<seq<Entry>> {
    var i := FindKey(es, key);
    if i < 0 then Ok(es)
    else if i == |es| - 1 then
      // the iterator has no next entry: the loop ends normally; with
      // distinct names nothing else matches
      Ok(es[..i])
    else Err(ConcurrentModification)
  }

  /** `set(key, values)` as written: the throw of `remove` propagates before
      anything is stored. */
  function SetAsWritten(es: seq<Entry>, key: string, values: seq<string>): Result<seq<Entry>> {
    var kept :- RemoveAsWritten(es, key);
    Ok(kept + [(key, values)])
  }

  /** `build()`: the content type comes from the first Content-Type entry,
      its values joined with `;` and parsed; DEFAULT when there is none. */
  function BuildHeaders(es: seq<Entry>): Result<Headers> {
    var i := FindKey(es, ContentTypeKey);
    if i < 0 then Ok(Headers(es, Default))
    else
      var ct :- Parse(Join(es[i].1, ";"));
      Ok(Headers(es, ct))
  }

  // -----------------------------------------------------------------------
  // Headers

  datatype Headers = Headers(entries: seq<Entry>, contentType: ContentType) {

    /** `get(key)`: the values of the first name equal ignoring case, or
        null. */
    function Get(key: string): (r: Option<seq<string>>)
      ensures r.Some? <==> exists i :: 0 <= i < |entries| && EqualsIgnoreCase(key, entries[i].0)
      ensures r.Some? ==>
        exists i :: (0 <= i < |entries| && EqualsIgnoreCase(key, entries[i].0)
                     && r.value == entries[i].1
                     && forall k :: 0 <= k < i ==> !EqualsIgnoreCase(key, entries[k].0))
    {
      Lookup(entries, key)
    }

    /** `getFirst(key)`: `get(key)?.first()`; `first()` of an empty list
        throws NoSuchElementException. */
    function GetFirst(key: string): (r: Result<Option<string>>)
      ensures Get(key).None? ==> r == Ok(None)
      ensures Get(key).Some? && Get(key).value == [] ==> r == Err(NoSuchElement)
      ensures Get(key).Some? && Get(key).value != [] ==> r == Ok(Some(Get(key).value[0]))
    {
      match Get(key)
      case None => Ok(None)
      case Some(vs) => if vs == [] then Err(NoSuchElement) else Ok(Some(vs[0]))
    }

    function Keys(): (r: seq<string>)
      ensures |r| == |entries|
      ensures forall i :: 0 <= i < |r| ==> r[i] == entries[i].0
    {
      seq(|entries|, i requires 0 <= i < |entries| => entries[i].0)
    }

    function Size(): (n: nat)
      ensures n == |Keys()|
    {
      |entries|
    }

    /** `getRequestHeaders()`: each name mapped to its values joined with
        `;` (the names are distinct, so the map keeps one pair per entry). */
    function RequestHeaders(): (r: seq<(string, string)>)
      ensures |r| == |entries|
      ensures forall i :: 0 <= i < |r| ==> r[i].0 == entries[i].0
    {
      seq(|entries|, i requires 0 <= i < |entries| => (entries[i].0, Join(entries[i].1, ";")))
    }
  }

  /** The merged view agrees with `get`: the joined value of a name is the
      join of its value list. */
  lemma RequestHeadersAgreeWithGet(h: Headers, key: string)
    ensures h.Get(key).Some? ==>
      h.RequestHeaders()[FindKey(h.entries, key)].1 == Join(h.Get(key).value, ";")
  {
  }

  // -----------------------------------------------------------------------
  // Properties of the entry operations

  lemma {:induction false} RemoveKeyDistinct(es: seq<Entry>, key: string)
    requires DistinctKeys(es)
    ensures DistinctKeys(RemoveKey(es, key))
  {
    if es != [] {
      RemoveKeyDistinct(es[1..], key);
      var rest := RemoveKey(es[1..], key);
      if !EqualsIgnoreCase(key, es[0].0) {
        assert forall e :: e in rest ==> e in es[1..];
        forall j | 0 <= j < |rest|
          ensures !EqualsIgnoreCase(es[0].0, rest[j].0)
        {
          assert rest[j] in es[1..];
          var k :| 0 <= k < |es[1..]| && es[1..][k] == rest[j];
          assert es[k + 1] == rest[j];
        }
        assert RemoveKey(es, key) == [es[0]] + rest;
      }
    }
  }

  /** Removing a name nobody matches leaves the entries as they are. */
  lemma {:induction false} RemoveKeyAbsent(es: seq<Entry>, key: string)
    requires FindKey(es, key) < 0
    ensures RemoveKey(es, key) == es
  {
    if es != [] {
      assert !EqualsIgnoreCase(key, es[0].0);
      assert FindKey(es[1..], key) < 0 by {
        forall k | 0 <= k < |es[1..]|
          ensures !EqualsIgnoreCase(key, es[1..][k].0)
        {
          assert es[1..][k] == es[k + 1];
        }
      }
      RemoveKeyAbsent(es[1..], key);
    }
  }

  /** With distinct names, removal drops exactly the one matching entry and
      keeps the others in order. */
  lemma {:induction false} RemoveKeyOne(es: seq<Entry>, key: string, i: nat)
    requires DistinctKeys(es)
    requires i < |es| && EqualsIgnoreCase(key, es[i].0)
    ensures RemoveKey(es, key) == es[..i] + es[i + 1..]
  {
    if i == 0 {
      RemoveKeyFirst(es, key);
    } else {
      NotFirst(es, key, i);
      RemoveKeyCons(es, key);
      TailDistinct(es);
      RemoveKeyOne(es[1..], key, i - 1);
      SliceOfTail(es, i, RemoveKey(es, key));
    }
  }

  lemma NotFirst(es: seq<Entry>, key: string, i: nat)
    requires DistinctKeys(es)
    requires 0 < i < |es| && EqualsIgnoreCase(key, es[i].0)
    ensures !EqualsIgnoreCase(key, es[0].0)
  {
    assert !EqualsIgnoreCase(es[0].0, es[i].0);
  }

  lemma RemoveKeyCons(es: seq<Entry>, key: string)
    requires es != [] && !EqualsIgnoreCase(key, es[0].0)
    ensures RemoveKey(es, key) == [es[0]] + RemoveKey(es[1..], key)
  {
  }

  lemma TailDistinct(es: seq<Entry>)
    requires es != [] && DistinctKeys(es)
    ensures DistinctKeys(es[1..])
  {
    forall a, b | 0 <= a < b < |es| - 1
      ensures !EqualsIgnoreCase(es[1..][a].0, es[1..][b].0)
    {
      assert es[1..][a] == es[a + 1] && es[1..][b] == es[b + 1];
    }
  }

  /** Dropping index `i` from `s` is keeping its head and dropping index
      `i - 1` from its tail. */
  lemma SliceOfTail<T>(s: seq<T>, i: nat, r: seq<T>)
    requires 0 < i < |s|
    requires r == [s[0]] + (s[1..][..i - 1] + s[1..][i..])
    ensures r == s[..i] + s[i + 1..]
  {
    assert s[..i] == [s[0]] + s[1..][..i - 1];
    assert s[i + 1..] == s[1..][i..];
  }

  lemma RemoveKeyFirst(es: seq<Entry>, key: string)
    requires DistinctKeys(es)
    requires es != [] && EqualsIgnoreCase(key, es[0].0)
    ensures RemoveKey(es, key) == es[1..]
  {
    assert FindKey(es[1..], key) < 0 by {
      forall k | 0 <= k < |es[1..]|
        ensures !EqualsIgnoreCase(key, es[1..][k].0)
      {
        assert es[1..][k] == es[k + 1];
        assert !EqualsIgnoreCase(es[0].0, es[k + 1].0);
      }
    }
    RemoveKeyAbsent(es[1..], key);
  }

  /** As written, `remove` of a present name that is not the last entry
      throws; the evidently intended removal never does. */
  lemma RemoveAsWrittenThrows(es: seq<Entry>, key: string)
    requires DistinctKeys(es)
    ensures RemoveAsWritten(es, key).Err? <==> 0 <= FindKey(es, key) < |es| - 1
    ensures RemoveAsWritten(es, key).Ok? ==> RemoveAsWritten(es, key).value == RemoveKey(es, key)
  {
    var i := FindKey(es, key);
    if i < 0 {
      RemoveKeyAbsent(es, key);
    } else {
      RemoveKeyOne(es, key, i);
      assert es[i + 1..] == [] <== i == |es| - 1;
    }
  }

  /** As written, `set` of a name held by an entry that is not the last
      throws; otherwise it agrees with the intended `set`. */
  lemma SetAsWrittenThrows(es: seq<Entry>, key: string, values: seq<string>)
    requires DistinctKeys(es)
    ensures SetAsWritten(es, key, values).Err? <==> 0 <= FindKey(es, key) < |es| - 1
    ensures SetAsWritten(es, key, values).Ok? ==> SetAsWritten(es, key, values).value == SetValues(es, key, values)
  {
    RemoveAsWrittenThrows(es, key);
  }

  /** A concrete instance: a Content-Type header followed by a Host header;
      removing `content-type` throws as written. */
  lemma RemoveAsWrittenExample()
    ensures RemoveAsWritten([("Content-Type", ["text/plain"]), ("Host", ["h"])], "content-type")
         == Err(ConcurrentModification)
    ensures RemoveKey([("Content-Type", ["text/plain"]), ("Host", ["h"])], "content-type")
         == [("Host", ["h"])]
  {
    var es: seq<Entry> := [("Content-Type", ["text/plain"]), ("Host", ["h"])];
    assert Lower("content-type") == Lower("Content-Type");
    assert Lower("content-type") != Lower("Host") by {
      assert |Lower("Host")| == 4;
    }
    assert FindKey(es[..1], "content-type") == 0;
    assert FindKey(es, "content-type") == 0;
  }

  lemma AddValuesDistinct(es: seq<Entry>, key: string, values: seq<string>)
    requires DistinctKeys(es)
    ensures DistinctKeys(AddValues(es, key, values))
  {
  }

  /** `add` appends to the entry found ignoring case and keeps its spelling;
      otherwise it creates the entry; every other entry is untouched. */
  lemma AddValuesEffect(es: seq<Entry>, key: string, values: seq<string>)
    ensures FindKey(es, key) >= 0 ==>
      |AddValues(es, key, values)| == |es|
      && (forall k :: 0 <= k < |es| ==> AddValues(es, key, values)[k].0 == es[k].0)
      && Lookup(AddValues(es, key, values), key) == Some(Lookup(es, key).value + values)
    ensures FindKey(es, key) < 0 ==>
      AddValues(es, key, values) == es + [(key, values)]
      && Lookup(AddValues(es, key, values), key) == Some(values)
    ensures forall k :: 0 <= k < |es| && k != FindKey(es, key) ==> AddValues(es, key, values)[k] == es[k]
  {
    var r := AddValues(es, key, values);
    var i := FindKey(es, key);
    if i >= 0 {
      assert forall k :: 0 <= k < |es| ==> r[k].0 == es[k].0;
      assert FindKey(r, key) == i by {
        assert EqualsIgnoreCase(key, r[i].0);
        forall k | 0 <= k < i
          ensures !EqualsIgnoreCase(key, r[k].0)
        {
          assert r[k] == es[k];
        }
      }
    } else {
      assert FindKey(r, key) == |es| by {
        assert r[|es|] == (key, values);
        forall k | 0 <= k < |es|
          ensures !EqualsIgnoreCase(key, r[k].0)
        {
          assert r[k] == es[k];
        }
      }
    }
  }

  lemma SetValuesDistinct(es: seq<Entry>, key: string, values: seq<string>)
    requires DistinctKeys(es)
    ensures DistinctKeys(SetValues(es, key, values))
  {
    RemoveKeyDistinct(es, key);
    var r := RemoveKey(es, key);
    forall i | 0 <= i < |r|
      ensures !EqualsIgnoreCase(r[i].0, key)
    {
      assert r[i] in r;
    }
  }

  /** After `set`, the name maps to exactly the given list, under the given
      spelling, and no other entry matches it. */
  lemma SetValuesEffect(es: seq<Entry>, key: string, values: seq<string>)
    ensures Lookup(SetValues(es, key, values), key) == Some(values)
    ensures SetValues(es, key, values)[|SetValues(es, key, values)| - 1] == (key, values)
    ensures FindKey(SetValues(es, key, values), key) == |SetValues(es, key, values)| - 1
  {
    var r := RemoveKey(es, key);
    var s := SetValues(es, key, values);
    forall k | 0 <= k < |r|
      ensures !EqualsIgnoreCase(key, s[k].0)
    {
      assert s[k] == r[k];
      assert r[k] in r;
    }
    assert s[|r|] == (key, values);
  }

  /** After `remove`, no name matches; a name that differs ignoring case
      keeps its values. */
  lemma RemoveKeyEffect(es: seq<Entry>, key: string, other: string)
    requires DistinctKeys(es)
    ensures Lookup(RemoveKey(es, key), key).None?
    ensures !EqualsIgnoreCase(key, other) ==> Lookup(RemoveKey(es, key), other) == Lookup(es, other)
  {
    var r := RemoveKey(es, key);
    forall k | 0 <= k < |r|
      ensures !EqualsIgnoreCase(key, r[k].0)
    {
      assert r[k] in r;
    }
    if !EqualsIgnoreCase(key, other) {
      RemoveKeyDistinct(es, key);
      var j := FindKey(es, other);
      if j >= 0 {
        assert es[j] in es;
        assert es[j] in r;
        var m :| 0 <= m < |r| && r[m] == es[j];
        FindKeyDistinct(r, other, m);
      } else {
        forall k | 0 <= k < |r|
          ensures !EqualsIgnoreCase(other, r[k].0)
        {
          assert r[k] in r;
          var n :| 0 <= n < |es| && es[n] == r[k];
        }
      }
    }
  }

  /** `set` leaves the values of every other name as they were. */
  lemma SetValuesOther(es: seq<Entry>, key: string, values: seq<string>, other: string)
    requires DistinctKeys(es)
    requires !EqualsIgnoreCase(key, other)
    ensures Lookup(SetValues(es, key, values), other) == Lookup(es, other)
  {
    RemoveKeyEffect(es, key, other);
    var r := RemoveKey(es, key);
    var s := SetValues(es, key, values);
    LowerSymmetric(key, other);
    assert s[..|r|] == r;
    assert FindKey(s, other) == FindKey(r, other);
  }

  /** The six names the client fills in differ pairwise, ignoring case. */
  /** User-Agent, Host and Connection differ ignoring case. */
  lemma FixedKeysDiffer()
    ensures !EqualsIgnoreCase(UserAgentKey, HostKey) && !EqualsIgnoreCase(UserAgentKey, ConnectionKey)
    ensures !EqualsIgnoreCase(HostKey, ConnectionKey)
  {
    assert Lower(UserAgentKey)[0] == 'u';
  }

  /** Content-Type, Content-Length and Transfer-Encoding differ ignoring
      case. */
  lemma BodyKeysDiffer()
    ensures !EqualsIgnoreCase(ContentTypeKey, ContentLengthKey) && !EqualsIgnoreCase(ContentTypeKey, TransferEncodingKey)
    ensures !EqualsIgnoreCase(ContentLengthKey, TransferEncodingKey) && !EqualsIgnoreCase(TransferEncodingKey, ContentLengthKey)
  {
  }

  /** None of User-Agent, Host and Connection is a body header. */
  lemma FixedKeysApartFromBody()
    ensures !EqualsIgnoreCase(UserAgentKey, ContentTypeKey) && !EqualsIgnoreCase(UserAgentKey, ContentLengthKey)
    ensures !EqualsIgnoreCase(UserAgentKey, TransferEncodingKey)
    ensures !EqualsIgnoreCase(HostKey, ContentTypeKey) && !EqualsIgnoreCase(HostKey, ContentLengthKey)
    ensures !EqualsIgnoreCase(HostKey, TransferEncodingKey)
    ensures !EqualsIgnoreCase(ConnectionKey, ContentTypeKey) && !EqualsIgnoreCase(ConnectionKey, ContentLengthKey)
    ensures !EqualsIgnoreCase(ConnectionKey, TransferEncodingKey)
  {
    assert Lower(UserAgentKey)[0] == 'u';
    assert Lower(ConnectionKey)[0] == 'c';
  }

  lemma {:induction false} SetAllDistinct(es: seq<Entry>, headers: seq<Entry>)
    requires DistinctKeys(es)
    ensures DistinctKeys(SetAllValues(es, headers))
    decreases |headers|
  {
    if headers != [] {
      SetValuesDistinct(es, headers[0].0, headers[0].1);
      SetAllDistinct(SetValues(es, headers[0].0, headers[0].1), headers[1..]);
    }
  }

  /** `set(headers)` on an empty builder reproduces a map with distinct
      names: `newBuilder()` copies the headers exactly. */
  lemma {:induction false} SetAllIntoEmpty(acc: seq<Entry>, headers: seq<Entry>)
    requires DistinctKeys(acc + headers)
    ensures SetAllValues(acc, headers) == acc + headers
    decreases |headers|
  {
    if headers == [] {
      assert acc + headers == acc;
    } else {
      var h := headers[0];
      assert FindKey(acc, h.0) < 0 by {
        forall k | 0 <= k < |acc|
          ensures !EqualsIgnoreCase(h.0, acc[k].0)
        {
          assert (acc + headers)[k] == acc[k];
          assert (acc + headers)[|acc|] == h;
          LowerSymmetric(acc[k].0, h.0);
        }
      }
      RemoveKeyAbsent(acc, h.0);
      assert SetValues(acc, h.0, h.1) == acc + [h];
      assert acc + [h] + headers[1..] == acc + headers;
      SetAllIntoEmpty(acc + [h], headers[1..]);
    }
  }

  lemma LowerSymmetric(a: string, b: string)
    ensures EqualsIgnoreCase(a, b) == EqualsIgnoreCase(b, a)
  {
  }

  /** The content type `build()` records is the parse of the Content-Type
      entry's joined values, or DEFAULT without one; the entries are kept. */
  lemma BuildContentType(es: seq<Entry>)
    ensures BuildHeaders(es).Ok? ==> BuildHeaders(es).value.entries == es
    ensures BuildHeaders(es).Ok? && Lookup(es, ContentTypeKey).None? ==>
      BuildHeaders(es).value.contentType == Default
    ensures Lookup(es, ContentTypeKey).Some? ==>
      (BuildHeaders(es).Ok? <==> Parse(Join(Lookup(es, ContentTypeKey).value, ";")).Ok?)
    ensures BuildHeaders(es).Ok? && Lookup(es, ContentTypeKey).Some? ==>
      Parse(Join(Lookup(es, ContentTypeKey).value, ";")) == Ok(BuildHeaders(es).value.contentType)
  {
    var i := FindKey(es, ContentTypeKey);
    if i >= 0 {
      var p := Parse(Join(es[i].1, ";"));
      assert Lookup(es, ContentTypeKey) == Some(es[i].1);
      assert p.Ok? ==> BuildHeaders(es) == Ok(Headers(es, p.value));
      assert p.Err? ==> BuildHeaders(es).Err?;
    }
  }

  // -----------------------------------------------------------------------
  // The builder

  class HeadersBuilder {
    var entries: seq<Entry>

    ghost predicate Valid()
      reads this
    {
      DistinctKeys(entries)
    }

    constructor()
      ensures entries == [] && Valid()
    {
      entries := [];
    }

    /** `getValue`'s search loop: the index of the entry found ignoring
        case, or -1. */
    method IndexOf(key: string) returns (i: int)
      ensures i == FindKey(entries, key)
    {
      i := 0;
      while i < |entries|
        invariant 0 <= i <= |entries|
        invariant forall k :: 0 <= k < i ==> !EqualsIgnoreCase(key, entries[k].0)
      {
        if EqualsIgnoreCase(key, entries[i].0) {
          return;
        }
        i := i + 1;
      }
      i := -1;
    }

    /** `add(key, value)`. */
    method Add(key: string, value: string)
      requires Valid()
      modifies this
      ensures Valid()
      ensures entries == AddValues(old(entries), key, [value])
    {
      AddAll(key, [value]);
    }

    /** `add(key, values)`. */
    method AddAll(key: string, values: seq<string>)
      requires Valid()
      modifies this
      ensures Valid()
      ensures entries == AddValues(old(entries), key, values)
    {
      AddValuesDistinct(entries, key, values);
      var i := IndexOf(key);
      if i >= 0 {
        entries := entries[i := (entries[i].0, entries[i].1 + values)];
      } else {
        entries := entries + [(key, values)];
      }
    }

    /** `remove(key)`, removing every entry equal ignoring case without
        disturbing the iteration. */
    method Remove(key: string)
      requires Valid()
      modifies this
      ensures Valid()
      ensures entries == RemoveKey(old(entries), key)
    {
      RemoveKeyDistinct(entries, key);
      var kept: seq<Entry> := [];
      var i := |entries|;
      while i > 0
        invariant 0 <= i <= |entries|
        invariant kept == RemoveKey(entries[i..], key)
      {
        i := i - 1;
        assert entries[i..][1..] == entries[i + 1..];
        if !EqualsIgnoreCase(key, entries[i].0) {
          kept := [entries[i]] + kept;
        }
      }
      assert entries[0..] == entries;
      entries := kept;
    }

    /** `set(key, value)`. */
    method Set(key: string, value: string)
      requires Valid()
      modifies this
      ensures Valid()
      ensures entries == SetValues(old(entries), key, [value])
    {
      SetList(key, [value]);
    }

    /** `set(key, values)`: remove, then put under the given spelling. */
    method SetList(key: string, values: seq<string>)
      requires Valid()
      modifies this
      ensures Valid()
      ensures entries == SetValues(old(entries), key, values)
    {
      SetValuesDistinct(entries, key, values);
      Remove(key);
      entries := entries + [(key, values)];
    }

    /** `set(headers)`. */
    method SetAll(headers: seq<Entry>)
      requires Valid()
      modifies this
      ensures Valid()
      ensures entries == SetAllValues(old(entries), headers)
    {
      var i := 0;
      while i < |headers|
        invariant 0 <= i <= |headers|
        invariant Valid()
        invariant SetAllValues(entries, headers[i..]) == SetAllValues(old(entries), headers)
      {
        assert headers[i..][1..] == headers[i + 1..];
        SetList(headers[i].0, headers[i].1);
        i := i + 1;
      }
    }

    /** `copy()`: a new builder with the same entries. */
    method Copy() returns (b: HeadersBuilder)
      ensures fresh(b) && b.entries == entries
    {
      b := new HeadersBuilder();
      b.entries := entries;
    }

    /** `build()`, with the search for the Content-Type entry. */
    method Build() returns (r: Result<Headers>)
      ensures r == BuildHeaders(entries)
    {
      var i := IndexOf(ContentTypeKey);
      if i < 0 {
        return Ok(Headers(entries, Default));
      }
      var ct := ParseContentType(Join(entries[i].1, ";"));
      if ct.Err? {
        return Err(ct.failure);
      }
      r := Ok(Headers(entries, ct.value));
    }
  }

  /** `Headers.newBuilder()`: a fresh builder filled with `set(headerMap)`. */
  method NewBuilder(h: Headers) returns (b: HeadersBuilder)
    requires DistinctKeys(h.entries)
    ensures fresh(b) && b.Valid()
    ensures b.entries == h.entries
  {
    b := new HeadersBuilder();
    b.SetAll(h.entries);
    SetAllIntoEmpty([], h.entries);
    assert [] + h.entries == h.entries;
  }
}
