/** The interceptor chain: `Interceptor` (core/.../interceptor/Interceptor.kt),
    `ApplyChain` (core/.../interceptor/ApplyChain.kt) and the transport
    at its end, `RealCallInterceptor`. An interceptor either answers itself
    or passes a request on with `chain.proceed` once and post-processes what
    comes back; the transport hands the chain's request to the client. */
module Chains {
  import opened Wrappers
  import opened Requests

  /** What an interceptor does with the request its chain shows it. */
  datatype Action = Forward(request: Request) | Reply(response: Result<Response>)

  datatype Interceptor =
    | Transport(execute: Request -> Result<Response>)
    | Custom(before: Request -> Action, after: (Request, Result<Response>) -> Result<Response>)

  /** `ApplyChain(interceptor, nextIndex, request).proceed(request)`: runs
      `interceptor[nextIndex]` with a chain at `nextIndex + 1` whose
      `request()` is `req`. Indexing past the end throws. */
  function Proceed(ics: seq<Interceptor>, next: nat, req: Request): (r: Result<Response>)
    ensures next >= |ics| ==> r == Err(IndexOutOfBounds)
    ensures next < |ics| && ics[next].Transport? ==> r == ics[next].execute(req)
    decreases |ics| - next
  {
    if next >= |ics| then Err(IndexOutOfBounds)
    else match ics[next]
      case Transport(execute) => execute(req)
      case Custom(before, after) =>
        match before(req)
        case Reply(resp) => resp
        case Forward(passed) => after(req, Proceed(ics, next + 1, passed))
  }

  /** The companion `proceed(interceptor, originalRequest)`. */
  function Start(ics: seq<Interceptor>, originalRequest: Request): (r: Result<Response>)
    ensures ics == [] ==> r == Err(IndexOutOfBounds)
    ensures ics != [] && ics[0].Transport? ==> r == ics[0].execute(originalRequest)
  {
    Proceed(ics, 0, originalRequest)
  }

  // -----------------------------------------------------------------------
  // The walk down the chain

  /** The requests seen by the interceptors from `next` on that pass a
      request on, in the order they run. */
  function Passed(ics: seq<Interceptor>, next: nat, req: Request): (p: seq<Request>)
    ensures next + |p| <= |ics| || (next >= |ics| && p == [])
    decreases |ics| - next
  {
    if next >= |ics| then []
    else match ics[next]
      case Transport(_) => []
      case Custom(before, _) =>
        match before(req)
        case Reply(_) => []
        case Forward(passed) => [req] + Passed(ics, next + 1, passed)
  }

  /** The request seen by the interceptor that ends the walk (a transport,
      or one that answers itself); None when the walk runs off the end. */
  function Final(ics: seq<Interceptor>, next: nat, req: Request): Option<Request>
    decreases |ics| - next
  {
    if next >= |ics| then None
    else match ics[next]
      case Transport(_) => Some(req)
      case Custom(before, _) =>
        match before(req)
        case Reply(_) => Some(req)
        case Forward(passed) => Final(ics, next + 1, passed)
  }

  /** What the interceptor that ends the walk produces: the transport's
      result, the answer of the interceptor that replied, or the
      IndexOutOfBounds of a `proceed` past the end. */
  function Innermost(ics: seq<Interceptor>, next: nat, req: Request): Result<Response>
    decreases |ics| - next
  {
    if next >= |ics| then Err(IndexOutOfBounds)
    else match ics[next]
      case Transport(execute) => execute(req)
      case Custom(before, _) =>
        match before(req)
        case Reply(resp) => resp
        case Forward(passed) => Innermost(ics, next + 1, passed)
  }

  /** The interceptors `next .. next + |seen| - 1` post-process `inner`,
      innermost first, each with the request it saw. */
  function Unwind(ics: seq<Interceptor>, next: nat, seen: seq<Request>, inner: Result<Response>): Result<Response>
    requires next + |seen| <= |ics|
    requires forall k :: next <= k < next + |seen| ==> ics[k].Custom?
    decreases |seen|
  {
    if seen == [] then inner
    else ics[next].after(seen[0], Unwind(ics, next + 1, seen[1..], inner))
  }

  /** Interceptor `ic`, shown `r`, passes `out` on. */
  predicate Forwards(ic: Interceptor, r: Request, out: Request) {
    ic.Custom? && ic.before(r) == Forward(out)
  }

  /** The `k`-th interceptor that passes a request on is interceptor
      `next + k`: it sees what its predecessor passed on, and the one that
      ends the walk sees what the last of them passed on. */
  lemma {:induction false} PassedStep(ics: seq<Interceptor>, next: nat, req: Request, k: nat)
    requires k < |Passed(ics, next, req)|
    ensures next + k < |ics| && ics[next + k].Custom?
    ensures k == 0 ==> Passed(ics, next, req)[0] == req
    ensures k + 1 < |Passed(ics, next, req)| ==>
      Forwards(ics[next + k], Passed(ics, next, req)[k], Passed(ics, next, req)[k + 1])
    ensures k + 1 == |Passed(ics, next, req)| && Final(ics, next, req).Some? ==>
      Forwards(ics[next + k], Passed(ics, next, req)[k], Final(ics, next, req).value)
    decreases |ics| - next
  {
    var passed := ics[next].before(req).request;
    var q := Passed(ics, next + 1, passed);
    assert Passed(ics, next, req) == [req] + q;
    if k == 0 {
      if q != [] {
        PassedStep(ics, next + 1, passed, 0);
      }
    } else {
      PassedStep(ics, next + 1, passed, k - 1);
      assert next + k == (next + 1) + (k - 1);
    }
  }

  /** Interceptors run in list order from the original request, each seeing
      the request its predecessor passed on. */
  lemma PassedInOrder(ics: seq<Interceptor>, req: Request)
    ensures var p := Passed(ics, 0, req);
      |p| <= |ics|
      && (p != [] ==> p[0] == req)
      && (forall k :: 0 <= k < |p| - 1 ==> Forwards(ics[k], p[k], p[k + 1]))
      && (Final(ics, 0, req).Some? && p == [] ==> Final(ics, 0, req).value == req)
      && (Final(ics, 0, req).Some? && p != [] ==> Forwards(ics[|p| - 1], p[|p| - 1], Final(ics, 0, req).value))
  {
    var p := Passed(ics, 0, req);
    forall k | 0 <= k < |p| - 1
      ensures Forwards(ics[k], p[k], p[k + 1])
    {
      PassedStep(ics, 0, req, k);
    }
    if p != [] {
      PassedStep(ics, 0, req, 0);
      PassedStep(ics, 0, req, |p| - 1);
    } else if |ics| > 0 {
      assert ics[0].Transport? || ics[0].before(req).Reply?;
    }
  }

  /** `proceed` is the innermost result post-processed by every interceptor
      that passed a request on, in reverse order. */
  lemma {:induction false} ProceedUnwinds(ics: seq<Interceptor>, next: nat, req: Request)
    requires next <= |ics|
    ensures PassedAreCustom(ics, next, req)
    ensures Proceed(ics, next, req) == Unwind(ics, next, Passed(ics, next, req), Innermost(ics, next, req))
    decreases |ics| - next
  {
    if next < |ics| && ics[next].Custom? && ics[next].before(req).Forward? {
      var passed := ics[next].before(req).request;
      ProceedUnwinds(ics, next + 1, passed);
      assert Passed(ics, next, req)[1..] == Passed(ics, next + 1, passed);
    }
  }

  predicate PassedAreCustom(ics: seq<Interceptor>, next: nat, req: Request) {
    next + |Passed(ics, next, req)| <= |ics|
    && forall k :: next <= k < next + |Passed(ics, next, req)| ==> ics[k].Custom?
  }

  /** The walk runs off the end exactly when every interceptor from `next`
      on passes a request on; the innermost result is then the
      IndexOutOfBounds of `interceptor[size]`. */
  lemma {:induction false} OverrunIff(ics: seq<Interceptor>, next: nat, req: Request)
    requires next <= |ics|
    ensures Final(ics, next, req).None? <==> next + |Passed(ics, next, req)| == |ics|
    ensures Final(ics, next, req).None? ==> Innermost(ics, next, req) == Err(IndexOutOfBounds)
    decreases |ics| - next
  {
    if next < |ics| && ics[next].Custom? && ics[next].before(req).Forward? {
      OverrunIff(ics, next + 1, ics[next].before(req).request);
    }
  }

  /** With a transport last, the walk never runs off the end: the last
      interceptor cannot call `proceed`. */
  lemma TransportLastNeverOverruns(ics: seq<Interceptor>, req: Request)
    requires ics != [] && ics[|ics| - 1].Transport?
    ensures Final(ics, 0, req).Some?
  {
    OverrunIff(ics, 0, req);
    var p := Passed(ics, 0, req);
    if |p| == |ics| {
      PassedStep(ics, 0, req, |p| - 1);
    }
  }

  /** The chain of the transport alone hands the original request to the
      client and returns its result unchanged. */
  lemma TransportAlone(execute: Request -> Result<Response>, req: Request)
    ensures Start([Transport(execute)], req) == execute(req)
    ensures Final([Transport(execute)], 0, req) == Some(req)
  {
  }

  /** An empty chain throws: the first `interceptor[0]` is out of range. */
  lemma EmptyChain(req: Request)
    ensures Start([], req) == Err(IndexOutOfBounds)
  {
  }

  /** Interceptors placed before a chain that all pass the request through
      unchanged and leave the result alone do not change the outcome. */
  lemma {:induction false} TransparentPrefix(pre: seq<Interceptor>, ics: seq<Interceptor>, req: Request)
    requires forall k :: 0 <= k < |pre| ==>
      pre[k].Custom? && pre[k].before(req) == Forward(req)
      && forall res :: pre[k].after(req, res) == res
    ensures Start(pre + ics, req) == Start(ics, req)
  {
    ShiftedTransparent(pre, ics, 0, req);
    assert (pre + ics)[|pre|..] == ics;
    Shift(pre, ics, 0, req);
  }

  lemma {:induction false} ShiftedTransparent(pre: seq<Interceptor>, ics: seq<Interceptor>, i: nat, req: Request)
    requires i <= |pre|
    requires forall k :: 0 <= k < |pre| ==>
      pre[k].Custom? && pre[k].before(req) == Forward(req)
      && forall res :: pre[k].after(req, res) == res
    ensures Proceed(pre + ics, i, req) == Proceed(pre + ics, |pre|, req)
    decreases |pre| - i
  {
    if i < |pre| {
      assert (pre + ics)[i] == pre[i];
      ShiftedTransparent(pre, ics, i + 1, req);
    }
  }

  /** Running from position `|pre| + i` of `pre + ics` is running from `i`
      of `ics`. */
  lemma {:induction false} Shift(pre: seq<Interceptor>, ics: seq<Interceptor>, i: nat, req: Request)
    ensures Proceed(pre + ics, |pre| + i, req) == Proceed(ics, i, req)
    decreases |ics| - i
  {
    if i < |ics| {
      assert (pre + ics)[|pre| + i] == ics[i];
      match ics[i]
      case Transport(_) =>
      case Custom(before, _) =>
        match before(req)
        case Reply(_) =>
        case Forward(passed) =>
          Shift(pre, ics, i + 1, passed);
          assert |pre| + i + 1 == |pre| + (i + 1);
    }
  }
}
