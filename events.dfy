/** The vocabulary of the event pipeline ("disposers"): the callbacks an
    `Accepter` receives (disposer/.../tube/http/disposer/Accepter.kt), what
    an application can observe of them, and the upstream a wrapping
    disposer reads its events from. */
module Events {

  /** `Accepter.EndState`. */
  datatype EndState = Normal | Cancel

  datatype Throwable = Throwable(message: string)

  /** One callback of `Accepter<T>`: `onStart`, `call`, `onError`, `onEnd`. */
  datatype Event<T> = Start | Call(result: T) | Error(cause: Throwable) | End(state: EndState)

  /** What the application sees, in order: a callback reaching the accepter
      it subscribed with, or one of its `doStart`/`doEnd`/`doError` blocks
      running (each block named by a number). */
  datatype Effect<T> =
    | Received(event: Event<T>)
    | StartRan(id: nat)
    | EndRan(id: nat, state: EndState)
    | ErrorRan(id: nat, cause: Throwable)

  /** The application's side of a pipeline: everything it has seen so far. */
  class Journal<T> {
    var effects: seq<Effect<T>>

    constructor()
      ensures effects == []
    {
      effects := [];
    }
  }

  /** A disposer upstream of a wrapping one, seen from outside: the
      callbacks its `transmit` delivers, none once it is cancelled. */
  class Source<T> {
    const script: seq<Event<T>>
    var cancelled: bool

    constructor(script: seq<Event<T>>)
      ensures this.script == script && !cancelled
    {
      this.script := script;
      cancelled := false;
    }

    function Delivers(): (r: seq<Event<T>>)
      reads this
      ensures cancelled ==> r == []
    {
      if cancelled then [] else script
    }

    method Cancel()
      modifies this
      ensures cancelled
    {
      cancelled := true;
    }
  }

  /** The callbacks among `es` that reached the application unchanged. */
  function AllReceived<T>(es: seq<Event<T>>): (r: seq<Effect<T>>)
    ensures |r| == |es|
    ensures forall i :: 0 <= i < |es| ==> r[i] == Received(es[i])
  {
    if es == [] then [] else [Received(es[0])] + AllReceived(es[1..])
  }

  /** How many `onEnd` callbacks reached the application. */
  function Ends<T>(fx: seq<Effect<T>>): nat {
    if fx == [] then 0
    else (if fx[0].Received? && fx[0].event.End? then 1 else 0) + Ends(fx[1..])
  }

  /** How many `onStart` callbacks reached the application. */
  function Starts<T>(fx: seq<Effect<T>>): nat {
    if fx == [] then 0
    else (if fx[0].Received? && fx[0].event.Start? then 1 else 0) + Starts(fx[1..])
  }

  /** How many times a `doEnd` block ran. */
  function EndRuns<T>(fx: seq<Effect<T>>): nat {
    if fx == [] then 0
    else (if fx[0].EndRan? then 1 else 0) + EndRuns(fx[1..])
  }

  /** How many `onEnd` and `onStart` callbacks a script holds. */
  function EndEvents<T>(es: seq<Event<T>>): nat {
    if es == [] then 0 else (if es[0].End? then 1 else 0) + EndEvents(es[1..])
  }

  function StartEvents<T>(es: seq<Event<T>>): nat {
    if es == [] then 0 else (if es[0].Start? then 1 else 0) + StartEvents(es[1..])
  }

  /** The counts add up over concatenation. */
  lemma {:induction false} CountsAppend<T>(a: seq<Effect<T>>, b: seq<Effect<T>>)
    ensures Ends(a + b) == Ends(a) + Ends(b)
    ensures Starts(a + b) == Starts(a) + Starts(b)
    ensures EndRuns(a + b) == EndRuns(a) + EndRuns(b)
    decreases |a|
  {
    if a != [] {
      assert (a + b)[1..] == a[1..] + b;
      CountsAppend(a[1..], b);
    } else {
      assert a + b == b;
    }
  }

  lemma {:induction false} EventCountsAppend<T>(a: seq<Event<T>>, b: seq<Event<T>>)
    ensures EndEvents(a + b) == EndEvents(a) + EndEvents(b)
    ensures StartEvents(a + b) == StartEvents(a) + StartEvents(b)
    decreases |a|
  {
    if a != [] {
      assert (a + b)[1..] == a[1..] + b;
      EventCountsAppend(a[1..], b);
    } else {
      assert a + b == b;
    }
  }

  /** The counts of one effect followed by others. */
  lemma CountsCons<T>(x: Effect<T>, rest: seq<Effect<T>>)
    ensures Ends([x] + rest) == (if x.Received? && x.event.End? then 1 else 0) + Ends(rest)
    ensures Starts([x] + rest) == (if x.Received? && x.event.Start? then 1 else 0) + Starts(rest)
    ensures EndRuns([x] + rest) == (if x.EndRan? then 1 else 0) + EndRuns(rest)
  {
    assert ([x] + rest)[1..] == rest;
  }
}
