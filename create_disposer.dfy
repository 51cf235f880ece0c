/** `CreateDisposer` (disposer/.../tube/http/disposer/impl/CreateDisposer.kt):
    the head of a pipeline, which hands one value to the accepter it is
    given, inside start and end callbacks unless it is told to deliver
    the call alone. */
module CreateDisposers {
  import opened Wrappers
  import opened Events

  /** How the accepter given to `transmit` behaves: whether its `onStart`
      or its `call` throws, and what. */
  datatype Behaviour = Behaviour(startThrows: Option<Throwable>, callThrows: Option<Throwable>)

  /** What `transmit` delivers to such an accepter, and what escapes from
      `transmit`. */
  function Emitted<T>(value: T, onlyCall: bool, cancel: bool, b: Behaviour): (seq<Event<T>>, Option<Throwable>) {
    if cancel then ([], None)
    else if onlyCall then ([Call(value)], b.callThrows)
    else match b.startThrows
      case Some(t) => ([Start, Error(t), End(Normal)], None)
      case None =>
        match b.callThrows
        case Some(t) => ([Start, Call(value), Error(t), End(Normal)], None)
        case None => ([Start, Call(value), End(Normal)], None)
  }

  class CreateDisposer<T> {
    const value: T
    /** Deliver the call alone, with no start and end callbacks. */
    var onlyCall: bool
    var cancel: bool

    constructor(value: T)
      ensures this.value == value && !onlyCall && !cancel
    {
      this.value := value;
      onlyCall := false;
      cancel := false;
    }

    /** `onlyCall()`: sets the flag and returns the disposer itself. */
    method OnlyCall() returns (self: CreateDisposer<T>)
      modifies this
      ensures self == this && onlyCall && cancel == old(cancel)
    {
      onlyCall := true;
      self := this;
    }

    /** `transmit(accepter)`: nothing once cancelled; the call alone in
        only-call mode, where a throw from `call` escapes; otherwise
        `onStart` and `call` under a `try`, a throw from either turned into
        `onError`, and `onEnd` in the `finally`. */
    method Transmit(b: Behaviour) returns (delivered: seq<Event<T>>, escaped: Option<Throwable>)
      ensures (delivered, escaped) == Emitted(value, onlyCall, cancel, b)
    {
      delivered, escaped := [], None;
      if cancel {
        return;
      }
      if onlyCall {
        delivered := [Call(value)];
        escaped := b.callThrows;
        return;
      }
      var thrown := b.startThrows;
      delivered := [Start];
      if thrown.None? {
        delivered := delivered + [Call(value)];
        thrown := b.callThrows;
      }
      if thrown.Some? {
        delivered := delivered + [Error(thrown.value)];
      }
      delivered := delivered + [End(Normal)];
      assert delivered == Emitted(value, onlyCall, cancel, b).0 by {
        if b.startThrows.Some? {
          assert delivered == [Start, Error(b.startThrows.value), End(Normal)];
        } else if b.callThrows.Some? {
          assert delivered == [Start, Call(value), Error(b.callThrows.value), End(Normal)];
        } else {
          assert delivered == [Start, Call(value), End(Normal)];
        }
      }
    }

    /** `cancel()`. */
    method Cancel()
      modifies this
      ensures cancel && onlyCall == old(onlyCall)
    {
      cancel := true;
    }
  }

  // -----------------------------------------------------------------------
  // Properties

  /** A cancelled disposer delivers nothing, in either mode. */
  lemma CancelledDeliversNothing<T>(value: T, onlyCall: bool, b: Behaviour)
    ensures Emitted(value, onlyCall, true, b) == ([], None)
  {
  }

  /** In only-call mode the accepter receives `call(value)` and nothing
      else, and what `call` throws is not caught. */
  lemma OnlyCallDeliversCallAlone<T>(value: T, b: Behaviour)
    ensures var (es, escaped) := Emitted(value, true, false, b);
      es == [Call(value)] && escaped == b.callThrows
  {
  }

  /** In normal mode `onStart` comes first and `call(value)` follows unless
      `onStart` threw; an `onError` is delivered exactly when one of the two
      threw, carrying what it threw; `onEnd(Normal)` is last and delivered
      exactly once; nothing escapes. */
  lemma NormalMode<T>(value: T, b: Behaviour)
    ensures var (es, escaped) := Emitted(value, false, false, b);
      escaped.None? && |es| >= 3 && es[0] == Start && es[|es| - 1] == End(Normal)
      && EndEvents(es) == 1 && StartEvents(es) == 1
      && (Call(value) in es <==> b.startThrows.None?)
      && (forall t :: Error(t) in es <==> (b.startThrows == Some(t) || (b.startThrows.None? && b.callThrows == Some(t))))
  {
    match b.startThrows
    case Some(t) =>
      CountedThree<T>(Start, Error(t), End(Normal));
    case None =>
      match b.callThrows
      case Some(t) =>
        CountedThree(Start, Call(value), Error(t));
        var three: seq<Event<T>> := [Start, Call(value), Error(t)];
        assert [Start, Call(value), Error(t), End(Normal)] == three + [End(Normal)];
        EventCountsAppend(three, [End(Normal)]);
        Counted<T>(End(Normal));
      case None =>
        CountedThree(Start, Call(value), End(Normal));
  }

  /** Helpers: the counts of a one-element and of a three-element script. */
  lemma Counted<T>(e: Event<T>)
    ensures EndEvents([e]) == (if e.End? then 1 else 0)
    ensures StartEvents([e]) == (if e.Start? then 1 else 0)
  {
    assert [e][1..] == [];
  }

  lemma CountedThree<T>(a: Event<T>, b: Event<T>, c: Event<T>)
    ensures EndEvents([a, b, c]) == EndEvents([a]) + EndEvents([b]) + EndEvents([c])
    ensures StartEvents([a, b, c]) == StartEvents([a]) + StartEvents([b]) + StartEvents([c])
    ensures EndEvents([a]) == (if a.End? then 1 else 0) && StartEvents([a]) == (if a.Start? then 1 else 0)
    ensures EndEvents([b]) == (if b.End? then 1 else 0) && StartEvents([b]) == (if b.Start? then 1 else 0)
    ensures EndEvents([c]) == (if c.End? then 1 else 0) && StartEvents([c]) == (if c.Start? then 1 else 0)
  {
    assert [a, b, c] == [a] + [b] + [c];
    EventCountsAppend([a] + [b], [c]);
    EventCountsAppend([a], [b]);
    Counted(a);
    Counted(b);
    Counted(c);
  }
}
