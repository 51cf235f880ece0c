/** `ConvertDisposer` (disposer/.../lemon/http/disposer/impl/ConvertDisposer.kt):
    `convert(block)` turns each value the upstream calls with into a new
    disposer, whose calls and errors are passed on while its start and end
    callbacks are dropped, so that the application sees the upstream's
    start and end only. */
module ConvertDisposers {
  import opened Wrappers
  import opened Events
  import opened CreateDisposers

  /** What `EventActionAdapterAccepter` passes on of one callback of the
      converted disposer. */
  function Adapted<R>(e: Event<R>): seq<Effect<R>> {
    if e.Call? || e.Error? then [Received(e)] else []
  }

  function AdaptedAll<R>(es: seq<Event<R>>): seq<Effect<R>>
    decreases |es|
  {
    if es == [] then [] else AdaptedAll(es[..|es| - 1]) + Adapted(es[|es| - 1])
  }

  /** One upstream callback reaching a `ConvertAccepter` that holds `block`;
      the block stands for the disposer it returns, by the callbacks that
      disposer delivers. */
  function ConvertStep<T, R>(block: Option<T -> seq<Event<R>>>, e: Event<T>): seq<Effect<R>> {
    match e
    case Start => [Received(Start)]
    case End(s) => [Received(End(s))]
    case Error(t) => [Received(Error(t))]
    case Call(x) => if block.Some? then AdaptedAll(block.value(x)) else []
  }

  function Converted<T, R>(block: Option<T -> seq<Event<R>>>, es: seq<Event<T>>): seq<Effect<R>>
    decreases |es|
  {
    if es == [] then [] else Converted(block, es[..|es| - 1]) + ConvertStep(block, es[|es| - 1])
  }

  /** `EventActionAdapterAccepter`. */
  class EventActionAdapterAccepter<R> {
    const accepter: Journal<R>

    constructor(accepter: Journal<R>)
      ensures this.accepter == accepter
    {
      this.accepter := accepter;
    }

    /** `call` and `onError` are passed on; `onStart` and `onEnd` are
        dropped. */
    method Accept(e: Event<R>)
      modifies accepter
      ensures accepter.effects == old(accepter.effects) + Adapted(e)
    {
      if e.Call? || e.Error? {
        accepter.effects := accepter.effects + [Received(e)];
      }
    }
  }

  class ConvertAccepter<T, R> {
    const accepter: Journal<R>
    var block: Option<T -> seq<Event<R>>>

    constructor(accepter: Journal<R>, block: Option<T -> seq<Event<R>>>)
      ensures this.accepter == accepter && this.block == block
    {
      this.accepter := accepter;
      this.block := block;
    }

    /** `call(result)`: the disposer the block returns transmits to an
        `EventActionAdapterAccepter`; with no block, nothing happens. */
    method Call(result: T)
      modifies accepter
      ensures accepter.effects == old(accepter.effects) + ConvertStep(block, Event.Call(result))
    {
      if block.Some? {
        var es := block.value(result);
        var adapter := new EventActionAdapterAccepter(accepter);
        var i := 0;
        while i < |es|
          invariant 0 <= i <= |es|
          invariant accepter.effects == old(accepter.effects) + AdaptedAll(es[..i])
        {
          assert es[..i + 1][..i] == es[..i];
          adapter.Accept(es[i]);
          i := i + 1;
        }
        assert es[..|es|] == es;
      }
    }

    /** `onStart`, `onEnd` and `onError` pass through, as in
        `AbstractEventActionAccepter`. */
    method Accept(e: Event<T>)
      modifies accepter
      ensures accepter.effects == old(accepter.effects) + ConvertStep(block, e)
    {
      match e
      case Call(x) => Call(x);
      case Start => accepter.effects := accepter.effects + [Received(Start)];
      case End(s) => accepter.effects := accepter.effects + [Received(End(s))];
      case Error(t) => accepter.effects := accepter.effects + [Received(Error(t))];
    }

    /** The callbacks an upstream delivers, one after the other. */
    method AcceptAll(es: seq<Event<T>>)
      modifies accepter
      ensures accepter.effects == old(accepter.effects) + Converted(block, es)
    {
      var i := 0;
      while i < |es|
        invariant 0 <= i <= |es|
        invariant accepter.effects == old(accepter.effects) + Converted(block, es[..i])
      {
        ConvertedSnoc(block, es, i);
        Accept(es[i]);
        i := i + 1;
      }
      assert es[..|es|] == es;
    }

    /** `cancel()`: the block is dropped. */
    method Cancel()
      modifies this
      ensures block.None?
    {
      block := None;
    }
  }

  class ConvertDisposer<T, R> {
    var disposer: Option<Source<T>>
    var block: Option<T -> seq<Event<R>>>
    var convertAccepter: Option<ConvertAccepter<T, R>>

    constructor(disposer: Option<Source<T>>, block: Option<T -> seq<Event<R>>>)
      ensures this.disposer == disposer && this.block == block && convertAccepter.None?
    {
      this.disposer := disposer;
      this.block := block;
      convertAccepter := None;
    }

    /** `transmit(accepter)`: with an upstream, a new `ConvertAccepter`
        holding the block is kept and the upstream transmits to it; with
        none, nothing happens. */
    method Transmit(down: Journal<R>)
      modifies this, down
      ensures disposer == old(disposer) && block == old(block)
      ensures disposer.None? ==> down.effects == old(down.effects) && convertAccepter == old(convertAccepter)
      ensures disposer.Some? ==>
        convertAccepter.Some? && fresh(convertAccepter.value)
        && convertAccepter.value.accepter == down && convertAccepter.value.block == block
        && down.effects == old(down.effects) + Converted(block, disposer.value.Delivers())
    {
      if disposer.Some? {
        var acc := new ConvertAccepter(down, block);
        acc.AcceptAll(disposer.value.Delivers());
        convertAccepter := Some(acc);
      }
    }

    /** `cancel()`: the upstream is cancelled and dropped, the accepter's
        block and the accepter are dropped, and so is the block. */
    method Cancel()
      modifies this, if disposer.Some? then {disposer.value} else {}
      modifies if convertAccepter.Some? then {convertAccepter.value} else {}
      ensures disposer.None? && convertAccepter.None? && block.None?
      ensures old(disposer).Some? ==> old(disposer).value.cancelled
      ensures old(convertAccepter).Some? ==> old(convertAccepter).value.block.None?
    {
      if disposer.Some? {
        disposer.value.Cancel();
      }
      disposer := None;
      if convertAccepter.Some? {
        convertAccepter.value.Cancel();
      }
      convertAccepter := None;
      block := None;
    }
  }

  /** One more upstream callback. */
  lemma ConvertedSnoc<T, R>(block: Option<T -> seq<Event<R>>>, es: seq<Event<T>>, i: nat)
    requires i < |es|
    ensures Converted(block, es[..i + 1]) == Converted(block, es[..i]) + ConvertStep(block, es[i])
  {
    assert es[..i + 1][..i] == es[..i];
  }

  // -----------------------------------------------------------------------
  // Properties

  /** Of the converted disposer's callbacks only calls and errors reach the
      application. */
  lemma {:induction false} InnerStartAndEndDropped<R>(es: seq<Event<R>>)
    ensures Starts(AdaptedAll(es)) == 0 && Ends(AdaptedAll(es)) == 0
    ensures forall i :: 0 <= i < |AdaptedAll(es)| ==>
      AdaptedAll(es)[i].Received? && (AdaptedAll(es)[i].event.Call? || AdaptedAll(es)[i].event.Error?)
    decreases |es|
  {
    if es != [] {
      InnerStartAndEndDropped(es[..|es| - 1]);
      var e := es[|es| - 1];
      CountsAppend(AdaptedAll(es[..|es| - 1]), Adapted(e));
      if e.Call? || e.Error? {
        CountsCons(Received(e), []);
        assert [Received(e)] + [] == Adapted(e);
      }
    }
  }

  /** The application sees exactly the upstream's starts and ends, however
      many the converted disposers deliver. */
  lemma {:induction false} OnlyUpstreamStartsAndEnds<T, R>(block: Option<T -> seq<Event<R>>>, es: seq<Event<T>>)
    ensures Starts(Converted(block, es)) == StartEvents(es)
    ensures Ends(Converted(block, es)) == EndEvents(es)
    decreases |es|
  {
    if es != [] {
      var init, e := es[..|es| - 1], es[|es| - 1];
      OnlyUpstreamStartsAndEnds(block, init);
      CountsAppend(Converted(block, init), ConvertStep(block, e));
      EventCountsAppend(init, [e]);
      assert init + [e] == es;
      assert [e][1..] == [];
      if e.Call? {
        if block.Some? {
          InnerStartAndEndDropped(block.value(e.result));
        }
      } else {
        CountsCons<R>(ConvertStep(block, e)[0], []);
        assert ConvertStep(block, e) == [ConvertStep(block, e)[0]] + [];
      }
    }
  }

  /** Once the accepter's block is gone, upstream calls reach nothing. */
  lemma CancelledAccepterDropsCalls<T, R>(es: seq<Event<T>>)
    requires forall i :: 0 <= i < |es| ==> es[i].Call?
    ensures Converted<T, R>(None, es) == []
    decreases |es|
  {
    if es != [] {
      CancelledAccepterDropsCalls<T, R>(es[..|es| - 1]);
    }
  }

  /** Converting a `CreateDisposer` in normal mode: the application sees one
      start and one end, whatever the disposers returned by the block
      deliver. */
  lemma ConvertedCreateDisposer<T, R>(value: T, b: Behaviour, block: T -> seq<Event<R>>)
    ensures var (es, _) := Emitted(value, false, false, b);
      Starts(Converted(Some(block), es)) == 1 && Ends(Converted(Some(block), es)) == 1
  {
    var (es, _) := Emitted(value, false, false, b);
    NormalMode(value, b);
    OnlyUpstreamStartsAndEnds(Some(block), es);
  }
}
