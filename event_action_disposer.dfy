/** `EventActionDisposer` (disposer/.../lemon/http/disposer/impl/EventActionDisposer.kt):
    the disposer behind `doStart`, `doEnd` and `doError`. Its accepter
    passes every callback on and then runs the one action it holds when
    the callback is of that action's kind. */
module EventActionDisposers {
  import opened Wrappers
  import opened Events

  /** `EventAction`: the block of a `doStart`, a `doEnd` or a `doError`. */
  datatype EventAction = StartAction(id: nat) | EndAction(id: nat) | ErrorAction(id: nat)

  /** One callback reaching an `EventActionAccepter` that holds `action`:
      what the application sees, and the action held afterwards. */
  function Step<T>(action: Option<EventAction>, e: Event<T>): (seq<Effect<T>>, Option<EventAction>) {
    match e
    case Call(x) => ([Received(Call(x))], action)
    case Start =>
      ([Received(Start)] + (if action.Some? && action.value.StartAction? then [StartRan(action.value.id)] else []), action)
    case Error(t) =>
      ([Received(Error(t))] + (if action.Some? && action.value.ErrorAction? then [ErrorRan(action.value.id, t)] else []), action)
    case End(s) =>
      ([Received(End(s))] + (if action.Some? && action.value.EndAction? then [EndRan(action.value.id, s)] else []), None)
  }

  /** A script of callbacks reaching such an accepter, one after another. */
  function Through<T>(action: Option<EventAction>, es: seq<Event<T>>): (seq<Effect<T>>, Option<EventAction>)
    decreases |es|
  {
    if es == [] then ([], action)
    else
      var (before, held) := Through(action, es[..|es| - 1]);
      var (last, after) := Step(held, es[|es| - 1]);
      (before + last, after)
  }

  /** What `cancel` runs: the `doEnd` block with `Cancel`, if that is the
      action. */
  function CancelEffects<T>(action: Option<EventAction>): seq<Effect<T>> {
    if action.Some? && action.value.EndAction? then [EndRan(action.value.id, EndState.Cancel)] else []
  }

  class EventActionAccepter<T> {
    /** The downstream accepter (`AbstractEventActionAccepter.accepter`). */
    const accepter: Journal<T>
    var action: Option<EventAction>

    constructor(accepter: Journal<T>, action: Option<EventAction>)
      ensures this.accepter == accepter && this.action == action
    {
      this.accepter := accepter;
      this.action := action;
    }

    /** `call(result)`: passed on unchanged, and no action runs. */
    method Call(result: T)
      modifies accepter
      ensures accepter.effects == old(accepter.effects) + [Received(Event.Call(result))]
    {
      accepter.effects := accepter.effects + [Received(Event.Call(result))];
    }

    /** `onStart()`: passed on, then a start action runs. */
    method OnStart()
      modifies accepter
      ensures accepter.effects == old(accepter.effects) + [Received(Start)]
        + (if action.Some? && action.value.StartAction? then [StartRan(action.value.id)] else [])
    {
      accepter.effects := accepter.effects + [Received(Start)];
      if action.Some? && action.value.StartAction? {
        accepter.effects := accepter.effects + [StartRan(action.value.id)];
      }
    }

    /** `onEnd(endState)`: passed on, then an end action runs with the same
        state, and the accepter lets go of its action. */
    method OnEnd(endState: EndState)
      modifies this, accepter
      ensures accepter.effects == old(accepter.effects) + [Received(End(endState))]
        + (if old(action).Some? && old(action).value.EndAction? then [EndRan(old(action).value.id, endState)] else [])
      ensures action.None?
    {
      accepter.effects := accepter.effects + [Received(End(endState))];
      if action.Some? && action.value.EndAction? {
        accepter.effects := accepter.effects + [EndRan(action.value.id, endState)];
      }
      action := None;
    }

    /** `onError(throwable)`: passed on, then an error action runs with the
        same throwable. */
    method OnError(throwable: Throwable)
      modifies accepter
      ensures accepter.effects == old(accepter.effects) + [Received(Error(throwable))]
        + (if action.Some? && action.value.ErrorAction? then [ErrorRan(action.value.id, throwable)] else [])
    {
      accepter.effects := accepter.effects + [Received(Error(throwable))];
      if action.Some? && action.value.ErrorAction? {
        accepter.effects := accepter.effects + [ErrorRan(action.value.id, throwable)];
      }
    }

    /** The upstream invoking the callback that `e` names. */
    method Accept(e: Event<T>)
      modifies this, accepter
      ensures accepter.effects == old(accepter.effects) + Step(old(action), e).0
      ensures action == Step(old(action), e).1
    {
      if e.Start? {
        OnStart();
      } else if e.Call? {
        Call(e.result);
      } else if e.Error? {
        OnError(e.cause);
      } else {
        OnEnd(e.state);
      }
    }
  }

  class EventActionDisposer<T> {
    var disposer: Option<Source<T>>
    var action: Option<EventAction>
    /** The accepter of the last `transmit`; only the corrected `cancel`
        reads it. */
    var accepter: Option<EventActionAccepter<T>>

    constructor(disposer: Option<Source<T>>, action: Option<EventAction>)
      ensures this.disposer == disposer && this.action == action && accepter.None?
    {
      this.disposer := disposer;
      this.action := action;
      accepter := None;
    }

    /** `transmit(accepter)`: the upstream delivers to a new
        `EventActionAccepter` holding this disposer's action; nothing
        happens once the upstream is gone. */
    method Transmit(down: Journal<T>)
      modifies this, down
      ensures disposer == old(disposer) && action == old(action)
      ensures disposer.None? ==> down.effects == old(down.effects) && accepter == old(accepter)
      ensures disposer.Some? ==>
        var (fx, held) := Through(action, disposer.value.Delivers());
        down.effects == old(down.effects) + fx
        && accepter.Some? && fresh(accepter.value) && accepter.value.accepter == down && accepter.value.action == held
    {
      if disposer.Some? {
        var es := disposer.value.Delivers();
        var acc := new EventActionAccepter(down, action);
        var i := 0;
        while i < |es|
          invariant 0 <= i <= |es|
          invariant unchanged(this)
          invariant acc.accepter == down
          invariant down.effects == old(down.effects) + Through(action, es[..i]).0
          invariant acc.action == Through(action, es[..i]).1
        {
          assert es[..i + 1] == es[..i] + [es[i]];
          ThroughSnoc(action, es[..i], es[i]);
          acc.Accept(es[i]);
          i := i + 1;
        }
        assert es[..|es|] == es;
        accepter := Some(acc);
      }
    }

    /** `cancel()` as written: the upstream is cancelled and dropped, the
        disposer's own end action runs with `Cancel`, and the action is
        dropped. */
    method CancelAsWritten(log: Journal<T>)
      modifies this, log, if disposer.Some? then {disposer.value} else {}
      ensures disposer.None? && action.None? && accepter == old(accepter)
      ensures old(disposer).Some? ==> old(disposer).value.cancelled
      ensures log.effects == old(log.effects) + CancelEffects(old(action))
    {
      if disposer.Some? {
        disposer.value.Cancel();
      }
      disposer := None;
      if action.Some? && action.value.EndAction? {
        log.effects := log.effects + [EndRan(action.value.id, EndState.Cancel)];
      }
      action := None;
    }

    /** `cancel()` corrected: the end action runs with `Cancel` only if the
        accepter it was handed to still holds it, that is, only if no
        `onEnd` has already run it. */
    method Cancel(log: Journal<T>)
      modifies this, log, if disposer.Some? then {disposer.value} else {}
      modifies if accepter.Some? then {accepter.value} else {}
      ensures disposer.None? && action.None? && accepter.None?
      ensures old(disposer).Some? ==> old(disposer).value.cancelled
      ensures old(accepter).Some? ==> old(accepter).value.action.None?
      ensures log.effects == old(log.effects)
        + CancelEffects(if old(accepter).Some? then old(accepter.value.action) else old(action))
    {
      if disposer.Some? {
        disposer.value.Cancel();
      }
      disposer := None;
      var held := if accepter.Some? then accepter.value.action else action;
      if held.Some? && held.value.EndAction? {
        log.effects := log.effects + [EndRan(held.value.id, EndState.Cancel)];
      }
      action := None;
      if accepter.Some? {
        accepter.value.action := None;
      }
      accepter := None;
    }
  }

  // -----------------------------------------------------------------------
  // Properties

  /** The callbacks the upstream made, picked out of what the application
      saw. */
  function Delivered<T>(fx: seq<Effect<T>>): seq<Event<T>> {
    if fx == [] then []
    else Delivered(fx[..|fx| - 1]) + (if fx[|fx| - 1].Received? then [fx[|fx| - 1].event] else [])
  }

  lemma {:induction false} DeliveredAppend<T>(a: seq<Effect<T>>, b: seq<Effect<T>>)
    ensures Delivered(a + b) == Delivered(a) + Delivered(b)
    decreases |b|
  {
    if b == [] {
      assert a + b == a;
    } else {
      assert (a + b)[..|a + b| - 1] == a + b[..|b| - 1];
      DeliveredAppend(a, b[..|b| - 1]);
    }
  }

  /** Each callback is passed on first, unchanged; at most one action runs
      after it, and only the action of the callback's own kind. */
  lemma ForwardsThenMatching<T>(action: Option<EventAction>, e: Event<T>)
    ensures var fx := Step(action, e).0;
      1 <= |fx| <= 2 && fx[0] == Received(e) && Delivered(fx) == [e]
      && (|fx| == 2 <==> action.Some? && ((e.Start? && action.value.StartAction?) || (e.End? && action.value.EndAction?)
                                           || (e.Error? && action.value.ErrorAction?)))
      && (|fx| == 2 ==> fx[1] == (match e
                                  case Start => StartRan(action.value.id)
                                  case End(s) => EndRan(action.value.id, s)
                                  case Error(t) => ErrorRan(action.value.id, t)
                                  case Call(_) => fx[1]))
  {
    var fx := Step(action, e).0;
    if |fx| == 1 {
      DeliveredPair(fx[0], []);
      assert [fx[0]] + [] == fx;
    } else {
      DeliveredPair(fx[0], [fx[1]]);
      assert [fx[0]] + [fx[1]] == fx;
    }
  }

  /** Helper: the callbacks among one or two effects. */
  lemma DeliveredPair<T>(x: Effect<T>, rest: seq<Effect<T>>)
    requires |rest| <= 1 && (rest != [] ==> !rest[0].Received?)
    ensures Delivered([x] + rest) == (if x.Received? then [x.event] else [])
  {
    var one := [x];
    assert one[..0] == [];
    assert Delivered(one) == (if x.Received? then [x.event] else []);
    if rest != [] {
      var two := [x] + rest;
      assert two[..|two| - 1] == one && !two[|two| - 1].Received?;
      assert Delivered(two) == Delivered(one) + [];
    } else {
      assert [x] + rest == one;
    }
  }

  /** The accepter is transparent: the application receives exactly the
      callbacks the upstream made, in order. */
  lemma {:induction false} PassesEverythingOn<T>(action: Option<EventAction>, es: seq<Event<T>>)
    ensures Delivered(Through(action, es).0) == es
    decreases |es|
  {
    if es != [] {
      var (before, held) := Through(action, es[..|es| - 1]);
      PassesEverythingOn(action, es[..|es| - 1]);
      ForwardsThenMatching(held, es[|es| - 1]);
      DeliveredAppend(before, Step(held, es[|es| - 1]).0);
      assert es[..|es| - 1] + [es[|es| - 1]] == es;
    }
  }

  function EndActionCount(action: Option<EventAction>): nat {
    if action.Some? && action.value.EndAction? then 1 else 0
  }

  /** An accepter runs its end action at most once: after the first
      `onEnd` it holds no action, so the runs so far and the action still
      held never add up to more than the one it started with. */
  lemma {:induction false} EndActionOnce<T>(action: Option<EventAction>, es: seq<Event<T>>)
    ensures var (fx, held) := Through(action, es);
      EndRuns(fx) + EndActionCount(held) <= EndActionCount(action)
    decreases |es|
  {
    if es != [] {
      var (before, held) := Through(action, es[..|es| - 1]);
      EndActionOnce(action, es[..|es| - 1]);
      var (last, after) := Step(held, es[|es| - 1]);
      CountsAppend(before, last);
      StepEndRuns(held, es[|es| - 1]);
    }
  }

  /** Helper: the end action runs on one callback only if it was held, and
      is then no longer held. */
  lemma StepEndRuns<T>(action: Option<EventAction>, e: Event<T>)
    ensures EndRuns(Step(action, e).0) + EndActionCount(Step(action, e).1) <= EndActionCount(action)
  {
    var fx := Step(action, e).0;
    assert fx == [fx[0]] + fx[1..];
    CountsCons(fx[0], fx[1..]);
    if |fx| == 2 {
      assert fx[1..] == [fx[1]] + [];
      CountsCons(fx[1], []);
    }
  }

  /** Helper: the run of one more callback. */
  lemma ThroughSnoc<T>(action: Option<EventAction>, es: seq<Event<T>>, e: Event<T>)
    ensures Through(action, es + [e])
            == (Through(action, es).0 + Step(Through(action, es).1, e).0, Step(Through(action, es).1, e).1)
  {
    assert (es + [e])[..|es|] == es;
  }

  /** The disposer's `cancel` after a normal end runs the `doEnd` block a
      second time, now with `Cancel`: the accepter dropped only its own copy
      of the action. */
  lemma CancelAfterEndRunsTwice<T>(id: nat, v: T)
    ensures var (fx, _) := Through(Some(EndAction(id)), [Start, Call(v), End(Normal)]);
      EndRuns(fx + CancelEffects(Some(EndAction(id)))) == 2
  {
    var a := Some(EndAction(id));
    var none: seq<Event<T>> := [];
    ThroughSnoc(a, none, Start);
    ThroughSnoc(a, [Start], Call(v));
    ThroughSnoc(a, [Start, Call(v)], End(Normal));
    assert none + [Start] == [Start] && [Start] + [Call(v)] == [Start, Call(v)];
    assert [Start, Call(v)] + [End(Normal)] == [Start, Call(v), End(Normal)];
    var (fx, _) := Through(a, [Start, Call(v), End(Normal)]);
    var all := fx + CancelEffects<T>(a);
    assert all == [Received(Start)] + ([Received(Call(v))] + ([Received(End(Normal))]
                  + ([EndRan(id, Normal)] + ([EndRan(id, EndState.Cancel)] + []))));
    CountsCons<T>(EndRan(id, EndState.Cancel), []);
    CountsCons<T>(EndRan(id, Normal), [EndRan(id, EndState.Cancel)] + []);
    CountsCons<T>(Received(End(Normal)), [EndRan(id, Normal)] + ([EndRan(id, EndState.Cancel)] + []));
    CountsCons<T>(Received(Call(v)), [Received(End(Normal))] + ([EndRan(id, Normal)] + ([EndRan(id, EndState.Cancel)] + [])));
    CountsCons(Received(Start), [Received(Call(v))] + ([Received(End(Normal))]
                  + ([EndRan(id, Normal)] + ([EndRan(id, EndState.Cancel)] + []))));
  }

  /** With the corrected `cancel`, the end action runs at most once over a
      transmit and a cancel, whatever the upstream delivered. */
  lemma CancelRunsEndActionAtMostOnce<T>(action: Option<EventAction>, es: seq<Event<T>>)
    ensures var (fx, held) := Through(action, es);
      EndRuns(fx + CancelEffects(held)) <= 1
  {
    var (fx, held) := Through(action, es);
    EndActionOnce(action, es);
    CountsAppend(fx, CancelEffects<T>(held));
    var c := CancelEffects<T>(held);
    assert c == [] || c[1..] == [];
  }
}
