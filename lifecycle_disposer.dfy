/** `LifecycleDisposer` (disposer/.../lemon/http/disposer/impl/LifecycleDisposer.kt):
    `bindLifecycle(lifecycle, event)` registers an observer that cancels the
    pipeline when the UI lifecycle reaches `event`; the downstream accepter
    is let go after its first end, and the observer is removed on a normal
    end or on cancel. The UI thread is taken to run its blocks at once. */
module LifecycleDisposers {
  import opened Wrappers
  import opened Events

  /** `Lifecycle.Event`. */
  datatype LifecycleEvent = OnCreate | OnStart | OnResume | OnPause | OnStop | OnDestroy | OnAny

  /** An androidx `Lifecycle`, by the observers registered with it. */
  class Lifecycle {
    var observers: set<object>

    constructor()
      ensures observers == {}
    {
      observers := {};
    }

    method AddObserver(o: object)
      modifies this
      ensures observers == old(observers) + {o}
    {
      observers := observers + {o};
    }

    method RemoveObserver(o: object)
      modifies this
      ensures observers == old(observers) - {o}
    {
      observers := observers - {o};
    }
  }

  function LifecycleFrame(l: Option<Lifecycle>): set<object> {
    if l.Some? then {l.value} else {}
  }

  function JournalFrame<T>(j: Option<Journal<T>>): set<object> {
    if j.Some? then {j.value} else {}
  }

  function SourceFrame<T>(s: Option<Source<T>>): set<object> {
    if s.Some? then {s.value} else {}
  }

  /** One upstream callback reaching a `LifecycleAccepter`, attached to its
      downstream or not: what the application sees, and whether it is
      still attached afterwards. */
  function LifeStep<T>(attached: bool, e: Event<T>): (seq<Effect<T>>, bool) {
    (if attached then [Received(e)] else [], attached && !e.End?)
  }

  function LifeThrough<T>(attached: bool, es: seq<Event<T>>): (seq<Effect<T>>, bool)
    decreases |es|
  {
    if es == [] then ([], attached)
    else
      var (before, still) := LifeThrough(attached, es[..|es| - 1]);
      var (last, after) := LifeStep(still, es[|es| - 1]);
      (before + last, after)
  }

  /** Helper: the run of one more callback. */
  lemma LifeThroughSnoc<T>(attached: bool, es: seq<Event<T>>, e: Event<T>)
    ensures LifeThrough(attached, es + [e])
            == (LifeThrough(attached, es).0 + LifeStep(LifeThrough(attached, es).1, e).0, LifeStep(LifeThrough(attached, es).1, e).1)
  {
    assert (es + [e])[..|es|] == es;
  }

  class UiLifecycleObserver<T> {
    var lifecycleDisposer: Option<LifecycleDisposer<T>>
    const bindEvent: LifecycleEvent

    constructor(bindEvent: LifecycleEvent)
      ensures this.bindEvent == bindEvent && lifecycleDisposer.None?
    {
      this.bindEvent := bindEvent;
      lifecycleDisposer := None;
    }

    /** `eventOnChange(owner, event)`: on the bound event the disposer is
        cancelled and let go, so that it is cancelled at most once; any
        other event changes nothing. */
    method EventOnChange(event: LifecycleEvent)
      requires lifecycleDisposer.Some? ==> lifecycleDisposer.value.Valid()
      modifies this, if lifecycleDisposer.Some? then lifecycleDisposer.value.CancelFrame() else {}
      ensures event != bindEvent ==> lifecycleDisposer == old(lifecycleDisposer)
      ensures event != bindEvent && old(lifecycleDisposer).Some? ==> unchanged(old(lifecycleDisposer).value)
      ensures event == bindEvent ==> lifecycleDisposer.None?
      ensures event == bindEvent && old(lifecycleDisposer).Some? ==>
        var d := old(lifecycleDisposer).value;
        d.disposer.None? && d.lifecycle.None? && d.lifecycleAccepter.None?
    {
      if event == bindEvent {
        if lifecycleDisposer.Some? {
          lifecycleDisposer.value.Cancel();
        }
        lifecycleDisposer := None;
      }
    }
  }

  class LifecycleAccepter<T> {
    /** The enclosing disposer (an inner class in the source). */
    const outer: LifecycleDisposer<T>
    var accepter: Option<Journal<T>>

    constructor(outer: LifecycleDisposer<T>, accepter: Journal<T>)
      ensures this.outer == outer && this.accepter == Some(accepter)
    {
      this.outer := outer;
      this.accepter := Some(accepter);
    }

    /** `call`, `onStart`, `onError`: passed on while attached. */
    method Pass(e: Event<T>)
      requires !e.End?
      modifies JournalFrame(accepter)
      ensures accepter.Some? ==> accepter.value.effects == old(accepter.value.effects) + [Received(e)]
    {
      if accepter.Some? {
        accepter.value.effects := accepter.value.effects + [Received(e)];
      }
    }

    /** `onEnd(endState)`: passed on while attached; a normal end removes
        the observer; then the downstream is let go. */
    method OnEnd(endState: EndState)
      modifies this, JournalFrame(accepter), outer, LifecycleFrame(outer.lifecycle)
      ensures accepter.None?
      ensures old(accepter).Some? ==>
        old(accepter).value.effects == old(accepter.value.effects) + [Received(End(endState))]
      ensures outer.disposer == old(outer.disposer) && outer.lifecycleAccepter == old(outer.lifecycleAccepter)
      ensures endState == Normal ==> outer.lifecycle.None?
      ensures endState == Normal && old(outer.lifecycle).Some? ==>
        old(outer.lifecycle).value.observers == old(outer.lifecycle.value.observers) - {outer.lifecycleObserver}
      ensures endState != Normal ==> outer.lifecycle == old(outer.lifecycle)
      ensures endState != Normal && old(outer.lifecycle).Some? ==> unchanged(old(outer.lifecycle).value)
    {
      if accepter.Some? {
        accepter.value.effects := accepter.value.effects + [Received(End(endState))];
      }
      if endState == Normal {
        outer.RemoveObserver();
      }
      accepter := None;
    }

    /** The upstream invoking the callback that `e` names; a normal end
        moves the observer from where it stood (given as `removed`, `l0`
        and `obs0`) to removed. */
    method Accept(e: Event<T>, ghost removed: bool, ghost l0: Option<Lifecycle>, ghost obs0: set<object>)
      requires outer.ObserverState(removed, l0, obs0)
      modifies this, JournalFrame(accepter), outer, LifecycleFrame(outer.lifecycle)
      ensures (accepter.Some?) == LifeStep(old(accepter).Some?, e).1
      ensures accepter.Some? ==> accepter == old(accepter)
      ensures old(accepter).Some? ==>
        old(accepter).value.effects == old(accepter.value.effects) + LifeStep(true, e).0
      ensures outer.disposer == old(outer.disposer) && outer.lifecycleAccepter == old(outer.lifecycleAccepter)
      ensures outer.ObserverState(removed || e == End(Normal), l0, obs0)
    {
      if e.End? {
        OnEnd(e.state);
      } else {
        Pass(e);
      }
    }
  }

  class LifecycleDisposer<T> {
    var disposer: Option<Source<T>>
    var lifecycle: Option<Lifecycle>
    const lifecycleObserver: UiLifecycleObserver<T>
    var lifecycleAccepter: Option<LifecycleAccepter<T>>

    /** The kept accepter belongs to this disposer. */
    ghost predicate Valid()
      reads this
    {
      lifecycleAccepter.Some? ==> lifecycleAccepter.value.outer == this
    }

    /** Where the observer stands against the lifecycle `l0` that first
        held it with the observers `obs0`: removed, or still as it was. */
    ghost predicate ObserverState(removed: bool, l0: Option<Lifecycle>, obs0: set<object>)
      reads this, LifecycleFrame(l0)
    {
      if removed then lifecycle.None? && (l0.Some? ==> l0.value.observers == obs0 - {lifecycleObserver})
      else lifecycle == l0 && (l0.Some? ==> l0.value.observers == obs0)
    }

    /** The objects `cancel` may touch. */
    ghost function CancelFrame(): set<object>
      reads this, if lifecycleAccepter.Some? then {lifecycleAccepter.value} else {}
    {
      {this} + LifecycleFrame(lifecycle) + SourceFrame(disposer)
      + (if lifecycleAccepter.Some? then {lifecycleAccepter.value} + JournalFrame(lifecycleAccepter.value.accepter) else {})
    }

    /** The constructor and `init`: the observer is made for this disposer
        and registered with the lifecycle. */
    constructor(disposer: Option<Source<T>>, lifecycle: Option<Lifecycle>, bindEvent: LifecycleEvent)
      modifies LifecycleFrame(lifecycle)
      ensures this.disposer == disposer && this.lifecycle == lifecycle && lifecycleAccepter.None? && Valid()
      ensures fresh(lifecycleObserver) && lifecycleObserver.bindEvent == bindEvent
      ensures lifecycleObserver.lifecycleDisposer == Some(this)
      ensures lifecycle.Some? ==> lifecycle.value.observers == old(lifecycle.value.observers) + {lifecycleObserver}
    {
      this.disposer := disposer;
      this.lifecycle := lifecycle;
      lifecycleObserver := new UiLifecycleObserver(bindEvent);
      lifecycleAccepter := None;
      new;
      lifecycleObserver.lifecycleDisposer := Some(this);
      if lifecycle.Some? {
        lifecycle.value.AddObserver(lifecycleObserver);
      }
    }

    /** `removeObserver()`. */
    method RemoveObserver()
      modifies this, LifecycleFrame(lifecycle)
      ensures lifecycle.None? && disposer == old(disposer) && lifecycleAccepter == old(lifecycleAccepter)
      ensures old(lifecycle).Some? ==>
        old(lifecycle).value.observers == old(lifecycle.value.observers) - {lifecycleObserver}
    {
      if lifecycle.Some? {
        lifecycle.value.RemoveObserver(lifecycleObserver);
      }
      lifecycle := None;
    }

    /** `transmit(accepter)`: while the upstream exists, a new
        `LifecycleAccepter` is kept and the upstream transmits to it. */
    method Transmit(down: Journal<T>)
      requires Valid()
      modifies this, down, LifecycleFrame(lifecycle)
      ensures disposer == old(disposer) && Valid()
      ensures disposer.None? ==>
        down.effects == old(down.effects) && lifecycleAccepter == old(lifecycleAccepter)
        && ObserverState(false, old(lifecycle), old(if lifecycle.Some? then lifecycle.value.observers else {}))
      ensures disposer.Some? ==>
        var es := disposer.value.Delivers();
        var (fx, attached) := LifeThrough(true, es);
        down.effects == old(down.effects) + fx
        && lifecycleAccepter.Some? && fresh(lifecycleAccepter.value)
        && (lifecycleAccepter.value.accepter.Some? <==> attached)
        && (attached ==> lifecycleAccepter.value.accepter == Some(down))
        && ObserverState(End(Normal) in es, old(lifecycle), old(if lifecycle.Some? then lifecycle.value.observers else {}))
    {
      ghost var l0 := lifecycle;
      ghost var obs0 := if lifecycle.Some? then lifecycle.value.observers else {};
      if disposer.Some? {
        var es := disposer.value.Delivers();
        var acc := new LifecycleAccepter(this, down);
        lifecycleAccepter := Some(acc);
        var i := 0;
        ghost var removed := false;
        while i < |es|
          invariant 0 <= i <= |es|
          invariant disposer == old(disposer) && lifecycleAccepter == Some(acc) && acc.outer == this
          invariant down.effects == old(down.effects) + LifeThrough(true, es[..i]).0
          invariant (acc.accepter.Some? <==> LifeThrough(true, es[..i]).1)
          invariant acc.accepter.Some? ==> acc.accepter == Some(down)
          invariant removed == (End(Normal) in es[..i])
          invariant ObserverState(removed, l0, obs0)
        {
          assert es[..i + 1] == es[..i] + [es[i]];
          LifeThroughSnoc(true, es[..i], es[i]);
          acc.Accept(es[i], removed, l0, obs0);
          removed := removed || es[i] == End(Normal);
          i := i + 1;
        }
        assert es[..|es|] == es;
      }
    }

    /** `cancel()`: the observer is removed, the kept accepter is ended with
        `Cancel` and let go, and the upstream is cancelled and let go. */
    method Cancel()
      requires Valid()
      modifies CancelFrame()
      ensures disposer.None? && lifecycle.None? && lifecycleAccepter.None?
      ensures old(disposer).Some? ==> old(disposer).value.cancelled
      ensures old(lifecycle).Some? ==>
        old(lifecycle).value.observers == old(lifecycle.value.observers) - {lifecycleObserver}
      ensures old(lifecycleAccepter).Some? ==> old(lifecycleAccepter).value.accepter.None?
      ensures old(lifecycleAccepter).Some? && old(lifecycleAccepter.value.accepter).Some? ==>
        var j := old(lifecycleAccepter.value.accepter).value;
        j.effects == old(j.effects) + [Received(End(EndState.Cancel))]
    {
      RemoveObserver();
      if lifecycleAccepter.Some? {
        lifecycleAccepter.value.OnEnd(EndState.Cancel);
      }
      lifecycleAccepter := None;
      if disposer.Some? {
        disposer.value.Cancel();
      }
      disposer := None;
    }
  }

  // -----------------------------------------------------------------------
  // Properties

  /** Whatever the upstream delivers, the application receives at most one
      end, and none while the accepter is still attached. */
  lemma {:induction false} AtMostOneEnd<T>(es: seq<Event<T>>)
    ensures var (fx, attached) := LifeThrough(true, es);
      Ends(fx) <= 1 && (attached ==> Ends(fx) == 0)
    decreases |es|
  {
    if es != [] {
      var (before, still) := LifeThrough(true, es[..|es| - 1]);
      AtMostOneEnd(es[..|es| - 1]);
      var e := es[|es| - 1];
      CountsAppend(before, LifeStep(still, e).0);
      if still {
        CountsCons(Received(e), []);
        assert [Received(e)] + [] == LifeStep(still, e).0;
      }
    }
  }

  /** A cancel after any transmit adds an end only while the accepter is
      attached, so over both the application still sees at most one end;
      a second cancel finds no accepter and adds none. */
  lemma EndOnceWithCancel<T>(es: seq<Event<T>>)
    ensures var (fx, attached) := LifeThrough(true, es);
      Ends(fx + (if attached then [Received(End(EndState.Cancel))] else [])) <= 1
  {
    var (fx, attached) := LifeThrough(true, es);
    AtMostOneEnd(es);
    var c: seq<Effect<T>> := if attached then [Received(End(EndState.Cancel))] else [];
    CountsAppend(fx, c);
    if attached {
      CountsCons<T>(Received(End(EndState.Cancel)), []);
      assert [Received(End(EndState.Cancel))] + [] == c;
    }
  }

  /** Cancelling twice: the downstream receives `onEnd(Cancel)` from the
      first cancel only. */
  method CancelTwice<T>(d: LifecycleDisposer<T>, down: Journal<T>)
    requires d.lifecycleAccepter.Some? && d.lifecycleAccepter.value.accepter == Some(down)
    requires d.lifecycleAccepter.value.outer == d
    modifies d.CancelFrame()
    ensures down.effects == old(down.effects) + [Received(End(EndState.Cancel))]
  {
    d.Cancel();
    d.Cancel();
  }
}
