/** The publisher object: `subscribe` and `publish` over a mutable dictionary of lists, with the
    handlers' effects carried out on the same object. */
module DomainEventPublisher {
  import opened DirectDelivery
  import opened EventMachine
  import opened Wrappers

  class DomainEventPublisher {
    var handlers: Registry
    /** What has been called so far, for specification only. */
    ghost var trace: seq<Mark>

    constructor ()
      ensures handlers == map[] && trace == []
    {
      handlers := map[];
      trace := [];
    }

    method Subscribe(name: string, handler: Handler)
      modifies this
      ensures handlers == Subscribed(old(handlers), name, handler)
      ensures Listeners(handlers, name) == Listeners(old(handlers), name) + [handler]
      ensures forall other :: other != name ==> Listeners(handlers, other) == Listeners(old(handlers), other)
      ensures trace == old(trace)
    {
      if name !in handlers {
        handlers := handlers[name := []];
      }
      handlers := handlers[name := handlers[name] + [handler]];
    }

    /** Publish an event.  The one demand is that the publication comes to an end, after `n` steps
        of the delivery machine; then the object is left in the machine's final state, which is what the
        recursion over handlers and their programs leaves. */
    method Publish(code: Code, event: Event, ghost n: nat) returns (published: Event)
      requires Iter(code, Start(handlers, trace, event), n).stack == []
      modifies this
      ensures published == event
      ensures State(handlers, [], trace) == Iter(code, Start(old(handlers), old(trace), event), n)
      ensures exists marks :: && Delivers(code, old(handlers), event, Work(handlers, marks))
                              && trace == old(trace) + [Enter(event)] + marks
      decreases n, 1
    {
      hide Iter, Delivers;
      ghost var start := Start(handlers, trace, event);
      ghost var work := EndedIsDelivered(code, handlers, trace, event, n);
      published := event;
      trace := trace + [Enter(event)];
      ghost var m: nat := n;
      if event.name in handlers {
        var i := 0;
        while i < |Listeners(handlers, event.name)|
          invariant m <= n
          invariant event.name in handlers
          invariant Iter(code, State(handlers, [Delivering(event, i)], trace), m) == Iter(code, start, n)
          decreases m
        {
          var handler := handlers[event.name][i];
          ghost var s := State(handlers, [Delivering(event, i)], trace);
          ghost var below := [Delivering(event, i + 1)];
          ghost var running :=
            State(handlers, [Running(handler, event, code(handler, event))], trace + [Call(handler)]);
          CallsNext(code, s, event, i, m);
          ghost var m' := FinishesFirst(code, below, running, m - 1);
          trace := trace + [Call(handler)];
          var raised := Handle(code, handler, event, m');
          // a raised exception is logged and otherwise ignored
          i := i + 1;
          m := m - 1 - m';
          KeepsEvent(code, running, m', event.name);
          assert State(handlers, [Delivering(event, i)], trace) == Iter(code, running, m').(stack := below);
        }
        EndsDelivery(code, handlers, trace, event, i, m);
      } else {
        EndsDelivery(code, handlers, trace, event, 0, m);
      }
      trace := trace + [Exit(event)];
      assert State(handlers, [], trace) == Iter(code, start, n);
    }

    /** Run one handler on an event: its program acts on this very publisher. */
    method Handle(code: Code, handler: Handler, event: Event, ghost n: nat) returns (raised: bool)
      requires Iter(code, State(handlers, [Running(handler, event, code(handler, event))], trace), n).stack == []
      modifies this
      ensures State(handlers, [], trace)
           == Iter(code, State(old(handlers), [Running(handler, event, code(handler, event))], old(trace)), n)
      ensures raised <==> exists i :: 0 <= i < |code(handler, event)| && code(handler, event)[i].Raise?
      ensures |trace| > 0 && trace[|trace| - 1] == Return(handler, raised)
      decreases n, 0
    {
      hide Iter;
      ghost var start := State(handlers, [Running(handler, event, code(handler, event))], trace);
      var rest := code(handler, event);
      ghost var m: nat := n;
      ghost var done: nat := 0;
      raised := false;
      while |rest| > 0 && !rest[0].Raise?
        invariant m <= n
        invariant done <= |code(handler, event)| && rest == code(handler, event)[done..]
        invariant forall i :: 0 <= i < done ==> !code(handler, event)[i].Raise?
        invariant Iter(code, State(handlers, [Running(handler, event, rest)], trace), m) == Iter(code, start, n)
        decreases |rest|
      {
        ghost var s := State(handlers, [Running(handler, event, rest)], trace);
        ghost var below := [Running(handler, event, rest[1..])];
        RunsNext(code, s, handler, event, rest, m);
        if rest[0].Subscribe? {
          Subscribe(rest[0].name, rest[0].handler);
          m := m - 1;
        } else {
          ghost var inner := Start(handlers, trace, rest[0].event);
          ghost var m' := FinishesFirst(code, below, inner, m - 1);
          var _ := Publish(code, rest[0].event, m');
          m := m - 1 - m';
          assert State(handlers, below, trace) == Iter(code, inner, m').(stack := below);
        }
        rest := rest[1..];
        done := done + 1;
      }
      raised := |rest| > 0;
      assert raised ==> rest[0] == code(handler, event)[done];
      ReturnsNow(code, handlers, trace, handler, event, rest, m);
      trace := trace + [Return(handler, raised)];
    }
  }

  /** A list once present stays present. */
  lemma {:induction false} KeepsEvent(code: Code, s: State, n: nat, name: string)
    requires name in s.registry
    ensures name in Iter(code, s, n).registry
    decreases n
  {
    if n > 0 {
      KeepsEvent(code, Step(code, s), n - 1, name);
    }
  }
}
