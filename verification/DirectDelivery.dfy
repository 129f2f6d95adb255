/** Event delivery written as plain recursion. */
module DirectDelivery {
  // Each handler's program is run in turn, with whatever it publishes inside it.  The machine does the
  // same, one step at a time.

  import opened EventMachine
  import opened Wrappers

  /** The dictionary and the marks that a piece of work leaves. */
  datatype Work = Work(registry: Registry, marks: seq<Mark>)

  /** Deliver an event to the handlers from position `i` on; `None` when the recursion gets deeper than
      `depth`. */
  function Deliver(code: Code, depth: nat, registry: Registry, event: Event, i: nat): Option<Work>
    decreases depth
  {
    if depth == 0 then None
    else if event.name !in registry || i >= |registry[event.name]| then Some(Work(registry, [Exit(event)]))
    else
      var handler := registry[event.name][i];
      match Perform(code, depth - 1, registry, handler, code(handler, event))
      case None => None
      case Some(first) =>
        match Deliver(code, depth - 1, first.registry, event, i + 1)
        case None => None
        case Some(others) => Some(Work(others.registry, [Call(handler)] + first.marks + others.marks))
  }

  /** Carry out a handler's program, up to its first exception. */
  function Perform(code: Code, depth: nat, registry: Registry, handler: Handler, program: seq<Action>): Option<Work>
    decreases depth
  {
    if depth == 0 then None
    else if |program| == 0 then Some(Work(registry, [Return(handler, false)]))
    else
      match program[0]
      case Raise => Some(Work(registry, [Return(handler, true)]))
      case Subscribe(name, other) =>
        var list := if name in registry then registry[name] else [];
        Perform(code, depth - 1, registry[name := list + [other]], handler, program[1..])
      case Publish(inner) =>
        match Deliver(code, depth - 1, registry, inner, 0)
        case None => None
        case Some(nested) =>
          match Perform(code, depth - 1, nested.registry, handler, program[1..])
          case None => None
          case Some(others) => Some(Work(others.registry, [Enter(inner)] + nested.marks + others.marks))
  }

  // ---------------------------------------------------------------- the recursion, step by step

  /** Where the recursion comes to an end, so does the machine, with the same work done. */
  lemma {:induction false} DeliverIsReached(code: Code, depth: nat, s: State, below: seq<Frame>, event: Event, i: nat)
    returns (n: nat)
    requires s.stack == below + [Delivering(event, i)]
    requires Deliver(code, depth, s.registry, event, i).Some?
    ensures var work := Deliver(code, depth, s.registry, event, i).value;
            Iter(code, s, n) == State(work.registry, below, s.trace + work.marks)
    decreases depth
  {
    hide Iter, Step;
    var list := Listeners(s.registry, event.name);
    IterOnce(code, s);
    DeliveryStep(code, s, below, event, i);
    n := 1;
    if i < |list| {
      var h := list[i];
      var at := Step(code, s);
      var rest := below + [Delivering(event, i + 1)];
      var first := Perform(code, depth - 1, s.registry, h, code(h, event)).value;
      var m := PerformIsReached(code, depth - 1, at, rest, h, event, code(h, event));
      IterAdd(code, s, n, m);
      n := n + m;
      var later := Iter(code, s, n);
      assert later == State(first.registry, rest, s.trace + [Call(h)] + first.marks);
      var others := Deliver(code, depth - 1, first.registry, event, i + 1).value;
      m := DeliverIsReached(code, depth - 1, later, below, event, i + 1);
      IterAdd(code, s, n, m);
      n := n + m;
      assert s.trace + [Call(h)] + first.marks + others.marks == s.trace + ([Call(h)] + first.marks + others.marks);
    }
  }

  lemma {:induction false} PerformIsReached(code: Code, depth: nat, s: State, below: seq<Frame>, h: Handler, e: Event,
                                            program: seq<Action>)
    returns (n: nat)
    requires s.stack == below + [Running(h, e, program)]
    requires Perform(code, depth, s.registry, h, program).Some?
    ensures var work := Perform(code, depth, s.registry, h, program).value;
            Iter(code, s, n) == State(work.registry, below, s.trace + work.marks)
    decreases depth
  {
    hide Iter, Step;
    IterOnce(code, s);
    HandlerStep(code, s, below, h, e, program);
    n := 1;
    if |program| > 0 && !program[0].Raise? {
      var rested := below + [Running(h, e, program[1..])];
      var later := Step(code, s);
      if program[0].Publish? {
        var inner := program[0].event;
        var nested := Deliver(code, depth - 1, s.registry, inner, 0).value;
        var m := DeliverIsReached(code, depth - 1, later, rested, inner, 0);
        IterAdd(code, s, n, m);
        n := n + m;
        later := Iter(code, s, n);
        assert later == State(nested.registry, rested, s.trace + [Enter(inner)] + nested.marks);
      }
      var others := Perform(code, depth - 1, later.registry, h, program[1..]).value;
      var m := PerformIsReached(code, depth - 1, later, below, h, e, program[1..]);
      IterAdd(code, s, n, m);
      n := n + m;
      if program[0].Publish? {
        var inner := program[0].event;
        var nested := Deliver(code, depth - 1, s.registry, inner, 0).value;
        assert s.trace + [Enter(inner)] + nested.marks + others.marks
            == s.trace + ([Enter(inner)] + nested.marks + others.marks);
      }
    }
  }

  lemma IterOnce(code: Code, s: State)
    ensures Iter(code, s, 1) == Step(code, s)
  {
    assert Iter(code, s, 1) == Iter(code, Step(code, s), 0);
  }

  lemma DeliveryStep(code: Code, s: State, below: seq<Frame>, event: Event, i: nat)
    requires s.stack == below + [Delivering(event, i)]
    ensures var list := Listeners(s.registry, event.name);
            Step(code, s)
            == if i < |list| then
                 State(s.registry,
                       below + [Delivering(event, i + 1)] + [Running(list[i], event, code(list[i], event))],
                       s.trace + [Call(list[i])])
               else State(s.registry, below, s.trace + [Exit(event)])
  {
    var list := Listeners(s.registry, event.name);
    assert s.stack[..|s.stack| - 1] == below;
    if i < |list| {
      assert below + [Delivering(event, i + 1), Running(list[i], event, code(list[i], event))]
          == below + [Delivering(event, i + 1)] + [Running(list[i], event, code(list[i], event))];
    }
  }

  lemma HandlerStep(code: Code, s: State, below: seq<Frame>, h: Handler, e: Event, program: seq<Action>)
    requires s.stack == below + [Running(h, e, program)]
    ensures Step(code, s)
         == if |program| == 0 then State(s.registry, below, s.trace + [Return(h, false)])
            else
              var rested := below + [Running(h, e, program[1..])];
              match program[0]
              case Subscribe(name, other) => State(Subscribed(s.registry, name, other), rested, s.trace)
              case Publish(inner) => State(s.registry, rested + [Delivering(inner, 0)], s.trace + [Enter(inner)])
              case Raise => State(s.registry, below, s.trace + [Return(h, true)])
  {
    assert s.stack[..|s.stack| - 1] == below;
  }

  // ---------------------------------------------------------------- single steps

  lemma NeedsAStep(code: Code, s: State, m: nat)
    requires Iter(code, s, m).stack == [] && s.stack != []
    ensures m > 0 && Iter(code, Step(code, s), m - 1) == Iter(code, s, m)
  {
    hide Step;
  }

  lemma CallsNext(code: Code, s: State, event: Event, i: nat, m: nat)
    requires s.stack == [Delivering(event, i)] && i < |Listeners(s.registry, event.name)|
    requires Iter(code, s, m).stack == []
    ensures m > 0
    ensures var h := Listeners(s.registry, event.name)[i];
            var running := State(s.registry, [Running(h, event, code(h, event))], s.trace + [Call(h)]);
            Iter(code, running.(stack := [Delivering(event, i + 1)] + running.stack), m - 1) == Iter(code, s, m)
  {
    hide Iter;
    NeedsAStep(code, s, m);
    var h := Listeners(s.registry, event.name)[i];
    assert [] + [Delivering(event, i + 1), Running(h, event, code(h, event))]
        == [Delivering(event, i + 1)] + [Running(h, event, code(h, event))];
  }

  lemma RunsNext(code: Code, s: State, h: Handler, event: Event, rest: seq<Action>, m: nat)
    requires s.stack == [Running(h, event, rest)] && |rest| > 0 && !rest[0].Raise?
    requires Iter(code, s, m).stack == []
    ensures m > 0
    ensures var below := [Running(h, event, rest[1..])];
            match rest[0]
            case Subscribe(name, other) =>
              Iter(code, State(Subscribed(s.registry, name, other), below, s.trace), m - 1) == Iter(code, s, m)
            case Publish(inner) =>
              var start := Start(s.registry, s.trace, inner);
              Iter(code, start.(stack := below + start.stack), m - 1) == Iter(code, s, m)
            case Raise => true
  {
    hide Iter;
    NeedsAStep(code, s, m);
    assert [] + [Running(h, event, rest[1..])] == [Running(h, event, rest[1..])];
  }

  lemma EndsDelivery(code: Code, registry: Registry, trace: seq<Mark>, event: Event, i: nat, m: nat)
    requires i >= |Listeners(registry, event.name)|
    requires Iter(code, State(registry, [Delivering(event, i)], trace), m).stack == []
    ensures Iter(code, State(registry, [Delivering(event, i)], trace), m)
         == State(registry, [], trace + [Exit(event)])
  {
    hide Iter;
    var s := State(registry, [Delivering(event, i)], trace);
    NeedsAStep(code, s, m);
    HaltedStays(code, Step(code, s), m - 1);
  }

  lemma ReturnsNow(code: Code, registry: Registry, trace: seq<Mark>, h: Handler, event: Event,
                   rest: seq<Action>, m: nat)
    requires |rest| == 0 || rest[0].Raise?
    requires Iter(code, State(registry, [Running(h, event, rest)], trace), m).stack == []
    ensures Iter(code, State(registry, [Running(h, event, rest)], trace), m)
         == State(registry, [], trace + [Return(h, |rest| > 0)])
  {
    hide Iter;
    var s := State(registry, [Running(h, event, rest)], trace);
    NeedsAStep(code, s, m);
    HaltedStays(code, Step(code, s), m - 1);
  }

  /** A part of the stack runs as if what lies below it were not there. */
  lemma StepAbove(code: Code, below: seq<Frame>, s: State)
    requires s.stack != []
    ensures Step(code, s.(stack := below + s.stack)) == Step(code, s).(stack := below + Step(code, s).stack)
  {
    var whole := below + s.stack;
    var inner := s.stack[..|s.stack| - 1];
    assert whole[..|whole| - 1] == below + inner;
    assert forall a: seq<Frame>, b: seq<Frame> :: below + (a + b) == (below + a) + b;
  }

  /** If the whole stack is emptied in `n` steps, then the part above `below` finishes on its own in
      `m` of them, leaving exactly `below`. */
  lemma {:induction false} FinishesFirst(code: Code, below: seq<Frame>, s: State, n: nat) returns (m: nat)
    requires Iter(code, s.(stack := below + s.stack), n).stack == []
    ensures m <= n && (below != [] ==> m < n)
    ensures Iter(code, s, m).stack == []
    ensures Iter(code, s.(stack := below + s.stack), m) == Iter(code, s, m).(stack := below)
    ensures Iter(code, Iter(code, s, m).(stack := below), n - m) == Iter(code, s.(stack := below + s.stack), n)
    decreases n
  {
    hide Step;
    if s.stack == [] {
      m := 0;
      assert below + s.stack == below;
    } else {
      StepAbove(code, below, s);
      m := FinishesFirst(code, below, Step(code, s), n - 1);
      m := m + 1;
    }
  }

  // ---------------------------------------------------------------- from the machine to the recursion

  lemma {:induction false} DeeperDeliver(code: Code, depth: nat, more: nat, registry: Registry, event: Event, i: nat)
    requires depth <= more && Deliver(code, depth, registry, event, i).Some?
    ensures Deliver(code, more, registry, event, i) == Deliver(code, depth, registry, event, i)
    decreases depth
  {
    if event.name in registry && i < |registry[event.name]| {
      var h := registry[event.name][i];
      DeeperPerform(code, depth - 1, more - 1, registry, h, code(h, event));
      var first := Perform(code, depth - 1, registry, h, code(h, event)).value;
      DeeperDeliver(code, depth - 1, more - 1, first.registry, event, i + 1);
    }
  }

  lemma {:induction false} DeeperPerform(code: Code, depth: nat, more: nat, registry: Registry, h: Handler,
                                         program: seq<Action>)
    requires depth <= more && Perform(code, depth, registry, h, program).Some?
    ensures Perform(code, more, registry, h, program) == Perform(code, depth, registry, h, program)
    decreases depth
  {
    if |program| > 0 {
      match program[0]
      case Raise =>
      case Subscribe(name, other) =>
        var list := if name in registry then registry[name] else [];
        DeeperPerform(code, depth - 1, more - 1, registry[name := list + [other]], h, program[1..]);
      case Publish(inner) =>
        DeeperDeliver(code, depth - 1, more - 1, registry, inner, 0);
        var nested := Deliver(code, depth - 1, registry, inner, 0).value;
        DeeperPerform(code, depth - 1, more - 1, nested.registry, h, program[1..]);
    }
  }

  /** A delivery that the machine finishes within `n` steps is no deeper than that as a recursion. */
  lemma {:induction false} DeliverComes(code: Code, registry: Registry, trace: seq<Mark>, event: Event, i: nat, n: nat)
    requires Iter(code, State(registry, [Delivering(event, i)], trace), n).stack == []
    ensures Deliver(code, n + 1, registry, event, i).Some?
    decreases n
  {
    hide Iter, Step;
    var list := Listeners(registry, event.name);
    if i < |list| {
      var s, h, below := State(registry, [Delivering(event, i)], trace), list[i], [Delivering(event, i + 1)];
      var running := State(registry, [Running(h, event, code(h, event))], trace + [Call(h)]);
      CallsNext(code, s, event, i, n);
      var m := FinishesFirst(code, below, running, n - 1);
      PerformComes(code, registry, trace + [Call(h)], h, event, code(h, event), m);
      var k := PerformIsReached(code, m + 1, running, [], h, event, code(h, event));
      var first := Perform(code, m + 1, registry, h, code(h, event)).value;
      SameEnd(code, running, m, k);
      DeeperPerform(code, m + 1, n, registry, h, code(h, event));
      DeliverComes(code, first.registry, Iter(code, running, m).trace, event, i + 1, n - 1 - m);
      DeeperDeliver(code, n - m, n, first.registry, event, i + 1);
    }
  }

  lemma {:induction false} PerformComes(code: Code, registry: Registry, trace: seq<Mark>, h: Handler, e: Event,
                                        program: seq<Action>, n: nat)
    requires Iter(code, State(registry, [Running(h, e, program)], trace), n).stack == []
    ensures Perform(code, n + 1, registry, h, program).Some?
    decreases n
  {
    hide Iter, Step;
    if |program| > 0 && !program[0].Raise? {
      var s, below := State(registry, [Running(h, e, program)], trace), [Running(h, e, program[1..])];
      RunsNext(code, s, h, e, program, n);
      if program[0].Publish? {
        var inner := program[0].event;
        var start := Start(registry, trace, inner);
        var m := FinishesFirst(code, below, start, n - 1);
        DeliverComes(code, registry, trace + [Enter(inner)], inner, 0, m);
        var k := DeliverIsReached(code, m + 1, start, [], inner, 0);
        var nested := Deliver(code, m + 1, registry, inner, 0).value;
        SameEnd(code, start, m, k);
        DeeperDeliver(code, m + 1, n, registry, inner, 0);
        PerformComes(code, nested.registry, Iter(code, start, m).trace, h, e, program[1..], n - 1 - m);
        DeeperPerform(code, n - m, n, nested.registry, h, program[1..]);
      } else {
        PerformComes(code, Subscribed(registry, program[0].name, program[0].handler), trace, h, e, program[1..], n - 1);
      }
    }
  }

  /** A run has one end. */
  lemma SameEnd(code: Code, s: State, m: nat, n: nat)
    requires Iter(code, s, m).stack == [] && Iter(code, s, n).stack == []
    ensures Iter(code, s, m) == Iter(code, s, n)
  {
    if m <= n {
      IterAdd(code, s, m, n - m);
      HaltedStays(code, Iter(code, s, m), n - m);
    } else {
      IterAdd(code, s, n, m - n);
      HaltedStays(code, Iter(code, s, n), m - n);
    }
  }

  /** What a publication leaves, as the recursion has it. */
  ghost predicate Delivers(code: Code, registry: Registry, event: Event, work: Work) {
    exists depth: nat :: Deliver(code, depth, registry, event, 0) == Some(work)
  }

  /** The machine and the recursion agree: a publication ends, in this state, if and only if the recursion
      ends, with this work. */
  lemma DeliveryIsRecursion(code: Code, registry: Registry, trace: seq<Mark>, event: Event, work: Work)
    ensures (exists n: nat :: Iter(code, Start(registry, trace, event), n)
                              == State(work.registry, [], trace + [Enter(event)] + work.marks))
            <==> Delivers(code, registry, event, work)
  {
    hide Iter, Deliver;
    var start := Start(registry, trace, event);
    if depth: nat :| Deliver(code, depth, registry, event, 0) == Some(work) {
      var n := DeliverIsReached(code, depth, start, [], event, 0);
      assert Iter(code, start, n) == State(work.registry, [], trace + [Enter(event)] + work.marks);
    }
    if n: nat :| Iter(code, start, n) == State(work.registry, [], trace + [Enter(event)] + work.marks) {
      var found := EndedIsDelivered(code, registry, trace, event, n);
      SameMarks(trace + [Enter(event)], found.marks, work.marks);
      assert found == work;
    }
  }

  /** A publication that ends leaves what the recursion says. */
  lemma EndedIsDelivered(code: Code, registry: Registry, trace: seq<Mark>, event: Event, n: nat) returns (work: Work)
    requires Iter(code, Start(registry, trace, event), n).stack == []
    ensures Delivers(code, registry, event, work)
    ensures Iter(code, Start(registry, trace, event), n)
         == State(work.registry, [], trace + [Enter(event)] + work.marks)
  {
    hide Iter, Deliver;
    var start := Start(registry, trace, event);
    DeliverComes(code, registry, trace + [Enter(event)], event, 0, n);
    work := Deliver(code, n + 1, registry, event, 0).value;
    var m := DeliverIsReached(code, n + 1, start, [], event, 0);
    SameEnd(code, start, m, n);
  }

  lemma SameMarks(trace: seq<Mark>, a: seq<Mark>, b: seq<Mark>)
    requires trace + a == trace + b
    ensures a == b
  {
    assert a == (trace + a)[|trace|..] && b == (trace + b)[|trace|..];
  }
}
