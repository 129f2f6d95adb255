/** What the delivery machine guarantees over whole runs. */
module DeliveryTheorems {
  // Late subscribers are called, when a publication terminates, when it cannot, and how plain handlers
  // behave.

  import opened EventMachine
  import opened Wrappers

  // ---------------------------------------------------------------- live lists

  lemma StepExtends(code: Code, s: State)
    ensures Extends(s.registry, Step(code, s).registry)
    ensures forall name :: |Listeners(Step(code, s).registry, name)| <= |Listeners(s.registry, name)| + 1
  {
  }

  lemma {:induction false} ListsOnlyGrow(code: Code, s: State, n: nat)
    ensures Extends(s.registry, Iter(code, s, n).registry)
    ensures forall name :: |Listeners(Iter(code, s, n).registry, name)| <= |Listeners(s.registry, name)| + n
    decreases n
  {
    hide Step;
    if n > 0 {
      StepExtends(code, s);
      ListsOnlyGrow(code, Step(code, s), n - 1);
      forall name
        ensures Listeners(s.registry, name) <= Listeners(Iter(code, s, n).registry, name)
        ensures |Listeners(Iter(code, s, n).registry, name)| <= |Listeners(s.registry, name)| + n
      {
        assert Listeners(s.registry, name) <= Listeners(Step(code, s).registry, name);
      }
    }
  }

  /** A delivery is about to end: the innermost frame has walked off the end of its live list. */
  ghost predicate Ending(s: State, event: Event) {
    && |s.stack| > 0
    && s.stack[|s.stack| - 1].Delivering?
    && s.stack[|s.stack| - 1].event == event
    && s.stack[|s.stack| - 1].next >= |Listeners(s.registry, event.name)|
  }

  /** When a delivery ends, the handlers it has called are exactly the listeners of its event at
      that moment, in order and with multiplicity. */
  lemma DeliveryCallsWholeList(code: Code, registry: Registry, event: Event, n: nat, inner: Event)
    requires Ending(Iter(code, Start(registry, [], event), n), inner)
    ensures var s := Iter(code, Start(registry, [], event), n);
            && Step(code, s).trace == s.trace + [Exit(inner)]
            && Replay(s.trace).Some?
            && |Replay(s.trace).value| == |s.stack|
            && Replay(s.trace).value[|s.stack| - 1] == InDelivery(inner, Listeners(s.registry, inner.name))
  {
    hide Replay, Iter, Start;
    DeliveriesAreBracketed(code, registry, event, n);
    var s := Iter(code, Start(registry, [], event), n);
    assert FrameOk(s.registry, s.stack[|s.stack| - 1]);
    var list := Listeners(s.registry, inner.name);
    assert list[..|list|] == list;
  }

  /** A handler that is subscribed while an event is being delivered is called by that delivery:
      every delivery of `inner` that ends after step `m` has called, in its place, each handler that
      was subscribed to it by then. */
  lemma LateSubscriberIsCalled(code: Code, registry: Registry, event: Event, m: nat, n: nat, inner: Event, p: nat)
    requires m <= n && Ending(Iter(code, Start(registry, [], event), n), inner)
    requires p < |Listeners(Iter(code, Start(registry, [], event), m).registry, inner.name)|
    ensures var s := Iter(code, Start(registry, [], event), n);
            && Replay(s.trace).Some?
            && |Replay(s.trace).value| == |s.stack|
            && var delivery := Replay(s.trace).value[|s.stack| - 1];
            && delivery.InDelivery? && delivery.event == inner
            && p < |delivery.called|
            && delivery.called[p] == Listeners(Iter(code, Start(registry, [], event), m).registry, inner.name)[p]
  {
    hide Replay, Iter, Start, Step, Ending;
    DeliveryCallsWholeList(code, registry, event, n, inner);
    var s := Start(registry, [], event);
    IterAdd(code, s, m, n - m);
    ListsOnlyGrow(code, Iter(code, s, m), n - m);
    assert Listeners(Iter(code, s, m).registry, inner.name) <= Listeners(Iter(code, s, n).registry, inner.name);
  }

  /** A publication that terminates leaves a properly closed trace. */
  lemma FinishedTraceIsClosed(code: Code, registry: Registry, event: Event, n: nat)
    requires Iter(code, Start(registry, [], event), n).stack == []
    ensures Replay(Iter(code, Start(registry, [], event), n).trace) == Some([])
  {
    hide Replay, Iter, Start;
    DeliveriesAreBracketed(code, registry, event, n);
  }

  // ---------------------------------------------------------------- termination

  /** While an event is handled, only events of lower rank are published. */
  ghost predicate RankDecreases(code: Code, rank: string -> nat) {
    forall h: Handler, e: Event, i ::
      0 <= i < |code(h, e)| && code(h, e)[i].Publish? ==> rank(code(h, e)[i].event.name) < rank(e.name)
  }

  /** No list ever grows by more than `b` entries over what it held in `base`. */
  ghost predicate GrowthBounded(code: Code, s: State, base: Registry, b: nat) {
    forall n: nat, name: string ::
      |Listeners(Iter(code, s, n).registry, name)| <= |Listeners(base, name)| + b
  }

  lemma GrowthBoundedLater(code: Code, s: State, base: Registry, b: nat, m: nat)
    requires GrowthBounded(code, s, base, b)
    ensures GrowthBounded(code, Iter(code, s, m), base, b)
  {
    hide Iter, Listeners;
    forall n: nat, name: string
      ensures |Listeners(Iter(code, Iter(code, s, m), n).registry, name)| <= |Listeners(base, name)| + b
    {
      IterAdd(code, s, m, n);
    }
  }

  lemma StepThenIter(code: Code, s: State, n: nat)
    ensures Iter(code, s, n + 1) == Iter(code, Step(code, s), n)
    ensures Iter(code, s, 1) == Step(code, s)
  {
    hide Step;
    assert Iter(code, Step(code, s), 0) == Step(code, s);
  }

  lemma {:induction false} DeliveryReturns(code: Code, rank: string -> nat, base: Registry, b: nat,
                                           s: State, below: seq<Frame>, e: Event, i: nat) returns (n: nat)
    requires RankDecreases(code, rank) && GrowthBounded(code, s, base, b)
    requires s.stack == below + [Delivering(e, i)]
    ensures Iter(code, s, n).stack == below
    decreases rank(e.name), |Listeners(base, e.name)| + b - i, 0, 0
  {
    hide Iter, RankDecreases;
    var list := Listeners(s.registry, e.name);
    var s1 := Step(code, s);
    assert s.stack[..|s.stack| - 1] == below;
    StepThenIter(code, s, 0);
    if i >= |list| {
      return 1;
    }
    assert |list| <= |Listeners(base, e.name)| + b by {
      IterZero(code, s);
      assert |Listeners(Iter(code, s, 0).registry, e.name)| <= |Listeners(base, e.name)| + b;
    }
    hide GrowthBounded;
    var h := list[i];
    GrowthBoundedLater(code, s, base, b, 1);
    assert s1.stack == (below + [Delivering(e, i + 1)]) + [Running(h, e, code(h, e))];
    CodeRanked(code, rank, h, e);
    var n1 := HandlerReturns(code, rank, base, b, s1, below + [Delivering(e, i + 1)], h, e, code(h, e),
                             |Listeners(base, e.name)| + b - (i + 1));
    var s2 := Iter(code, s1, n1);
    GrowthBoundedLater(code, s1, base, b, n1);
    var n2 := DeliveryReturns(code, rank, base, b, s2, below, e, i + 1);
    IterAdd(code, s1, n1, n2);
    StepThenIter(code, s, n1 + n2);
    n := n1 + n2 + 1;
  }

  lemma IterZero(code: Code, s: State)
    ensures Iter(code, s, 0) == s
  {
  }

  lemma CodeRanked(code: Code, rank: string -> nat, h: Handler, e: Event)
    requires RankDecreases(code, rank)
    ensures PublishesBelow(code(h, e), rank, rank(e.name))
  {
  }

  ghost predicate PublishesBelow(actions: seq<Action>, rank: string -> nat, r: nat) {
    forall i :: 0 <= i < |actions| && actions[i].Publish? ==> rank(actions[i].event.name) < r
  }

  lemma {:induction false} HandlerReturns(code: Code, rank: string -> nat, base: Registry, b: nat, s: State,
                                          below: seq<Frame>, h: Handler, e: Event, rest: seq<Action>, left: nat)
    returns (n: nat)
    requires RankDecreases(code, rank) && GrowthBounded(code, s, base, b)
    requires s.stack == below + [Running(h, e, rest)] && PublishesBelow(rest, rank, rank(e.name))
    ensures Iter(code, s, n).stack == below
    decreases rank(e.name), left, 1, |rest|
  {
    hide Iter, RankDecreases, GrowthBounded, Listeners;
    var s1 := Step(code, s);
    assert s.stack[..|s.stack| - 1] == below;
    StepThenIter(code, s, 0);
    if |rest| == 0 || rest[0].Raise? {
      return 1;
    }
    GrowthBoundedLater(code, s, base, b, 1);
    var after := below + [Running(h, e, rest[1..])];
    if rest[0].Subscribe? {
      var n1 := HandlerReturns(code, rank, base, b, s1, below, h, e, rest[1..], left);
      StepThenIter(code, s, n1);
      n := n1 + 1;
    } else {
      assert s1.stack == after + [Delivering(rest[0].event, 0)];
      var n1 := DeliveryReturns(code, rank, base, b, s1, after, rest[0].event, 0);
      var s2 := Iter(code, s1, n1);
      GrowthBoundedLater(code, s1, base, b, n1);
      var n2 := HandlerReturns(code, rank, base, b, s2, below, h, e, rest[1..], left);
      IterAdd(code, s1, n1, n2);
      StepThenIter(code, s, n1 + n2);
      n := n1 + n2 + 1;
    }
  }

  /** When nested publications go down in rank, a publication terminates if and only if the
      subscriptions made during it stay bounded. */
  lemma TerminatesIffGrowthBounded(code: Code, rank: string -> nat, registry: Registry, event: Event)
    requires RankDecreases(code, rank)
    ensures Halts(code, Start(registry, [], event))
            <==> exists b: nat :: GrowthBounded(code, Start(registry, [], event), registry, b)
  {
    hide Step, Iter, RankDecreases;
    var s := Start(registry, [], event);
    if b: nat :| GrowthBounded(code, s, registry, b) {
      var n := DeliveryReturns(code, rank, registry, b, s, [], event, 0);
    }
    if Halts(code, s) {
      var n: nat :| Iter(code, s, n).stack == [];
      HaltingBoundsGrowth(code, s, n);
    }
  }

  lemma HaltingBoundsGrowth(code: Code, s: State, n: nat)
    requires Iter(code, s, n).stack == []
    ensures GrowthBounded(code, s, s.registry, n)
  {
    hide Step, Iter, Listeners;
    forall m: nat, name: string
      ensures |Listeners(Iter(code, s, m).registry, name)| <= |Listeners(s.registry, name)| + n
    {
      if m <= n {
        ListsOnlyGrow(code, s, m);
      } else {
        IterAdd(code, s, n, m - n);
        HaltedStays(code, Iter(code, s, n), m - n);
        ListsOnlyGrow(code, s, n);
      }
    }
  }

  /** While an event is handled, only events of lower rank are published and subscribed to. */
  ghost predicate Descends(code: Code, rank: string -> nat) {
    forall h: Handler, e: Event :: ActsBelow(code(h, e), rank, rank(e.name))
  }

  ghost predicate ActsBelow(actions: seq<Action>, rank: string -> nat, r: nat) {
    forall i :: 0 <= i < |actions| ==>
      && (actions[i].Publish? ==> rank(actions[i].event.name) < r)
      && (actions[i].Subscribe? ==> rank(actions[i].name) < r)
  }

  /** The lists of rank `r` and above are the same. */
  ghost predicate SameFrom(s: State, d: State, rank: string -> nat, r: nat) {
    forall name :: rank(name) >= r ==> Listeners(d.registry, name) == Listeners(s.registry, name)
  }

  lemma {:induction false} DescendingDelivery(code: Code, rank: string -> nat, s: State, below: seq<Frame>,
                                              e: Event, i: nat) returns (n: nat)
    requires Descends(code, rank) && s.stack == below + [Delivering(e, i)]
    ensures Iter(code, s, n).stack == below && SameFrom(s, Iter(code, s, n), rank, rank(e.name))
    decreases rank(e.name), |Listeners(s.registry, e.name)| - i, 0, 0
  {
    hide Iter;
    var list := Listeners(s.registry, e.name);
    var s1 := Step(code, s);
    assert s.stack[..|s.stack| - 1] == below;
    StepThenIter(code, s, 0);
    if i >= |list| {
      return 1;
    }
    var h, above := list[i], below + [Delivering(e, i + 1)];
    assert ActsBelow(code(h, e), rank, rank(e.name));
    hide Descends, ActsBelow;
    assert s1.stack == above + [Running(h, e, code(h, e))];
    var n1 := DescendingHandler(code, rank, s1, above, h, e, code(h, e), |list| - (i + 1));
    var s2 := Iter(code, s1, n1);
    var n2 := DescendingDelivery(code, rank, s2, below, e, i + 1);
    IterAdd(code, s1, n1, n2);
    StepThenIter(code, s, n1 + n2);
    n := n1 + n2 + 1;
  }

  lemma {:induction false} DescendingHandler(code: Code, rank: string -> nat, s: State, below: seq<Frame>,
                                             h: Handler, e: Event, rest: seq<Action>, left: nat) returns (n: nat)
    requires Descends(code, rank) && s.stack == below + [Running(h, e, rest)]
    requires ActsBelow(rest, rank, rank(e.name))
    ensures Iter(code, s, n).stack == below && SameFrom(s, Iter(code, s, n), rank, rank(e.name))
    decreases rank(e.name), left, 1, |rest|
  {
    hide Iter, Descends;
    var s1 := Step(code, s);
    assert s.stack[..|s.stack| - 1] == below;
    StepThenIter(code, s, 0);
    if |rest| == 0 || rest[0].Raise? {
      return 1;
    }
    var after := below + [Running(h, e, rest[1..])];
    if rest[0].Subscribe? {
      var n1 := DescendingHandler(code, rank, s1, below, h, e, rest[1..], left);
      StepThenIter(code, s, n1);
      n := n1 + 1;
    } else {
      assert s1.stack == after + [Delivering(rest[0].event, 0)];
      var n1 := DescendingDelivery(code, rank, s1, after, rest[0].event, 0);
      var s2 := Iter(code, s1, n1);
      var n2 := DescendingHandler(code, rank, s2, below, h, e, rest[1..], left);
      IterAdd(code, s1, n1, n2);
      StepThenIter(code, s, n1 + n2);
      n := n1 + n2 + 1;
    }
  }

  /** A condition on the handlers alone: if what they publish and subscribe to goes down in rank, every
      publication comes to an end from every dictionary of lists, and leaves the lists of its own rank
      and above as they were. */
  lemma DescendingHandlersTerminate(code: Code, rank: string -> nat, registry: Registry, event: Event)
    requires Descends(code, rank)
    ensures exists n: nat ::
              && Iter(code, Start(registry, [], event), n).stack == []
              && SameFrom(Start(registry, [], event), Iter(code, Start(registry, [], event), n), rank, rank(event.name))
    ensures Halts(code, Start(registry, [], event))
  {
    hide Iter, Descends;
    var n := DescendingDelivery(code, rank, Start(registry, [], event), [], event, 0);
  }

  // ---------------------------------------------------------------- divergence

  /** The program subscribes some member of the family to `name` before it can raise. */
  ghost predicate Renews(actions: seq<Action>, name: string, family: iset<Handler>) {
    exists i ::
      && 0 <= i < |actions| && actions[i].Subscribe? && actions[i].name == name && actions[i].handler in family
      && forall j :: 0 <= j < i ==> !actions[j].Raise?
  }

  /** A member of the family stands in the list at `i` or later. */
  ghost predicate Ahead(list: seq<Handler>, i: nat, family: iset<Handler>) {
    exists p :: i <= p < |list| && list[p] in family
  }

  /** The outermost delivery still has a member of the family ahead of it, or is running a handler that
      is about to subscribe one. */
  ghost predicate Chasing(s: State, e: Event, family: iset<Handler>) {
    && |s.stack| > 0 && s.stack[0].Delivering? && s.stack[0].event == e
    && s.stack[0].next <= |Listeners(s.registry, e.name)|
    && (|| Ahead(Listeners(s.registry, e.name), s.stack[0].next, family)
        || (|s.stack| >= 2 && s.stack[1].Running? && Renews(s.stack[1].rest, e.name, family)))
  }

  lemma RenewsNext(actions: seq<Action>, name: string, family: iset<Handler>)
    requires Renews(actions, name, family)
    ensures |actions| > 0 && !actions[0].Raise?
    ensures (actions[0].Subscribe? && actions[0].name == name && actions[0].handler in family)
            || Renews(actions[1..], name, family)
  {
    var i :| && 0 <= i < |actions| && actions[i].Subscribe? && actions[i].name == name && actions[i].handler in family
             && forall j :: 0 <= j < i ==> !actions[j].Raise?;
    if i > 0 {
      assert actions[1..][i - 1] == actions[i];
    }
  }

  lemma AheadLater(list: seq<Handler>, later: seq<Handler>, i: nat, family: iset<Handler>)
    requires list <= later && Ahead(list, i, family)
    ensures Ahead(later, i, family)
    ensures list[i] in family || Ahead(later, i + 1, family)
  {
    var p :| i <= p < |list| && list[p] in family;
    assert later[p] == list[p];
  }

  lemma StepChases(code: Code, s: State, e: Event, family: iset<Handler>)
    requires (forall h :: h in family ==> Renews(code(h, e), e.name, family)) && Chasing(s, e, family)
    ensures Chasing(Step(code, s), e, family)
  {
    hide Renews, Ahead;
    var s' := Step(code, s);
    var i := s.stack[0].next;
    var list, list' := Listeners(s.registry, e.name), Listeners(s'.registry, e.name);
    StepExtends(code, s);
    assert list <= list';
    if Ahead(list, i, family) {
      AheadLater(list, list', i, family);
    } else {
      var rest := s.stack[1].rest;
      RenewsNext(rest, e.name, family);
      if |s.stack| == 2 && rest[0].Subscribe? && rest[0].name == e.name && rest[0].handler in family {
        LastIsAhead(list, rest[0].handler, i, family);
      }
    }
  }

  lemma LastIsAhead(list: seq<Handler>, h: Handler, i: nat, family: iset<Handler>)
    requires i <= |list| && h in family
    ensures Ahead(list + [h], i, family)
  {
    assert (list + [h])[|list|] == h;
  }

  /** A family of handlers each of which subscribes a member of the family again on every call, before it
      can raise, is never done with: whatever else they and the other handlers do, the publication is
      unfinished after every number of steps. */
  lemma {:induction false} SelfSubscriberNeverEnds(code: Code, registry: Registry, e: Event, family: iset<Handler>,
                                                   n: nat)
    requires forall h :: h in family ==> Renews(code(h, e), e.name, family)
    requires Ahead(Listeners(registry, e.name), 0, family)
    ensures Chasing(Iter(code, Start(registry, [], e), n), e, family)
    ensures Iter(code, Start(registry, [], e), n).stack != []
  {
    hide Ahead, Renews;
    if n > 0 {
      hide Step, Chasing, Start;
      SelfSubscriberNeverEnds(code, registry, e, family, n - 1);
      IterSnoc(code, Start(registry, [], e), n - 1);
      StepChases(code, Iter(code, Start(registry, [], e), n - 1), e, family);
      ChasingNotDone(Iter(code, Start(registry, [], e), n), e, family);
    }
  }

  lemma ChasingNotDone(s: State, e: Event, family: iset<Handler>)
    requires Chasing(s, e, family)
    ensures s.stack != []
  {
  }

  /** For instance a handler that subscribes a fresh copy of itself on each call, copy after copy. */
  lemma FreshCopiesNeverEnd(code: Code, registry: Registry, e: Event, n: nat)
    requires forall h: Handler :: code(h, e) == [Subscribe(e.name, h + 1)]
    requires |Listeners(registry, e.name)| > 0
    ensures Iter(code, Start(registry, [], e), n).stack != []
  {
    hide Iter;
    var family := iset h: Handler | code(h, e) == [Subscribe(e.name, h + 1)];
    forall h | h in family ensures Renews(code(h, e), e.name, family) {
      assert code(h, e)[0] == Subscribe(e.name, h + 1);
    }
    assert Listeners(registry, e.name)[0] in family;
    SelfSubscriberNeverEnds(code, registry, e, family, n);
  }

  // ---------------------------------------------------------------- swallowed exceptions

  /** What a handler's program does before it raises, if it raises. */
  function Effects(actions: seq<Action>): seq<Action> {
    if |actions| == 0 || actions[0].Raise? then [] else [actions[0]] + Effects(actions[1..])
  }

  ghost predicate SameEffects(code: Code, code': Code) {
    forall h: Handler, e: Event :: Effects(code(h, e)) == Effects(code'(h, e))
  }

  /** A trace with the outcome of each handler erased. */
  function WithoutOutcomes(trace: seq<Mark>): (r: seq<Mark>)
    ensures |r| == |trace|
  {
    seq(|trace|, i requires 0 <= i < |trace| =>
      if trace[i].Return? then Return(trace[i].handler, false) else trace[i])
  }

  lemma WithoutOutcomesConcat(a: seq<Mark>, b: seq<Mark>)
    ensures WithoutOutcomes(a + b) == WithoutOutcomes(a) + WithoutOutcomes(b)
  {
  }

  ghost predicate FramesMatch(a: Frame, b: Frame) {
    if a.Delivering? then b == a
    else b.Running? && b.handler == a.handler && b.event == a.event && Effects(b.rest) == Effects(a.rest)
  }

  /** The same state but for the exceptions, past and to come. */
  ghost predicate Matches(s: State, t: State) {
    && s.registry == t.registry && |s.stack| == |t.stack|
    && (forall i :: 0 <= i < |s.stack| ==> FramesMatch(s.stack[i], t.stack[i]))
    && WithoutOutcomes(s.trace) == WithoutOutcomes(t.trace)
  }

  lemma StepMatches(code: Code, code': Code, s: State, t: State)
    requires SameEffects(code, code') && Matches(s, t)
    ensures Matches(Step(code, s), Step(code', t))
  {
    if |s.stack| > 0 {
      hide WithoutOutcomes, SameEffects;
      var top, top' := s.stack[|s.stack| - 1], t.stack[|t.stack| - 1];
      assert FramesMatch(top, top');
      if top.Delivering? {
        var list := Listeners(s.registry, top.event.name);
        if top.next < |list| {
          EffectsOf(code, code', list[top.next], top.event);
          TracesMatch(s.trace, t.trace, Call(list[top.next]), Call(list[top.next]));
        } else {
          TracesMatch(s.trace, t.trace, Exit(top.event), Exit(top.event));
        }
      } else if Effects(top.rest) == [] {
        TracesMatch(s.trace, t.trace, Return(top.handler, |top.rest| > 0), Return(top.handler, |top'.rest| > 0));
      } else {
        assert top.rest[0] == Effects(top.rest)[0] == Effects(top'.rest)[0] == top'.rest[0];
        assert Effects(top.rest[1..]) == Effects(top.rest)[1..] == Effects(top'.rest[1..]);
        if top.rest[0].Publish? {
          TracesMatch(s.trace, t.trace, Enter(top.rest[0].event), Enter(top.rest[0].event));
        }
      }
    }
  }

  lemma TracesMatch(a: seq<Mark>, b: seq<Mark>, mark: Mark, mark': Mark)
    requires WithoutOutcomes(a) == WithoutOutcomes(b)
    requires mark == mark' || (mark.Return? && mark'.Return? && mark.handler == mark'.handler)
    ensures WithoutOutcomes(a + [mark]) == WithoutOutcomes(b + [mark'])
  {
    WithoutOutcomesConcat(a, [mark]);
    WithoutOutcomesConcat(b, [mark']);
  }

  lemma EffectsOf(code: Code, code': Code, h: Handler, e: Event)
    requires SameEffects(code, code')
    ensures Effects(code(h, e)) == Effects(code'(h, e))
  {
  }

  lemma {:induction false} IterMatches(code: Code, code': Code, s: State, t: State, n: nat)
    requires SameEffects(code, code') && Matches(s, t)
    ensures Matches(Iter(code, s, n), Iter(code', t, n))
    decreases n
  {
    if n > 0 {
      hide Step, Matches, SameEffects;
      StepMatches(code, code', s, t);
      IterMatches(code, code', Step(code, s), Step(code', t), n - 1);
    }
  }

  /** No pattern of raising handlers changes which others run: whether and how handlers raise once they
      have done what they do, re-entrant or not, the same handlers run in the same order at every step,
      and the same lists result. */
  lemma RaisingChangesNothing(code: Code, code': Code, registry: Registry, trace: seq<Mark>, event: Event, n: nat)
    requires SameEffects(code, code')
    ensures var s, t := Iter(code, Start(registry, trace, event), n), Iter(code', Start(registry, trace, event), n);
            && s.registry == t.registry && WithoutOutcomes(s.trace) == WithoutOutcomes(t.trace)
            && (s.stack == [] <==> t.stack == [])
  {
    hide Iter;
    IterMatches(code, code', Start(registry, trace, event), Start(registry, trace, event), n);
  }

  // ---------------------------------------------------------------- plain handlers

  /** Handlers that neither subscribe nor publish; they may raise. */
  ghost predicate NonReentrant(code: Code) {
    forall h: Handler, e: Event, i :: 0 <= i < |code(h, e)| ==> code(h, e)[i].Raise?
  }

  /** One call and return per listener, in order. */
  function CallMarks(code: Code, e: Event, list: seq<Handler>): seq<Mark> {
    if |list| == 0 then []
    else
      var h := list[|list| - 1];
      CallMarks(code, e, list[..|list| - 1]) + [Call(h), Return(h, code(h, e) != [])]
  }

  lemma {:induction false} PlainDelivery(code: Code, registry: Registry, trace: seq<Mark>, e: Event, n: nat)
    requires NonReentrant(code) && n <= |Listeners(registry, e.name)|
    ensures Iter(code, Start(registry, trace, e), 2 * n)
         == State(registry, [Delivering(e, n)],
                  trace + [Enter(e)] + CallMarks(code, e, Listeners(registry, e.name)[..n]))
    decreases n
  {
    var list := Listeners(registry, e.name);
    var s := Start(registry, trace, e);
    if n > 0 {
      hide Start, Iter;
      PlainDelivery(code, registry, trace, e, n - 1);
      var h := list[n - 1];
      var marks := trace + [Enter(e)] + CallMarks(code, e, list[..n - 1]);
      var s0 := State(registry, [Delivering(e, n - 1)], marks);
      var s1 := State(registry, [Delivering(e, n), Running(h, e, code(h, e))], marks + [Call(h)]);
      assert Step(code, s0) == s1 by {
        assert [] + [Delivering(e, n), Running(h, e, code(h, e))] == [Delivering(e, n), Running(h, e, code(h, e))];
      }
      assert Step(code, s1)
          == State(registry, [Delivering(e, n)], marks + [Call(h)] + [Return(h, code(h, e) != [])]) by {
        assert s1.stack[..1] == [Delivering(e, n)];
      }
      IterSnoc(code, s, 2 * (n - 1));
      IterSnoc(code, s, 2 * n - 1);
      assert list[..n][..n - 1] == list[..n - 1];
      assert marks + [Call(h)] + [Return(h, code(h, e) != [])]
          == trace + [Enter(e)] + CallMarks(code, e, list[..n]);
    } else {
      assert list[..0] == [];
      assert trace + [Enter(e)] + [] == trace + [Enter(e)];
    }
  }

  /** The number of steps a plain delivery takes. */
  function PlainSteps(registry: Registry, e: Event): nat {
    2 * |Listeners(registry, e.name)| + 1
  }

  lemma PlainPublish(code: Code, registry: Registry, trace: seq<Mark>, e: Event)
    requires NonReentrant(code)
    ensures Iter(code, Start(registry, trace, e), PlainSteps(registry, e))
         == State(registry, [], trace + [Enter(e)] + CallMarks(code, e, Listeners(registry, e.name)) + [Exit(e)])
  {
    hide Iter, Start;
    var list := Listeners(registry, e.name);
    PlainDelivery(code, registry, trace, e, |list|);
    IterSnoc(code, Start(registry, trace, e), 2 * |list|);
    assert list[..|list|] == list;
  }

  /** What a client of the publisher does. */
  datatype Op = DoSubscribe(name: string, handler: Handler) | DoPublish(event: Event)

  /** The subscriptions to one name, in the order they were made. */
  function SubscriptionLog(ops: seq<Op>, name: string): seq<Handler> {
    if |ops| == 0 then []
    else
      var rest := SubscriptionLog(ops[..|ops| - 1], name);
      var op := ops[|ops| - 1];
      if op.DoSubscribe? && op.name == name then rest + [op.handler] else rest
  }

  /** Run the operations one after the other; each publication runs on the delivery machine. */
  function RunOps(code: Code, ops: seq<Op>): State {
    if |ops| == 0 then State(map[], [], [])
    else
      var s := RunOps(code, ops[..|ops| - 1]);
      match ops[|ops| - 1]
      case DoSubscribe(name, handler) => State(Subscribed(s.registry, name, handler), s.stack, s.trace)
      case DoPublish(event) => Iter(code, Start(s.registry, s.trace, event), PlainSteps(s.registry, event))
  }

  /** The trace the subscription log alone predicts. */
  function ExpectedTrace(code: Code, ops: seq<Op>): seq<Mark> {
    if |ops| == 0 then []
    else
      var before := ops[..|ops| - 1];
      match ops[|ops| - 1]
      case DoSubscribe(_, _) => ExpectedTrace(code, before)
      case DoPublish(e) =>
        ExpectedTrace(code, before) + [Enter(e)] + CallMarks(code, e, SubscriptionLog(before, e.name)) + [Exit(e)]
  }

  /** Publisher refinement: with plain handlers, after any operations the dictionary of lists is the
      subscription log filtered by name, and each publication has called exactly the handlers
      subscribed before it, in order and with multiplicity. */
  lemma {:induction false} PublisherRefinesLog(code: Code, ops: seq<Op>)
    requires NonReentrant(code)
    ensures RunOps(code, ops).stack == []
    ensures RunOps(code, ops).trace == ExpectedTrace(code, ops)
    ensures forall name :: Listeners(RunOps(code, ops).registry, name) == SubscriptionLog(ops, name)
  {
    if |ops| > 0 {
      hide Iter, Start, NonReentrant;
      var before := ops[..|ops| - 1];
      PublisherRefinesLog(code, before);
      var s := RunOps(code, before);
      match ops[|ops| - 1]
      case DoSubscribe(name, handler) =>
      case DoPublish(event) => PlainPublish(code, s.registry, s.trace, event);
    }
  }
}
