/** Synchronous event delivery, one step at a time. */
module EventMachine {
  // A handler is an arbitrary program of subscriptions, publications and exceptions, chosen by the
  // handler's identity and the event it receives.  `publish` walks the live list by index, so a
  // running handler can lengthen the list that is being walked, and can publish again before it
  // returns.  The stack holds the deliveries and handlers in progress, innermost last.

  import opened Wrappers

  type Handler = nat

  /** An event as handlers see it; `payload` stands for the payload dictionary. */
  datatype Event = Event(name: string, payload: int)

  datatype Action = Subscribe(name: string, handler: Handler) | Publish(event: Event) | Raise

  type Code = (Handler, Event) -> seq<Action>

  type Registry = map<string, seq<Handler>>

  datatype Frame =
    | Delivering(event: Event, next: nat)
    | Running(handler: Handler, event: Event, rest: seq<Action>)

  /** What an observer of the deliveries sees. */
  datatype Mark =
    | Enter(event: Event)
    | Call(handler: Handler)
    | Return(handler: Handler, raised: bool)
    | Exit(event: Event)

  datatype State = State(registry: Registry, stack: seq<Frame>, trace: seq<Mark>)

  function Listeners(registry: Registry, name: string): seq<Handler> {
    if name in registry then registry[name] else []
  }

  function Subscribed(registry: Registry, name: string, handler: Handler): Registry {
    registry[name := Listeners(registry, name) + [handler]]
  }

  /** `publish` has built its event and is about to look at the first handler. */
  function Start(registry: Registry, trace: seq<Mark>, event: Event): State {
    State(registry, [Delivering(event, 0)], trace + [Enter(event)])
  }

  function Step(code: Code, s: State): State {
    if |s.stack| == 0 then s
    else
      var below := s.stack[..|s.stack| - 1];
      match s.stack[|s.stack| - 1]
      case Delivering(event, next) =>
        var list := Listeners(s.registry, event.name);
        if next < |list| then
          State(s.registry,
                below + [Delivering(event, next + 1), Running(list[next], event, code(list[next], event))],
                s.trace + [Call(list[next])])
        else State(s.registry, below, s.trace + [Exit(event)])
      case Running(handler, event, rest) =>
        if |rest| == 0 then State(s.registry, below, s.trace + [Return(handler, false)])
        else
          var after := below + [Running(handler, event, rest[1..])];
          match rest[0]
          case Subscribe(name, other) => State(Subscribed(s.registry, name, other), after, s.trace)
          case Publish(inner) => State(s.registry, after + [Delivering(inner, 0)], s.trace + [Enter(inner)])
          case Raise => State(s.registry, below, s.trace + [Return(handler, true)])
  }

  function Iter(code: Code, s: State, n: nat): State
    decreases n
  {
    if n == 0 then s else Iter(code, Step(code, s), n - 1)
  }

  ghost predicate Halts(code: Code, s: State) {
    exists n: nat :: Iter(code, s, n).stack == []
  }

  lemma {:induction false} IterAdd(code: Code, s: State, m: nat, n: nat)
    ensures Iter(code, Iter(code, s, m), n) == Iter(code, s, m + n)
    decreases m
  {
    hide Step;
    if m > 0 {
      IterAdd(code, Step(code, s), m - 1, n);
    }
  }

  lemma IterSnoc(code: Code, s: State, n: nat)
    ensures Iter(code, s, n + 1) == Step(code, Iter(code, s, n))
  {
    IterAdd(code, s, n, 1);
    assert Iter(code, Iter(code, s, n), 1) == Iter(code, Step(code, Iter(code, s, n)), 0);
  }

  lemma {:induction false} HaltedStays(code: Code, s: State, n: nat)
    requires s.stack == []
    ensures Iter(code, s, n) == s
  {
    if n > 0 {
      HaltedStays(code, s, n - 1);
    }
  }

  // ---------------------------------------------------------------- brackets and live lists

  /** What is open at a point of a trace: a delivery with the handlers it has called itself so far
      (not those of nested deliveries), or a handler. */
  datatype Open = InDelivery(event: Event, called: seq<Handler>) | InHandler(handler: Handler)

  /** Read a trace from outside.  `None` when it is not properly nested: a handler is called by the
      innermost delivery, returns before anything around it ends, and a delivery is entered either
      at the outside or by the innermost handler. */
  function Replay(trace: seq<Mark>): Option<seq<Open>> {
    if |trace| == 0 then Some([])
    else
      match Replay(trace[..|trace| - 1])
      case None => None
      case Some(open) => ReplayMark(open, trace[|trace| - 1])
  }

  function ReplayMark(open: seq<Open>, mark: Mark): Option<seq<Open>> {
    var d := |open| - 1;
    match mark
    case Enter(event) =>
      if d >= 0 && open[d].InDelivery? then None else Some(open + [InDelivery(event, [])])
    case Call(handler) =>
      if d >= 0 && open[d].InDelivery?
      then Some(open[..d] + [InDelivery(open[d].event, open[d].called + [handler]), InHandler(handler)])
      else None
    case Return(handler, raised) =>
      if d >= 0 && open[d] == InHandler(handler) then Some(open[..d]) else None
    case Exit(event) =>
      if d >= 0 && open[d].InDelivery? && open[d].event == event then Some(open[..d]) else None
  }

  /** The observer's view of one frame. */
  function View(registry: Registry, frame: Frame): Open {
    match frame
    case Delivering(event, next) =>
      var list := Listeners(registry, event.name);
      InDelivery(event, if next <= |list| then list[..next] else list)
    case Running(handler, _, _) => InHandler(handler)
  }

  function Views(registry: Registry, stack: seq<Frame>): (vs: seq<Open>)
    ensures |vs| == |stack|
  {
    seq(|stack|, i requires 0 <= i < |stack| => View(registry, stack[i]))
  }

  ghost predicate FrameOk(registry: Registry, frame: Frame) {
    frame.Delivering? ==> frame.next <= |Listeners(registry, frame.event.name)|
  }

  /** Deliveries and handlers alternate, starting with a delivery. */
  ghost predicate Alternating(stack: seq<Frame>) {
    forall i :: 0 <= i < |stack| ==> (stack[i].Delivering? <==> i % 2 == 0)
  }

  /** The trace so far is properly nested, and every open delivery has called exactly the first
      `next` entries of the list as it is NOW. */
  ghost predicate Faithful(s: State) {
    && Alternating(s.stack)
    && (forall i :: 0 <= i < |s.stack| ==> FrameOk(s.registry, s.stack[i]))
    && Replay(s.trace) == Some(Views(s.registry, s.stack))
  }

  ghost predicate Extends(registry: Registry, later: Registry) {
    forall name :: Listeners(registry, name) <= Listeners(later, name)
  }

  lemma SubscribedExtends(registry: Registry, name: string, handler: Handler)
    ensures Extends(registry, Subscribed(registry, name, handler))
  {
  }

  lemma ViewStable(registry: Registry, later: Registry, frame: Frame)
    requires Extends(registry, later) && FrameOk(registry, frame)
    ensures FrameOk(later, frame) && View(later, frame) == View(registry, frame)
  {
    if frame.Delivering? {
      assert Listeners(registry, frame.event.name) <= Listeners(later, frame.event.name);
    }
  }

  lemma ReplaySnoc(trace: seq<Mark>, mark: Mark)
    ensures Replay(trace + [mark])
         == match Replay(trace) case None => None case Some(open) => ReplayMark(open, mark)
  {
    assert (trace + [mark])[..|trace|] == trace;
  }

  lemma ViewsSnoc(registry: Registry, stack: seq<Frame>, frame: Frame)
    ensures Views(registry, stack + [frame]) == Views(registry, stack) + [View(registry, frame)]
  {
  }

  lemma FaithfulSnoc(s: State, below: seq<Frame>, frame: Frame)
    requires s.stack == below + [frame]
    ensures Faithful(s) <==>
              && Alternating(below) && (forall i :: 0 <= i < |below| ==> FrameOk(s.registry, below[i]))
              && (frame.Delivering? <==> |below| % 2 == 0) && FrameOk(s.registry, frame)
              && Replay(s.trace) == Some(Views(s.registry, below) + [View(s.registry, frame)])
  {
    hide Replay, View, FrameOk;
    ViewsSnoc(s.registry, below, frame);
    if Faithful(s) {
      assert forall i :: 0 <= i < |below| ==> s.stack[i] == below[i];
      assert s.stack[|below|] == frame;
    }
  }

  lemma ReplayTop(open: seq<Open>, event: Event, called: seq<Handler>, handler: Handler, raised: bool)
    ensures ReplayMark(open + [InDelivery(event, called)], Call(handler))
         == Some(open + [InDelivery(event, called + [handler])] + [InHandler(handler)])
    ensures ReplayMark(open + [InDelivery(event, called)], Exit(event)) == Some(open)
    ensures ReplayMark(open + [InHandler(handler)], Return(handler, raised)) == Some(open)
    ensures ReplayMark(open + [InHandler(handler)], Enter(event))
         == Some(open + [InHandler(handler)] + [InDelivery(event, [])])
  {
    var d, h := open + [InDelivery(event, called)], open + [InHandler(handler)];
    assert d[..|open|] == open && h[..|open|] == open;
    assert ReplayMark(d, Call(handler)).value
        == open + [InDelivery(event, called + [handler])] + [InHandler(handler)];
  }

  lemma StepFaithful(code: Code, s: State)
    requires Faithful(s)
    ensures Faithful(Step(code, s))
  {
    if |s.stack| > 0 {
      hide Step, Faithful;
      if s.stack[|s.stack| - 1].Delivering? {
        DeliveryStepFaithful(code, s);
      } else {
        HandlerStepFaithful(code, s);
      }
    }
  }

  lemma DeliveryStepFaithful(code: Code, s: State)
    requires Faithful(s) && |s.stack| > 0 && s.stack[|s.stack| - 1].Delivering?
    ensures Faithful(Step(code, s))
  {
    hide Replay, ReplayMark, Faithful, Views, Alternating;
    var below, top := s.stack[..|s.stack| - 1], s.stack[|s.stack| - 1];
    var s' := Step(code, s);
    assert s.stack == below + [top];
    FaithfulSnoc(s, below, top);
    var open, event, next := Views(s.registry, below), top.event, top.next;
    var list := Listeners(s.registry, event.name);
    if next < |list| {
      var calling, called := Delivering(event, next + 1), Running(list[next], event, code(list[next], event));
      ReplaySnoc(s.trace, Call(list[next]));
      ReplayTop(open, event, list[..next], list[next], false);
      assert list[..next + 1] == list[..next] + [list[next]];
      assert s'.stack == (below + [calling]) + [called];
      PushFaithful(s', below, calling, called);
    } else {
      ReplaySnoc(s.trace, Exit(event));
      ReplayTop(open, event, list[..next], 0, false);
      PopFaithful(s', below);
    }
  }

  lemma HandlerStepFaithful(code: Code, s: State)
    requires Faithful(s) && |s.stack| > 0 && s.stack[|s.stack| - 1].Running?
    ensures Faithful(Step(code, s))
  {
    hide Replay, ReplayMark, Faithful, Views, Alternating;
    var below, top := s.stack[..|s.stack| - 1], s.stack[|s.stack| - 1];
    var s' := Step(code, s);
    assert s.stack == below + [top];
    FaithfulSnoc(s, below, top);
    var open := Views(s.registry, below);
    var handler, event, rest := top.handler, top.event, top.rest;
    if |rest| == 0 || rest[0].Raise? {
      ReplaySnoc(s.trace, Return(handler, |rest| > 0));
      ReplayTop(open, event, [], handler, |rest| > 0);
      PopFaithful(s', below);
    } else {
      var rested := Running(handler, event, rest[1..]);
      match rest[0] {
        case Subscribe(name, other) =>
          SubscribedExtends(s.registry, name, other);
          ViewsStable(s.registry, s'.registry, below);
          FaithfulSnoc(s', below, rested);
        case Publish(inner) =>
          ReplaySnoc(s.trace, Enter(inner));
          ReplayTop(open, inner, [], handler, false);
          assert s'.stack == (below + [rested]) + [Delivering(inner, 0)];
          PushFaithful(s', below, rested, Delivering(inner, 0));
      }
    }
  }

  lemma PushFaithful(s: State, below: seq<Frame>, frame: Frame, top: Frame)
    requires s.stack == (below + [frame]) + [top]
    requires Alternating(below) && forall i :: 0 <= i < |below| ==> FrameOk(s.registry, below[i])
    requires frame.Delivering? <==> |below| % 2 == 0
    requires top.Delivering? <==> !frame.Delivering?
    requires FrameOk(s.registry, frame) && FrameOk(s.registry, top)
    requires Replay(s.trace)
          == Some(Views(s.registry, below) + [View(s.registry, frame)] + [View(s.registry, top)])
    ensures Faithful(s)
  {
    hide Replay, View, FrameOk, Faithful;
    ViewsSnoc(s.registry, below, frame);
    FaithfulSnoc(s, below + [frame], top);
  }

  lemma PopFaithful(s: State, below: seq<Frame>)
    requires s.stack == below && Replay(s.trace) == Some(Views(s.registry, below))
    requires Alternating(below) && forall i :: 0 <= i < |below| ==> FrameOk(s.registry, below[i])
    ensures Faithful(s)
  {
  }

  lemma ViewsStable(registry: Registry, later: Registry, stack: seq<Frame>)
    requires Extends(registry, later) && forall i :: 0 <= i < |stack| ==> FrameOk(registry, stack[i])
    ensures Views(later, stack) == Views(registry, stack)
    ensures forall i :: 0 <= i < |stack| ==> FrameOk(later, stack[i])
  {
    forall i | 0 <= i < |stack|
      ensures FrameOk(later, stack[i]) && View(later, stack[i]) == View(registry, stack[i])
    {
      ViewStable(registry, later, stack[i]);
    }
  }

  /** Every reachable trace is properly bracketed, and each open delivery has visited exactly a
      prefix of the live list, whatever the handlers subscribed, published or raised. */
  lemma {:induction false} DeliveriesAreBracketed(code: Code, registry: Registry, event: Event, n: nat)
    ensures Faithful(Iter(code, Start(registry, [], event), n))
  {
    hide Start, Step, Faithful;
    if n == 0 {
      StartFaithful(registry, event);
    } else {
      DeliveriesAreBracketed(code, registry, event, n - 1);
      IterSnoc(code, Start(registry, [], event), n - 1);
      StepFaithful(code, Iter(code, Start(registry, [], event), n - 1));
    }
  }

  lemma StartFaithful(registry: Registry, event: Event)
    ensures Faithful(Start(registry, [], event))
  {
    ReplaySnoc([], Enter(event));
    FaithfulSnoc(Start(registry, [], event), [], Delivering(event, 0));
  }
}
