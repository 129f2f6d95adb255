/** The rate-limiting middleware: many clients, interleaved requests. */
module RateLimiter {
  // Requests interleave because the handler is suspended at the await between the admission and the
  // response headers.

  import opened SlidingWindow
  import opened Wrappers

  /** A header value: a number rendered by `str`, or text set by somebody else. */
  datatype HeaderValue = Numeral(n: int) | Text(text: string)

  /** Header names, compared without regard to case: `X-RateLimit-Limit`, `X-RateLimit-Remaining`,
      `X-RateLimit-Reset`, `Retry-After`, and any other. */
  datatype HeaderName = Limit | Remaining | Reset | RetryAfter | Other(name: string)

  datatype Response = Response(status: int, headers: map<HeaderName, HeaderValue>)

  /** The local variables of a `dispatch` call that is waiting for `call_next`. */
  datatype Suspended = Suspended(client: string, now: real, remaining: int)

  datatype Outcome = Rejected(response: Response) | Forwarded(frame: Suspended)

  const TOO_MANY_REQUESTS := 429

  type Registry = map<string, seq<real>>

  /** All requests without a peer address share one bucket. */
  function ClientKey(host: Option<string>): string {
    if host.Some? then host.value else "unknown"
  }

  function Lookup(requests: Registry, client: string): seq<real> {
    if client in requests then requests[client] else []
  }

  function Rejection(k: int, w: int, now: real): Response {
    Response(TOO_MANY_REQUESTS,
             map[Limit := Numeral(k), Remaining := Numeral(0),
                 Reset := Numeral(Truncate(now + w as real)), RetryAfter := Numeral(w)])
  }

  /** The headers written on the downstream response when the call resumes. */
  function Decorate(k: int, w: int, frame: Suspended, response: Response): Response {
    response.(headers := response.headers
                         [Limit := Numeral(k)]
                         [Remaining := Numeral(frame.remaining - 1)]
                         [Reset := Numeral(Truncate(frame.now + w as real))])
  }

  /** What `dispatch` answers before it suspends. */
  function Answer(k: int, w: int, stored: seq<real>, client: string, now: real): Outcome {
    var room := k - |Live(stored, now, w)|;
    if Admits(k, w, stored, now) then Forwarded(Suspended(client, now, if room > 0 then room else 0))
    else Rejected(Rejection(k, w, now))
  }

  // ---------------------------------------------------------------- many clients

  datatype Arrival = Arrival(client: string, time: real)

  /** One client's arrival times. */
  function Project(trace: seq<Arrival>, client: string): seq<real> {
    if |trace| == 0 then []
    else
      var rest := Project(trace[..|trace| - 1], client);
      var last := trace[|trace| - 1];
      if last.client == client then rest + [last.time] else rest
  }

  function RunAll(k: int, w: int, trace: seq<Arrival>): Registry {
    if |trace| == 0 then map[]
    else
      var requests := RunAll(k, w, trace[..|trace| - 1]);
      var last := trace[|trace| - 1];
      requests[last.client := After(k, w, Lookup(requests, last.client), last.time)]
  }

  /** The decision taken on every request of a trace. */
  function Decisions(k: int, w: int, trace: seq<Arrival>): (ds: seq<bool>)
    ensures |ds| == |trace|
  {
    if |trace| == 0 then []
    else
      var before := trace[..|trace| - 1];
      var last := trace[|trace| - 1];
      Decisions(k, w, before) + [Admits(k, w, Lookup(RunAll(k, w, before), last.client), last.time)]
  }

  /** The part of a decision list that concerns one client. */
  function DecisionsFor(trace: seq<Arrival>, ds: seq<bool>, client: string): seq<bool>
    requires |ds| == |trace|
  {
    if |trace| == 0 then []
    else
      var n := |trace| - 1;
      DecisionsFor(trace[..n], ds[..n], client) + if trace[n].client == client then [ds[n]] else []
  }

  function OwnTrace(client: string, arrivals: seq<real>): (trace: seq<Arrival>)
    ensures |trace| == |arrivals|
  {
    seq(|arrivals|, i requires 0 <= i < |arrivals| => Arrival(client, arrivals[i]))
  }

  lemma OwnTraceSnoc(client: string, arrivals: seq<real>, now: real)
    ensures OwnTrace(client, arrivals + [now]) == OwnTrace(client, arrivals) + [Arrival(client, now)]
  {
  }

  lemma TraceSnoc(k: int, w: int, trace: seq<Arrival>, a: Arrival)
    ensures RunAll(k, w, trace + [a])
         == RunAll(k, w, trace)[a.client := After(k, w, Lookup(RunAll(k, w, trace), a.client), a.time)]
    ensures Decisions(k, w, trace + [a])
         == Decisions(k, w, trace) + [Admits(k, w, Lookup(RunAll(k, w, trace), a.client), a.time)]
    ensures forall c :: Project(trace + [a], c) == Project(trace, c) + if a.client == c then [a.time] else []
  {
    assert (trace + [a])[..|trace|] == trace;
  }

  lemma {:induction false} StoredPerClient(k: int, w: int, trace: seq<Arrival>, client: string)
    ensures Lookup(RunAll(k, w, trace), client) == Stored(k, w, Project(trace, client))
    ensures client in RunAll(k, w, trace) <==> |Project(trace, client)| > 0
  {
    if |trace| > 0 {
      hide After, Stored;
      var before, last := trace[..|trace| - 1], trace[|trace| - 1];
      StoredPerClient(k, w, before, client);
      RunSnoc(k, w, Project(before, client), last.time);
    }
  }

  /** Client isolation: a client's stored list and decisions in any interleaved trace are those of
      a limiter that serves this client alone. */
  lemma {:induction false} ClientIsolation(k: int, w: int, trace: seq<Arrival>, client: string)
    ensures var own := OwnTrace(client, Project(trace, client));
            && Lookup(RunAll(k, w, trace), client) == Lookup(RunAll(k, w, own), client)
            && DecisionsFor(trace, Decisions(k, w, trace), client) == Decisions(k, w, own)
  {
    if |trace| > 0 {
      var before, last := trace[..|trace| - 1], trace[|trace| - 1];
      ClientIsolation(k, w, before, client);
      if last.client == client {
        OwnTraceSnoc(client, Project(before, client), last.time);
        TraceSnoc(k, w, OwnTrace(client, Project(before, client)), last);
      }
    }
  }

  ghost predicate ClockOk(trace: seq<Arrival>) {
    forall i, j :: 0 <= i < j < |trace| ==> trace[i].time <= trace[j].time
  }

  lemma {:induction false} ProjectSorted(trace: seq<Arrival>, client: string)
    requires ClockOk(trace)
    ensures Sorted(Project(trace, client))
    ensures forall x :: x in Project(trace, client) ==> exists i :: 0 <= i < |trace| && trace[i].time == x
  {
    if |trace| > 0 {
      var before, last := trace[..|trace| - 1], trace[|trace| - 1];
      ProjectSorted(before, client);
      SortedSnoc(Project(before, client), last.time);
      assert forall i :: 0 <= i < |before| ==> trace[i] == before[i];
    }
  }

  /** The answer to a request in terms of the client's whole history. */
  lemma AnswerByHistory(k: int, w: int, trace: seq<Arrival>, client: string, now: real)
    ensures Sorted(Project(trace, client) + [now]) ==>
              var used := |Live(Accepted(k, w, Project(trace, client)), now, w)|;
              var answer := Answer(k, w, Lookup(RunAll(k, w, trace), client), client, now);
              && (answer.Rejected? <==> used >= k)
              && (answer.Forwarded? ==> answer.frame.remaining == k - used)
  {
    hide Live, Accepted, Stored, RunAll, Project, Sorted;
    StoredPerClient(k, w, trace, client);
    if Sorted(Project(trace, client) + [now]) {
      PruningLosesNothing(k, w, Project(trace, client), now);
    }
  }

  // ---------------------------------------------------------------- the middleware object

  class RateLimitMiddleware {
    const maxRequests: int
    const windowSeconds: int
    var requests: Registry
    /** Every request ever dispatched, for specification only. */
    ghost var arrivals: seq<Arrival>

    ghost predicate Valid()
      reads this
    {
      requests == RunAll(maxRequests, windowSeconds, arrivals)
    }

    constructor (maxRequests: int := 100, windowSeconds: int := 60)
      ensures Valid() && arrivals == [] && requests == map[]
      ensures this.maxRequests == maxRequests && this.windowSeconds == windowSeconds
    {
      this.maxRequests, this.windowSeconds := maxRequests, windowSeconds;
      requests := map[];
      arrivals := [];
    }

    /** `dispatch` up to the await (or to the 429 response). */
    method Begin(host: Option<string>, now: real) returns (outcome: Outcome)
      requires Valid()
      modifies this
      ensures Valid() && arrivals == old(arrivals) + [Arrival(if host.Some? then host.value else "unknown", now)]
      // the list of the host is pruned, and every other list is what it was
      ensures var bucket := if host.Some? then host.value else "unknown";
              var live := Live(Lookup(old(requests), bucket), now, windowSeconds);
              && requests.Keys == old(requests.Keys) + {bucket}
              && (forall c :: c in old(requests) && c != bucket ==> requests[c] == old(requests)[c])
              && requests[bucket] == (if |live| < maxRequests then live + [now] else live)
      // below the limit the call is suspended with its place in the window, at the limit it is a complete 429
      ensures var bucket := if host.Some? then host.value else "unknown";
              var live := Live(Lookup(old(requests), bucket), now, windowSeconds);
              outcome == if |live| < maxRequests
                         then Forwarded(Suspended(bucket, now, maxRequests - |live|))
                         else Rejected(Response(429, map[
                                Limit := Numeral(maxRequests),
                                Remaining := Numeral(0),
                                Reset := Numeral(Truncate(now + windowSeconds as real)),
                                RetryAfter := Numeral(windowSeconds)]))
      // in terms of the whole history of the host, when the clock has not gone back
      ensures var bucket := if host.Some? then host.value else "unknown";
              Sorted(Project(arrivals, bucket)) ==>
                var h := Accepted(maxRequests, windowSeconds, Project(old(arrivals), bucket));
                var used := |Live(h, now, windowSeconds)|;
                && (outcome.Rejected? <==> used >= maxRequests)
                && (outcome.Forwarded? ==> outcome.frame.remaining == maxRequests - used)
    {
      hide Live, Project, RunAll, Accepted, Stored, Sorted, Truncate;
      var client := if host.Some? then host.value else "unknown";
      ghost var k, w, was := maxRequests, windowSeconds, requests;
      if client !in requests {
        requests := requests[client := []];
      }
      requests := requests[client := Live(requests[client], now, windowSeconds)];
      var remaining := if maxRequests - |requests[client]| > 0 then maxRequests - |requests[client]| else 0;
      if |requests[client]| >= maxRequests {
        outcome := Rejected(Response(TOO_MANY_REQUESTS,
                                     map[Limit := Numeral(maxRequests),
                                         Remaining := Numeral(0),
                                         Reset := Numeral(Truncate(now + windowSeconds as real)),
                                         RetryAfter := Numeral(windowSeconds)]));
      } else {
        requests := requests[client := requests[client] + [now]];
        outcome := Forwarded(Suspended(client, now, remaining));
      }
      arrivals := arrivals + [Arrival(client, now)];
      assert requests == was[client := After(k, w, Lookup(was, client), now)];
      assert outcome == Answer(k, w, Lookup(was, client), client, now);
      TraceSnoc(k, w, old(arrivals), Arrival(client, now));
      AnswerByHistory(k, w, old(arrivals), client, now);
    }

    /** `dispatch` from the await on: the three headers replace whatever the handler had set,
        everything else of its response is kept. */
    method Finish(frame: Suspended, response: Response) returns (decorated: Response)
      ensures decorated.status == response.status
      ensures decorated.headers.Keys == response.headers.Keys + {Limit, Remaining, Reset}
      ensures decorated.headers[Limit] == Numeral(maxRequests)
      ensures decorated.headers[Remaining] == Numeral(frame.remaining - 1)
      ensures decorated.headers[Reset] == Numeral(Truncate(frame.now + windowSeconds as real))
      ensures forall h :: h in response.headers && h !in {Limit, Remaining, Reset} ==>
                            decorated.headers[h] == response.headers[h]
      ensures decorated == Decorate(maxRequests, windowSeconds, frame, response)
    {
      var headers := response.headers;
      headers := headers[Limit := Numeral(maxRequests)];
      headers := headers[Remaining := Numeral(frame.remaining - 1)];
      headers := headers[Reset := Numeral(Truncate(frame.now + windowSeconds as real))];
      decorated := Response(response.status, headers);
    }
  }

  // ---------------------------------------------------------------- interleaved dispatch calls

  /** A call is named by the position of its `Start` in the schedule.  `Finish` resumes it with the
      handler's response; `Fail` is an exception from the handler, which `dispatch` lets through. */
  datatype Event =
    | Start(host: Option<string>, now: real)
    | Finish(call: nat, response: Response)
    | Fail(call: nat)

  datatype State = State(requests: Registry, suspended: map<nat, Suspended>, sent: map<nat, Response>)

  function Step(k: int, w: int, s: State, position: nat, e: Event): State {
    match e
    case Start(host, now) =>
      var client := ClientKey(host);
      var stored := Lookup(s.requests, client);
      var s' := s.(requests := s.requests[client := After(k, w, stored, now)]);
      (match Answer(k, w, stored, client, now)
       case Rejected(response) => s'.(sent := s.sent[position := response])
       case Forwarded(frame) => s'.(suspended := s.suspended[position := frame]))
    case Finish(call, response) =>
      if call in s.suspended
      then s.(suspended := s.suspended - {call},
              sent := s.sent[call := Decorate(k, w, s.suspended[call], response)])
      else s
    case Fail(call) => s.(suspended := s.suspended - {call})
  }

  function Run(k: int, w: int, schedule: seq<Event>): State {
    if |schedule| == 0 then State(map[], map[], map[])
    else
      var n := |schedule| - 1;
      Step(k, w, Run(k, w, schedule[..n]), n, schedule[n])
  }

  /** The requests of a schedule, in the order in which they started. */
  function Arrivals(schedule: seq<Event>): seq<Arrival> {
    if |schedule| == 0 then []
    else
      var rest := Arrivals(schedule[..|schedule| - 1]);
      var last := schedule[|schedule| - 1];
      if last.Start? then rest + [Arrival(ClientKey(last.host), last.now)] else rest
  }

  /** Two peers are counted together when they are the same host; only a missing peer address shares its
      list, with a host that calls itself "unknown". */
  predicate SameBucket(a: Option<string>, b: Option<string>) {
    a == b || (a in {None, Some("unknown")} && b in {None, Some("unknown")})
  }

  /** When requests of a host, or of those counted together with it, have started. */
  function StartTimes(schedule: seq<Event>, host: Option<string>): seq<real> {
    if |schedule| == 0 then []
    else
      var rest := StartTimes(schedule[..|schedule| - 1], host);
      var last := schedule[|schedule| - 1];
      if last.Start? && SameBucket(last.host, host) then rest + [last.now] else rest
  }

  /** The requests of the same host that started before call `j` of the schedule. */
  function Earlier(schedule: seq<Event>, j: nat): seq<real>
    requires j < |schedule| && schedule[j].Start?
  {
    StartTimes(schedule[..j], schedule[j].host)
  }

  /** Keying the dictionary by address neither merges two hosts nor splits one. */
  lemma {:induction false} HostsKeptApart(schedule: seq<Event>, host: Option<string>)
    ensures Project(Arrivals(schedule), ClientKey(host)) == StartTimes(schedule, host)
  {
    if |schedule| > 0 {
      var n := |schedule| - 1;
      HostsKeptApart(schedule[..n], host);
      if schedule[n].Start? {
        TraceSnoc(0, 0, Arrivals(schedule[..n]), Arrival(ClientKey(schedule[n].host), schedule[n].now));
      }
    }
  }

  /** What a call answered when it started, as a function of the earlier starts alone. */
  function AnswerOf(k: int, w: int, schedule: seq<Event>, j: nat): Outcome
    requires j < |schedule| && schedule[j].Start?
  {
    var host := schedule[j].host;
    Answer(k, w, Stored(k, w, Earlier(schedule, j)), if host.Some? then host.value else "unknown", schedule[j].now)
  }

  /** The first thing that happens to a call after its start. */
  datatype Fate = Waiting | Resumed(response: Response) | Dropped

  function FateOf(schedule: seq<Event>, j: nat): Fate {
    if |schedule| <= j + 1 then Waiting
    else
      var before := FateOf(schedule[..|schedule| - 1], j);
      if before != Waiting then before
      else
        match schedule[|schedule| - 1]
        case Start(_, _) => Waiting
        case Finish(call, response) => if call == j then Resumed(response) else Waiting
        case Fail(call) => if call == j then Dropped else Waiting
  }

  predicate Settles(e: Event, j: nat) {
    (e.Finish? || e.Fail?) && e.call == j
  }

  /** A call waits as long as no event has named it; the first one that does settles it for good. */
  lemma {:induction false} FirstEventSettles(schedule: seq<Event>, j: nat)
    ensures FateOf(schedule, j) == Waiting <==> forall i :: j < i < |schedule| ==> !Settles(schedule[i], j)
    ensures forall i :: j < i < |schedule| && Settles(schedule[i], j)
                        && (forall m :: j < m < i ==> !Settles(schedule[m], j)) ==>
                          FateOf(schedule, j)
                          == if schedule[i].Finish? then Resumed(schedule[i].response) else Dropped
  {
    if |schedule| > j + 1 {
      var n := |schedule| - 1;
      FirstEventSettles(schedule[..n], j);
      assert forall i :: 0 <= i < n ==> schedule[..n][i] == schedule[i];
    }
  }

  /** Where call `j` stands, as a function of its answer and its fate: a rejected call has been sent its
      429; a forwarded one is suspended until it is resumed or dropped, and is sent the handler's response
      with the three headers if it is resumed; what is no call is nowhere. */
  ghost predicate CallExplained(k: int, w: int, schedule: seq<Event>, s: State, j: nat) {
    if j < |schedule| && schedule[j].Start? then
      match AnswerOf(k, w, schedule, j)
      case Rejected(response) => Stands(s, j, None, Some(response))
      case Forwarded(frame) =>
        match FateOf(schedule, j)
        case Waiting => Stands(s, j, Some(frame), None)
        case Resumed(inner) => Stands(s, j, None, Some(Decorate(k, w, frame, inner)))
        case Dropped => Stands(s, j, None, None)
    else Stands(s, j, None, None)
  }

  ghost predicate Stands(s: State, j: nat, frame: Option<Suspended>, response: Option<Response>) {
    && (if j in s.suspended then frame == Some(s.suspended[j]) else frame == None)
    && (if j in s.sent then response == Some(s.sent[j]) else response == None)
  }

  /** The list kept under a name is the one left by the starts of the host of that name alone. */
  ghost predicate ListExplained(k: int, w: int, schedule: seq<Event>, requests: Registry, name: string) {
    var own := StartTimes(schedule, Some(name));
    && (name in requests <==> own != [])
    && Lookup(requests, name) == Stored(k, w, own)
  }

  ghost predicate Explained(k: int, w: int, schedule: seq<Event>, s: State) {
    && (forall name :: ListExplained(k, w, schedule, s.requests, name))
    && (forall j: nat :: CallExplained(k, w, schedule, s, j))
  }

  /** The same with the lists of the run over all arrivals, which is what one step maintains. */
  ghost predicate Followed(k: int, w: int, schedule: seq<Event>, s: State) {
    && s.requests == RunAll(k, w, Arrivals(schedule))
    && forall j: nat :: CallExplained(k, w, schedule, s, j)
  }

  /** Whatever the schedule, the stored lists, the suspended calls and the sent responses are exactly what
      the starts of each host, and what first happened to each call, say they are. */
  lemma EveryScheduleExplained(k: int, w: int, schedule: seq<Event>, s: State)
    ensures Explained(k, w, schedule, s) <==> s == Run(k, w, schedule)
  {
    hide Run, Explained;
    RunExplained(k, w, schedule);
    if Explained(k, w, schedule, s) {
      ExplainedOnce(k, w, schedule, s, Run(k, w, schedule));
    }
  }

  lemma ExplainedOnce(k: int, w: int, schedule: seq<Event>, s: State, t: State)
    requires Explained(k, w, schedule, s) && Explained(k, w, schedule, t)
    ensures s == t
  {
    hide AnswerOf, FateOf, StartTimes, Stored, Decorate;
    forall name: string
      ensures name in s.requests <==> name in t.requests
      ensures name in s.requests ==> s.requests[name] == t.requests[name]
    {
      assert ListExplained(k, w, schedule, s.requests, name) && ListExplained(k, w, schedule, t.requests, name);
    }
    forall j: nat
      ensures j in s.suspended <==> j in t.suspended
      ensures j in s.suspended ==> s.suspended[j] == t.suspended[j]
      ensures j in s.sent <==> j in t.sent
      ensures j in s.sent ==> s.sent[j] == t.sent[j]
    {
      assert CallExplained(k, w, schedule, s, j) && CallExplained(k, w, schedule, t, j);
    }
    assert s.requests == t.requests && s.suspended == t.suspended && s.sent == t.sent;
  }

  lemma RunExplained(k: int, w: int, schedule: seq<Event>)
    ensures Explained(k, w, schedule, Run(k, w, schedule))
  {
    hide Run, RunAll, Arrivals, Project, Stored, StartTimes, CallExplained;
    var s := Run(k, w, schedule);
    RunFollowed(k, w, schedule);
    forall name: string ensures ListExplained(k, w, schedule, s.requests, name) {
      StoredPerClient(k, w, Arrivals(schedule), name);
      HostsKeptApart(schedule, Some(name));
    }
  }

  lemma {:induction false} RunFollowed(k: int, w: int, schedule: seq<Event>)
    ensures Followed(k, w, schedule, Run(k, w, schedule))
  {
    if |schedule| > 0 {
      hide Step, Followed;
      var n := |schedule| - 1;
      RunFollowed(k, w, schedule[..n]);
      StepFollowed(k, w, schedule, Run(k, w, schedule[..n]));
    }
  }

  lemma StepFollowed(k: int, w: int, schedule: seq<Event>, s: State)
    requires |schedule| > 0 && Followed(k, w, schedule[..|schedule| - 1], s)
    ensures Followed(k, w, schedule, Step(k, w, s, |schedule| - 1, schedule[|schedule| - 1]))
  {
    hide CallExplained, AnswerOf, Answer, RunAll, Arrivals, After, Decorate;
    var n := |schedule| - 1;
    var s' := Step(k, w, s, n, schedule[n]);
    StartFollowed(k, w, schedule, s);
    forall j: nat ensures CallExplained(k, w, schedule, s', j) {
      assert CallExplained(k, w, schedule[..n], s, j);
      if j == n {
        NoCallYet(k, w, schedule[..n], s);
        NewestCall(k, w, schedule, s);
      } else {
        OtherCall(k, w, schedule, s, j);
      }
    }
  }

  /** The newest event, as far as the lists and the answer go. */
  lemma StartFollowed(k: int, w: int, schedule: seq<Event>, s: State)
    requires |schedule| > 0 && Followed(k, w, schedule[..|schedule| - 1], s)
    ensures var n := |schedule| - 1;
            if schedule[n].Start? then
              var client, now := ClientKey(schedule[n].host), schedule[n].now;
              var stored := Lookup(s.requests, client);
              && s.requests[client := After(k, w, stored, now)] == RunAll(k, w, Arrivals(schedule))
              && Answer(k, w, stored, client, now) == AnswerOf(k, w, schedule, n)
            else
              s.requests == RunAll(k, w, Arrivals(schedule))
  {
    hide RunAll, Live, After, Stored, Project, StartTimes, CallExplained, Answer;
    var n := |schedule| - 1;
    if schedule[n].Start? {
      var a := Arrival(ClientKey(schedule[n].host), schedule[n].now);
      TraceSnoc(k, w, Arrivals(schedule[..n]), a);
      StoredPerClient(k, w, Arrivals(schedule[..n]), a.client);
      HostsKeptApart(schedule[..n], schedule[n].host);
    }
  }

  lemma NoCallYet(k: int, w: int, schedule: seq<Event>, s: State)
    requires CallExplained(k, w, schedule, s, |schedule|)
    ensures Stands(s, |schedule|, None, None)
  {
  }

  lemma NewestCall(k: int, w: int, schedule: seq<Event>, s: State)
    requires |schedule| > 0 && Stands(s, |schedule| - 1, None, None)
    requires var n := |schedule| - 1;
             schedule[n].Start? ==>
               var client := ClientKey(schedule[n].host);
               Answer(k, w, Lookup(s.requests, client), client, schedule[n].now) == AnswerOf(k, w, schedule, n)
    ensures var n := |schedule| - 1; CallExplained(k, w, schedule, Step(k, w, s, n, schedule[n]), n)
  {
    hide AnswerOf, Answer, Lookup, ClientKey, After, Decorate;
    var n := |schedule| - 1;
    assert FateOf(schedule, n) == Waiting;
    hide FateOf;
    if schedule[n].Start? {
      var client := ClientKey(schedule[n].host);
      var answer := Answer(k, w, Lookup(s.requests, client), client, schedule[n].now);
      assert Stands(Step(k, w, s, n, schedule[n]), n,
                    if answer.Forwarded? then Some(answer.frame) else None,
                    if answer.Rejected? then Some(answer.response) else None);
    }
  }

  lemma OtherCall(k: int, w: int, schedule: seq<Event>, s: State, j: nat)
    requires |schedule| > 0 && j != |schedule| - 1 && CallExplained(k, w, schedule[..|schedule| - 1], s, j)
    ensures CallExplained(k, w, schedule, Step(k, w, s, |schedule| - 1, schedule[|schedule| - 1]), j)
  {
    hide Answer, After, Lookup, Decorate, StartTimes, Stored;
    var n := |schedule| - 1;
    if j < n {
      assert schedule[..n][..j] == schedule[..j];
    }
  }

  lemma {:induction false} ArrivalsPrefix(schedule: seq<Event>, j: nat)
    requires j <= |schedule|
    ensures Arrivals(schedule[..j]) <= Arrivals(schedule)
    decreases |schedule|
  {
    if j < |schedule| {
      var n := |schedule| - 1;
      ArrivalsPrefix(schedule[..n], j);
      assert schedule[..n][..j] == schedule[..j];
    } else {
      assert schedule[..j] == schedule;
    }
  }

  /** A host's admissions, read off the run: the start times of the calls that it suspended. */
  function Admissions(k: int, w: int, schedule: seq<Event>, host: Option<string>): seq<real> {
    if |schedule| == 0 then []
    else
      var n := |schedule| - 1;
      var rest := Admissions(k, w, schedule[..n], host);
      var last := schedule[n];
      if last.Start? && SameBucket(last.host, host) && n in Run(k, w, schedule).suspended
      then rest + [last.now]
      else rest
  }

  /** They are the admissions of a limiter that handles the host's starts alone, one after the other. */
  lemma {:induction false} AdmissionsAreAccepted(k: int, w: int, schedule: seq<Event>, host: Option<string>)
    ensures Admissions(k, w, schedule, host) == Accepted(k, w, StartTimes(schedule, host))
  {
    if |schedule| > 0 {
      hide Run, Stored, Accepted, Live, Admits;
      var n := |schedule| - 1;
      AdmissionsAreAccepted(k, w, schedule[..n], host);
      if schedule[n].Start? {
        RunSnoc(k, w, StartTimes(schedule[..n], host), schedule[n].now);
        SameStarts(schedule[..n], schedule[n].host, host);
        NewestSuspended(k, w, schedule);
      }
    }
  }

  lemma {:induction false} SameStarts(schedule: seq<Event>, a: Option<string>, b: Option<string>)
    ensures SameBucket(a, b) ==> StartTimes(schedule, a) == StartTimes(schedule, b)
  {
    if |schedule| > 0 {
      SameStarts(schedule[..|schedule| - 1], a, b);
    }
  }

  lemma NewestSuspended(k: int, w: int, schedule: seq<Event>)
    requires |schedule| > 0 && schedule[|schedule| - 1].Start?
    ensures var n := |schedule| - 1;
            n in Run(k, w, schedule).suspended
            <==> Admits(k, w, Stored(k, w, Earlier(schedule, n)), schedule[n].now)
  {
    hide Run, Admits, Stored, Earlier, RunAll, Live;
    RunExplained(k, w, schedule);
    assert CallExplained(k, w, schedule, Run(k, w, schedule), |schedule| - 1);
  }

  /** Safety under interleaving: for every schedule of starts, finishes and failures, the calls that the
      run let through never exceed `k` for one host in a window, and each stored list is bounded. */
  lemma InterleavedWindowSafety(k: nat, w: int, schedule: seq<Event>, host: Option<string>)
    requires ClockOk(Arrivals(schedule))
    ensures WindowSafe(Admissions(k, w, schedule, host), k, w)
    ensures var requests := Run(k, w, schedule).requests;
            forall name :: name in requests ==> |requests[name]| <= k
  {
    hide Stored, StartTimes, Project, Run, Accepted, Admissions, WindowSafe, Sorted, ClockOk, Arrivals, CallExplained;
    AdmissionsAreAccepted(k, w, schedule, host);
    HostsKeptApart(schedule, host);
    ProjectSorted(Arrivals(schedule), ClientKey(host));
    AcceptedWindowSafe(k, w, StartTimes(schedule, host));
    RunExplained(k, w, schedule);
    var requests := Run(k, w, schedule).requests;
    forall name | name in requests ensures |requests[name]| <= k {
      assert ListExplained(k, w, schedule, requests, name);
      StoredBounded(k, w, StartTimes(schedule, Some(name)));
    }
  }

  /** Every admitted response carries the limit, its own reset time and a `X-RateLimit-Remaining` that is in
      `0 .. k-1`; this is the limit
      less the number of admissions in the window just after the request's own admission, whatever was
      started, finished or failed since; only where the window has no length, and so does not hold the
      request itself, is it one less than that.  Every other response is a 429 sent with exactly `k`
      admissions in the window. */
  lemma RemainingHeader(k: int, w: int, schedule: seq<Event>, j: nat)
    requires ClockOk(Arrivals(schedule))
    requires j in Run(k, w, schedule).sent
    ensures j < |schedule| && schedule[j].Start?
    ensures var response := Run(k, w, schedule).sent[j];
            var now := schedule[j].now;
            var before := Accepted(k, w, Earlier(schedule, j));
            var after := Accepted(k, w, Earlier(schedule, j) + [now]);
            var room := k - |Live(after, now, w)|;
            if |Live(before, now, w)| < k then
              && {Limit, Remaining, Reset} <= response.headers.Keys
              && response.headers[Limit] == Numeral(k)
              && response.headers[Reset] == Numeral(Truncate(now + w as real))
              && response.headers[Remaining] == Numeral(if w > 0 then room else room - 1)
              && 0 <= (if w > 0 then room else room - 1) <= k - 1
            else
              && response.status == 429
              && response.headers == map[Limit := Numeral(k), Remaining := Numeral(0),
                                         Reset := Numeral(Truncate(now + w as real)), RetryAfter := Numeral(w)]
              && |Live(before, now, w)| == if k > 0 then k else 0
  {
    hide Live, Stored, Accepted, Sorted, ClockOk, Run, StartTimes, Arrivals, FateOf, Truncate;
    RunExplained(k, w, schedule);
    assert CallExplained(k, w, schedule, Run(k, w, schedule), j);
    var now, earlier := schedule[j].now, Earlier(schedule, j);
    StartTimesSorted(schedule, j);
    CountAfterAdmission(k, w, earlier, now);
  }

  lemma CountAfterAdmission(k: int, w: int, earlier: seq<real>, now: real)
    requires Sorted(earlier + [now])
    ensures var used := |Live(Accepted(k, w, earlier), now, w)|;
            && used == |Live(Stored(k, w, earlier), now, w)|
            && used <= (if k > 0 then k else 0)
            && (used < k ==> |Live(Accepted(k, w, earlier + [now]), now, w)| == used + if w > 0 then 1 else 0)
  {
    hide Live, Stored, Accepted, Sorted;
    PruningLosesNothing(k, w, earlier, now);
    RunSnoc(k, w, earlier, now);
    LiveSnoc(Accepted(k, w, earlier), now, now, w);
    StoredBounded(k, w, earlier);
  }

  lemma StartTimesSorted(schedule: seq<Event>, j: nat)
    requires ClockOk(Arrivals(schedule))
    requires j < |schedule| && schedule[j].Start?
    ensures Sorted(Earlier(schedule, j) + [schedule[j].now])
  {
    hide ClockOk, Sorted, Project, Arrivals, StartTimes;
    var a := Arrival(ClientKey(schedule[j].host), schedule[j].now);
    HostsKeptApart(schedule[..j], schedule[j].host);
    ArrivalsAt(schedule, j);
    ArrivalsPrefix(schedule, j + 1);
    ClockOkPrefix(Arrivals(schedule[..j + 1]), Arrivals(schedule));
    ProjectSorted(Arrivals(schedule[..j + 1]), a.client);
    TraceSnoc(0, 0, Arrivals(schedule[..j]), a);
  }

  lemma ArrivalsAt(schedule: seq<Event>, j: nat)
    requires j < |schedule| && schedule[j].Start?
    ensures Arrivals(schedule[..j + 1])
         == Arrivals(schedule[..j]) + [Arrival(ClientKey(schedule[j].host), schedule[j].now)]
  {
    assert schedule[..j + 1][..j] == schedule[..j];
  }

  lemma ClockOkPrefix(short: seq<Arrival>, long: seq<Arrival>)
    requires short <= long && ClockOk(long)
    ensures ClockOk(short)
  {
  }
}
