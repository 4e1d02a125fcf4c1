/** `MetricsInterceptor.intercept` as an event machine: requests that run at the same time share one
    gauge and one histogram. */
module RequestMetrics {
  /** An error on a response stream: one that carries its own status, or any other. */
  datatype Failure = HttpFailure(status: int) | OtherFailure

  /** What can happen to a request. A stream emits any number of values and then completes, fails or is
      unsubscribed from; nothing reaches the callbacks after that. */
  datatype Event =
    | Intercept(id: nat, httpMethod: string, route: string)
    | Emit(id: nat, responseStatus: int)
    | Complete(id: nat)
    | Fail(id: nat, failure: Failure, responseStatus: int)
    | Unsubscribe(id: nat)

  /** One observation of the duration histogram; `request` says which request it came from. */
  datatype Observation = Observation(request: nat, httpMethod: string, route: string, statusCode: int)

  datatype Request = Request(httpMethod: string, route: string, open: bool)

  datatype State = State(active: int, observations: seq<Observation>, requests: map<nat, Request>)

  const INITIAL := State(0, [], map[])

  function ResolveStatusCode(failure: Failure, responseStatus: int): int {
    match failure
    case HttpFailure(status) => status
    case OtherFailure => if responseStatus >= 400 then responseStatus else 500
  }

  /** `request.method || 'UNKNOWN'` */
  function MethodLabel(httpMethod: string): string {
    if httpMethod == "" then "UNKNOWN" else httpMethod
  }

  /** `response.statusCode || 200` */
  function ValueLabel(responseStatus: int): int {
    if responseStatus == 0 then 200 else responseStatus
  }

  predicate Open(s: State, id: nat) {
    id in s.requests && s.requests[id].open
  }

  /** A request is intercepted once; everything else happens to an open stream. */
  predicate Enabled(s: State, e: Event) {
    if e.Intercept? then e.id !in s.requests else Open(s, e.id)
  }

  function Observed(s: State, id: nat, statusCode: int): State
    requires id in s.requests
  {
    s.(observations := s.observations + [Observation(id, s.requests[id].httpMethod, s.requests[id].route, statusCode)])
  }

  function Finalized(s: State, id: nat): State
    requires id in s.requests
  {
    s.(active := s.active - 1, requests := s.requests[id := s.requests[id].(open := false)])
  }

  function Step(s: State, e: Event): State {
    if !Enabled(s, e) then s
    else
      match e
      case Intercept(id, httpMethod, route) =>
        s.(active := s.active + 1, requests := s.requests[id := Request(MethodLabel(httpMethod), route, true)])
      case Emit(id, responseStatus) => Observed(s, id, ValueLabel(responseStatus))
      case Complete(id) => Finalized(s, id)
      case Fail(id, failure, responseStatus) =>
        Finalized(Observed(s, id, ResolveStatusCode(failure, responseStatus)), id)
      case Unsubscribe(id) => Finalized(s, id)
  }

  function Run(events: seq<Event>): State {
    if events == [] then INITIAL else Step(Run(events[..|events| - 1]), events[|events| - 1])
  }

  class MetricsInterceptor {
    var active: int
    var observations: seq<Observation>
    var requests: map<nat, Request>

    function Now(): State
      reads this
    {
      State(active, observations, requests)
    }

    constructor ()
      ensures Now() == INITIAL
    {
      active, observations, requests := 0, [], map[];
    }

    method Intercepted(id: nat, httpMethod: string, route: string)
      requires Enabled(Now(), Intercept(id, httpMethod, route))
      modifies this
      ensures Now() == Step(old(Now()), Intercept(id, httpMethod, route))
    {
      requests := requests[id := Request(MethodLabel(httpMethod), route, true)];
      active := active + 1;
    }

    /** The `tap` callback. */
    method OnValue(id: nat, responseStatus: int)
      requires Open(Now(), id)
      modifies this
      ensures Now() == Step(old(Now()), Emit(id, responseStatus))
    {
      ObserveDuration(id, ValueLabel(responseStatus));
    }

    /** The `catchError` callback; the stream then ends, so `finalize` follows. */
    method OnError(id: nat, failure: Failure, responseStatus: int)
      requires Open(Now(), id)
      modifies this
      ensures Now() == Step(old(Now()), Fail(id, failure, responseStatus))
    {
      ObserveDuration(id, ResolveStatusCode(failure, responseStatus));
      OnFinalize(id);
    }

    /** The `finalize` callback, on completion or when the subscriber leaves. */
    method OnFinalize(id: nat)
      requires Open(Now(), id)
      modifies this
      ensures Now() == Step(old(Now()), Complete(id)) == Step(old(Now()), Unsubscribe(id))
      ensures Now() == Finalized(old(Now()), id)
    {
      active := active - 1;
      requests := requests[id := requests[id].(open := false)];
    }

    method ObserveDuration(id: nat, statusCode: int)
      requires id in requests
      modifies this`observations
      ensures Now() == Observed(old(Now()), id, statusCode)
    {
      observations := observations + [Observation(id, requests[id].httpMethod, requests[id].route, statusCode)];
    }
  }

  // ----- the gauge -----

  function OpenRequests(s: State): set<nat> {
    set id | id in s.requests && s.requests[id].open
  }

  /** In every interleaving the gauge is the number of requests that were intercepted and not finalised, so
      it is never negative. */
  lemma {:induction false} GaugeCountsOpen(events: seq<Event>)
    ensures Run(events).active == |OpenRequests(Run(events))| >= 0
  {
    if events != [] {
      var n := |events| - 1;
      GaugeCountsOpen(events[..n]);
      StepCountsOpen(Run(events[..n]), events[n]);
    }
  }

  lemma StepCountsOpen(s: State, e: Event)
    requires s.active == |OpenRequests(s)|
    ensures Step(s, e).active == |OpenRequests(Step(s, e))|
  {
    if Enabled(s, e) {
      if e.Intercept? {
        assert OpenRequests(Step(s, e)) == OpenRequests(s) + {e.id};
      } else if e.Emit? {
        assert OpenRequests(Step(s, e)) == OpenRequests(s);
      } else {
        assert OpenRequests(Step(s, e)) == OpenRequests(s) - {e.id};
      }
    }
  }

  // ----- one request among many -----

  /** The events of one request, in order. */
  function Of(events: seq<Event>, id: nat): seq<Event> {
    if events == [] then []
    else
      var n := |events| - 1;
      Of(events[..n], id) + if events[n].id == id then [events[n]] else []
  }

  function From(observations: seq<Observation>, id: nat): seq<Observation> {
    if observations == [] then []
    else
      var n := |observations| - 1;
      From(observations[..n], id) + if observations[n].request == id then [observations[n]] else []
  }

  /** The two states agree on the request, and the second knows no other. */
  ghost predicate SameFor(s: State, alone: State, id: nat) {
    && (id in s.requests <==> id in alone.requests) && (id in s.requests ==> s.requests[id] == alone.requests[id])
    && From(s.observations, id) == alone.observations
  }

  lemma FromSnoc(observations: seq<Observation>, o: Observation, id: nat)
    ensures From(observations + [o], id) == From(observations, id) + if o.request == id then [o] else []
  {
    assert (observations + [o])[..|observations|] == observations;
  }

  lemma StepFor(s: State, alone: State, e: Event, id: nat)
    requires SameFor(s, alone, id)
    ensures SameFor(Step(s, e), if e.id == id then Step(alone, e) else alone, id)
  {
    if Enabled(s, e) && (e.Emit? || e.Fail?) {
      var o := Step(s, e).observations[|s.observations|];
      assert Step(s, e).observations == s.observations + [o];
      FromSnoc(s.observations, o, id);
    }
  }

  /** Requests do not disturb each other: in every interleaving, what one request leaves in the histogram,
      in order and with all labels, and whether it is still open, are what its own events leave alone. */
  lemma {:induction false} Undisturbed(events: seq<Event>, id: nat)
    ensures From(Run(events).observations, id) == Run(Of(events, id)).observations
    ensures Open(Run(events), id) <==> Open(Run(Of(events, id)), id)
    ensures SameFor(Run(events), Run(Of(events, id)), id)
  {
    if events != [] {
      var n := |events| - 1;
      Undisturbed(events[..n], id);
      StepFor(Run(events[..n]), Run(Of(events[..n], id)), events[n], id);
      if events[n].id == id {
        assert Of(events, id)[..|Of(events, id)| - 1] == Of(events[..n], id);
      } else {
        assert Of(events, id) == Of(events[..n], id);
      }
    }
  }

  // ----- accounting -----

  /** How many values a request emitted while it was open. */
  function Emissions(events: seq<Event>, id: nat): nat {
    if events == [] then 0
    else
      var n := |events| - 1;
      Emissions(events[..n], id) + if events[n].Emit? && events[n].id == id && Open(Run(events[..n]), id) then 1 else 0
  }

  function Errors(events: seq<Event>, id: nat): nat {
    if events == [] then 0
    else
      var n := |events| - 1;
      Errors(events[..n], id) + if events[n].Fail? && events[n].id == id && Open(Run(events[..n]), id) then 1 else 0
  }

  /** One step adds at most one observation for the request. */
  lemma StepObserves(s: State, e: Event, id: nat)
    ensures |From(Step(s, e).observations, id)|
         == |From(s.observations, id)| + if (e.Emit? || e.Fail?) && e.id == id && Open(s, id) then 1 else 0
  {
    if Enabled(s, e) && (e.Emit? || e.Fail?) {
      var o := Step(s, e).observations[|s.observations|];
      assert Step(s, e).observations == s.observations + [o];
      FromSnoc(s.observations, o, id);
    }
  }

  /** Every request is observed once for each value it emitted and once if it failed, and it fails at most
      once. */
  lemma {:induction false} ObservationsAddUp(events: seq<Event>, id: nat)
    ensures |From(Run(events).observations, id)| == Emissions(events, id) + Errors(events, id)
    ensures Errors(events, id) <= if Open(Run(events), id) || id !in Run(events).requests then 0 else 1
  {
    if events != [] {
      var n := |events| - 1;
      StepObserves(Run(events[..n]), events[n], id);
      ObservationsAddUp(events[..n], id);
      StepCloses(Run(events[..n]), events[n], id);
    }
  }

  /** What a step does to whether a request is open; a closed one stays closed. */
  lemma StepCloses(s: State, e: Event, id: nat)
    ensures var next := Step(s, e);
            && (id in s.requests ==> id in next.requests && (!Open(s, id) ==> !Open(next, id)))
            && (e.Fail? && e.id == id && Open(s, id) ==> !Open(next, id))
  {
  }

  // ----- what an observation says -----

  /** The label of a method: its name, and `UNKNOWN` only for the empty one. */
  ghost predicate MethodSays(httpMethod: string, said: string) {
    (httpMethod != "" ==> said == httpMethod) && (httpMethod == "" ==> said == "UNKNOWN")
  }

  /** The status that an event leaves: of a value the response's own, and 200 only for 0; of an error its own when it
      carries one, and otherwise the response's when that is an error status, and 500 when it is not. */
  ghost predicate StatusSays(e: Event, said: int) {
    match e
    case Emit(_, status) => (status != 0 ==> said == status) && (status == 0 ==> said == 200)
    case Fail(_, HttpFailure(status), _) => said == status
    case Fail(_, OtherFailure, status) => (status >= 400 ==> said == status) && (status < 400 ==> said == 500)
    case _ => false
  }

  predicate TookEffect(events: seq<Event>, i: nat) {
    i < |events| && Enabled(Run(events[..i]), events[i])
  }

  lemma EffectBefore(events: seq<Event>, n: nat, i: nat)
    requires i < n <= |events|
    ensures TookEffect(events[..n], i) <==> TookEffect(events, i)
  {
    assert events[..n][..i] == events[..i];
  }

  /** A request is known by the method and the route that it was intercepted with. */
  ghost predicate InterceptedAs(events: seq<Event>, id: nat, httpMethod: string, route: string) {
    exists k :: 0 <= k < |events| && TookEffect(events, k) && events[k].Intercept? && events[k].id == id
             && MethodSays(events[k].httpMethod, httpMethod) && events[k].route == route
  }

  lemma InterceptedLater(events: seq<Event>, n: nat, id: nat, httpMethod: string, route: string)
    requires n <= |events| && InterceptedAs(events[..n], id, httpMethod, route)
    ensures InterceptedAs(events, id, httpMethod, route)
  {
    var k :| 0 <= k < n && TookEffect(events[..n], k) && events[..n][k].Intercept? && events[..n][k].id == id
          && MethodSays(events[..n][k].httpMethod, httpMethod) && events[..n][k].route == route;
    EffectBefore(events, n, k);
    assert events[k] == events[..n][k];
  }

  lemma {:induction false} RequestIsIntercepted(events: seq<Event>, id: nat)
    requires id in Run(events).requests
    ensures InterceptedAs(events, id, Run(events).requests[id].httpMethod, Run(events).requests[id].route)
  {
    var n := |events| - 1;
    var before := Run(events[..n]);
    if id in before.requests {
      RequestIsIntercepted(events[..n], id);
      InterceptedLater(events, n, id, before.requests[id].httpMethod, before.requests[id].route);
    } else {
      assert TookEffect(events, n) && events[n].Intercept?;
    }
  }

  /** Every observation of every run comes from one value or error of an open request, and carries that request's
      method and route and the status of that event. */
  lemma {:induction false} ObservationMeans(events: seq<Event>, r: nat)
    requires r < |Run(events).observations|
    ensures var o := Run(events).observations[r];
            && InterceptedAs(events, o.request, o.httpMethod, o.route)
            && exists i :: 0 <= i < |events| && TookEffect(events, i) && events[i].id == o.request
                        && StatusSays(events[i], o.statusCode)
  {
    var n := |events| - 1;
    var before, o := Run(events[..n]), Run(events).observations[r];
    if r < |before.observations| {
      ObservationMeans(events[..n], r);
      InterceptedLater(events, n, o.request, o.httpMethod, o.route);
      var i :| 0 <= i < n && TookEffect(events[..n], i) && events[..n][i].id == o.request
            && StatusSays(events[..n][i], o.statusCode);
      EffectBefore(events, n, i);
      assert events[i] == events[..n][i];
    } else {
      assert TookEffect(events, n) && o.request == events[n].id;
      RequestIsIntercepted(events[..n], o.request);
      InterceptedLater(events, n, o.request, o.httpMethod, o.route);
      assert StatusSays(events[n], o.statusCode);
    }
  }

  /** A request that emits one value and completes, or that only fails, is observed exactly once, with its
      method, its route and its status, however it interleaves with others. */
  lemma ObservedOnce(events: seq<Event>, id: nat, httpMethod: string, route: string, status: int, failure: Failure)
    requires || Of(events, id) == [Intercept(id, httpMethod, route), Emit(id, status), Complete(id)]
             || Of(events, id) == [Intercept(id, httpMethod, route), Fail(id, failure, status)]
    ensures !Open(Run(events), id)
    ensures var left := From(Run(events).observations, id);
            && |left| == 1 && left[0].request == id && left[0].route == route
            && MethodSays(httpMethod, left[0].httpMethod)
            && StatusSays(Of(events, id)[1], left[0].statusCode)
  {
    Undisturbed(events, id);
    if |Of(events, id)| == 3 {
      AloneCompletes(id, httpMethod, route, status);
    } else {
      AloneFails(id, httpMethod, route, failure, status);
    }
  }

  lemma OneMore(events: seq<Event>, e: Event)
    ensures Run(events + [e]) == Step(Run(events), e)
  {
    assert (events + [e])[..|events|] == events;
  }

  lemma AloneOpens(id: nat, httpMethod: string, route: string)
    ensures Run([Intercept(id, httpMethod, route)])
         == State(1, [], map[id := Request(MethodLabel(httpMethod), route, true)])
  {
    OneMore([], Intercept(id, httpMethod, route));
    assert [] + [Intercept(id, httpMethod, route)] == [Intercept(id, httpMethod, route)];
  }

  lemma AloneEmits(id: nat, httpMethod: string, route: string, status: int)
    ensures var s := Run([Intercept(id, httpMethod, route), Emit(id, status)]);
            && s.observations == [Observation(id, MethodLabel(httpMethod), route, ValueLabel(status))]
            && Open(s, id) && s.requests[id] == Request(MethodLabel(httpMethod), route, true)
  {
    AloneOpens(id, httpMethod, route);
    OneMore([Intercept(id, httpMethod, route)], Emit(id, status));
    assert [Intercept(id, httpMethod, route)] + [Emit(id, status)]
             == [Intercept(id, httpMethod, route), Emit(id, status)];
  }

  lemma AloneCompletes(id: nat, httpMethod: string, route: string, status: int)
    ensures var s := Run([Intercept(id, httpMethod, route), Emit(id, status), Complete(id)]);
            s.observations == [Observation(id, MethodLabel(httpMethod), route, ValueLabel(status))] && !Open(s, id)
  {
    var two := [Intercept(id, httpMethod, route), Emit(id, status)];
    AloneEmits(id, httpMethod, route, status);
    OneMore(two, Complete(id));
    assert two + [Complete(id)] == [Intercept(id, httpMethod, route), Emit(id, status), Complete(id)];
  }

  lemma AloneFails(id: nat, httpMethod: string, route: string, failure: Failure, status: int)
    ensures var s := Run([Intercept(id, httpMethod, route), Fail(id, failure, status)]);
            && s.observations == [Observation(id, MethodLabel(httpMethod), route, ResolveStatusCode(failure, status))]
            && !Open(s, id)
  {
    AloneOpens(id, httpMethod, route);
    OneMore([Intercept(id, httpMethod, route)], Fail(id, failure, status));
    assert [Intercept(id, httpMethod, route)] + [Fail(id, failure, status)]
        == [Intercept(id, httpMethod, route), Fail(id, failure, status)];
  }

  /** A request whose subscriber leaves before any value is never observed; one that emits and then fails is
      observed twice. */
  lemma DroppedOrDoubled(events: seq<Event>, id: nat, httpMethod: string, route: string, status: int, failure: Failure)
    ensures Of(events, id) == [Intercept(id, httpMethod, route), Unsubscribe(id)] ==>
              From(Run(events).observations, id) == [] && !Open(Run(events), id)
    ensures Of(events, id) == [Intercept(id, httpMethod, route), Emit(id, status), Fail(id, failure, status)] ==>
              |From(Run(events).observations, id)| == 2 && !Open(Run(events), id)
  {
    Undisturbed(events, id);
    if Of(events, id) == [Intercept(id, httpMethod, route), Unsubscribe(id)] {
      AloneLeaves(id, httpMethod, route);
    } else if Of(events, id) == [Intercept(id, httpMethod, route), Emit(id, status), Fail(id, failure, status)] {
      AloneEmitsAndFails(id, httpMethod, route, status, failure);
    }
  }

  lemma AloneLeaves(id: nat, httpMethod: string, route: string)
    ensures var s := Run([Intercept(id, httpMethod, route), Unsubscribe(id)]); s.observations == [] && !Open(s, id)
  {
    AloneOpens(id, httpMethod, route);
    OneMore([Intercept(id, httpMethod, route)], Unsubscribe(id));
    assert [Intercept(id, httpMethod, route)] + [Unsubscribe(id)]
             == [Intercept(id, httpMethod, route), Unsubscribe(id)];
  }

  lemma AloneEmitsAndFails(id: nat, httpMethod: string, route: string, status: int, failure: Failure)
    ensures var s := Run([Intercept(id, httpMethod, route), Emit(id, status), Fail(id, failure, status)]);
            |s.observations| == 2 && !Open(s, id)
  {
    var two := [Intercept(id, httpMethod, route), Emit(id, status)];
    AloneEmits(id, httpMethod, route, status);
    OneMore(two, Fail(id, failure, status));
    assert two + [Fail(id, failure, status)]
             == [Intercept(id, httpMethod, route), Emit(id, status), Fail(id, failure, status)];
  }
}
