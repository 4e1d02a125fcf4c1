/** The health gauge under overlapping scrapes: each scrape resets the gauge, waits for a check, and sets
    one value per indicator. The HTTP health endpoint answers from the same check. */
module HealthGauge {
  import opened Results
  import opened HealthFanOut

  type Gauge = map<string, int>

  function Encoded(health: SystemHealth): Gauge {
    map k | k in health.indicators :: if health.indicators[k].status == Up then 1 else 0
  }

  const SERVICE_UNAVAILABLE := 503

  /** The HTTP adapter: the result, or a 503. */
  function Respond(health: SystemHealth): Result<SystemHealth, int> {
    if health.status == Down then Failure(SERVICE_UNAVAILABLE) else Success(health)
  }

  /** What happens to the gauge: a scrape starts collecting, its check finishes, and the client reads the gauge
      into the answer of the scrape. */
  datatype Event = Collect(scrape: nat) | Checked(scrape: nat, health: SystemHealth) | Render(scrape: nat)

  /** `finished` are the scrapes whose check is done and whose answer is not yet rendered. */
  datatype State = State(gauge: Gauge, inFlight: set<nat>, finished: set<nat>, rendered: seq<(nat, Gauge)>)

  const INITIAL := State(map[], {}, {}, [])

  predicate Enabled(s: State, e: Event) {
    match e
    case Collect(scrape) => scrape !in s.inFlight && scrape !in s.finished
    case Checked(scrape, _) => scrape in s.inFlight
    case Render(scrape) => scrape in s.finished
  }

  function Step(s: State, e: Event): State {
    if !Enabled(s, e) then s
    else
      match e
      case Collect(scrape) => s.(gauge := map[], inFlight := s.inFlight + {scrape})
      case Checked(scrape, health) =>
        s.(gauge := s.gauge + Encoded(health), inFlight := s.inFlight - {scrape}, finished := s.finished + {scrape})
      case Render(scrape) => s.(finished := s.finished - {scrape}, rendered := s.rendered + [(scrape, s.gauge)])
  }

  function Run(events: seq<Event>): State {
    if events == [] then INITIAL else Step(Run(events[..|events| - 1]), events[|events| - 1])
  }

  class HealthMetricsService {
    var gauge: Gauge
    var inFlight: set<nat>
    var finished: set<nat>
    var rendered: seq<(nat, Gauge)>

    function Now(): State
      reads this
    {
      State(gauge, inFlight, finished, rendered)
    }

    constructor ()
      ensures Now() == INITIAL
    {
      gauge, inFlight, finished, rendered := map[], {}, {}, [];
    }

    /** The callback up to its `await`. */
    method BeginCollect(scrape: nat)
      requires Enabled(Now(), Collect(scrape))
      modifies this
      ensures Now() == Step(old(Now()), Collect(scrape))
    {
      gauge := map[];
      inFlight := inFlight + {scrape};
    }

    /** The callback after its `await`: one `set` per entry, in whatever order the record lists them. */
    method EndCollect(scrape: nat, health: SystemHealth)
      requires Enabled(Now(), Checked(scrape, health))
      modifies this
      ensures Now() == Step(old(Now()), Checked(scrape, health))
    {
      var left := health.indicators.Keys;
      while left != {}
        invariant left <= health.indicators.Keys
        invariant inFlight == old(inFlight) && finished == old(finished) && rendered == old(rendered)
        invariant gauge == old(gauge) + map k | k in health.indicators && k !in left :: Encoded(health)[k]
        decreases left
      {
        var indicator :| indicator in left;
        gauge := gauge[indicator := if health.indicators[indicator].status == Up then 1 else 0];
        left := left - {indicator};
      }
      inFlight, finished := inFlight - {scrape}, finished + {scrape};
    }

    /** The client writes the gauge's values into the answer of the scrape. */
    method Render(scrape: nat)
      requires Enabled(Now(), Event.Render(scrape))
      modifies this
      ensures Now() == Step(old(Now()), Event.Render(scrape))
    {
      finished, rendered := finished - {scrape}, rendered + [(scrape, gauge)];
    }
  }

  // ----- every interleaving -----

  /** Every check that finishes reports on the same indicators, and its status is theirs: what `UpIff` says
      of the coordinator. */
  ghost predicate FromCoordinator(events: seq<Event>, keys: set<string>) {
    forall i :: 0 <= i < |events| && events[i].Checked? ==>
      events[i].health.indicators.Keys == keys && events[i].health == Health(events[i].health.indicators)
  }

  /** Event `i` changed the gauge: it took effect, and it is no rendering. */
  predicate Changes(events: seq<Event>, i: nat) {
    i < |events| && !events[i].Render? && Enabled(Run(events[..i]), events[i])
  }

  /** The last event that changed the gauge. */
  function LastChange(events: seq<Event>): Option<Event> {
    if events == [] then None
    else
      var n := |events| - 1;
      if !events[n].Render? && Enabled(Run(events[..n]), events[n]) then Some(events[n]) else LastChange(events[..n])
  }

  lemma ChangesBefore(events: seq<Event>, n: nat, i: nat)
    requires i < n <= |events|
    ensures Changes(events[..n], i) <==> Changes(events, i)
  {
    assert events[..n][..i] == events[..i];
  }

  /** Where the last change stands. */
  lemma {:induction false} LastChangeAt(events: seq<Event>) returns (p: nat)
    ensures LastChange(events).Some? ==> Changes(events, p) && events[p] == LastChange(events).value
    ensures LastChange(events).Some? ==> forall i :: p < i < |events| ==> !Changes(events, i)
    ensures LastChange(events).None? ==> forall i :: 0 <= i < |events| ==> !Changes(events, i)
  {
    p := 0;
    if events != [] {
      var n := |events| - 1;
      p := LastChangeAt(events[..n]);
      forall i | 0 <= i < n ensures Changes(events[..n], i) <==> Changes(events, i) {
        ChangesBefore(events, n, i);
      }
      if Changes(events, n) {
        p := n;
      }
    }
  }

  lemma {:induction false} NothingChanged(events: seq<Event>)
    ensures LastChange(events).None? ==> Run(events) == INITIAL
  {
    if events != [] {
      NothingChanged(events[..|events| - 1]);
    }
  }

  /** In every interleaving the gauge shows nothing after a reset, and otherwise exactly the check that
      finished last, however many scrapes overlap. */
  lemma {:induction false} GaugeShows(events: seq<Event>, keys: set<string>)
    requires FromCoordinator(events, keys)
    ensures var s := Run(events);
            match LastChange(events)
            case None => s == INITIAL
            case Some(Collect(scrape)) => s.gauge == map[] && scrape in s.inFlight
            case Some(Checked(_, health)) =>
              s.gauge == Encoded(health) && s.gauge.Keys == keys && health == Health(health.indicators)
            case Some(Render(_)) => false
  {
    if events != [] {
      var n := |events| - 1;
      assert FromCoordinator(events[..n], keys);
      GaugeShows(events[..n], keys);
      NothingChanged(events[..n]);
    }
  }

  /** The value under each label is 1 when the check that finished last found the indicator up, and 0 when down. */
  lemma GaugeValues(events: seq<Event>, keys: set<string>, k: string)
    requires FromCoordinator(events, keys) && LastChange(events).Some? && LastChange(events).value.Checked? && k in keys
    ensures var gauge, health := Run(events).gauge, LastChange(events).value.health;
            && k in gauge && k in health.indicators
            && (health.indicators[k].status == Up ==> gauge[k] == 1)
            && (health.indicators[k].status == Down ==> gauge[k] == 0)
  {
    GaugeShows(events, keys);
  }

  /** Once a scrape has set its values and no reset came after, the labels are exactly the indicator keys;
      between a reset and the next finished check there are none. */
  lemma LabelsIff(events: seq<Event>, keys: set<string>)
    requires FromCoordinator(events, keys)
    ensures var shown := LastChange(events).Some? && LastChange(events).value.Checked?;
            Run(events).gauge.Keys == if shown then keys else {}
  {
    GaugeShows(events, keys);
  }

  lemma AnyChange(events: seq<Event>, i: nat)
    requires i < |events| && Changes(events, i)
    ensures LastChange(events).Some?
  {
    var _ := LastChangeAt(events);
  }

  /** With no scrape in flight, once any has started, the gauge encodes the check that finished last, and
      it is all ones exactly when the HTTP adapter would return that same result rather than a 503. */
  lemma QuiescentGauge(events: seq<Event>, keys: set<string>, i: nat)
    requires FromCoordinator(events, keys) && Run(events).inFlight == {}
    requires i < |events| && Changes(events, i)
    ensures LastChange(events).Some? && LastChange(events).value.Checked?
    ensures var gauge, health := Run(events).gauge, LastChange(events).value.health;
            && gauge == Encoded(health)
            && ((forall k <- gauge :: gauge[k] == 1) <==> Respond(health) == Success(health))
            && ((exists k <- gauge :: gauge[k] == 0) <==> Respond(health) == Failure(503))
  {
    AnyChange(events, i);
    GaugeShows(events, keys);
    AllOnesIff(LastChange(events).value.health);
  }

  lemma AllOnesIff(health: SystemHealth)
    ensures (forall k <- Encoded(health) :: Encoded(health)[k] == 1) <==> EveryUp(health.indicators)
  {
    assert forall k :: k in health.indicators ==> (Encoded(health)[k] == 1 <==> health.indicators[k].status == Up);
    if forall k <- Encoded(health) :: Encoded(health)[k] == 1 {
      forall k | k in health.indicators ensures health.indicators[k].status == Up {
        assert k in Encoded(health);
      }
    }
  }

  // ----- what a scrape is answered -----

  /** Another scrape began to collect after event `j`, and no check has finished since. */
  ghost predicate EmptiedSince(events: seq<Event>, j: nat) {
    exists i :: j < i < |events| && Changes(events, i) && events[i].Collect?
             && forall l :: i < l < |events| && Changes(events, l) ==> events[l].Collect?
  }

  lemma EmptiedIff(events: seq<Event>, j: nat)
    requires Changes(events, j) && events[j].Checked?
    ensures LastChange(events).Some? && (LastChange(events).value.Collect? <==> EmptiedSince(events, j))
  {
    AnyChange(events, j);
    var p := LastChangeAt(events);
    assert p >= j;
    if EmptiedSince(events, j) {
      var i :| j < i < |events| && Changes(events, i) && events[i].Collect?
            && forall l :: i < l < |events| && Changes(events, l) ==> events[l].Collect?;
      assert p >= i;
    }
  }

  /** A scrape whose check finished as event `j` and whose answer is rendered next: the answer holds the indicator
      labels if and only if the gauge was not emptied in between, and otherwise none. */
  lemma RenderedKeysIff(events: seq<Event>, keys: set<string>, j: nat, scrape: nat)
    requires FromCoordinator(events, keys) && keys != {}
    requires Changes(events, j) && events[j].Checked? && events[j].scrape == scrape && scrape in Run(events).finished
    ensures var rendered := Run(events + [Render(scrape)]).rendered;
            && rendered == Run(events).rendered + [(scrape, Run(events).gauge)]
            && (Run(events).gauge.Keys == keys <==> !EmptiedSince(events, j))
            && (EmptiedSince(events, j) ==> Run(events).gauge == map[])
  {
    var longer := events + [Render(scrape)];
    assert longer[..|events|] == events;
    GaugeShows(events, keys);
    EmptiedIff(events, j);
  }

  /** When no other check finishes in between, the answer holds the scrape's own check if and only if no other
      scrape began to collect in between. */
  lemma RenderedOwnIff(events: seq<Event>, keys: set<string>, j: nat)
    requires FromCoordinator(events, keys) && keys != {}
    requires Changes(events, j) && events[j].Checked?
    requires forall i :: j < i < |events| && Changes(events, i) ==> !events[i].Checked?
    ensures Run(events).gauge == Encoded(events[j].health)
       <==> forall i :: j < i < |events| && Changes(events, i) ==> !events[i].Collect?
  {
    GaugeShows(events, keys);
    AnyChange(events, j);
    var p := LastChangeAt(events);
    assert p >= j;
    assert Encoded(events[j].health).Keys == keys;
    assert Run(events).gauge == map[] ==> Run(events).gauge.Keys == {};
  }

  /** Every answer of every run is empty or exactly one finished check: values of two checks are never mixed. */
  lemma {:induction false} RenderedNeverMixed(events: seq<Event>, keys: set<string>, r: nat)
    requires FromCoordinator(events, keys) && r < |Run(events).rendered|
    ensures var shown := Run(events).rendered[r].1;
            shown == map[] || exists i :: 0 <= i < |events| && events[i].Checked? && shown == Encoded(events[i].health)
  {
    var n := |events| - 1;
    var init := events[..n];
    assert FromCoordinator(init, keys);
    if r < |Run(init).rendered| {
      RenderedNeverMixed(init, keys, r);
      if exists i :: 0 <= i < n && init[i].Checked? && Run(events).rendered[r].1 == Encoded(init[i].health) {
        var i :| 0 <= i < n && init[i].Checked? && Run(events).rendered[r].1 == Encoded(init[i].health);
        assert events[i] == init[i];
      }
    } else {
      GaugeShows(init, keys);
      var p := LastChangeAt(init);
      if LastChange(init).Some? {
        assert events[p] == init[p];
      }
    }
  }

  lemma OneMore(events: seq<Event>, e: Event)
    ensures Run(events + [e]) == Step(Run(events), e)
  {
    assert (events + [e])[..|events|] == events;
  }

  /** The empty answer does occur in this machine: another scrape's reset comes in between. */
  lemma RenderedEmpty(health: SystemHealth)
    requires health.indicators != map[]
    ensures var finished := [Collect(0)] + [Checked(0, health)];
            && Run(finished).gauge == Encoded(health) != map[]
            && Run(finished + [Collect(1)] + [Render(0)]).rendered == [(0, map[])]
  {
    var shown := Encoded(health);
    OneMore([], Collect(0));
    OneMore([Collect(0)], Checked(0, health));
    OneMore([Collect(0)] + [Checked(0, health)], Collect(1));
    OneMore([Collect(0)] + [Checked(0, health)] + [Collect(1)], Render(0));
    assert [] + [Collect(0)] == [Collect(0)] && map[] + shown == shown;
    var k :| k in health.indicators;
    assert k in shown;
  }
}
