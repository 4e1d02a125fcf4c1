/** `HealthCoordinator.check`: all indicators are started at once, and each writes its snapshot into one
    shared record when it completes, in whatever order that happens. */
module HealthFanOut {
  import opened Results

  datatype Status = Up | Down

  datatype Snapshot = Snapshot(message: Option<string>, status: Status)

  /** How an indicator's own check ends: with a snapshot, with an `Error`, or with another thrown value. */
  datatype Ending = Resolved(snapshot: Snapshot) | ThrewError(message: string) | ThrewOther

  datatype Indicator = Indicator(key: string, ending: Ending)

  type Snapshots = map<string, Snapshot>

  datatype SystemHealth = SystemHealth(indicators: Snapshots, status: Status)

  function CheckIndicator(ending: Ending): Snapshot {
    match ending
    case Resolved(snapshot) => snapshot
    case ThrewError(message) => Snapshot(Some(message), Down)
    case ThrewOther => Snapshot(Some("Health check failed"), Down)
  }

  predicate EveryUp(snapshots: Snapshots) {
    forall k <- snapshots :: snapshots[k].status == Up
  }

  function Health(snapshots: Snapshots): SystemHealth {
    SystemHealth(snapshots, if EveryUp(snapshots) then Up else Down)
  }

  // ----- completion orders -----

  /** A run so far: the positions of the indicators that have completed, in order of completion. */
  ghost predicate Started(indicators: seq<Indicator>, order: seq<nat>) {
    && (forall i :: 0 <= i < |order| ==> order[i] < |indicators|)
    && (forall i, j :: 0 <= i < j < |order| ==> order[i] != order[j])
  }

  ghost predicate Complete(indicators: seq<Indicator>, order: seq<nat>) {
    Started(indicators, order) && forall p :: 0 <= p < |indicators| ==> p in order
  }

  /** The shared record after the completions of `order`. */
  ghost function After(indicators: seq<Indicator>, order: seq<nat>): Snapshots
    requires Started(indicators, order)
  {
    if order == [] then map[]
    else
      var last := indicators[order[|order| - 1]];
      After(indicators, order[..|order| - 1])[last.key := CheckIndicator(last.ending)]
  }

  function Positions(n: nat): (r: set<nat>)
    ensures forall p: nat :: p in r <==> p < n
  {
    if n == 0 then {} else Positions(n - 1) + {n - 1}
  }

  class HealthCoordinator {
    const indicators: seq<Indicator>
    var snapshots: Snapshots
    var pending: set<nat>
    ghost var order: seq<nat>

    ghost predicate Valid()
      reads this
    {
      && Started(indicators, order) && snapshots == After(indicators, order)
      && pending == set p | 0 <= p < |indicators| && p !in order
    }

    /** `check` starts every indicator. */
    constructor (indicators: seq<Indicator>)
      ensures Valid() && this.indicators == indicators && order == []
    {
      this.indicators, snapshots, order := indicators, map[], [];
      pending := Positions(|indicators|);
    }

    /** The indicator at position `p` completes. */
    method Finish(p: nat)
      requires Valid() && p in pending
      modifies this
      ensures Valid() && order == old(order) + [p] && pending == old(pending) - {p}
      ensures |pending| == |old(pending)| - 1
      ensures snapshots == old(snapshots)[indicators[p].key := CheckIndicator(indicators[p].ending)]
    {
      snapshots := snapshots[indicators[p].key := CheckIndicator(indicators[p].ending)];
      pending := pending - {p};
      order := order + [p];
      assert order[..|order| - 1] == old(order);
    }

    /** Every promise has settled. */
    method Settle() returns (health: SystemHealth)
      requires Valid() && pending == {}
      ensures Complete(indicators, order) && health == Health(After(indicators, order))
    {
      assert forall p: nat :: p < |indicators| && p !in order ==> p in pending;
      health := Health(snapshots);
    }
  }

  // ----- order independence -----

  /** Indicators under one key end with the same snapshot; distinct keys are the usual case. */
  ghost predicate Agree(indicators: seq<Indicator>) {
    forall i, j :: 0 <= i < |indicators| && 0 <= j < |indicators| && indicators[i].key == indicators[j].key ==>
      CheckIndicator(indicators[i].ending) == CheckIndicator(indicators[j].ending)
  }

  ghost predicate DistinctKeys(indicators: seq<Indicator>) {
    forall i, j :: 0 <= i < j < |indicators| ==> indicators[i].key != indicators[j].key
  }

  /** The record holds the keys of the completed indicators and, under each, the snapshot of one of them. */
  lemma {:induction false} AfterHolds(indicators: seq<Indicator>, order: seq<nat>, k: string)
    requires Started(indicators, order)
    ensures k in After(indicators, order) <==> exists i :: 0 <= i < |order| && indicators[order[i]].key == k
    ensures k in After(indicators, order) ==>
              exists i :: 0 <= i < |order| && indicators[order[i]].key == k
                       && After(indicators, order)[k] == CheckIndicator(indicators[order[i]].ending)
  {
    if order != [] {
      var n := |order| - 1;
      AfterHolds(indicators, order[..n], k);
      if indicators[order[n]].key != k && k in After(indicators, order) {
        var i :| 0 <= i < n && indicators[order[..n][i]].key == k
            && After(indicators, order[..n])[k] == CheckIndicator(indicators[order[..n][i]].ending);
        assert order[i] == order[..n][i];
      }
    }
  }

  /** After a complete run, whatever its order, the record holds exactly the indicator keys, each with its
      snapshot: the result of running the indicators one after another. */
  lemma CompleteHolds(indicators: seq<Indicator>, order: seq<nat>)
    requires Complete(indicators, order) && Agree(indicators)
    ensures forall k :: k in After(indicators, order) <==> exists p :: 0 <= p < |indicators| && indicators[p].key == k
    ensures forall p :: 0 <= p < |indicators| ==>
              indicators[p].key in After(indicators, order)
              && After(indicators, order)[indicators[p].key] == CheckIndicator(indicators[p].ending)
  {
    forall k ensures k in After(indicators, order) <==> exists p :: 0 <= p < |indicators| && indicators[p].key == k {
      AfterHolds(indicators, order, k);
      if p :| 0 <= p < |indicators| && indicators[p].key == k {
        assert p in order;
        var i :| 0 <= i < |order| && order[i] == p;
        assert indicators[order[i]].key == k;
      }
    }
    forall p | 0 <= p < |indicators|
      ensures indicators[p].key in After(indicators, order)
      ensures After(indicators, order)[indicators[p].key] == CheckIndicator(indicators[p].ending)
    {
      assert indicators[p].key in After(indicators, order);
      AfterHolds(indicators, order, indicators[p].key);
    }
  }

  /** What each indicator is reported with: its own snapshot when it resolves; when it throws, `down`, with the
      message of an `Error` and a fixed message for anything else. */
  lemma CompleteReports(indicators: seq<Indicator>, order: seq<nat>, p: nat)
    requires Complete(indicators, order) && Agree(indicators) && p < |indicators|
    ensures var r, key := After(indicators, order), indicators[p].key;
            && key in r
            && match indicators[p].ending
               case Resolved(snapshot) => r[key] == snapshot
               case ThrewError(message) => r[key].status == Down && r[key].message == Some(message)
               case ThrewOther => r[key].status == Down && r[key].message == Some("Health check failed")
  {
    CompleteHolds(indicators, order);
  }

  lemma SameRecord(indicators: seq<Indicator>, a: seq<nat>, b: seq<nat>)
    requires Complete(indicators, a) && Complete(indicators, b) && Agree(indicators)
    ensures After(indicators, a) == After(indicators, b)
  {
    CompleteHolds(indicators, a);
    CompleteHolds(indicators, b);
    var x, y := After(indicators, a), After(indicators, b);
    forall k | k in x ensures k in y && x[k] == y[k] {
      var p :| 0 <= p < |indicators| && indicators[p].key == k;
    }
    assert forall k :: k in y ==> k in x;
  }

  /** The order in which the indicator at `p` completes last. */
  function Last(n: nat, p: nat): (order: seq<nat>)
    requires p < n
    ensures |order| == n && order[n - 1] == p
    ensures forall i :: 0 <= i < n - 1 ==> order[i] == if i < p then i else i + 1
  {
    seq(n, i requires 0 <= i < n => if i == n - 1 then p else if i < p then i else i + 1)
  }

  lemma LastCompletes(indicators: seq<Indicator>, p: nat)
    requires p < |indicators|
    ensures Complete(indicators, Last(|indicators|, p))
    ensures var k, r := indicators[p].key, After(indicators, Last(|indicators|, p));
            k in r && r[k] == CheckIndicator(indicators[p].ending)
  {
    var n, order := |indicators|, Last(|indicators|, p);
    forall q | 0 <= q < n ensures q in order {
      assert order[if q == p then n - 1 else if q < p then q else q - 1] == q;
    }
  }

  /** The result is independent of the completion order exactly when indicators that share a key agree. */
  lemma OrderIndependentIff(indicators: seq<Indicator>)
    ensures (forall a, b :: Complete(indicators, a) && Complete(indicators, b) ==>
             After(indicators, a) == After(indicators, b))
       <==> Agree(indicators)
  {
    if Agree(indicators) {
      forall a, b | Complete(indicators, a) && Complete(indicators, b)
        ensures After(indicators, a) == After(indicators, b)
      {
        SameRecord(indicators, a, b);
      }
    } else {
      var i, j :| 0 <= i < |indicators| && 0 <= j < |indicators| && indicators[i].key == indicators[j].key
               && CheckIndicator(indicators[i].ending) != CheckIndicator(indicators[j].ending);
      LastCompletes(indicators, i);
      LastCompletes(indicators, j);
    }
  }

  function Keys(indicators: seq<Indicator>): (r: set<string>)
    ensures forall k :: k in r <==> exists p :: 0 <= p < |indicators| && indicators[p].key == k
  {
    if indicators == [] then {}
    else
      var n := |indicators| - 1;
      assert forall p :: 0 <= p < n ==> indicators[..n][p] == indicators[p];
      Keys(indicators[..n]) + {indicators[n].key}
  }

  lemma {:induction false} KeyCount(indicators: seq<Indicator>)
    requires DistinctKeys(indicators)
    ensures |Keys(indicators)| == |indicators|
  {
    if indicators != [] {
      var n := |indicators| - 1;
      KeyCount(indicators[..n]);
      assert indicators[n].key !in Keys(indicators[..n]);
    }
  }

  /** With distinct keys a complete run ends with one snapshot per indicator, and the system is up exactly
      when every indicator resolved with `up`: one that throws brings it down. */
  lemma UpIff(indicators: seq<Indicator>, order: seq<nat>)
    requires DistinctKeys(indicators) && Complete(indicators, order)
    ensures var health := Health(After(indicators, order));
            && health.indicators.Keys == Keys(indicators)
            && |health.indicators| == |indicators|
            && (health.status == Up <==>
                  forall p :: 0 <= p < |indicators| ==>
                    indicators[p].ending.Resolved? && indicators[p].ending.snapshot.status == Up)
  {
    assert Agree(indicators);
    CompleteHolds(indicators, order);
    var r := After(indicators, order);
    assert r.Keys == Keys(indicators);
    KeyCount(indicators);
    assert |r.Keys| == |r|;
    forall p | 0 <= p < |indicators|
      ensures r[indicators[p].key].status == Up
         <==> (indicators[p].ending.Resolved? && indicators[p].ending.snapshot.status == Up)
    {
    }
    if EveryUp(r) {
      forall p | 0 <= p < |indicators| ensures r[indicators[p].key].status == Up {
        assert indicators[p].key in r;
      }
    }
  }
}
