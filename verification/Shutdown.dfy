/** `registerGracefulShutdown`: a signal starts one close and one timer; the close settles or the timer
    ends the process. */
module Shutdown {
  /** A signal arrives, the pending close settles, or a millisecond passes. The event loop fires a timer
      that is due before anything else happens. */
  datatype Event = Signal | CloseResolves | CloseRejects | Elapse

  datatype Phase =
    | Running
    | Draining(left: nat)   // milliseconds until the armed timer fires
    | Closed                // the close resolved; the process ends when its event loop is empty
    | Failed                // the close rejected; likewise, with exit code 1
    | Forced                // the timer fired and ended the process

  datatype State = State(phase: Phase, closesStarted: nat)

  const INITIAL := State(Running, 0)

  /** The longest delay a timer takes; a longer one is replaced by one millisecond. */
  const LONGEST_DELAY := 0x7FFF_FFFF

  function Delay(timeoutMs: int): (r: nat)
    ensures r == if 1 <= timeoutMs <= 2147483647 then timeoutMs else 1
  {
    if 1 <= timeoutMs <= LONGEST_DELAY then timeoutMs else 1
  }

  function Step(s: State, e: Event, timeoutMs: int): State {
    match e
    case Signal => if s.phase.Running? then State(Draining(Delay(timeoutMs)), s.closesStarted + 1) else s
    case CloseResolves => if s.phase.Draining? then s.(phase := Closed) else s
    case CloseRejects => if s.phase.Draining? then s.(phase := Failed) else s
    case Elapse =>
      if !s.phase.Draining? then s
      else s.(phase := if s.phase.left <= 1 then Forced else Draining(s.phase.left - 1))
  }

  function Run(events: seq<Event>, timeoutMs: int): State {
    if events == [] then INITIAL else Step(Run(events[..|events| - 1], timeoutMs), events[|events| - 1], timeoutMs)
  }

  /** The exit code the process ends with, once its fate is decided. */
  function ExitCode(phase: Phase): int {
    if phase.Failed? || phase.Forced? then 1 else 0
  }

  class Process {
    const timeoutMs: int
    var shuttingDown: bool
    var closing: bool
    var timer: nat          // milliseconds left, or 0 when no timer is armed
    var exited: bool
    var exitCode: int
    var closesStarted: nat

    function Phase(): Phase
      reads this
    {
      if !shuttingDown then Running
      else if exited then Forced
      else if closing then Draining(timer)
      else if exitCode == 1 then Failed
      else Closed
    }

    ghost predicate Valid()
      reads this
    {
      && (closing ==> shuttingDown && !exited && timer > 0 && exitCode == 0)
      && (!closing ==> timer == 0) && (exited ==> shuttingDown) && (!shuttingDown ==> exitCode == 0)
      && (exitCode == 0 || exitCode == 1) && exitCode == ExitCode(Phase())
    }

    function Now(): State
      reads this
    {
      State(Phase(), closesStarted)
    }

    constructor (timeoutMs: int)
      ensures Valid() && Now() == INITIAL && this.timeoutMs == timeoutMs
    {
      this.timeoutMs := timeoutMs;
      shuttingDown, closing, exited := false, false, false;
      timer, exitCode, closesStarted := 0, 0, 0;
    }

    /** The listener of both signals. */
    method OnSignal()
      requires Valid()
      modifies this
      ensures Valid() && Now() == Step(old(Now()), Signal, timeoutMs)
    {
      if shuttingDown {
        return;
      }
      shuttingDown := true;
      timer := Delay(timeoutMs);
      closing := true;
      closesStarted := closesStarted + 1;
    }

    /** The callbacks of the close. */
    method OnCloseSettled(resolved: bool)
      requires Valid() && closing
      modifies this
      ensures Valid() && Now() == Step(old(Now()), if resolved then CloseResolves else CloseRejects, timeoutMs)
    {
      closing := false;
      timer := 0;
      if !resolved {
        exitCode := 1;
      }
    }

    method OnElapse()
      requires Valid()
      modifies this
      ensures Valid() && Now() == Step(old(Now()), Elapse, timeoutMs)
    {
      if timer > 0 {
        timer := timer - 1;
        if timer == 0 {
          exited, closing, exitCode := true, false, 1;
        }
      }
    }
  }

  // ----- every run -----

  function FirstSignal(events: seq<Event>): (i: nat)
    ensures i <= |events| && (i < |events| ==> events[i] == Signal)
    ensures forall j :: 0 <= j < i ==> events[j] != Signal
  {
    if events == [] || events[0] == Signal then 0 else 1 + FirstSignal(events[1..])
  }

  predicate Settles(e: Event) {
    e == CloseResolves || e == CloseRejects
  }

  /** The first settlement of the close, which starts at the first signal. */
  function FirstSettlement(events: seq<Event>): (i: nat)
    ensures i <= |events| && (i < |events| ==> Settles(events[i]))
    ensures forall j :: 0 <= j < i ==> !Settles(events[j])
  {
    if events == [] || Settles(events[0]) then 0 else 1 + FirstSettlement(events[1..])
  }

  function Elapsed(events: seq<Event>): nat {
    if events == [] then 0
    else Elapsed(events[..|events| - 1]) + if events[|events| - 1] == Elapse then 1 else 0
  }

  /** What becomes of a process, read off the whole run: nothing before the first signal counts; from there
      on only the time until the first settlement does. */
  function Fate(events: seq<Event>, timeoutMs: int): Phase {
    var start := FirstSignal(events);
    if start == |events| then Running else Verdict(events[start + 1..], Delay(timeoutMs))
  }

  /** What the events after the first signal decide. */
  function Verdict(after: seq<Event>, deadline: nat): (r: Phase)
    ensures r != Running
  {
    var settled := FirstSettlement(after);
    var waited := Elapsed(after[..settled]);
    if waited >= deadline then Forced
    else if settled == |after| then Draining(deadline - waited)
    else if after[settled] == CloseResolves then Closed
    else Failed
  }

  lemma {:induction false} SnocSignal(events: seq<Event>, e: Event)
    ensures FirstSignal(events + [e]) ==
              if FirstSignal(events) < |events| || e == Signal then FirstSignal(events) else |events| + 1
  {
    if events == [] {
      assert [e][1..] == [];
    } else {
      assert (events + [e])[1..] == events[1..] + [e];
      SnocSignal(events[1..], e);
    }
  }

  lemma {:induction false} SnocSettlement(events: seq<Event>, e: Event)
    ensures FirstSettlement(events + [e]) ==
              if FirstSettlement(events) < |events| || Settles(e) then FirstSettlement(events) else |events| + 1
  {
    if events == [] {
      assert [e][1..] == [];
    } else {
      assert (events + [e])[1..] == events[1..] + [e];
      SnocSettlement(events[1..], e);
    }
  }

  lemma SnocElapsed(events: seq<Event>, e: Event)
    ensures Elapsed(events + [e]) == Elapsed(events) + if e == Elapse then 1 else 0
  {
    assert (events + [e])[..|events|] == events;
  }

  /** The verdict, given where the first settlement is and how much time passed before it. */
  lemma VerdictIs(after: seq<Event>, deadline: nat, settled: nat, waited: nat)
    requires settled == FirstSettlement(after) && waited == Elapsed(after[..settled])
    ensures waited >= deadline ==> Verdict(after, deadline) == Forced
    ensures waited < deadline && settled == |after| ==> Verdict(after, deadline) == Draining(deadline - waited)
    ensures waited < deadline && settled < |after| ==>
              Verdict(after, deadline) == if after[settled] == CloseResolves then Closed else Failed
  {
  }

  lemma Prefixes(after: seq<Event>, e: Event)
    ensures (after + [e])[..|after|] == after && (after + [e])[..|after| + 1] == after + [e]
    ensures after[..|after|] == after
  {
  }

  lemma WaitedOpen(after: seq<Event>, e: Event)
    requires FirstSettlement(after) == |after|
    ensures FirstSettlement(after + [e]) == if Settles(e) then |after| else |after| + 1
    ensures Elapsed((after + [e])[..FirstSettlement(after + [e])]) == Elapsed(after) + if e == Elapse then 1 else 0
  {
    SnocSettlement(after, e);
    Prefixes(after, e);
    SnocElapsed(after, e);
  }

  /** A step of a machine that is draining. */
  lemma StepDraining(left: nat, e: Event)
    requires left > 0
    ensures var phase := Step(State(Draining(left), 1), e, 0).phase;
            && (e == CloseResolves ==> phase == Closed) && (e == CloseRejects ==> phase == Failed)
            && (e == Signal ==> phase == Draining(left))
            && (e == Elapse ==> phase == if left == 1 then Forced else Draining(left - 1))
  {
  }

  lemma VerdictOpen(after: seq<Event>, e: Event, deadline: nat)
    requires FirstSettlement(after) == |after|
    ensures Verdict(after + [e], deadline) == Step(State(Verdict(after, deadline), 1), e, 0).phase
  {
    var all, waited := after + [e], Elapsed(after);
    Prefixes(after, e);
    VerdictIs(after, deadline, |after|, waited);
    WaitedOpen(after, e);
    assert all[|after|] == e;
    OpenBecomes(all, e, deadline, FirstSettlement(all), waited);
    if waited >= deadline {
      StepTerminal(State(Forced, 1), e, 0);
    } else {
      StepDraining(deadline - waited, e);
    }
  }

  /** The verdict after one more event on an open run, from the numbers alone. */
  lemma OpenBecomes(all: seq<Event>, e: Event, deadline: nat, settled: nat, waited: nat)
    requires all != [] && all[|all| - 1] == e
    requires settled == FirstSettlement(all) == (if Settles(e) then |all| - 1 else |all|)
    requires Elapsed(all[..settled]) == waited + if e == Elapse then 1 else 0
    ensures waited >= deadline ==> Verdict(all, deadline) == Forced
    ensures waited < deadline && Settles(e) ==> Verdict(all, deadline) == if e == CloseResolves then Closed else Failed
    ensures waited < deadline && e == Signal ==> Verdict(all, deadline) == Draining(deadline - waited)
    ensures waited < deadline && e == Elapse ==>
              Verdict(all, deadline) == if waited + 1 == deadline then Forced else Draining(deadline - waited - 1)
  {
  }

  lemma VerdictSettled(after: seq<Event>, e: Event, deadline: nat)
    requires FirstSettlement(after) < |after|
    ensures Verdict(after + [e], deadline) == Verdict(after, deadline)
  {
    SnocSettlement(after, e);
    var settled := FirstSettlement(after);
    assert (after + [e])[..settled] == after[..settled];
  }

  lemma StepTerminal(s: State, e: Event, timeoutMs: int)
    requires !s.phase.Running? && !s.phase.Draining?
    ensures Step(s, e, timeoutMs) == s
  {
  }

  /** The fate after one more event follows from the fate before it. */
  lemma FateStep(events: seq<Event>, e: Event, timeoutMs: int, s: State)
    requires s.phase == Fate(events, timeoutMs)
    ensures Fate(events + [e], timeoutMs) == Step(s, e, timeoutMs).phase
  {
    if FirstSignal(events) == |events| {
      FateBefore(events, e, timeoutMs);
    } else {
      SnocSignal(events, e);
      DropSnoc(events, e, FirstSignal(events) + 1);
      var after := events[FirstSignal(events) + 1..];
      if FirstSettlement(after) == |after| {
        VerdictOpen(after, e, Delay(timeoutMs));
      } else {
        VerdictSettled(after, e, Delay(timeoutMs));
        StepTerminal(s, e, timeoutMs);
      }
    }
  }

  lemma FateBefore(events: seq<Event>, e: Event, timeoutMs: int)
    requires FirstSignal(events) == |events|
    ensures Fate(events + [e], timeoutMs) == if e == Signal then Draining(Delay(timeoutMs)) else Running
  {
    SnocSignal(events, e);
    if e == Signal {
      assert (events + [e])[|events| + 1..] == [];
    }
  }

  lemma DropSnoc(events: seq<Event>, e: Event, k: nat)
    requires k <= |events|
    ensures (events + [e])[k..] == events[k..] + [e]
  {
  }

  /** In every run the machine is in the phase that the run as a whole decides; close starts at most once,
      and exactly when a signal has arrived. */
  lemma {:induction false} RunDecides(events: seq<Event>, timeoutMs: int)
    ensures Run(events, timeoutMs).phase == Fate(events, timeoutMs)
    ensures Run(events, timeoutMs).closesStarted == if Signal in events then 1 else 0
  {
    if events != [] {
      var n := |events| - 1;
      RunDecides(events[..n], timeoutMs);
      assert events == events[..n] + [events[n]];
      FateStep(events[..n], events[n], timeoutMs, Run(events[..n], timeoutMs));
      SignalSeen(events[..n]);
    }
  }

  lemma SignalSeen(events: seq<Event>)
    ensures FirstSignal(events) < |events| <==> Signal in events
  {
  }

  /** The process is forced to exit exactly when the deadline passes before the close settles, and then for
      good: no later event leads out of it, nor out of a settled close. */
  lemma ForcedIff(events: seq<Event>, timeoutMs: int)
    requires Signal in events
    ensures var after := events[FirstSignal(events) + 1..];
            Run(events, timeoutMs).phase == Forced <==> Elapsed(after[..FirstSettlement(after)]) >= Delay(timeoutMs)
  {
    SignalSeen(events);
    RunDecides(events, timeoutMs);
  }

  lemma {:induction false} TerminalIsFinal(events: seq<Event>, more: seq<Event>, timeoutMs: int)
    requires var phase := Run(events, timeoutMs).phase; !phase.Running? && !phase.Draining?
    ensures Run(events + more, timeoutMs) == Run(events, timeoutMs)
  {
    if more == [] {
      assert events + more == events;
    } else {
      var n := |more| - 1;
      TerminalIsFinal(events, more[..n], timeoutMs);
      assert (events + more)[..|events + more| - 1] == events + more[..n];
    }
  }

  /** The exit code is 1 exactly when the close was rejected in time or the deadline passed first. */
  lemma ExitCodeIff(events: seq<Event>, timeoutMs: int)
    requires Signal in events
    ensures var after := events[FirstSignal(events) + 1..];
            var settled := FirstSettlement(after);
            var late := Elapsed(after[..settled]) >= Delay(timeoutMs);
            ExitCode(Run(events, timeoutMs).phase)
            == if late || (settled < |after| && after[settled] == CloseRejects) then 1 else 0
  {
    SignalSeen(events);
    RunDecides(events, timeoutMs);
  }

  /** A run is decided no later than the deadline: while it is still draining, less time than the deadline
      has passed since the first signal. */
  lemma DecidedByDeadline(events: seq<Event>, timeoutMs: int)
    requires Signal in events && Elapsed(events[FirstSignal(events) + 1..]) >= Delay(timeoutMs)
    ensures var phase := Run(events, timeoutMs).phase; phase.Closed? || phase.Failed? || phase.Forced?
  {
    SignalSeen(events);
    RunDecides(events, timeoutMs);
    var after := events[FirstSignal(events) + 1..];
    if FirstSettlement(after) == |after| {
      assert after[..|after|] == after;
    }
  }

  /** Signals after the first change nothing. */
  lemma {:induction false} LaterSignalsIgnored(events: seq<Event>, timeoutMs: int)
    ensures Run(WithoutLaterSignals(events), timeoutMs) == Run(events, timeoutMs)
    ensures Signal in WithoutLaterSignals(events) <==> Signal in events
  {
    if events != [] {
      var n := |events| - 1;
      LaterSignalsIgnored(events[..n], timeoutMs);
      RunDecides(events[..n], timeoutMs);
      assert events == events[..n] + [events[n]];
      SignalSeen(events[..n]);
      if !(events[n] == Signal && Signal in events[..n]) {
        var r := WithoutLaterSignals(events[..n]);
        assert (r + [events[n]])[..|r|] == r;
      } else {
        assert WithoutLaterSignals(events) == WithoutLaterSignals(events[..n]);
        assert !Run(events[..n], timeoutMs).phase.Running?;
      }
    }
  }

  function WithoutLaterSignals(events: seq<Event>): seq<Event> {
    if events == [] then []
    else
      var n := |events| - 1;
      WithoutLaterSignals(events[..n]) + if events[n] == Signal && Signal in events[..n] then [] else [events[n]]
  }

  /** The configured deadline is the real one unless it is longer than a timer can be; a longer one forces
      the exit after a single millisecond. */
  lemma OverlongTimeout(timeoutMs: int)
    requires timeoutMs > 0
    ensures Run([Signal, Elapse], timeoutMs).phase == Forced <==> (timeoutMs == 1 || timeoutMs > 2147483647)
  {
    var events := [Signal, Elapse];
    assert events[..1] == [Signal] && events[..1][..0] == [];
    assert Run(events[..1], timeoutMs) == State(Draining(Delay(timeoutMs)), 1);
  }
}
