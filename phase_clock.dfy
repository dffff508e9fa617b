/**
 * The breathing visualizer's once-a-second tick: `count` runs 1..16 and
 * the phase is read off it (1-4 inhale, 5-8 hold, 9-14 exhale, 15-16
 * pause); the tick that would reach 17 starts a new cycle with `count`
 * back at 0 and the phase left at pause, so one cycle takes 17 ticks.
 */
module PhaseClock {
  import opened Wrappers

  datatype Phase = Inhale | Hold | Exhale | Pause

  /** The phase a count of 1..16 belongs to: the tick's chain of `<=` tests. */
  function PhaseOf(n: int): Phase
  {
    if n <= 4 then Inhale
    else if n <= 8 then Hold
    else if n <= 14 then Exhale
    else Pause
  }

  /** `getPhaseTotal`: the length of each phase in ticks. */
  function PhaseTotal(p: Phase): nat
  {
    match p
    case Inhale => 4
    case Hold => 4
    case Exhale => 6
    case Pause => 2
  }

  /** `getPhaseCount`: the count within the current phase. */
  function PhaseCount(p: Phase, count: int): int
  {
    match p
    case Inhale => count
    case Hold => count - 4
    case Exhale => count - 8
    case Pause => count - 14
  }

  /** The visualizer's state: the phase shown, the tick count and the completed cycles. */
  datatype Clock = Clock(phase: Phase, count: nat, cycle: nat)

  /** The state at rest: what the component starts with and what deactivation leaves. */
  function Rest(cycle: nat): Clock
  {
    Clock(Pause, 0, cycle)
  }

  /** The phase that goes with a count: pause at 0, otherwise the band the count falls in. */
  function PhaseFor(count: nat): Phase
  {
    if count == 0 then Pause else PhaseOf(count)
  }

  /** The invariant the tick keeps: `count` in 0..16 and the phase the one its band gives. */
  predicate Consistent(c: Clock)
  {
    c.count <= 16 && c.phase == PhaseFor(c.count)
  }

  /** A tick's new state and the phase passed to `onPhaseChange`, if it was called. */
  datatype TickResult = TickResult(clock: Clock, notified: Option<Phase>)

  /** One firing of the interval. */
  function Step(c: Clock): TickResult
  {
    var newCount := c.count + 1;
    if newCount <= 16 then
      var newPhase := PhaseOf(newCount);
      if c.phase != newPhase then TickResult(Clock(newPhase, newCount, c.cycle), Some(newPhase))
      else TickResult(c.(count := newCount), None)
    else
      TickResult(c.(count := 0, cycle := c.cycle + 1), None)
  }

  /** The effect run when `isActive` turns false: phase and count reset, cycles kept. */
  function Deactivate(c: Clock): (r: Clock)
    ensures r == Rest(c.cycle) && Consistent(r)
  {
    c.(phase := Pause, count := 0)
  }

  /** The bands of the 4-4-6-2 pattern, and the phase lengths, which add up to 16. */
  lemma PhaseBands(n: int)
    requires 1 <= n <= 16
    ensures PhaseOf(n) == Inhale <==> 1 <= n <= 4
    ensures PhaseOf(n) == Hold <==> 5 <= n <= 8
    ensures PhaseOf(n) == Exhale <==> 9 <= n <= 14
    ensures PhaseOf(n) == Pause <==> 15 <= n <= 16
    ensures PhaseTotal(Inhale) + PhaseTotal(Hold) + PhaseTotal(Exhale) + PhaseTotal(Pause) == 16
  {
  }

  /** The tick keeps `count` within 0..16 and the phase in step with it. */
  lemma StepConsistent(c: Clock)
    requires Consistent(c)
    ensures Consistent(Step(c).clock)
    ensures 0 <= Step(c).clock.count <= 16
  {
  }

  /** `onPhaseChange` fires exactly when the phase changes, and carries the new phase. */
  lemma StepNotifiesOnChange(c: Clock)
    ensures Step(c).notified.Some? <==> Step(c).clock.phase != c.phase
    ensures Step(c).notified.Some? ==> Step(c).notified.value == Step(c).clock.phase
  {
  }

  /**
   * Only the tick from count 16 touches `cycle`: it adds exactly one, resets
   * the count to 0, keeps the phase at pause and notifies nobody.
   */
  lemma CycleOnlyOnWrap(c: Clock)
    requires Consistent(c)
    ensures Step(c).clock.cycle != c.cycle <==> c.count == 16
    ensures c.count == 16 ==> Step(c) == TickResult(Rest(c.cycle + 1), None)
  {
  }

  /** The first tick from rest enters inhale and reports it, once. */
  lemma FirstStepFromRest(cycle: nat)
    ensures Step(Rest(cycle)) == TickResult(Clock(Inhale, 1, cycle), Some(Inhale))
  {
  }

  /**
   * `getPhaseCount` lies in `1..getPhaseTotal()` whenever `count` is 1..16;
   * in the second after a cycle ends (count 0, phase pause) it reads -14.
   */
  lemma PhaseCountInRange(c: Clock)
    requires Consistent(c)
    ensures c.count >= 1 ==> 1 <= PhaseCount(c.phase, c.count) <= PhaseTotal(c.phase)
    ensures c.count == 0 ==> PhaseCount(c.phase, c.count) == -14
  {
  }

  /** The states and notifications of `n` consecutive ticks. */
  datatype Trace = Trace(clock: Clock, notes: seq<Phase>)

  function Notes(o: Option<Phase>): seq<Phase>
  {
    match o
    case None => []
    case Some(p) => [p]
  }

  function Run(step: Clock -> TickResult, c: Clock, n: nat): Trace
  {
    if n == 0 then Trace(c, [])
    else
      var prev := Run(step, c, n - 1);
      var t := step(prev.clock);
      Trace(t.clock, prev.notes + Notes(t.notified))
  }

  /** The phases entered during the first `n` ticks of a cycle, in order. */
  function PhasesEntered(n: nat): seq<Phase>
  {
    (if n >= 1 then [Inhale] else [])
    + (if n >= 5 then [Hold] else [])
    + (if n >= 9 then [Exhale] else [])
    + (if n >= 15 then [Pause] else [])
  }

  /** Within a cycle, `n` ticks from rest reach count `n` and report each phase entered once. */
  lemma {:induction false} RunWithinCycle(cycle: nat, n: nat)
    requires n <= 16
    ensures Run(Step, Rest(cycle), n) == Trace(Clock(PhaseFor(n), n, cycle), PhasesEntered(n))
  {
    if n > 0 {
      RunWithinCycle(cycle, n - 1);
    }
  }

  /**
   * A whole cycle takes 17 ticks: it ends back at rest with one more cycle,
   * after exactly one notification per phase, in order.
   */
  lemma FullCycle(cycle: nat)
    ensures Run(Step, Rest(cycle), 17) == Trace(Rest(cycle + 1), [Inhale, Hold, Exhale, Pause])
  {
    RunWithinCycle(cycle, 16);
  }

  /** After `t` ticks from rest, `t / 17` cycles are complete and the count is `t % 17`. */
  lemma {:induction false} RunFromRest(cycle: nat, t: nat)
    ensures Run(Step, Rest(cycle), t).clock == Clock(PhaseFor(t % 17), t % 17, cycle + t / 17)
  {
    if t > 0 {
      RunFromRest(cycle, t - 1);
      var m := (t - 1) % 17;
      var q := (t - 1) / 17;
      assert t - 1 == 17 * q + m;
      if m < 16 {
        assert t == 17 * q + (m + 1);
        assert t % 17 == m + 1 && t / 17 == q;
      } else {
        assert t == 17 * (q + 1);
        assert t % 17 == 0 && t / 17 == q + 1;
      }
    }
  }

  /**
   * The tick as evidently intended by the 4-4-6-2 pattern: after count 16 the
   * next tick starts the next cycle at count 1 (inhale), so a cycle is 16 ticks
   * and the count shown within a phase never leaves `1..getPhaseTotal()`.
   */
  function StepIntended(c: Clock): TickResult
  {
    var wrap := c.count >= 16;
    var newCount := if wrap then 1 else c.count + 1;
    var newCycle := if wrap then c.cycle + 1 else c.cycle;
    var newPhase := PhaseOf(newCount);
    if c.phase != newPhase then TickResult(Clock(newPhase, newCount, newCycle), Some(newPhase))
    else TickResult(Clock(c.phase, newCount, newCycle), None)
  }

  /** The last tick of a cycle, as the intended tick sees it. */
  function CycleEnd(cycle: nat): Clock
  {
    Clock(Pause, 16, cycle)
  }

  lemma {:induction false} IntendedRunWithinCycle(cycle: nat, n: nat)
    requires 1 <= n <= 16
    ensures Run(StepIntended, CycleEnd(cycle), n) == Trace(Clock(PhaseOf(n), n, cycle + 1), PhasesEntered(n))
  {
    if n > 1 {
      IntendedRunWithinCycle(cycle, n - 1);
    }
  }

  /**
   * With the intended tick a cycle takes 16 ticks, one notification per
   * phase, and the count within a phase stays within its total on every tick.
   */
  lemma IntendedCycle(cycle: nat)
    ensures Run(StepIntended, CycleEnd(cycle), 16) == Trace(CycleEnd(cycle + 1), [Inhale, Hold, Exhale, Pause])
    ensures forall c: Clock :: Consistent(c) ==>
      var next := StepIntended(c).clock;
      Consistent(next) && next.count >= 1 && 1 <= PhaseCount(next.phase, next.count) <= PhaseTotal(next.phase)
  {
    IntendedRunWithinCycle(cycle, 16);
  }

  /** As written, the tick after count 16 shows pause with a phase count of -14, outside 1..2. */
  lemma ResetSecondCountsNegative(cycle: nat)
    ensures var next := Step(CycleEnd(cycle)).clock;
      next.phase == Pause && PhaseCount(next.phase, next.count) == -14 < 1
  {
  }

  /** The component itself: the state it renders, the interval switch and the callback log. */
  class BreathingVisualizer {
    var phase: Phase
    var count: nat
    var cycle: nat
    var isActive: bool
    /** Every phase passed to `onPhaseChange`, oldest first. */
    ghost var notifications: seq<Phase>

    function State(): Clock
      reads this
    {
      Clock(phase, count, cycle)
    }

    ghost predicate Valid()
      reads this
    {
      Consistent(State())
    }

    constructor(active: bool)
      ensures Valid()
      ensures State() == Rest(0) && isActive == active && notifications == []
    {
      phase, count, cycle := Pause, 0, 0;
      isActive := active;
      notifications := [];
    }

    /** A new `isActive`: turning it off resets phase and count; turning it on starts the interval. */
    method SetActive(active: bool)
      requires Valid()
      modifies this
      ensures Valid() && isActive == active && notifications == old(notifications)
      ensures State() == if active then old(State()) else Deactivate(old(State()))
    {
      isActive := active;
      if !active {
        phase := Pause;
        count := 0;
      }
    }

    /** One second elapses; the interval only runs while the visualizer is active. */
    method Tick()
      requires Valid()
      modifies this
      ensures Valid() && isActive == old(isActive)
      ensures !old(isActive) ==> State() == old(State()) && notifications == old(notifications)
      ensures old(isActive) ==>
        && State() == Step(old(State())).clock
        && notifications == old(notifications) + Notes(Step(old(State())).notified)
    {
      if !isActive {
        return;
      }
      var newCount := count + 1;
      if newCount <= 16 {
        var newPhase := PhaseOf(newCount);
        if phase != newPhase {
          phase := newPhase;
          notifications := notifications + [newPhase];
        }
        count := newCount;
      } else {
        cycle := cycle + 1;
        count := 0;
      }
    }
  }
}
