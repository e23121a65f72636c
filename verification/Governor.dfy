/** Resource Governor: how much of the owner's machine may be used. Capacity rises slowly
    and falls quickly. */
module Governor {
  import opened Collections
  import opened Protocol
  import opened Reals

  const RAMP_UP_PER_TICK := 0.12
  const RAMP_DOWN_PER_TICK := 0.5

  /** At or below this, capacity is nothing. */
  const NEGLIGIBLE := 0.01

  datatype GovernorOptions = GovernorOptions(
    throttleCpuPct: real,
    pauseCpuPct: real,
    minFreeMemoryMB: real,
    maxModelMemoryMB: real,
    maxCapacity: real,
    maxConcurrentTasks: nat,
    pauseOnBattery: bool,
    batteryFloorPct: real,
    batteryCapacity: real)

  datatype Thermal = Normal | Warm | Hot | Critical | Unknown

  datatype Gpu = Gpu(vram: real, available: real)

  datatype Hardware = Hardware(
    availableMemoryMB: real,
    gpu: Option<Gpu>,
    thermal: Thermal,
    onBattery: bool,
    batteryPct: Option<real>)

  function Min(a: real, b: real): real { if a <= b then a else b }
  function Max(a: real, b: real): real { if a >= b then a else b }

  // ---- what the owner allows ----

  /** At most 60%, less the further the owner is past the throttle threshold. */
  function Throttled(ceiling: real, overshoot: real): real {
    0.6 * (ceiling * (1.0 - overshoot))
  }

  function BusyCap(o: GovernorOptions, busy: real): real {
    if busy >= o.pauseCpuPct then 0.0
    else if busy >= o.throttleCpuPct then
      Throttled(o.maxCapacity, (busy - o.throttleCpuPct) / (o.pauseCpuPct - o.throttleCpuPct))
    else o.maxCapacity
  }

  function MemoryCap(o: GovernorOptions, availableMB: real): real {
    if availableMB < o.minFreeMemoryMB then 0.0
    else if availableMB < o.minFreeMemoryMB * 2.0 then 0.3
    else o.maxCapacity
  }

  function ThermalCap(o: GovernorOptions, thermal: Thermal): real {
    match thermal
    case Critical => 0.0
    case Hot => 0.25
    case Warm => o.maxCapacity * 0.75
    case _ => o.maxCapacity
  }

  function BatteryCap(o: GovernorOptions, hw: Hardware): real {
    if !hw.onBattery then o.maxCapacity
    else if o.pauseOnBattery || (hw.batteryPct.Some? && hw.batteryPct.value <= o.batteryFloorPct) then 0.0
    else o.batteryCapacity
  }

  function Clamped(o: GovernorOptions, x: real): real {
    Max(0.0, Min(x, o.maxCapacity))
  }

  /** The least of all the caps, and never below zero. */
  function Target(o: GovernorOptions, hw: Hardware, busy: real, ready: bool): (r: real)
    ensures 0.0 <= r <= Max(0.0, o.maxCapacity)
  {
    var owner := Min(BusyCap(o, busy), MemoryCap(o, hw.availableMemoryMB));
    var machine := Min(ThermalCap(o, hw.thermal), BatteryCap(o, hw));
    Clamped(o, Min(Min(if ready then o.maxCapacity else 0.0, owner), machine))
  }

  // ---- the ramp ----

  /** As close to the target as one tick allows. */
  function Ramp(capacity: real, target: real): real {
    Max(Min(target, capacity + RAMP_UP_PER_TICK), capacity - RAMP_DOWN_PER_TICK)
  }

  function Snap(capacity: real): real {
    if capacity <= NEGLIGIBLE then 0.0 else capacity
  }

  datatype Gov = Gov(capacity: real, state: GovernorState, manualPause: bool)

  const FRESH := Gov(0.0, Idle, false)

  function Tick(g: Gov, target: real): Gov {
    var capacity := Snap(Ramp(g.capacity, target));
    g.(capacity := capacity,
       state := if capacity == 0.0 then Paused
                else if target > g.capacity then if capacity < target then Resuming else Available
                else if target < g.capacity then Throttling
                else Available)
  }

  function Pause(g: Gov, paused: bool): Gov {
    if paused then Gov(0.0, Paused, true) else g.(manualPause := false)
  }

  function Updated(o: GovernorOptions, g: Gov, hw: Hardware, busy: real, ready: bool): Gov {
    if g.manualPause then Gov(0.0, Paused, true) else Tick(g, Target(o, hw, busy, ready))
  }

  function Marked(g: Gov, active: bool): Gov {
    if g.state == Available && active then g.(state := Contributing) else g
  }

  function ModelMemoryCeiling(o: GovernorOptions, hw: Hardware): real {
    if o.maxModelMemoryMB > 0.0 then o.maxModelMemoryMB
    else if hw.gpu.Some? && hw.gpu.value.vram > 0.0 then Max(0.0, hw.gpu.value.vram * hw.gpu.value.available * 0.85)
    else Max(0.0, hw.availableMemoryMB - o.minFreeMemoryMB)
  }

  function ReportOf(o: GovernorOptions, g: Gov, hw: Hardware): GovernorReport {
    GovernorReport(g.state, Round(g.capacity * 100.0) as real / 100.0,
                   if g.capacity <= 0.0 then 0 else o.maxConcurrentTasks, ModelMemoryCeiling(o, hw), g.manualPause)
  }

  // ---- the controller itself ----

  class ResourceGovernor {
    const options: GovernorOptions
    var capacity: real
    var state: GovernorState
    var manualPause: bool

    ghost function Value(): Gov
      reads this
    {
      Gov(capacity, state, manualPause)
    }

    constructor (options: GovernorOptions)
      ensures this.options == options && Value() == FRESH
    {
      this.options := options;
      capacity, state, manualPause := 0.0, Idle, false;
    }

    method SetManualPause(paused: bool)
      modifies this
      ensures Value() == Pause(old(Value()), paused)
    {
      manualPause := paused;
      if paused {
        capacity := 0.0;
        state := Paused;
      }
    }

    method Update(hw: Hardware, busy: real, ready: bool) returns (report: GovernorReport)
      modifies this
      ensures Value() == Updated(options, old(Value()), hw, busy, ready)
      ensures report == ReportOf(options, Value(), hw)
    {
      if manualPause {
        capacity := 0.0;
        state := Paused;
        report := ReportOf(options, Gov(capacity, state, manualPause), hw);
        return;
      }
      var target := Aim(hw, busy, ready);
      if target > capacity {
        capacity := Min(target, capacity + RAMP_UP_PER_TICK);
        state := if capacity < target then Resuming else Available;
      } else if target < capacity {
        capacity := Max(target, capacity - RAMP_DOWN_PER_TICK);
        state := if capacity <= NEGLIGIBLE then Paused else Throttling;
      } else {
        state := if capacity <= NEGLIGIBLE then Paused else Available;
      }
      if capacity <= NEGLIGIBLE {
        capacity := 0.0;
        state := Paused;
      }
      report := ReportOf(options, Gov(capacity, state, manualPause), hw);
    }

    /** The target, lowered step by step. */
    method Aim(hw: Hardware, busy: real, ready: bool) returns (target: real)
      ensures target == Target(options, hw, busy, ready)
    {
      hide BusyCap, MemoryCap, ThermalCap, BatteryCap;
      target := options.maxCapacity;
      if !ready { target := 0.0; }
      target := AimForOwner(hw, busy, target);
      target := AimForMachine(hw, target);
      target := Max(0.0, Min(target, options.maxCapacity));
    }

    method AimForOwner(hw: Hardware, busy: real, start: real) returns (target: real)
      ensures Clamped(options, target) ==
        Clamped(options, Min(start, Min(BusyCap(options, busy), MemoryCap(options, hw.availableMemoryMB))))
    {
      target := start;
      if busy >= options.pauseCpuPct {
        target := 0.0;
      } else if busy >= options.throttleCpuPct {
        var span := options.pauseCpuPct - options.throttleCpuPct;
        if span == 0.0 { span := 1.0; }
        var overshoot := (busy - options.throttleCpuPct) / span;
        target := Min(target, Throttled(options.maxCapacity, overshoot));
      }
      if hw.availableMemoryMB < options.minFreeMemoryMB {
        target := 0.0;
      } else if hw.availableMemoryMB < options.minFreeMemoryMB * 2.0 {
        target := Min(target, 0.3);
      }
    }

    method AimForMachine(hw: Hardware, start: real) returns (target: real)
      ensures Clamped(options, target) ==
        Clamped(options, Min(start, Min(ThermalCap(options, hw.thermal), BatteryCap(options, hw))))
    {
      target := start;
      match hw.thermal {
        case Critical => target := 0.0;
        case Hot => target := Min(target, 0.25);
        case Warm => target := Min(target, options.maxCapacity * 0.75);
        case _ =>
      }
      if hw.onBattery {
        if options.pauseOnBattery {
          target := 0.0;
        } else if hw.batteryPct.Some? && hw.batteryPct.value <= options.batteryFloorPct {
          target := 0.0;
        } else {
          target := Min(target, options.batteryCapacity);
        }
      }
    }

    method MarkContributing(active: bool)
      modifies this
      ensures Value() == Marked(old(Value()), active)
    {
      if state == Available && active { state := Contributing; }
    }
  }

  // ---- runs ----

  datatype Signal = SetPause(paused: bool) | Sense(hw: Hardware, busy: real, ready: bool) | Mark(active: bool)

  function Apply(o: GovernorOptions, g: Gov, s: Signal): Gov {
    match s
    case SetPause(paused) => Pause(g, paused)
    case Sense(hw, busy, ready) => Updated(o, g, hw, busy, ready)
    case Mark(active) => Marked(g, active)
  }

  function After(o: GovernorOptions, signals: seq<Signal>): Gov {
    if signals == [] then FRESH else Apply(o, After(o, signals[..|signals| - 1]), signals[|signals| - 1])
  }

  /** `b` leaves the governor no more room than `a`: same machine state, the owner at
      least as busy, no more free memory, paused whenever `a` is. */
  predicate NoGentler(a: Signal, b: Signal) {
    match (a, b)
    case (SetPause(p), SetPause(q)) => p ==> q
    case (Sense(ha, busyA, readyA), Sense(hb, busyB, readyB)) =>
      && readyA == readyB
      && ha.thermal == hb.thermal && ha.onBattery == hb.onBattery && ha.batteryPct == hb.batteryPct
      && busyA <= busyB
      && ha.availableMemoryMB >= hb.availableMemoryMB
    case (Mark(_), Mark(_)) => true
    case _ => false
  }

  lemma ThrottledFalls(ceiling: real, a: real, b: real)
    requires ceiling >= 0.0 && 0.0 <= a <= b <= 1.0
    ensures 0.0 <= Throttled(ceiling, b) <= Throttled(ceiling, a) <= ceiling
  {
  }

  lemma BusyCapFalls(o: GovernorOptions, a: real, b: real)
    requires a <= b && o.maxCapacity >= 0.0
    ensures BusyCap(o, b) <= BusyCap(o, a)
  {
    hide Throttled;
    var from, span := o.throttleCpuPct, o.pauseCpuPct - o.throttleCpuPct;
    var x, y := if from <= a then a else from, if from <= b then b else from;
    if a < o.pauseCpuPct && from < o.pauseCpuPct {
      var z := if y < o.pauseCpuPct then y else x;
      Fraction(x - from, z - from, span);
      ThrottledFalls(o.maxCapacity, (x - from) / span, (z - from) / span);
    }
  }

  lemma TargetFalls(o: GovernorOptions, ha: Hardware, busyA: real, hb: Hardware, busyB: real, ready: bool)
    requires NoGentler(Sense(ha, busyA, ready), Sense(hb, busyB, ready))
    ensures Target(o, hb, busyB, ready) <= Target(o, ha, busyA, ready)
  {
    hide BusyCap;
    if o.maxCapacity >= 0.0 {
      BusyCapFalls(o, busyA, busyB);
      MemoryCapFalls(o, ha.availableMemoryMB, hb.availableMemoryMB);
    }
  }

  /** More free memory never lowers the cap, once clamped: the cap for tight memory may be
      above the ceiling. */
  lemma MemoryCapFalls(o: GovernorOptions, a: real, b: real)
    requires a >= b && o.maxCapacity >= 0.0
    ensures Clamped(o, MemoryCap(o, b)) <= Clamped(o, MemoryCap(o, a))
  {
  }

  /** Domination: over whole runs, a governor that is given no gentler signals never has
      the larger capacity. */
  lemma {:induction false} Domination(o: GovernorOptions, a: seq<Signal>, b: seq<Signal>)
    requires |a| == |b| && forall i | 0 <= i < |a| :: NoGentler(a[i], b[i])
    ensures After(o, b).capacity <= After(o, a).capacity
    ensures After(o, a).manualPause ==> After(o, b).manualPause
  {
    if a != [] {
      hide Target, NoGentler;
      var k := |a| - 1;
      Domination(o, a[..k], b[..k]);
      WithinLimits(o, a[..k]);
      DominationStep(o, After(o, a[..k]), After(o, b[..k]), a[k], b[k]);
    }
  }

  lemma DominationStep(o: GovernorOptions, ga: Gov, gb: Gov, a: Signal, b: Signal)
    requires gb.capacity <= ga.capacity && ga.capacity >= 0.0 && (ga.manualPause ==> gb.manualPause)
    requires NoGentler(a, b)
    ensures Apply(o, gb, b).capacity <= Apply(o, ga, a).capacity
    ensures Apply(o, ga, a).manualPause ==> Apply(o, gb, b).manualPause
  {
    hide Target;
    if a.Sense? && b.Sense? {
      TargetFalls(o, a.hw, a.busy, b.hw, b.busy, a.ready);
    }
  }

  /** Capacity stays between zero and the ceiling. */
  lemma {:induction false} WithinLimits(o: GovernorOptions, signals: seq<Signal>)
    ensures 0.0 <= After(o, signals).capacity <= Max(0.0, o.maxCapacity)
  {
    hide Target;
    if signals != [] {
      WithinLimits(o, signals[..|signals| - 1]);
    }
  }

  /** No signal raises capacity by more than one step of the ramp; only a pause lowers it
      by more than one step down. */
  lemma StepLimits(o: GovernorOptions, g: Gov, s: Signal)
    requires g.capacity >= 0.0
    ensures Apply(o, g, s).capacity <= g.capacity + RAMP_UP_PER_TICK
    ensures Apply(o, g, s).capacity < g.capacity - RAMP_DOWN_PER_TICK - NEGLIGIBLE ==> Apply(o, g, s).manualPause
  {
  }

  function Ticks(g: Gov, target: real, k: nat): Gov {
    if k == 0 then g else Tick(Ticks(g, target, k - 1), target)
  }

  /** From nothing, k ticks at a steady target reach the target or k steps of the ramp. */
  lemma {:induction false} RampFromZero(g: Gov, target: real, k: nat)
    requires g.capacity == 0.0 && target > NEGLIGIBLE
    ensures Ticks(g, target, k).capacity == Min(target, RAMP_UP_PER_TICK * k as real)
  {
    if k > 0 {
      RampFromZero(g, target, k - 1);
    }
  }

  const EASY := Hardware(0.0, None, Normal, false, None)

  /** Nothing holds the machine back. */
  function AtEase(o: GovernorOptions): Signal {
    Sense(EASY.(availableMemoryMB := Max(o.minFreeMemoryMB, o.minFreeMemoryMB * 2.0)),
          Min(o.pauseCpuPct, o.throttleCpuPct) - 1.0, true)
  }

  lemma {:induction false} Climbs(o: GovernorOptions, k: nat)
    requires o.maxCapacity >= 0.0
    ensures After(o, seq(k, i => AtEase(o))) == Ticks(FRESH, o.maxCapacity, k)
  {
    if k > 0 {
      Climbs(o, k - 1);
      var signals := seq(k, i => AtEase(o));
      assert signals[..k - 1] == seq(k - 1, i => AtEase(o));
      NeverPaused(FRESH, o.maxCapacity, k - 1);
    }
  }

  lemma {:induction false} NeverPaused(g: Gov, target: real, k: nat)
    ensures Ticks(g, target, k).manualPause == g.manualPause
  {
    if k > 0 {
      NeverPaused(g, target, k - 1);
    }
  }

  ghost predicate EmptiesInTwo(g: Gov) {
    Tick(Tick(g, 0.0), 0.0).capacity == 0.0
  }

  /** Two ticks with nothing allowed empty the governor from every state it can reach,
      exactly when its ceiling is at most 1.01. */
  lemma TwoTicksToZero(o: GovernorOptions)
    ensures (forall signals :: EmptiesInTwo(After(o, signals))) <==> o.maxCapacity <= 1.01
  {
    hide After;
    forall signals | o.maxCapacity <= 1.01
      ensures EmptiesInTwo(After(o, signals))
    {
      WithinLimits(o, signals);
    }
    if o.maxCapacity > 1.01 {
      Climbs(o, 9);
      RampFromZero(FRESH, o.maxCapacity, 9);
      assert !EmptiesInTwo(After(o, seq(9, i => AtEase(o))));
    }
  }

  ghost predicate Settled(g: Gov) {
    g.state == Paused <==> g.capacity == 0.0
  }

  /** Once the machine has been looked at, paused means no capacity and the other way
      round, whatever came since: marking work in progress cannot hide a pause. */
  lemma {:induction false} PausedIffEmpty(o: GovernorOptions, signals: seq<Signal>)
    requires exists i :: 0 <= i < |signals| && signals[i].Sense?
    ensures Settled(After(o, signals))
  {
    hide Target;
    var k := |signals| - 1;
    var i :| 0 <= i < |signals| && signals[i].Sense?;
    if i < k {
      assert signals[..k][i].Sense?;
      PausedIffEmpty(o, signals[..k]);
    }
  }

}
