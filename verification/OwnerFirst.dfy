/** The owner comes first: when the machine is given back, how much of it is used otherwise,
    and what the coordinator is told, in terms of the owner's options. */
module OwnerFirst {
  import opened Collections
  import opened Protocol
  import opened Reals
  import opened Governor
  import Scheduler

  // ---- what forbids and what caps ----

  /** The owner needs the machine, or it is in no state to lend. */
  ghost predicate Forbids(o: GovernorOptions, hw: Hardware, busy: real, ready: bool) {
    || !ready
    || busy >= o.pauseCpuPct
    || hw.availableMemoryMB < o.minFreeMemoryMB
    || hw.thermal == Critical
    || (hw.onBattery && (o.pauseOnBattery || (hw.batteryPct.Some? && hw.batteryPct.value <= o.batteryFloorPct)))
  }

  /** Something limits what may be used to `cap`: the owner at work, tight memory, heat, or
      the battery. Of the capacity left to a busy owner's machine, 60% of the ceiling is lent
      at the first threshold and nothing at the second. */
  ghost predicate CappedAt(o: GovernorOptions, hw: Hardware, busy: real, cap: real) {
    || (o.throttleCpuPct <= busy < o.pauseCpuPct
          && cap == 0.6 * o.maxCapacity * ((o.pauseCpuPct - busy) / (o.pauseCpuPct - o.throttleCpuPct)))
    || (hw.availableMemoryMB < o.minFreeMemoryMB * 2.0 && cap == 0.3)
    || (hw.thermal == Hot && cap == 0.25)
    || (hw.thermal == Warm && cap == 0.75 * o.maxCapacity)
    || (hw.onBattery && cap == o.batteryCapacity)
  }

  lemma Remaining(busy: real, throttle: real, pause: real)
    requires throttle <= busy < pause
    ensures 1.0 - (busy - throttle) / (pause - throttle) == (pause - busy) / (pause - throttle)
  {
    AddOver(pause - busy, busy - throttle, pause - throttle);
    OverItself(pause - throttle);
  }

  lemma BusyIs(o: GovernorOptions, busy: real)
    ensures busy >= o.pauseCpuPct ==> BusyCap(o, busy) == 0.0
    ensures busy < o.pauseCpuPct && busy < o.throttleCpuPct ==> BusyCap(o, busy) == o.maxCapacity
    ensures o.throttleCpuPct <= busy < o.pauseCpuPct ==>
              BusyCap(o, busy) == 0.6 * o.maxCapacity * ((o.pauseCpuPct - busy) / (o.pauseCpuPct - o.throttleCpuPct))
  {
    if o.throttleCpuPct <= busy < o.pauseCpuPct {
      Remaining(busy, o.throttleCpuPct, o.pauseCpuPct);
      Associate(0.6, o.maxCapacity, (o.pauseCpuPct - busy) / (o.pauseCpuPct - o.throttleCpuPct));
    }
  }

  lemma Associate(a: real, b: real, c: real)
    ensures a * (b * c) == a * b * c
  {
  }

  /** No cap that applies is below m. */
  ghost predicate AllowedUpTo(o: GovernorOptions, hw: Hardware, busy: real, m: real) {
    m <= o.maxCapacity && forall cap :: CappedAt(o, hw, busy, cap) ==> m <= cap
  }

  /** The target is the least of the ceiling and the four caps, or nothing. */
  lemma TargetParts(o: GovernorOptions, hw: Hardware, busy: real, ready: bool, m: real)
    ensures var t := Target(o, hw, busy, ready);
            && 0.0 <= t && (!ready ==> t == 0.0)
            && t <= Max(0.0, BusyCap(o, busy)) && t <= Max(0.0, MemoryCap(o, hw.availableMemoryMB))
            && t <= Max(0.0, ThermalCap(o, hw.thermal)) && t <= Max(0.0, BatteryCap(o, hw))
    ensures var owner := Min(BusyCap(o, busy), MemoryCap(o, hw.availableMemoryMB));
            var machine := Min(ThermalCap(o, hw.thermal), BatteryCap(o, hw));
            ready && m <= o.maxCapacity && m <= owner && m <= machine ==> m <= Target(o, hw, busy, ready)
  {
    hide BusyCap, MemoryCap, ThermalCap, BatteryCap;
  }

  lemma SomeCapBinds(o: GovernorOptions, hw: Hardware, busy: real, cap: real)
    requires CappedAt(o, hw, busy, cap)
    ensures BusyCap(o, busy) == cap || MemoryCap(o, hw.availableMemoryMB) <= Max(0.0, cap)
            || ThermalCap(o, hw.thermal) == cap || BatteryCap(o, hw) <= Max(0.0, cap)
  {
    hide BusyCap;
    BusyIs(o, busy);
  }

  lemma SomeCapForbids(o: GovernorOptions, hw: Hardware, busy: real)
    requires Forbids(o, hw, busy, true)
    ensures BusyCap(o, busy) == 0.0 || MemoryCap(o, hw.availableMemoryMB) == 0.0
            || ThermalCap(o, hw.thermal) == 0.0 || BatteryCap(o, hw) == 0.0
  {
    hide BusyCap;
    BusyIs(o, busy);
  }

  /** The target is nothing when anything forbids; otherwise it is at most every cap that
      applies, and at least every m that none of them is below: it is the least of them. */
  lemma TargetExactly(o: GovernorOptions, hw: Hardware, busy: real, ready: bool, m: real)
    ensures Forbids(o, hw, busy, ready) ==> Target(o, hw, busy, ready) == 0.0
    ensures CappedAt(o, hw, busy, m) ==> Target(o, hw, busy, ready) <= Max(0.0, m)
    ensures !Forbids(o, hw, busy, ready) && AllowedUpTo(o, hw, busy, m) ==> m <= Target(o, hw, busy, ready)
  {
    hide BusyCap, MemoryCap, ThermalCap, BatteryCap, Target, Forbids, CappedAt, AllowedUpTo;
    TargetParts(o, hw, busy, ready, m);
    if CappedAt(o, hw, busy, m) { SomeCapBinds(o, hw, busy, m); }
    if Forbids(o, hw, busy, ready) {
      if ready { SomeCapForbids(o, hw, busy); }
    } else if AllowedUpTo(o, hw, busy, m) {
      ReadyUnlessForbidden(o, hw, busy, ready);
      LeastCap(o, hw, busy, m);
    }
  }

  lemma ReadyUnlessForbidden(o: GovernorOptions, hw: Hardware, busy: real, ready: bool)
    requires !Forbids(o, hw, busy, ready)
    ensures ready && !Forbids(o, hw, busy, true)
  {
  }

  lemma LeastCap(o: GovernorOptions, hw: Hardware, busy: real, m: real)
    requires !Forbids(o, hw, busy, true) && AllowedUpTo(o, hw, busy, m)
    ensures m <= o.maxCapacity
    ensures m <= BusyCap(o, busy) && m <= MemoryCap(o, hw.availableMemoryMB)
    ensures m <= ThermalCap(o, hw.thermal) && m <= BatteryCap(o, hw)
  {
    hide BusyCap;
    BusyIs(o, busy);
    if o.throttleCpuPct <= busy { assert CappedAt(o, hw, busy, BusyCap(o, busy)); }
    if hw.availableMemoryMB < o.minFreeMemoryMB * 2.0 { assert CappedAt(o, hw, busy, 0.3); }
    if hw.thermal == Hot { assert CappedAt(o, hw, busy, 0.25); }
    if hw.thermal == Warm { assert CappedAt(o, hw, busy, 0.75 * o.maxCapacity); }
    if hw.onBattery { assert CappedAt(o, hw, busy, o.batteryCapacity); }
  }

  // ---- the machine is given back ----

  lemma TwoMore(o: GovernorOptions, signals: seq<Signal>, a: Signal, b: Signal)
    ensures After(o, signals + [a, b]) == Apply(o, Apply(o, After(o, signals), a), b)
  {
    hide Apply;
    var all := signals + [a, b];
    assert all[..|all| - 1] == signals + [a];
    assert (signals + [a])[..|signals|] == signals;
  }

  ghost predicate GivesBack(o: GovernorOptions, signals: seq<Signal>, a: Signal, b: Signal) {
    var g := After(o, signals + [a, b]);
    g.capacity == 0.0 && g.state == Paused
  }

  ghost predicate Refused(o: GovernorOptions, s: Signal) {
    s.Sense? && Forbids(o, s.hw, s.busy, s.ready)
  }

  lemma TwoRefusals(o: GovernorOptions, signals: seq<Signal>, a: Signal, b: Signal)
    requires o.maxCapacity <= 1.01 && Refused(o, a) && Refused(o, b)
    ensures GivesBack(o, signals, a, b)
  {
    hide Target, After, Forbids;
    WithinLimits(o, signals);
    TargetExactly(o, a.hw, a.busy, a.ready, 0.0);
    TargetExactly(o, b.hw, b.busy, b.ready, 0.0);
    TwoMore(o, signals, a, b);
  }

  /** Two sensings in a row that forbid give the whole machine back, whatever came before, if
      and only if the ceiling is at most 1.01. */
  lemma OwnerGetsMachineBack(o: GovernorOptions)
    ensures (forall signals, a, b :: Refused(o, a) && Refused(o, b) ==> GivesBack(o, signals, a, b))
              <==> o.maxCapacity <= 1.01
  {
    hide GivesBack, Refused;
    if o.maxCapacity <= 1.01 {
      forall signals, a, b | Refused(o, a) && Refused(o, b)
        ensures GivesBack(o, signals, a, b)
      {
        TwoRefusals(o, signals, a, b);
      }
    } else {
      HighCeilingStays(o);
    }
  }

  lemma HighCeilingStays(o: GovernorOptions)
    requires o.maxCapacity > 1.01
    ensures exists signals, a, b :: Refused(o, a) && Refused(o, b) && !GivesBack(o, signals, a, b)
  {
    hide After, Target;
    var unready := Sense(EASY, 0.0, false);
    var signals := seq(9, i => AtEase(o));
    Climbs(o, 9);
    RampFromZero(FRESH, o.maxCapacity, 9);
    NeverPaused(FRESH, o.maxCapacity, 9);
    TargetExactly(o, EASY, 0.0, false, 0.0);
    TwoMore(o, signals, unready, unready);
    assert Refused(o, unready) && !GivesBack(o, signals, unready, unready);
  }

  /** The coordinator that hears of it gives such a machine no work. */
  lemma GivenBackIsLeftAlone(o: GovernorOptions, signals: seq<Signal>, a: Signal, b: Signal, hw: Hardware, cfg: Config,
                             node: RegisteredNode, model: Model, busy: bool, cold: bool)
    requires o.maxCapacity <= 1.01 && Refused(o, a) && Refused(o, b)
    requires node.governor == ReportOf(o, After(o, signals + [a, b]), hw)
    ensures !Scheduler.Eligible(cfg, node, model, busy, cold) && node.governor.maxConcurrentTasks == 0
  {
    hide After, Refused;
    TwoRefusals(o, signals, a, b);
  }

  // ---- how much is used otherwise ----

  /** One sensing brings capacity down to every cap that applies, as far as one step goes. */
  lemma CapBinds(o: GovernorOptions, g: Gov, hw: Hardware, busy: real, ready: bool, cap: real)
    requires g.capacity >= 0.0 && CappedAt(o, hw, busy, cap)
    ensures Apply(o, g, Sense(hw, busy, ready)).capacity <= Max(Max(0.0, cap), g.capacity - 0.5)
  {
    hide Target, CappedAt;
    TargetExactly(o, hw, busy, ready, cap);
  }

  /** Two sensings under the same cap bring it down all the way, with a ceiling of at most
      one. */
  lemma CapReached(o: GovernorOptions, signals: seq<Signal>, a: Signal, b: Signal, cap: real)
    requires o.maxCapacity <= 1.0 && a.Sense? && b.Sense?
    requires CappedAt(o, a.hw, a.busy, cap) && CappedAt(o, b.hw, b.busy, cap)
    ensures After(o, signals + [a, b]).capacity <= Max(0.0, cap)
  {
    hide After, Apply, CappedAt;
    WithinLimits(o, signals);
    TwoMore(o, signals, a, b);
    CapBinds(o, After(o, signals), a.hw, a.busy, a.ready, cap);
    NotNegative(o, After(o, signals), a);
    CapBinds(o, Apply(o, After(o, signals), a), b.hw, b.busy, b.ready, cap);
  }

  lemma NotNegative(o: GovernorOptions, g: Gov, s: Signal)
    requires g.capacity >= 0.0
    ensures Apply(o, g, s).capacity >= 0.0
  {
    hide Target;
  }

  // ---- a steady machine ----

  /** Towards a steady target, from below and from above. */
  lemma {:induction false} TicksClose(g: Gov, target: real, k: nat)
    requires g.capacity >= 0.0 && target >= 0.0
    ensures var c := Ticks(g, target, k).capacity;
            && c >= 0.0
            && (target > NEGLIGIBLE ==> c >= Min(target, 0.12 * k as real))
            && c <= Max(Snap(target), g.capacity - 0.5 * k as real)
  {
    if k > 0 {
      TicksClose(g, target, k - 1);
    }
  }

  lemma {:induction false} SteadyTicks(o: GovernorOptions, signals: seq<Signal>, s: Signal, k: nat)
    requires s.Sense? && !After(o, signals).manualPause
    ensures After(o, signals + seq(k, i => s)) == Ticks(After(o, signals), Target(o, s.hw, s.busy, s.ready), k)
  {
    hide Target;
    if k == 0 {
      assert signals + seq(0, i => s) == signals;
    } else {
      SteadyTicks(o, signals, s, k - 1);
      var all := signals + seq(k, i => s);
      assert all[..|all| - 1] == signals + seq(k - 1, i => s);
      NeverPaused(After(o, signals), Target(o, s.hw, s.busy, s.ready), k - 1);
    }
  }

  /** Sensing the same long enough, at 12% a step, a governor that is not paused by hand
      settles exactly on its target. */
  lemma Settles(o: GovernorOptions, signals: seq<Signal>, s: Signal, k: nat)
    requires s.Sense? && !After(o, signals).manualPause && 0.12 * k as real >= o.maxCapacity && k >= 1
    ensures After(o, signals + seq(k, i => s)).capacity == Snap(Target(o, s.hw, s.busy, s.ready))
  {
    hide After, Target, Ticks;
    WithinLimits(o, signals);
    SteadyTicks(o, signals, s, k);
    TicksClose(After(o, signals), Target(o, s.hw, s.busy, s.ready), k);
    SteadyLimit(After(o, signals), Target(o, s.hw, s.busy, s.ready), k, Max(0.0, o.maxCapacity));
  }

  lemma SteadyLimit(g: Gov, target: real, k: nat, ceiling: real)
    requires k >= 1 && 0.0 <= g.capacity <= ceiling && 0.0 <= target <= ceiling && 0.12 * k as real >= ceiling
    ensures Ticks(g, target, k).capacity == Snap(target)
  {
    hide Tick;
    TicksClose(g, target, k);
    if target <= NEGLIGIBLE { assert Snap(target) == 0.0; }
  }

  /** With nothing in the way the ceiling itself is reached. */
  lemma CeilingReached(o: GovernorOptions, signals: seq<Signal>, s: Signal, k: nat)
    requires s.Sense? && !After(o, signals).manualPause && 0.12 * k as real >= o.maxCapacity && k >= 1
    requires !Forbids(o, s.hw, s.busy, s.ready) && (forall cap :: !CappedAt(o, s.hw, s.busy, cap))
    requires o.maxCapacity > 0.01
    ensures After(o, signals + seq(k, i => s)).capacity == o.maxCapacity
  {
    hide After, Target, Forbids, CappedAt;
    Settles(o, signals, s, k);
    TargetExactly(o, s.hw, s.busy, s.ready, o.maxCapacity);
    TargetWithin(o, s.hw, s.busy, s.ready);
  }

  lemma TargetWithin(o: GovernorOptions, hw: Hardware, busy: real, ready: bool)
    ensures 0.0 <= Target(o, hw, busy, ready) <= Max(0.0, o.maxCapacity)
  {
    hide BusyCap;
  }

  // ---- what is reported ----

  /** The report tells the capacity to the nearest percent, allows tasks exactly while there
      is capacity, and offers the owner's figure for model memory, or else 85% of the free
      video memory, or else the free memory above the floor. */
  lemma ReportSays(o: GovernorOptions, g: Gov, hw: Hardware)
    requires g.capacity >= 0.0
    ensures var r := ReportOf(o, g, hw);
            && r.state == g.state && r.manualPause == g.manualPause
            && g.capacity - 0.005 <= r.capacity <= g.capacity + 0.005
            && (r.maxConcurrentTasks == if g.capacity > 0.0 then o.maxConcurrentTasks else 0)
            && (o.maxModelMemoryMB > 0.0 ==> r.maxModelMemoryMB == o.maxModelMemoryMB)
            && (o.maxModelMemoryMB <= 0.0 && (hw.gpu.None? || hw.gpu.value.vram <= 0.0) ==>
                  r.maxModelMemoryMB == Max(0.0, hw.availableMemoryMB - o.minFreeMemoryMB))
            && (o.maxModelMemoryMB <= 0.0 && hw.gpu.Some? && hw.gpu.value.vram > 0.0 && hw.gpu.value.available >= 0.0 ==>
                  r.maxModelMemoryMB * 20.0 == hw.gpu.value.vram * hw.gpu.value.available * 17.0)
  {
    if hw.gpu.Some? && hw.gpu.value.vram > 0.0 && hw.gpu.value.available > 0.0 {
      Scheduler.ProductPositive(hw.gpu.value.vram, hw.gpu.value.available);
    }
  }

  /** After a sensing of a governor that is not paused by hand, its state tells where its
      capacity is going. */
  lemma StateTells(o: GovernorOptions, g: Gov, hw: Hardware, busy: real, ready: bool)
    requires !g.manualPause && g.capacity >= 0.0
    ensures var after, target := Apply(o, g, Sense(hw, busy, ready)), Target(o, hw, busy, ready);
            && (after.state == Paused <==> after.capacity == 0.0)
            && (after.state == Resuming <==> after.capacity > 0.0 && g.capacity < target && after.capacity < target)
            && (after.state == Throttling <==> after.capacity > 0.0 && target < g.capacity)
            && (after.state == Available <==>
                  after.capacity > 0.0 && target >= g.capacity && after.capacity == target)
  {
    hide Target;
  }

  // ---- paused by hand ----

  lemma OneMore(o: GovernorOptions, signals: seq<Signal>, s: Signal)
    ensures After(o, signals + [s]) == Apply(o, After(o, signals), s)
  {
    hide Apply;
    assert (signals + [s])[..|signals|] == signals;
  }

  /** Once the owner has paused the machine, nothing is lent until the owner resumes. */
  lemma {:induction false} HandPauseHolds(o: GovernorOptions, signals: seq<Signal>, more: seq<Signal>)
    requires forall i | 0 <= i < |more| :: more[i] != SetPause(false)
    ensures After(o, signals + [SetPause(true)] + more) == Gov(0.0, Paused, true)
    decreases |more|
  {
    hide Target, After;
    var paused := signals + [SetPause(true)];
    if more == [] {
      assert paused + more == paused;
      OneMore(o, signals, SetPause(true));
    } else {
      var front, last := more[..|more| - 1], more[|more| - 1];
      HandPauseHolds(o, signals, front);
      assert paused + more == paused + front + [last];
      OneMore(o, paused + front, last);
    }
  }
}
