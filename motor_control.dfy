/** The motor ramp controller of MotorServerCpp/MotorController.hpp.
    The controller's globals (lastPowerSet, lastDirection, acceleration and the
    powerSignal pattern buffer) are the fields of one Motor object. The wall-clock
    deadlines of the source become iteration budgets, and every write to a drive
    line is recorded in a ghost trace. */
module MotorControl {

  /** GPIO pin driving the motor clockwise. */
  const MotorCW: int := 17
  /** GPIO pin driving the motor counter-clockwise. */
  const MotorCCW: int := 27
  /** Number of power steps, and of slots in the power pattern (24 steps = 12 V). */
  const MaxSpeed: int := 24

  datatype Level = Low | High

  /** What the controller does to a drive line.
      Write is one digitalWrite; Hold(pin, power) is one ramp tick, during which
      accelerateMotor plays the power pattern of `power` on `pin`. */
  datatype Event = Write(pin: int, level: Level) | Hold(pin: int, power: int)

  function Min(a: int, b: int): int { if a <= b then a else b }
  function Max(a: int, b: int): int { if a <= b then b else a }

  // ---------------------------------------------------------------------------
  // The power pattern, with exact arithmetic in place of float accumulation

  /** std::round of a non-negative number: halves round up. */
  function Round(x: real): (r: int)
    requires x >= 0.0
    ensures r as real - 0.5 <= x < r as real + 0.5
  {
    (x + 0.5).Floor
  }

  /** Distance between two consecutive on-slots for a pattern of `speed` on-slots. */
  function Step(speed: int): real
    requires 0 < speed <= MaxSpeed
  {
    MaxSpeed as real / speed as real
  }

  /** The step is at least one slot, and `speed` steps span the whole period. */
  lemma StepFacts(speed: int)
    requires 0 < speed <= MaxSpeed
    ensures Step(speed) >= 1.0 && Step(speed) * speed as real == MaxSpeed as real
  {
  }

  /** The position reached after k passes: k steps from slot 0. */
  function Pos(speed: int, k: nat): (pos: real)
    requires 0 < speed <= MaxSpeed
    ensures pos >= 0.0
  {
    StepFacts(speed);
    k as real * Step(speed)
  }

  /** The slot switched on by the k-th pass of generatePowerSignal's loop. */
  function SlotAt(speed: int, k: nat): int
    requires 0 < speed <= MaxSpeed
  {
    Round(Pos(speed, k))
  }

  /** The slots switched on by the first n passes. */
  function SlotsUpTo(speed: int, n: nat): set<int>
    requires 0 < speed <= MaxSpeed
  {
    if n == 0 then {} else SlotsUpTo(speed, n - 1) + {SlotAt(speed, n - 1)}
  }

  /** The on-slots of the power pattern for a requested speed: none for a
      speed of zero or less, otherwise the slots of the speed clamped to MaxSpeed. */
  function OnSlots(speed: int): set<int>
  {
    if speed <= 0 then {} else SlotsUpTo(Min(speed, MaxSpeed), Min(speed, MaxSpeed))
  }

  /** The 24-slot on/off pattern generatePowerSignal leaves in powerSignal. */
  function Pattern(speed: int): (p: seq<bool>)
    ensures |p| == MaxSpeed
  {
    seq(MaxSpeed, j => j in OnSlots(speed))
  }

  lemma NextPass(speed: int, k: nat)
    requires 0 < speed <= MaxSpeed
    ensures Pos(speed, k) + Step(speed) == Pos(speed, k + 1)
  {
  }

  /** The pass counter k runs exactly while k * step < MaxSpeed, so the loop makes
      exactly `speed` passes. */
  lemma PassBound(speed: int, k: nat)
    requires 0 < speed <= MaxSpeed
    ensures Pos(speed, k) < MaxSpeed as real <==> k < speed
  {
    var step := Step(speed);
    StepFacts(speed);
    if k < speed {
      assert k as real <= speed as real - 1.0;
      assert k as real * step <= (speed as real - 1.0) * step;
    } else {
      assert k as real >= speed as real;
      assert k as real * step >= speed as real * step;
    }
  }

  /** Consecutive passes land on strictly increasing slots, since the step is at least one slot. */
  lemma SlotAtIncreasing(speed: int, k: nat)
    requires 0 < speed <= MaxSpeed
    ensures SlotAt(speed, k) < SlotAt(speed, k + 1)
  {
    var step := Step(speed);
    StepFacts(speed);
    assert (k + 1) as real * step == k as real * step + step;
  }

  /** Every pass made by the loop writes inside the array. */
  lemma SlotAtInRange(speed: int, k: nat)
    requires 0 < speed <= MaxSpeed && k < speed
    ensures 0 <= SlotAt(speed, k) < MaxSpeed
  {
    var step := Step(speed);
    StepFacts(speed);
    assert k as real <= speed as real - 1.0;
    assert k as real * step <= (speed as real - 1.0) * step;
    assert k as real * step <= MaxSpeed as real - 1.0;
  }

  /** The first n passes switch on n distinct slots, all at most the last one written. */
  lemma {:induction false} SlotsUpToShape(speed: int, n: nat)
    requires 0 < speed <= MaxSpeed
    ensures |SlotsUpTo(speed, n)| == n
    ensures n > 0 ==> forall x :: x in SlotsUpTo(speed, n) ==> 0 <= x <= SlotAt(speed, n - 1)
  {
    if n > 0 {
      SlotsUpToShape(speed, n - 1);
      if n > 1 {
        SlotAtIncreasing(speed, n - 2);
      }
      assert SlotAt(speed, n - 1) !in SlotsUpTo(speed, n - 1);
    }
  }

  /** The pattern after the first k passes of the loop over a cleared buffer. */
  function PartialPattern(speed: int, k: nat): (p: seq<bool>)
    requires 0 < speed <= MaxSpeed
    ensures |p| == MaxSpeed
  {
    seq(MaxSpeed, j => j in SlotsUpTo(speed, k))
  }

  /** One more pass switches on exactly the k-th slot, which lies inside the buffer. */
  lemma PartialPatternNext(speed: int, k: nat)
    requires 0 < speed <= MaxSpeed && k < speed
    ensures 0 <= SlotAt(speed, k) < MaxSpeed
    ensures PartialPattern(speed, k)[SlotAt(speed, k) := true] == PartialPattern(speed, k + 1)
  {
    SlotAtInRange(speed, k);
  }

  /** generatePowerSignal with a speed of zero or less leaves every slot off. */
  lemma PatternOffForNonPositive(speed: int)
    requires speed <= 0
    ensures forall j :: 0 <= j < MaxSpeed ==> !Pattern(speed)[j]
  {
  }

  /** For a positive speed, slot 0 is on, the on-slots lie inside the pattern, and
      there are exactly as many of them as the speed clamped to MaxSpeed: the power
      is spread evenly over the period. */
  lemma PatternOnSlots(speed: int)
    requires speed > 0
    ensures Pattern(speed)[0]
    ensures forall x :: x in OnSlots(speed) ==> 0 <= x < MaxSpeed
    ensures |OnSlots(speed)| == Min(speed, MaxSpeed)
  {
    var c := Min(speed, MaxSpeed);
    SlotsUpToShape(c, c);
    SlotAtInRange(c, c - 1);
    assert SlotAt(c, 0) == 0;
    assert 0 in SlotsUpTo(c, 1);
    SlotsUpToMonotone(c, 1, c);
  }

  lemma {:induction false} SlotsUpToMonotone(speed: int, m: nat, n: nat)
    requires 0 < speed <= MaxSpeed && m <= n
    ensures SlotsUpTo(speed, m) <= SlotsUpTo(speed, n)
  {
    if m < n {
      SlotsUpToMonotone(speed, m, n - 1);
    }
  }

  /** Speeds above MaxSpeed give the full-power pattern. */
  lemma PatternClamped(speed: int)
    requires speed > MaxSpeed
    ensures Pattern(speed) == Pattern(MaxSpeed)
  {
  }

  /** The full-power pattern has every slot on. */
  lemma {:induction false} FullPowerAllOn()
    ensures forall j :: 0 <= j < MaxSpeed ==> Pattern(MaxSpeed)[j]
  {
    forall j | 0 <= j < MaxSpeed
      ensures j in OnSlots(MaxSpeed)
    {
      assert SlotAt(MaxSpeed, j) == j;
      SlotsUpToMonotone(MaxSpeed, j + 1, MaxSpeed);
    }
  }

  // ---------------------------------------------------------------------------
  // Ramps: what the deadline-bounded loops of stopMotor and turnMotor compute

  /** One ramp tick: one step toward the desired power, never past it. */
  function Toward(power: int, desired: int): (next: int)
    ensures power < desired ==> next == power + 1
    ensures power > desired ==> next == power - 1
    ensures power == desired ==> next == power
  {
    if power > desired then power - 1 else if power < desired then power + 1 else power
  }

  /** The power after n ramp ticks toward `desired`. */
  function RampLevel(power: int, desired: int, n: nat): int
    decreases n
  {
    if n == 0 then power else RampLevel(Toward(power, desired), desired, n - 1)
  }

  /** The holds of n ramp ticks toward `desired` on `pin`, one per tick. */
  function RampHolds(pin: int, power: int, desired: int, n: nat): (t: seq<Event>)
    ensures |t| == n
    decreases n
  {
    if n == 0 then [] else [Hold(pin, Toward(power, desired))] + RampHolds(pin, Toward(power, desired), desired, n - 1)
  }

  /** The distance between two power levels. */
  function Gap(a: int, b: int): nat { if a <= b then b - a else a - b }

  /** The ramp in closed form: it reaches `desired` after Gap(power, desired)
      ticks and stays there; before that it has moved one step per tick. */
  lemma {:induction false} RampLevelClosedForm(power: int, desired: int, n: nat)
    ensures RampLevel(power, desired, n) ==
      if Gap(power, desired) <= n then desired
      else if power < desired then power + n
      else power - n
    decreases n
  {
    if n > 0 {
      RampLevelClosedForm(Toward(power, desired), desired, n - 1);
    }
  }

  /** One more tick is one more Toward step at the end. */
  lemma {:induction false} RampLevelSnoc(power: int, desired: int, n: nat)
    ensures RampLevel(power, desired, n + 1) == Toward(RampLevel(power, desired, n), desired)
    decreases n
  {
    if n > 0 {
      RampLevelSnoc(Toward(power, desired), desired, n - 1);
    }
  }

  /** One more tick appends the hold of the new level. */
  lemma {:induction false} RampHoldsSnoc(pin: int, power: int, desired: int, n: nat)
    ensures RampHolds(pin, power, desired, n + 1) ==
      RampHolds(pin, power, desired, n) + [Hold(pin, RampLevel(power, desired, n + 1))]
    decreases n
  {
    if n > 0 {
      RampHoldsSnoc(pin, Toward(power, desired), desired, n - 1);
    }
  }

  /** The i-th hold of a ramp is at the level reached after i + 1 ticks. */
  lemma {:induction false} RampHoldsAt(pin: int, power: int, desired: int, n: nat, i: nat)
    requires i < n
    ensures RampHolds(pin, power, desired, n)[i] == Hold(pin, RampLevel(power, desired, i + 1))
    decreases i
  {
    if i > 0 {
      RampHoldsAt(pin, Toward(power, desired), desired, n - 1, i - 1);
    }
  }

  /** Every hold of a ramp lies between the start and the target (never past the
      target), consecutive holds differ by at most one step, and once the target
      is held it is held for the rest of the ramp. */
  lemma RampHoldsShape(pin: int, power: int, desired: int, n: nat)
    ensures var t := RampHolds(pin, power, desired, n);
      forall i :: 0 <= i < n ==>
        t[i].Hold? && t[i].pin == pin && Min(power, desired) <= t[i].power <= Max(power, desired)
    ensures var t := RampHolds(pin, power, desired, n);
      forall i {:trigger t[i]} :: 0 < i < n ==> t[i - 1].Hold? && t[i].Hold? && Gap(t[i - 1].power, t[i].power) <= 1
    ensures var t := RampHolds(pin, power, desired, n);
      forall i, j :: 0 <= i <= j < n && t[i] == Hold(pin, desired) ==> t[j] == Hold(pin, desired)
  {
    var t := RampHolds(pin, power, desired, n);
    forall i | 0 <= i < n
      ensures t[i] == Hold(pin, RampLevel(power, desired, i + 1))
    {
      RampHoldsAt(pin, power, desired, n, i);
    }
    forall i | 1 <= i <= n
      ensures RampLevel(power, desired, i) ==
        if Gap(power, desired) <= i then desired
        else if power < desired then power + i
        else power - i
    {
      RampLevelClosedForm(power, desired, i);
    }
  }

  /** A ramp given enough ticks ends at the desired power. */
  lemma RampReachesTarget(power: int, desired: int, n: nat)
    requires Gap(power, desired) <= n
    ensures RampLevel(power, desired, n) == desired
  {
    RampLevelClosedForm(power, desired, n);
  }

  /** The power after stopMotor's loop has run for at most `budget` ticks:
      one step down per tick while positive; a level of zero or less is left as is. */
  function StopLevel(power: int, budget: nat): int
  {
    if budget == 0 || power <= 0 then power else StopLevel(power - 1, budget - 1)
  }

  /** The holds of stopMotor's loop, one per decrement. */
  function StopHolds(pin: int, power: int, budget: nat): seq<Event>
  {
    if budget == 0 || power <= 0 then [] else [Hold(pin, power - 1)] + StopHolds(pin, power - 1, budget - 1)
  }

  /** Everything stopMotor writes: nothing when the power is already zero,
      otherwise its holds and then the direction line driven low. */
  function StopTrace(pin: int, power: int, budget: nat): seq<Event>
  {
    if power == 0 then [] else StopHolds(pin, power, budget) + [Write(pin, Low)]
  }

  /** stopMotor ramps down exactly like a ramp toward zero, cut short once zero is held. */
  lemma {:induction false} StopIsRampToZero(pin: int, power: int, budget: nat)
    requires power >= 0
    ensures StopLevel(power, budget) == RampLevel(power, 0, Min(budget, power))
    ensures StopHolds(pin, power, budget) == RampHolds(pin, power, 0, Min(budget, power))
  {
    if budget > 0 && power > 0 {
      StopIsRampToZero(pin, power - 1, budget - 1);
    }
  }

  /** stopMotor never takes the power below zero, and reaches zero exactly when
      the budget covers one tick per step. */
  lemma {:induction false} StopLevelBounds(power: int, budget: nat)
    requires power >= 0
    ensures 0 <= StopLevel(power, budget) <= power
    ensures StopLevel(power, budget) == 0 <==> budget >= power
  {
    if budget > 0 && power > 0 {
      StopLevelBounds(power - 1, budget - 1);
    }
  }

  /** A stop from a positive power that has enough budget ends with the line held at
      zero and then driven low: a reversal without quick change passes through zero. */
  lemma {:induction false} StopTraceEndsAtZero(pin: int, power: int, budget: nat)
    requires power > 0 && budget >= power
    ensures |StopTrace(pin, power, budget)| == power + 1
    ensures StopTrace(pin, power, budget)[power - 1] == Hold(pin, 0)
    ensures StopTrace(pin, power, budget)[power] == Write(pin, Low)
  {
    assert StopHolds(pin, power, budget) == [Hold(pin, power - 1)] + StopHolds(pin, power - 1, budget - 1);
    if power > 1 {
      StopTraceEndsAtZero(pin, power - 1, budget - 1);
      assert StopTrace(pin, power, budget) == [Hold(pin, power - 1)] + StopTrace(pin, power - 1, budget - 1);
    } else {
      assert StopHolds(pin, power - 1, budget - 1) == [];
    }
  }

  /** A quick-change ramp between two positive powers never holds zero. */
  lemma QuickChangeAvoidsZero(pin: int, power: int, desired: int, n: nat)
    requires power > 0 && desired > 0
    ensures forall i :: 0 <= i < n ==> RampHolds(pin, power, desired, n)[i].Hold? && RampHolds(pin, power, desired, n)[i].power > 0
  {
    RampHoldsShape(pin, power, desired, n);
  }

  /** The power of the last hold in a trace: the pattern currently in powerSignal
      (zero, the all-off pattern, before any hold). */
  function LastHeld(trace: seq<Event>): int
  {
    if |trace| == 0 then 0
    else if trace[|trace| - 1].Hold? then trace[|trace| - 1].power
    else LastHeld(trace[..|trace| - 1])
  }

  /** static_cast<int> of a float: truncation toward zero. */
  function TruncateToInt(x: real): (r: int)
    ensures x >= 0.0 ==> r as real <= x < r as real + 1.0
    ensures x < 0.0 ==> r as real - 1.0 < x <= r as real
  {
    if x >= 0.0 then x.Floor else -((-x).Floor)
  }

  // ---------------------------------------------------------------------------
  // The controller state and its operations

  class Motor {
    var lastPowerSet: int
    var lastDirection: int
    /** Ramp speed setting (1..10); it only scales the wall-clock length of a tick. */
    var acceleration: int
    const powerSignal: array<bool>
    /** Every drive-line event, in order. */
    ghost var trace: seq<Event>

    ghost predicate Shaped()
      reads this
    {
      powerSignal.Length == MaxSpeed
    }

    /** The pattern buffer holds the pattern of the last power held. */
    ghost predicate Valid()
      reads this, powerSignal
    {
      Shaped() && powerSignal[..] == Pattern(LastHeld(trace))
    }

    /** The controller state after setupGPIO (pin modes and interrupt registration are not modelled). */
    constructor ()
      ensures Valid() && fresh(powerSignal)
      ensures lastPowerSet == 0 && lastDirection == MotorCW && acceleration == 1 && trace == []
    {
      lastPowerSet := 0;
      lastDirection := MotorCW;
      acceleration := 1;
      powerSignal := new bool[MaxSpeed](_ => false);
      trace := [];
      new;
      assert powerSignal[..] == Pattern(0);
    }

    /** generatePowerSignal: clear all slots, then for a positive speed switch on the
        slots round(k * MaxSpeed / speed) while that stays below MaxSpeed. */
    method GeneratePowerSignal(speed: int)
      requires Shaped()
      modifies powerSignal
      ensures powerSignal[..] == Pattern(speed)
    {
      var p := 0;
      while p < MaxSpeed
        invariant 0 <= p <= MaxSpeed
        invariant forall j :: 0 <= j < p ==> !powerSignal[j]
      {
        powerSignal[p] := false;
        p := p + 1;
      }
      if speed <= 0 {
        assert powerSignal[..] == Pattern(speed);
        return;
      }
      var sp := if speed > MaxSpeed then MaxSpeed else speed;
      var s: real := 0.0;
      var step := MaxSpeed as real / sp as real;
      ghost var k: nat := 0;
      assert powerSignal[..] == PartialPattern(sp, 0);
      while s < MaxSpeed as real
        invariant k <= sp && step == Step(sp) && s == Pos(sp, k)
        invariant powerSignal[..] == PartialPattern(sp, k)
        decreases sp - k
      {
        PassBound(sp, k);
        PartialPatternNext(sp, k);
        var i := Round(s);
        powerSignal[i] := true;
        NextPass(sp, k);
        s := s + step;
        k := k + 1;
      }
      PassBound(sp, k);
    }

    /** accelerateMotor: one ramp tick holding `speed` on `direction`; its pattern is
        regenerated and played for the tick's duration. */
    method AccelerateMotor(direction: int, speed: int)
      requires Shaped()
      modifies powerSignal, this`trace
      ensures Valid()
      ensures trace == old(trace) + [Hold(direction, speed)]
    {
      GeneratePowerSignal(speed);
      trace := trace + [Hold(direction, speed)];
    }

    /** stopMotor with a deadline that leaves room for `budget` ticks. */
    method StopMotor(budget: nat)
      requires Valid()
      modifies this`lastPowerSet, this`trace, powerSignal
      ensures Valid()
      ensures lastPowerSet == StopLevel(old(lastPowerSet), budget)
      ensures trace == old(trace) + StopTrace(lastDirection, old(lastPowerSet), budget)
    {
      var direction := lastDirection;
      if lastPowerSet == 0 {
        return;
      }
      RampDown(direction, budget);
      trace := trace + [Write(direction, Low)];
    }

    /** stopMotor's loop: at most `budget` ticks, each lowering the power by one
        and holding it for one PWM cycle, until the power reaches zero. */
    method RampDown(direction: int, budget: nat)
      requires Valid()
      modifies this`lastPowerSet, this`trace, powerSignal
      ensures Valid()
      ensures lastPowerSet == StopLevel(old(lastPowerSet), budget)
      ensures trace == old(trace) + StopHolds(direction, old(lastPowerSet), budget)
    {
      ghost var power, before := lastPowerSet, trace;
      var speed := lastPowerSet;
      var n := 0;
      while n < budget
        invariant 0 <= n <= budget && Valid()
        invariant lastPowerSet == StopLevel(power, n)
        invariant trace == before + StopHolds(direction, power, n)
        invariant StopLevel(power, budget) == StopLevel(lastPowerSet, budget - n)
        invariant StopHolds(direction, power, budget) ==
          StopHolds(direction, power, n) + StopHolds(direction, lastPowerSet, budget - n)
      {
        if lastPowerSet > 0 {
          lastPowerSet := lastPowerSet - 1;
          speed := lastPowerSet;
        } else {
          break;
        }
        AccelerateMotor(direction, speed);
        StopStepSnoc(direction, power, n, budget);
        n := n + 1;
      }
    }

    /** turnMotor: unless quickChange is set, a change of direction first stops the
        motor (within `stopBudget` ticks); then the power is ramped toward
        desiredSpeed for `rampBudget` ticks, the direction is recorded and its
        line driven low. */
    method TurnMotor(direction: int, desiredSpeed: int, quickChange: bool, stopBudget: nat, rampBudget: nat)
      requires Valid()
      modifies this`lastPowerSet, this`lastDirection, this`trace, powerSignal
      ensures Valid()
      ensures lastDirection == direction
      ensures var stops := !quickChange && direction != old(lastDirection);
              var start := if stops then StopLevel(old(lastPowerSet), stopBudget) else old(lastPowerSet);
              lastPowerSet == RampLevel(start, desiredSpeed, rampBudget) &&
              trace == old(trace)
                       + (if stops then StopTrace(old(lastDirection), old(lastPowerSet), stopBudget) else [])
                       + RampHolds(direction, start, desiredSpeed, rampBudget)
                       + [Write(direction, Low)]
    {
      if !quickChange && direction != lastDirection {
        StopMotor(stopBudget);
      }
      Ramp(direction, desiredSpeed, rampBudget);
      lastDirection := direction;
      trace := trace + [Write(direction, Low)];
    }

    /** turnMotor's ramp: at most `budget` steps, each moving the level one
        unit toward the desired speed and holding it for one PWM cycle. */
    method Ramp(direction: int, desiredSpeed: int, budget: nat)
      requires Valid()
      modifies this`lastPowerSet, this`trace, powerSignal
      ensures Valid()
      ensures lastPowerSet == RampLevel(old(lastPowerSet), desiredSpeed, budget)
      ensures trace == old(trace) + RampHolds(direction, old(lastPowerSet), desiredSpeed, budget)
    {
      ghost var start := lastPowerSet;
      ghost var before := trace;
      var speed := lastPowerSet;
      var n := 0;
      while n < budget
        invariant 0 <= n <= budget && Valid()
        invariant lastPowerSet == RampLevel(start, desiredSpeed, n)
        invariant trace == before + RampHolds(direction, start, desiredSpeed, n)
        invariant speed == lastPowerSet
      {
        ghost var next := Toward(lastPowerSet, desiredSpeed);
        if lastPowerSet > desiredSpeed {
          lastPowerSet := lastPowerSet - 1;
          speed := lastPowerSet;
        } else if lastPowerSet < desiredSpeed {
          lastPowerSet := lastPowerSet + 1;
          speed := lastPowerSet;
        }
        assert lastPowerSet == next && speed == next;
        AccelerateMotor(direction, speed);
        RampLevelSnoc(start, desiredSpeed, n);
        RampHoldsSnoc(direction, start, desiredSpeed, n);
        n := n + 1;
      }
    }

    /** turnCW(int): turnMotor on the clockwise pin. */
    method TurnCW(speed: int, quickChange: bool, stopBudget: nat, rampBudget: nat)
      requires Valid()
      modifies this`lastPowerSet, this`lastDirection, this`trace, powerSignal
      ensures Valid()
      ensures lastDirection == MotorCW
      ensures var stops := !quickChange && old(lastDirection) != MotorCW;
              var start := if stops then StopLevel(old(lastPowerSet), stopBudget) else old(lastPowerSet);
              lastPowerSet == RampLevel(start, speed, rampBudget) &&
              trace == old(trace)
                       + (if stops then StopTrace(old(lastDirection), old(lastPowerSet), stopBudget) else [])
                       + RampHolds(MotorCW, start, speed, rampBudget)
                       + [Write(MotorCW, Low)]
    {
      TurnMotor(MotorCW, speed, quickChange, stopBudget, rampBudget);
    }

    /** turnCCW(int): turnMotor on the counter-clockwise pin. */
    method TurnCCW(speed: int, quickChange: bool, stopBudget: nat, rampBudget: nat)
      requires Valid()
      modifies this`lastPowerSet, this`lastDirection, this`trace, powerSignal
      ensures Valid()
      ensures lastDirection == MotorCCW
      ensures var stops := !quickChange && old(lastDirection) != MotorCCW;
              var start := if stops then StopLevel(old(lastPowerSet), stopBudget) else old(lastPowerSet);
              lastPowerSet == RampLevel(start, speed, rampBudget) &&
              trace == old(trace)
                       + (if stops then StopTrace(old(lastDirection), old(lastPowerSet), stopBudget) else [])
                       + RampHolds(MotorCCW, start, speed, rampBudget)
                       + [Write(MotorCCW, Low)]
    {
      TurnMotor(MotorCCW, speed, quickChange, stopBudget, rampBudget);
    }

    /** turnCW(float): the speed is truncated toward zero, then turnCW(int). */
    method TurnCWFromFloat(speed: real, quickChange: bool, stopBudget: nat, rampBudget: nat)
      requires Valid()
      modifies this`lastPowerSet, this`lastDirection, this`trace, powerSignal
      ensures Valid()
      ensures lastDirection == MotorCW
      ensures var stops := !quickChange && old(lastDirection) != MotorCW;
              var start := if stops then StopLevel(old(lastPowerSet), stopBudget) else old(lastPowerSet);
              lastPowerSet == RampLevel(start, TruncateToInt(speed), rampBudget) &&
              trace == old(trace)
                       + (if stops then StopTrace(old(lastDirection), old(lastPowerSet), stopBudget) else [])
                       + RampHolds(MotorCW, start, TruncateToInt(speed), rampBudget)
                       + [Write(MotorCW, Low)]
    {
      TurnCW(TruncateToInt(speed), quickChange, stopBudget, rampBudget);
    }

    /** turnCCW(float): the speed is truncated toward zero, then turnCCW(int). */
    method TurnCCWFromFloat(speed: real, quickChange: bool, stopBudget: nat, rampBudget: nat)
      requires Valid()
      modifies this`lastPowerSet, this`lastDirection, this`trace, powerSignal
      ensures Valid()
      ensures lastDirection == MotorCCW
      ensures var stops := !quickChange && old(lastDirection) != MotorCCW;
              var start := if stops then StopLevel(old(lastPowerSet), stopBudget) else old(lastPowerSet);
              lastPowerSet == RampLevel(start, TruncateToInt(speed), rampBudget) &&
              trace == old(trace)
                       + (if stops then StopTrace(old(lastDirection), old(lastPowerSet), stopBudget) else [])
                       + RampHolds(MotorCCW, start, TruncateToInt(speed), rampBudget)
                       + [Write(MotorCCW, Low)]
    {
      TurnCCW(TruncateToInt(speed), quickChange, stopBudget, rampBudget);
    }
  }

  /** One more tick of stopMotor's loop from a positive level. */
  lemma StopStepSnoc(pin: int, power: int, n: nat, budget: nat)
    requires n < budget && StopLevel(power, n) > 0
    ensures StopLevel(power, n + 1) == StopLevel(power, n) - 1
    ensures StopHolds(pin, power, n + 1) == StopHolds(pin, power, n) + [Hold(pin, StopLevel(power, n) - 1)]
    ensures StopLevel(power, budget) == StopLevel(StopLevel(power, n) - 1, budget - n - 1)
    ensures StopHolds(pin, power, budget) ==
      StopHolds(pin, power, n + 1) + StopHolds(pin, StopLevel(power, n) - 1, budget - n - 1)
    decreases n
  {
    if n > 0 {
      StopStepSnoc(pin, power - 1, n - 1, budget - 1);
    }
  }
}
