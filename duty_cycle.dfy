/** The duty-cycle safety layer of hal/board_service.c: pwmDutyCycleLimitCheck saturates
    a duty-cycle triple in place, and PWMDutyCycleSet / PWMDutyCycleSetDualEdge clamp to
    the dead-time band [DEADTIME>>1, LOOPTIME_TCY - (DEADTIME>>1)] before writing the
    duty (PDC) and phase (PHASE) registers of the three PWM generators. */
module DutyCycle {
  import opened BoardTypes

  /** One channel of pwmDutyCycleLimitCheck: below `lo` becomes `lo`, otherwise above
      `hi` becomes `hi`, otherwise unchanged. */
  function Saturate(v: uint16, lo: uint16, hi: uint16): (r: uint16)
    ensures lo <= hi ==> lo <= r <= hi
    ensures lo <= v <= hi ==> r == v
    ensures v < lo ==> r == lo
    ensures lo <= v && hi < v ==> r == hi
  {
    if v < lo then lo else if v > hi then hi else v
  }

  /** With a non-empty band, saturation is the textbook clamp max(lo, min(v, hi)),
      and applying it twice is the same as applying it once. */
  lemma SaturateIsClamp(v: uint16, lo: uint16, hi: uint16)
    requires lo <= hi
    ensures Saturate(v, lo, hi) == Max(lo as int, Min(v as int, hi as int))
    ensures Saturate(Saturate(v, lo, hi), lo, hi) == Saturate(v, lo, hi)
  {
  }

  /** With an empty band (lo > hi) the code is not idempotent: a value below `lo`
      becomes `lo` and then `hi`. */
  lemma SaturateEmptyBandNotIdempotent(lo: uint16, hi: uint16)
    requires hi < lo
    ensures Saturate(Saturate(0, lo, hi), lo, hi) == hi != Saturate(0, lo, hi)
  {
  }

  /** MC_DUTYCYCLEOUT_T as a value. */
  datatype Triple = Triple(d1: uint16, d2: uint16, d3: uint16)

  predicate InBand(t: Triple, lo: int, hi: int)
  {
    lo <= t.d1 <= hi && lo <= t.d2 <= hi && lo <= t.d3 <= hi
  }

  /** pwmDutyCycleLimitCheck on a value: each channel saturated on its own. */
  function SaturateTriple(t: Triple, lo: uint16, hi: uint16): (r: Triple)
    ensures lo <= hi ==> InBand(r, lo as int, hi as int)
    ensures InBand(t, lo as int, hi as int) ==> r == t
    ensures r.d1 == Saturate(t.d1, lo, hi) && r.d2 == Saturate(t.d2, lo, hi) && r.d3 == Saturate(t.d3, lo, hi)
  {
    Triple(Saturate(t.d1, lo, hi), Saturate(t.d2, lo, hi), Saturate(t.d3, lo, hi))
  }

  /** Saturating a triple is idempotent when the band is not empty; channels do not interact. */
  lemma SaturateTripleIdempotent(t: Triple, u: Triple, lo: uint16, hi: uint16)
    requires lo <= hi
    ensures SaturateTriple(SaturateTriple(t, lo, hi), lo, hi) == SaturateTriple(t, lo, hi)
    ensures t.d1 == u.d1 ==> SaturateTriple(t, lo, hi).d1 == SaturateTriple(u, lo, hi).d1
  {
    SaturateIsClamp(t.d1, lo, hi);
    SaturateIsClamp(t.d2, lo, hi);
    SaturateIsClamp(t.d3, lo, hi);
  }

  /** The dead-time assumption on DEADTIME and LOOPTIME_TCY (both uint16):
      the clamp band [DEADTIME>>1, LOOPTIME_TCY - (DEADTIME>>1)] is not empty. */
  predicate DeadTimeFits(deadTime: uint16, loopTime: uint16)
  {
    2 * ShiftRight(deadTime, 1) <= loopTime
  }

  /** Lower edge of the clamp band, `DEADTIME>>1`. */
  function BandLow(deadTime: uint16): (h: uint16)
    ensures 2 * h <= deadTime < 2 * h + 2
  {
    assert Pow2(1) == 2;
    ShiftRight(deadTime, 1)
  }

  /** Upper edge of the clamp band, `LOOPTIME_TCY - (DEADTIME>>1)`. */
  function BandHigh(deadTime: uint16, loopTime: uint16): (m: uint16)
    requires DeadTimeFits(deadTime, loopTime)
    ensures BandLow(deadTime) <= m && m + BandLow(deadTime) == loopTime
  {
    loopTime - BandLow(deadTime)
  }

  /** Value PWMDutyCycleSet writes to a PDC register for one commanded duty. */
  function SingleEdgeDuty(v: uint16, deadTime: uint16, loopTime: uint16): (r: uint16)
    requires DeadTimeFits(deadTime, loopTime)
    ensures BandLow(deadTime) <= r <= loopTime - BandLow(deadTime)
    ensures BandLow(deadTime) <= v <= loopTime - BandLow(deadTime) ==> r == v
  {
    Saturate(v, BandLow(deadTime), BandHigh(deadTime, loopTime))
  }

  /** Value PWMDutyCycleSetDualEdge writes to a PHASE register: the clamped rising-edge
      command delayed by half the dead time. It fits in 16 bits without wrapping. */
  function DualEdgePhase(v: uint16, deadTime: uint16, loopTime: uint16): (r: uint16)
    requires DeadTimeFits(deadTime, loopTime)
    ensures 2 * BandLow(deadTime) <= r <= loopTime
    ensures r == SingleEdgeDuty(v, deadTime, loopTime) + BandLow(deadTime)
  {
    Wrap16(SingleEdgeDuty(v, deadTime, loopTime) + BandLow(deadTime))
  }

  /** Value PWMDutyCycleSetDualEdge writes to a PDC register: the clamped falling-edge
      command advanced by half the dead time. It does not underflow. */
  function DualEdgeDuty(v: uint16, deadTime: uint16, loopTime: uint16): (r: uint16)
    requires DeadTimeFits(deadTime, loopTime)
    ensures 0 <= r <= loopTime - 2 * BandLow(deadTime)
    ensures r == SingleEdgeDuty(v, deadTime, loopTime) - BandLow(deadTime)
  {
    Wrap16(SingleEdgeDuty(v, deadTime, loopTime) - BandLow(deadTime))
  }

  /** Each leg's two edges are separated by the difference of the clamped commands plus a
      whole dead time; equal commands give edges exactly one dead time (rounded down to
      even) apart, with the rising edge later. */
  lemma DualEdgeSeparation(v1: uint16, v2: uint16, deadTime: uint16, loopTime: uint16)
    requires DeadTimeFits(deadTime, loopTime)
    ensures DualEdgePhase(v1, deadTime, loopTime) - DualEdgeDuty(v2, deadTime, loopTime) ==
            SingleEdgeDuty(v1, deadTime, loopTime) - SingleEdgeDuty(v2, deadTime, loopTime) + 2 * BandLow(deadTime)
    ensures v1 == v2 ==>
            DualEdgePhase(v1, deadTime, loopTime) - DualEdgeDuty(v2, deadTime, loopTime) == 2 * BandLow(deadTime)
  {
  }

  /** The worked example: period 499, dead time 40, both commands 100 give a phase of 120
      and a duty of 80 on every leg. */
  lemma DualEdgeExample()
    ensures DeadTimeFits(40, 499)
    ensures DualEdgePhase(100, 40, 499) == 120
    ensures DualEdgeDuty(100, 40, 499) == 80
  {
    assert Pow2(1) == 2;
  }

  /** MC_DUTYCYCLEOUT_T, overwritten in place by the callee. */
  class DutyCycleOut {
    var dutycycle1: uint16
    var dutycycle2: uint16
    var dutycycle3: uint16

    function View(): Triple
      reads this
    {
      Triple(dutycycle1, dutycycle2, dutycycle3)
    }

    constructor (t: Triple)
      ensures View() == t
    {
      dutycycle1, dutycycle2, dutycycle3 := t.d1, t.d2, t.d3;
    }
  }

  /** pwmDutyCycleLimitCheck(pPwmDutycycle, min, max). */
  method LimitCheck(d: DutyCycleOut, min: uint16, max: uint16)
    modifies d
    ensures d.View() == SaturateTriple(old(d.View()), min, max)
  {
    if d.dutycycle1 < min {
      d.dutycycle1 := min;
    } else if d.dutycycle1 > max {
      d.dutycycle1 := max;
    }

    if d.dutycycle2 < min {
      d.dutycycle2 := min;
    } else if d.dutycycle2 > max {
      d.dutycycle2 := max;
    }

    if d.dutycycle3 < min {
      d.dutycycle3 := min;
    } else if d.dutycycle3 > max {
      d.dutycycle3 := max;
    }
  }

  /** The duty (PWM_PDCk) and phase (PWM_PHASEk) registers of the three PWM generators,
      with the build-time DEADTIME and LOOPTIME_TCY they are programmed against. */
  class PowerStage {
    const deadTime: uint16
    const loopTime: uint16
    var pdc1: uint16
    var pdc2: uint16
    var pdc3: uint16
    var phase1: uint16
    var phase2: uint16
    var phase3: uint16

    ghost predicate Valid()
      reads this
    {
      DeadTimeFits(deadTime, loopTime)
    }

    /** Every duty and phase register lies in the band the safety layer guarantees. */
    ghost predicate RegistersSafe()
      reads this
      requires Valid()
    {
      var h := BandLow(deadTime);
      h <= pdc1 <= loopTime - h && h <= pdc2 <= loopTime - h && h <= pdc3 <= loopTime - h
    }

    constructor (deadTime: uint16, loopTime: uint16)
      requires DeadTimeFits(deadTime, loopTime)
      ensures Valid() && this.deadTime == deadTime && this.loopTime == loopTime
      ensures pdc1 == pdc2 == pdc3 == phase1 == phase2 == phase3 == 0
    {
      this.deadTime := deadTime;
      this.loopTime := loopTime;
      pdc1, pdc2, pdc3 := 0, 0, 0;
      phase1, phase2, phase3 := 0, 0, 0;
    }

    /** PWMDutyCycleSet: clamp the caller's triple in place, then write it to the
        duty registers. */
    method DutyCycleSet(d: DutyCycleOut)
      requires Valid()
      modifies this`pdc1, this`pdc2, this`pdc3, d
      ensures d.View() == SaturateTriple(old(d.View()), BandLow(deadTime), BandHigh(deadTime, loopTime))
      ensures pdc1 == SingleEdgeDuty(old(d.dutycycle1), deadTime, loopTime)
      ensures pdc2 == SingleEdgeDuty(old(d.dutycycle2), deadTime, loopTime)
      ensures pdc3 == SingleEdgeDuty(old(d.dutycycle3), deadTime, loopTime)
      ensures Triple(pdc1, pdc2, pdc3) == d.View() && RegistersSafe()
    {
      LimitCheck(d, BandLow(deadTime), BandHigh(deadTime, loopTime));
      pdc3 := d.dutycycle3;
      pdc2 := d.dutycycle2;
      pdc1 := d.dutycycle1;
    }

    /** PWMDutyCycleSetDualEdge: clamp both triples in place; the first, delayed by half the
        dead time, goes to the phase registers, the second, advanced by half the dead time,
        to the duty registers. The two triples may be the same object. */
    method DutyCycleSetDualEdge(rising: DutyCycleOut, falling: DutyCycleOut)
      requires Valid()
      modifies this`pdc1, this`pdc2, this`pdc3, this`phase1, this`phase2, this`phase3, rising, falling
      ensures rising.View() == SaturateTriple(old(rising.View()), BandLow(deadTime), BandHigh(deadTime, loopTime))
      ensures falling.View() == SaturateTriple(old(falling.View()), BandLow(deadTime), BandHigh(deadTime, loopTime))
      ensures phase1 == DualEdgePhase(old(rising.dutycycle1), deadTime, loopTime)
      ensures phase2 == DualEdgePhase(old(rising.dutycycle2), deadTime, loopTime)
      ensures phase3 == DualEdgePhase(old(rising.dutycycle3), deadTime, loopTime)
      ensures pdc1 == DualEdgeDuty(old(falling.dutycycle1), deadTime, loopTime)
      ensures pdc2 == DualEdgeDuty(old(falling.dutycycle2), deadTime, loopTime)
      ensures pdc3 == DualEdgeDuty(old(falling.dutycycle3), deadTime, loopTime)
    {
      var lo, hi := BandLow(deadTime), BandHigh(deadTime, loopTime);
      ghost var r0, f0 := rising.View(), falling.View();
      LimitCheck(rising, lo, hi);

      phase3 := Wrap16(rising.dutycycle3 + lo);
      phase2 := Wrap16(rising.dutycycle2 + lo);
      phase1 := Wrap16(rising.dutycycle1 + lo);

      ghost var f1 := falling.View();
      LimitCheck(falling, lo, hi);
      if rising == falling {
        SaturateTripleIdempotent(r0, r0, lo, hi);
      }
      assert falling.View() == SaturateTriple(f0, lo, hi);

      pdc3 := Wrap16(falling.dutycycle3 - lo);
      pdc2 := Wrap16(falling.dutycycle2 - lo);
      pdc1 := Wrap16(falling.dutycycle1 - lo);
    }
  }

  /** The worked example run through the registers. */
  method DualEdgeScenario()
  {
    var stage := new PowerStage(40, 499);
    var rising := new DutyCycleOut(Triple(100, 100, 100));
    var falling := new DutyCycleOut(Triple(100, 100, 100));
    stage.DutyCycleSetDualEdge(rising, falling);
    DualEdgeExample();
    assert stage.phase1 == stage.phase2 == stage.phase3 == 120;
    assert stage.pdc1 == stage.pdc2 == stage.pdc3 == 80;
  }
}
