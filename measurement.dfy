/** The measurement conditioner of hal/board_service.c: CompensateDCBusVoltage rescales
    the three phase-voltage estimates by a Q12 reciprocal of the DC bus voltage, and
    SaturateAndScalePOTvalue caps the potentiometer reading and scales it by 1.5. */
module Measurement {
  import opened BoardTypes

  /** A potentiometer reading: counts of a 3.3 V = 32767 scale. */
  type PotCount = x: int | 0 <= x <= 0x7FFF

  /** `__builtin_divf(num, den)`: the fractional quotient num/den in Q15, truncated.
      Defined only for 0 < num < den, where the quotient is below 1. */
  function FractionalDivide(num: int16, den: int16): (q: int16)
    requires 0 < num < den
    ensures 0 <= q
    ensures q * den <= num * 0x8000 < (q + 1) * den
  {
    num * 0x8000 / den
  }

  /** The reciprocal computed at the head of CompensateDCBusVoltage: MC_RVDC_MIN at or
      below MC_RVDC_MIN_VDC, otherwise MC_RVDC_MIN_VDC / vdc as a Q15 fraction, which
      read at binary point MC_RVDC_Q is 2^15 / vdc. */
  function Reciprocal(vdc: int16): (r: int16)
    ensures vdc <= MC_RVDC_MIN_VDC ==> r == MC_RVDC_MIN
    ensures vdc > MC_RVDC_MIN_VDC ==>
      r * vdc <= MC_RVDC_MIN_VDC * 0x8000 < (r + 1) * vdc
    ensures MC_RVDC_MIN_VDC <= r <= MC_RVDC_MIN
  {
    if vdc <= MC_RVDC_MIN_VDC then MC_RVDC_MIN
    else
      var q := FractionalDivide(MC_RVDC_MIN_VDC, vdc);
      QuotientBounds(vdc, q);
      q
  }

  /** The Q15 quotient 4096/den for 4096 < den <= 32767 lies in [4096, 32767]. */
  lemma QuotientBounds(den: int, q: int)
    requires MC_RVDC_MIN_VDC < den <= 0x7FFF && 0 <= q
    requires q * den <= MC_RVDC_MIN_VDC * 0x8000 < (q + 1) * den
    ensures MC_RVDC_MIN_VDC <= q <= MC_RVDC_MIN
  {
    if q < 4096 {
      MulMonotone(q + 1, 4096, den);
      assert false;
    }
    if q > 0x7FFF {
      MulMonotone(0x8000, q, den);
      assert false;
    }
  }

  /** One phase of the compensation: `(int16_t)(__builtin_mulss(x, rvdc) >> MC_RVDC_Q)`,
      the exact 32-bit product shifted arithmetically and truncated, not saturated,
      to 16 bits. */
  function Compensate(x: int16, rvdc: int16): (y: int16)
    ensures (y - ShiftRight(x * rvdc, MC_RVDC_Q)) % 0x1_0000 == 0
    ensures -0x8000 * 4096 <= x * rvdc < 0x8000 * 4096 ==>
      y * 4096 <= x * rvdc < (y + 1) * 4096
  {
    PotAndReciprocalFitInt16();
    ToInt16(ShiftRight(x * rvdc, MC_RVDC_Q))
  }

  /** A phase voltage within the bus rail (-vdc <= x < vdc) is compensated without
      truncation: the result is x * rvdc / 2^12 rounded down, with rvdc the reciprocal. */
  lemma CompensateWithinRail(x: int16, vdc: int16)
    requires -(vdc as int) <= x < vdc
    ensures Compensate(x, Reciprocal(vdc)) * 4096 <= x * Reciprocal(vdc) <
            (Compensate(x, Reciprocal(vdc)) + 1) * 4096
  {
    var r := Reciprocal(vdc);
    if vdc > MC_RVDC_MIN_VDC {
      if x >= 0 {
        MulMonotone(x, vdc - 1, r);
        assert x * r <= (vdc - 1) * r;
      } else {
        MulMonotone(-x, vdc, r);
        assert -x * r <= (vdc as int) * r;
      }
    } else {
      if x >= 0 {
        MulMonotone(x, MC_RVDC_MIN_VDC as int, r);
      } else {
        MulMonotone(-x, MC_RVDC_MIN_VDC as int, r);
        assert -x * r <= 4096 * (r as int);
      }
    }
  }

  lemma MulMonotone(a: int, b: int, c: nat)
    requires 0 <= a <= b
    ensures 0 <= a * c <= b * c
  {
  }

  /** Without saturation, a phase voltage equal to a bus voltage of 8192 wraps round to
      the most negative value. */
  lemma CompensateAtRailWraps()
    ensures Reciprocal(8192) == 16384
    ensures Compensate(8192, Reciprocal(8192)) == -0x8000
  {
    PotAndReciprocalFitInt16();
  }

  /** The first branch of SaturateAndScalePOTvalue: cap at POT_COUNTS_SATURATE. */
  function SaturatePot(p: PotCount): (q: PotCount)
    ensures q <= POT_COUNTS_SATURATE && q <= p
    ensures p < POT_COUNTS_SATURATE ==> q == p
    ensures p >= POT_COUNTS_SATURATE ==> q == POT_COUNTS_SATURATE
  {
    if p >= POT_COUNTS_SATURATE then POT_COUNTS_SATURATE else p
  }

  /** The second step: `p + (p >> 1)`, 1.5 times the capped value rounded down,
      which stays within the 32767-count full scale. */
  function ScalePot(q: PotCount): (s: PotCount)
    requires q <= POT_COUNTS_SATURATE
    ensures 2 * s <= 3 * q < 2 * s + 2
  {
    PotAndReciprocalFitInt16();
    assert Pow2(1) == 2;
    q + ShiftRight(q, 1)
  }

  /** MCAPP_MEASURE_T as a value (only the fields the board service touches). */
  datatype MeasureRec = MeasureRec(dcBusVoltage: int16, potValue: PotCount, potValueScaled: PotCount)

  /** SaturateAndScalePOTvalue on a value. */
  function PotStep(m: MeasureRec): (r: MeasureRec)
    ensures r.dcBusVoltage == m.dcBusVoltage
    ensures r.potValue <= POT_COUNTS_SATURATE && r.potValueScaled <= POT_COUNTS_FULL_SCALE
    ensures m.potValue < POT_COUNTS_SATURATE ==> r.potValue == m.potValue
  {
    var q := SaturatePot(m.potValue);
    m.(potValue := q, potValueScaled := ScalePot(q))
  }

  /** Scaling is monotone in the raw reading, and every reading at or above the cap
      scales to exactly full scale. */
  lemma PotScaledMonotone(p1: PotCount, p2: PotCount)
    requires p1 <= p2
    ensures ScalePot(SaturatePot(p1)) <= ScalePot(SaturatePot(p2))
    ensures p1 >= POT_COUNTS_SATURATE ==> ScalePot(SaturatePot(p1)) == POT_COUNTS_FULL_SCALE
  {
  }

  /** Running SaturateAndScalePOTvalue twice leaves the same fields as running it once. */
  lemma PotStepIdempotent(m: MeasureRec)
    ensures PotStep(PotStep(m)) == PotStep(m)
  {
  }

  /** MC_ABC_T: the three phase values, overwritten in place. */
  class Abc {
    var a: int16
    var b: int16
    var c: int16

    constructor (a: int16, b: int16, c: int16)
      ensures this.a == a && this.b == b && this.c == c
    {
      this.a, this.b, this.c := a, b, c;
    }
  }

  /** MCAPP_MEASURE_T, updated in place by the callee. */
  class Measure {
    var dcBusVoltage: int16
    var potValue: PotCount
    var potValueScaled: PotCount

    function View(): MeasureRec
      reads this
    {
      MeasureRec(dcBusVoltage, potValue, potValueScaled)
    }

    constructor (m: MeasureRec)
      ensures View() == m
    {
      dcBusVoltage, potValue, potValueScaled := m.dcBusVoltage, m.potValue, m.potValueScaled;
    }
  }

  /** CompensateDCBusVoltage(pvabc, pmeasureInputs): the measurement is only read. */
  method CompensateDCBusVoltage(vabc: Abc, measure: Measure)
    modifies vabc
    ensures vabc.a == Compensate(old(vabc.a), Reciprocal(measure.dcBusVoltage))
    ensures vabc.b == Compensate(old(vabc.b), Reciprocal(measure.dcBusVoltage))
    ensures vabc.c == Compensate(old(vabc.c), Reciprocal(measure.dcBusVoltage))
  {
    var rvdc: int16 := 0;
    if measure.dcBusVoltage <= MC_RVDC_MIN_VDC {
      rvdc := MC_RVDC_MIN;
    } else {
      rvdc := FractionalDivide(MC_RVDC_MIN_VDC, measure.dcBusVoltage);
    }

    vabc.a := ToInt16(ShiftRight(vabc.a * rvdc, MC_RVDC_Q));
    vabc.b := ToInt16(ShiftRight(vabc.b * rvdc, MC_RVDC_Q));
    vabc.c := ToInt16(ShiftRight(vabc.c * rvdc, MC_RVDC_Q));
  }

  /** SaturateAndScalePOTvalue(pmeasureInputs). */
  method SaturateAndScalePot(measure: Measure)
    modifies measure
    ensures measure.View() == PotStep(old(measure.View()))
  {
    PotAndReciprocalFitInt16();
    assert Pow2(1) == 2;
    if measure.potValue >= POT_COUNTS_SATURATE {
      measure.potValue := POT_COUNTS_SATURATE;
    }

    measure.potValueScaled := measure.potValue + ShiftRight(measure.potValue, 1);
  }
}
