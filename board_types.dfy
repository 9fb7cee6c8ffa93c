/** Types and constants of the board service layer (hal/board_service.h),
    plus the fixed-width integer helpers the C code relies on implicitly. */
module BoardTypes {

  /** C `uint16_t` and `int16_t`. */
  type uint16 = x: int | 0 <= x <= 0xFFFF
  type int16 = x: int | -0x8000 <= x <= 0x7FFF

  /** Debounce threshold compared against `debounceCount` (1 ms service ticks). */
  const BUTTON_DEBOUNCE_COUNT: uint16 := 30
  /** PWM interrupts per board-service tick. */
  const BOARD_SERVICE_TICK_COUNT: uint16 := 20
  /** Binary point of the bus-voltage reciprocal. */
  const MC_RVDC_Q: nat := 12
  /** Bus voltage at or below which no reciprocal is computed. */
  const MC_RVDC_MIN_VDC: int16 := 4096
  /** Reciprocal substituted at or below MC_RVDC_MIN_VDC. */
  const MC_RVDC_MIN: int16 := 32767
  /** Potentiometer counts for 2.2 V on a 3.3 V = 32767 count scale. */
  const POT_COUNTS_SATURATE: int := 21845
  /** Full scale of the potentiometer reading (3.3 V). */
  const POT_COUNTS_FULL_SCALE: int := 32767
  /** PWM switching period in microseconds (hal/pwm.h). */
  const LOOPTIME_MICROSEC: nat := 50

  /** Value of an arithmetic result stored into a `uint16_t`: reduction modulo 2^16. */
  function Wrap16(x: int): (r: uint16)
    ensures (x - r) % 0x1_0000 == 0
    ensures 0 <= x <= 0xFFFF ==> r == x
  {
    x % 0x1_0000
  }

  /** Value of an arithmetic result cast to `int16_t` (two's-complement truncation). */
  function ToInt16(x: int): (r: int16)
    ensures (x - r) % 0x1_0000 == 0
    ensures -0x8000 <= x <= 0x7FFF ==> r == x
  {
    (x + 0x8000) % 0x1_0000 - 0x8000
  }

  /** `v >> k` on a signed or unsigned operand: an arithmetic shift, i.e. floor division. */
  function ShiftRight(v: int, k: nat): (r: int)
    ensures r * Pow2(k) <= v < (r + 1) * Pow2(k)
  {
    v / Pow2(k)
  }

  function Pow2(k: nat): (r: nat)
    ensures r >= 1
  {
    if k == 0 then 1 else 2 * Pow2(k - 1)
  }

  function Min(x: int, y: int): (m: int)
    ensures m <= x && m <= y && (m == x || m == y)
  {
    if x <= y then x else y
  }

  function Max(x: int, y: int): (m: int)
    ensures m >= x && m >= y && (m == x || m == y)
  {
    if x >= y then x else y
  }

  /** BUTTON_STATE: the three states of the debounce state machine. */
  datatype ButtonState = NotPressed | Pressed | Debounce

  /** The enumerator value of each state. */
  function Code(s: ButtonState): (c: int)
    ensures 0 <= c <= 2
  {
    match s
    case NotPressed => 0
    case Pressed => 1
    case Debounce => 2
  }

  /** The state an integer in the enumerator range denotes (C's implicit int-to-enum store). */
  function StateOfCode(c: int): (s: ButtonState)
    requires 0 <= c <= 2
    ensures Code(s) == c
  {
    if c == 0 then NotPressed else if c == 1 then Pressed else Debounce
  }

  /** C's conversion of `bool` to an integer. */
  function BoolToInt(b: bool): (i: int)
    ensures i == 0 <==> !b
    ensures 0 <= i <= 1
  {
    if b then 1 else 0
  }

  /** BUTTON_T, as a value: the fields of one button record. */
  datatype ButtonRec = ButtonRec(state: ButtonState, debounceCount: uint16, logicState: bool, status: bool)

  /** The three enumerators are distinct codes and every code names exactly one of them. */
  lemma CodeBijective(s: ButtonState, c: int)
    requires 0 <= c <= 2
    ensures StateOfCode(Code(s)) == s
    ensures Code(StateOfCode(c)) == c
    ensures s == StateOfCode(c) <==> Code(s) == c
  {
  }

  /** Writing `false` into a BUTTON_STATE field stores BUTTON_NOT_PRESSED. */
  lemma FalseIsNotPressed()
    ensures StateOfCode(BoolToInt(false)) == NotPressed
  {
  }

  /** 20 PWM periods of 50 us make the documented 1 ms service tick. */
  lemma TickIsOneMillisecond()
    ensures BOARD_SERVICE_TICK_COUNT as int * LOOPTIME_MICROSEC == 1000
  {
  }

  /** The saturated potentiometer count scaled by 1.5 is exactly full scale,
      the largest `int16_t`; the substitute reciprocal is the largest `int16_t` too. */
  lemma PotAndReciprocalFitInt16()
    ensures POT_COUNTS_SATURATE + ShiftRight(POT_COUNTS_SATURATE, 1) == POT_COUNTS_FULL_SCALE == 0x7FFF
    ensures MC_RVDC_MIN == 0x7FFF
    ensures MC_RVDC_MIN_VDC == Pow2(MC_RVDC_Q)
  {
    assert Pow2(1) == 2;
    assert Pow2(12) == 4096 by {
      assert Pow2(4) == 16;
      assert Pow2(8) == 256;
    }
  }
}
