/** The board service globals of hal/board_service.c: the PWM-interrupt tick counter
    that gates the 1 ms service call, and the two debounced buttons it scans. */
module BoardService {
  import opened BoardTypes
  import opened Debounce

  /** BoardServiceStepIsr on the counter value: count up to the tick ceiling, then hold. */
  function StepTick(c: uint16): (r: uint16)
    ensures c < BOARD_SERVICE_TICK_COUNT ==> r == c + 1
    ensures c >= BOARD_SERVICE_TICK_COUNT ==> r == c
    ensures c <= BOARD_SERVICE_TICK_COUNT ==> r <= BOARD_SERVICE_TICK_COUNT
    ensures c <= r
  {
    if c < BOARD_SERVICE_TICK_COUNT then c + 1 else c
  }

  /** The counter after n PWM interrupts. */
  function Ticks(c: uint16, n: nat): uint16
  {
    if n == 0 then c else StepTick(Ticks(c, n - 1))
  }

  /** From any value within the ceiling, n interrupts add n, saturating at the ceiling. */
  lemma {:induction false} TicksSaturate(c: uint16, n: nat)
    requires c <= BOARD_SERVICE_TICK_COUNT
    ensures Ticks(c, n) == Min(c + n, BOARD_SERVICE_TICK_COUNT as int)
  {
    if n > 0 {
      TicksSaturate(c, n - 1);
    }
  }

  /** After a service call has reset the counter, the next call is due after exactly
      BOARD_SERVICE_TICK_COUNT interrupts, not fewer, and stays due until it is taken. */
  lemma RearmAfterTickCount(n: nat)
    ensures Ticks(0, n) == BOARD_SERVICE_TICK_COUNT <==> n >= BOARD_SERVICE_TICK_COUNT as int
    ensures Ticks(0, n) <= BOARD_SERVICE_TICK_COUNT
  {
    TicksSaturate(0, n);
  }

  /** The globals `boardServiceISRCounter`, `buttonStartStop` and `buttonSpeedHalfDouble`. */
  class Board {
    var isrCounter: uint16
    const startStop: Button
    const speedHalfDouble: Button

    ghost predicate Valid()
      reads this
    {
      startStop != speedHalfDouble
    }

    /** The C start-up state: every global zero-initialised. */
    constructor ()
      ensures Valid() && fresh(startStop) && fresh(speedHalfDouble)
      ensures isrCounter == 0
      ensures startStop.View() == ButtonRec(NotPressed, 0, false, false)
      ensures speedHalfDouble.View() == ButtonRec(NotPressed, 0, false, false)
    {
      isrCounter := 0;
      startStop := new Button();
      speedHalfDouble := new Button();
    }

    /** IsPressed_Button1: report and clear the start/stop event. */
    method IsPressedButton1() returns (pressed: bool)
      requires Valid()
      modifies startStop
      ensures (pressed, startStop.View()) == Consume(old(startStop.View()))
      ensures pressed == old(startStop.status) && !startStop.status
      ensures unchanged(speedHalfDouble)
    {
      if startStop.status {
        startStop.status := false;
        pressed := true;
      } else {
        pressed := false;
      }
    }

    /** IsPressed_Button2: report and clear the speed half/double event. */
    method IsPressedButton2() returns (pressed: bool)
      requires Valid()
      modifies speedHalfDouble
      ensures (pressed, speedHalfDouble.View()) == Consume(old(speedHalfDouble.View()))
      ensures pressed == old(speedHalfDouble.status) && !speedHalfDouble.status
      ensures unchanged(startStop)
    {
      if speedHalfDouble.status {
        speedHalfDouble.status := false;
        pressed := true;
      } else {
        pressed := false;
      }
    }

    /** BoardServiceStepIsr: one PWM interrupt. */
    method StepIsr()
      modifies this`isrCounter
      ensures isrCounter == StepTick(old(isrCounter))
    {
      if isrCounter < BOARD_SERVICE_TICK_COUNT {
        isrCounter := isrCounter + 1;
      }
    }

    /** BoardService: when the tick has elapsed, scan start/stop then speed with the
        current pin levels and restart the tick; otherwise do nothing. */
    method Service(startStopPin: bool, speedPin: bool)
      requires Valid()
      modifies this`isrCounter, startStop, speedHalfDouble
      ensures old(isrCounter) == BOARD_SERVICE_TICK_COUNT ==>
        isrCounter == 0 &&
        startStop.View() == ScanStep(old(startStop.View()), startStopPin) &&
        speedHalfDouble.View() == ScanStep(old(speedHalfDouble.View()), speedPin)
      ensures old(isrCounter) != BOARD_SERVICE_TICK_COUNT ==>
        isrCounter == old(isrCounter) && unchanged(startStop) && unchanged(speedHalfDouble)
    {
      if isrCounter == BOARD_SERVICE_TICK_COUNT {
        startStop.Scan(startStopPin);
        speedHalfDouble.Scan(speedPin);
        isrCounter := 0;
      }
    }

    /** ButtonGroupInitialize, as written: `status` is not cleared. */
    method GroupInitialize()
      requires Valid()
      modifies startStop, speedHalfDouble
      ensures startStop.View() == InitAsWritten(old(startStop.View()))
      ensures speedHalfDouble.View() == InitAsWritten(old(speedHalfDouble.View()))
    {
      startStop.state := NotPressed;
      startStop.debounceCount := 0;
      startStop.state := StateOfCode(BoolToInt(false));

      speedHalfDouble.state := NotPressed;
      speedHalfDouble.debounceCount := 0;
      speedHalfDouble.state := StateOfCode(BoolToInt(false));
    }

    /** BoardServiceInit: initialise the buttons and make the first service call due. */
    method Init()
      requires Valid()
      modifies this`isrCounter, startStop, speedHalfDouble
      ensures isrCounter == BOARD_SERVICE_TICK_COUNT
      ensures startStop.View() == InitAsWritten(old(startStop.View()))
      ensures speedHalfDouble.View() == InitAsWritten(old(speedHalfDouble.View()))
    {
      GroupInitialize();
      isrCounter := BOARD_SERVICE_TICK_COUNT;
    }
  }

  /** A start-up sequence: the first service call after Init scans, and a second call
      before any interrupt has elapsed changes nothing. */
  method StartUpScenario()
  {
    var board := new Board();
    board.Init();
    board.Service(true, false);
    assert board.isrCounter == 0 && board.startStop.debounceCount == 0xFFFF;
    assert board.startStop.state == Debounce;
    board.Service(false, false);
    assert board.startStop.state == Debounce;
    board.StepIsr();
    assert board.isrCounter == 1;
    var first := board.IsPressedButton1();
    assert !first;
  }
}
