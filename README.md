# Board service layer of a PMSM motor-drive controller

This project models the board service layer of a dsPIC33CK motor-control firmware
(`hal/board_service.c` and `hal/board_service.h`). The layer runs inside the 20 kHz PWM
interrupt and a slower background loop. It has four parts:

- **Service tick gate**: `boardServiceISRCounter` counts PWM interrupts up to
  `BOARD_SERVICE_TICK_COUNT` (20, one millisecond) and then holds.
  `BoardService` scans both buttons only when the counter has reached 20, and then
  restarts it. `BoardServiceInit` presets the counter so that the first call scans.
- **Button debouncer**: `ButtonScan` is a small state machine over a `BUTTON_T` record.
  `IsPressed_Button1/2` deliver each registered press once.
- **Duty-cycle safety layer**: `pwmDutyCycleLimitCheck` saturates a duty-cycle triple in
  place. `PWMDutyCycleSet` and `PWMDutyCycleSetDualEdge` clamp their triples to the band
  `[DEADTIME>>1, LOOPTIME_TCY - (DEADTIME>>1)]`, then write the duty registers, and in
  the dual-edge case also the phase registers.
- **Measurement conditioning**: `CompensateDCBusVoltage` rescales three phase voltages by
  a Q12 reciprocal of the DC bus voltage. `SaturateAndScalePOTvalue` caps the
  potentiometer reading at 2.2 V and scales it by 1.5.

Files and modules:

- `board_types.dfy`, module `BoardTypes`: the header's `BUTTON_STATE` enumeration, the
  `BUTTON_T` record as a value, and the constants. It also holds `uint16`/`int16` and
  the explicit wrap-around and shift helpers that C applies implicitly.
- `debounce.dfy`, module `Debounce`: `ButtonScan` as the function `ScanStep` and as the
  method `Button.Scan` on a `Button` object, plus lemmas over whole sample sequences.
- `board_service.dfy`, module `BoardService`: the globals as a `Board` object (the
  counter and the two buttons), with `Init`, `StepIsr`, `Service` and `IsPressedButton1/2`.
- `duty_cycle.dfy`, module `DutyCycle`: saturation, the `MC_DUTYCYCLEOUT_T` object and
  a `PowerStage` object that holds the `PWM_PDCk` and `PWM_PHASEk` registers.
- `measurement.dfy`, module `Measurement`: the reciprocal, the compensation, the
  potentiometer scaling, and the `MC_ABC_T` and `MCAPP_MEASURE_T` objects.

Every source function that mutates state becomes a method that changes its objects in
place. Each such method is proved against a pure function of the old state, and the
promised properties are proved about those functions.

Inputs the model takes as parameters:

- The button pin levels `BUTTON_START_STOP` and `BUTTON_SPEED_HALF_DOUBLE` are the
  boolean arguments of `Board.Service`.
- `DEADTIME` and `LOOPTIME_TCY` depend on `FOSC_MHZ`, whose header is not part of this
  model. They are constant fields of `PowerStage`, fixed by its constructor, under the
  assumption `2*(DEADTIME>>1) <= LOOPTIME_TCY <= 65535` (`DeadTimeFits`).

Where the prose design description and the code disagree, the model follows the code:

- **Debounce count.** The design says an asserted sample counts up toward the threshold.
  The code decrements the 16-bit count, so from 0 it wraps at once to 65535, which
  already passes the `>= 30` test. `ScanAllCount` proves that, from a cleared count,
  the count is always 0 or 65535. It also proves that one asserted sample followed by a
  release registers a press.
- **Initialisation.** `ButtonGroupInitialize` stores `false` into `.state` a second time
  where `.status` was evidently meant. A pending press therefore survives
  initialisation (`PendingPressSurvivesInit`).
- **Idempotence of the clamp.** The design calls the clamp idempotent. That holds only
  when `min <= max` (`SaturateIsClamp`). With an empty band the code is not
  idempotent (`SaturateEmptyBandNotIdempotent`).

The `Board` and `Button` objects model the code as written. For the two defects above,
the corrected definitions (`ScanStepIntended`, `InitIntended`) are stated beside them,
and their intended properties are proved.

## Model

| member | source | states |
|---|---|---|
| BoardTypes.Wrap16 | project/hal/board_service.h:93 | storing a value in a `uint16_t` reduces it modulo 2^16; values already in range are unchanged |
| BoardTypes.ToInt16 | project/hal/board_service.c:341 | the `(int16_t)` cast keeps the value modulo 2^16 in [-32768, 32767]; values already in range are unchanged |
| BoardTypes.ShiftRight | project/hal/board_service.c:341 | `v >> k` is floor division by 2^k: r*2^k <= v < (r+1)*2^k, also for negative v |
| BoardTypes.Code | project/hal/board_service.h:77-82 | every button state has an enumerator value in 0..2 |
| BoardTypes.StateOfCode | project/hal/board_service.h:77-82 | each value 0..2 denotes the state whose enumerator value it is |
| BoardTypes.BoolToInt | project/hal/board_service.c:153 | C converts `false` to 0 and `true` to 1 |
| BoardTypes.CodeBijective | project/hal/board_service.h:77-82 | the three enumerators NOT_PRESSED=0, PRESSED=1, DEBOUNCE=2 are exactly the codes 0..2, one to one |
| BoardTypes.FalseIsNotPressed | project/hal/board_service.c:153 | writing `false` into a `BUTTON_STATE` field stores BUTTON_NOT_PRESSED |
| BoardTypes.TickIsOneMillisecond | project/hal/board_service.h:103-105 | 20 PWM periods of 50 us are the documented 1 ms service tick |
| BoardTypes.PotAndReciprocalFitInt16 | project/hal/board_service.h:107-118 | 21845 + (21845>>1) = 32767 = full scale = the `int16_t` maximum; MC_RVDC_MIN is that maximum; MC_RVDC_MIN_VDC = 2^MC_RVDC_Q |
| Debounce.ScanStep | project/hal/board_service.c:125-148 | on a release: count becomes 0, state PRESSED iff count >= 30 else NOT_PRESSED, status set iff count >= 30 and never cleared; on an asserted sample below 30: count decremented modulo 2^16, state DEBOUNCE; at or above 30: nothing changes |
| Debounce.ScanAllCount | project/hal/board_service.c:127-147 | from a cleared count, after any samples the count is 65535 if the last sample was asserted and 0 otherwise |
| Debounce.ScanAllCountStaysExtreme | project/hal/board_service.c:129-131 | a count in {0, 65535} stays in {0, 65535} under any sequence of scans |
| Debounce.ScanAllKeepsStatus | project/hal/board_service.c:135-147 | no sequence of scans clears `status` or changes `logicState` |
| Debounce.ReleasePressesAfterOneSample | project/hal/board_service.c:127-147 | from a cleared count, a release registers a press iff the sample before it was asserted, so one asserted sample suffices |
| Debounce.SingleBouncePressesAsWritten | project/hal/board_service.c:131 | one asserted scan followed by a released scan sets `status` and state PRESSED |
| Debounce.ScanStepIntended | project/hal/board_service.c:129-132 | the intended scan: an asserted sample below the threshold increments the count by one; a release behaves as in the code |
| Debounce.ScanAllIntendedCount | project/hal/board_service.h:101-102 | with the intended scan, from a cleared count the count is the length of the current asserted run capped at 30 |
| Debounce.ReleasePressesAfterThresholdIntended | project/hal/board_service.c:135-145 | with the intended scan, a release registers a press iff it ends a run of at least 30 asserted samples |
| Debounce.Consume | project/hal/board_service.c:72-96 | reports true iff `status` was set, and afterwards `status` is false; state, count and `logicState` are unchanged |
| Debounce.ConsumeAtMostOnce | project/hal/board_service.c:72-83 | an immediate second query reports false and changes nothing |
| Debounce.InitAsWritten | project/hal/board_service.c:149-159 | initialisation as written leaves state NOT_PRESSED and count 0, and keeps `status` |
| Debounce.PendingPressSurvivesInit | project/hal/board_service.c:153 | a press pending before initialisation is still reported after it |
| Debounce.InitIntended | project/hal/board_service.c:149-159 | the intended initialisation also clears `status` |
| Debounce.InitIntendedClearsEvents | project/hal/board_service.c:149-159 | after the intended initialisation no press is reported until a release ends a run of at least 30 asserted samples |
| Debounce.Button.constructor | project/hal/board_service.c:58-59 | a button global starts zero-initialised |
| Debounce.Button.Scan | project/hal/board_service.c:125-148 | scanning a button object updates its record exactly as `ScanStep` |
| BoardService.StepTick | project/hal/board_service.c:98-104 | below 20 the counter goes up by one, otherwise it holds; a counter within [0,20] stays within it and never decreases |
| BoardService.TicksSaturate | project/hal/board_service.c:98-104 | from c <= 20, n interrupts leave the counter at min(c + n, 20) |
| BoardService.RearmAfterTickCount | project/hal/board_service.c:98-118 | after a service call resets the counter, it equals 20 after n interrupts iff n >= 20 |
| BoardService.Board.constructor | project/hal/board_service.c:58-61 | at start-up the counter is 0 and both buttons are zero-initialised, distinct records |
| BoardService.Board.IsPressedButton1 | project/hal/board_service.c:72-83 | returns and clears the start/stop `status`; the other button and the counter are untouched |
| BoardService.Board.IsPressedButton2 | project/hal/board_service.c:85-96 | returns and clears the speed `status`; the other button and the counter are untouched |
| BoardService.Board.StepIsr | project/hal/board_service.c:98-104 | the counter becomes `StepTick` of its old value |
| BoardService.Board.Service | project/hal/board_service.c:105-118 | iff the counter equals 20, both buttons are scanned with their pin levels and the counter becomes 0; otherwise nothing changes |
| BoardService.Board.GroupInitialize | project/hal/board_service.c:149-159 | both buttons become `InitAsWritten` of their old records |
| BoardService.Board.Init | project/hal/board_service.c:119-123 | buttons initialised as written and the counter set to 20, so the next `Service` call scans |
| DutyCycle.Saturate | project/hal/board_service.c:287-294 | below min gives min, otherwise above max gives max, otherwise unchanged; with min <= max the result lies in [min, max] |
| DutyCycle.SaturateIsClamp | project/hal/board_service.c:285-313 | with min <= max saturation equals max(min, min(v, max)) and is idempotent |
| DutyCycle.SaturateEmptyBandNotIdempotent | project/hal/board_service.c:287-294 | with min > max a value below min becomes min and then max, so applying it twice differs from once |
| DutyCycle.SaturateTriple | project/hal/board_service.c:285-313 | each of the three duty values is saturated on its own; with min <= max all lie in [min, max]; an in-band triple is unchanged |
| DutyCycle.SaturateTripleIdempotent | project/hal/board_service.c:285-313 | with min <= max saturating a triple twice equals once, and a channel's result depends only on that channel |
| DutyCycle.BandLow | project/hal/pwm.h:102 | `DEADTIME>>1` is half the dead time rounded down |
| DutyCycle.BandHigh | project/hal/board_service.c:266 | `LOOPTIME_TCY - (DEADTIME>>1)` is at least `DEADTIME>>1` and the two sum to LOOPTIME_TCY |
| DutyCycle.SingleEdgeDuty | project/hal/board_service.c:264-270 | the duty written by the single-edge setter lies in [h, LOOPTIME_TCY - h] with h = DEADTIME>>1, and an in-band command passes unchanged |
| DutyCycle.DualEdgePhase | project/hal/board_service.c:273-277 | the phase register gets the clamped rising command plus h, which lies in [2h, LOOPTIME_TCY] without 16-bit wrap |
| DutyCycle.DualEdgeDuty | project/hal/board_service.c:279-283 | the duty register gets the clamped falling command minus h, which lies in [0, LOOPTIME_TCY - 2h] without unsigned underflow |
| DutyCycle.DualEdgeSeparation | project/hal/board_service.c:271-284 | the edges of each leg are separated by the difference of the clamped commands plus 2h; equal commands give a separation of exactly 2h |
| DutyCycle.DualEdgeExample | project/hal/board_service.c:271-284 | with period 499, dead time 40 and both commands 100, the phase is 120 and the duty 80 |
| DutyCycle.LimitCheck | project/hal/board_service.c:285-313 | the caller's triple is replaced in place by its saturation |
| DutyCycle.PowerStage.constructor | project/hal/pwm.h:102-104 | fixes DEADTIME and LOOPTIME_TCY under the assumption that the clamp band is not empty |
| DutyCycle.PowerStage.DutyCycleSet | project/hal/board_service.c:264-270 | the caller's triple is clamped in place and equals the three duty registers, which all lie in the safe band |
| DutyCycle.PowerStage.DutyCycleSetDualEdge | project/hal/board_service.c:271-284 | both triples are clamped in place, even when they are one object; the phase registers get `DualEdgePhase` of the first, the duty registers `DualEdgeDuty` of the second |
| Measurement.FractionalDivide | project/hal/board_service.c:337 | for 0 < num < den the Q15 quotient q satisfies q*den <= num*2^15 < (q+1)*den |
| Measurement.Reciprocal | project/hal/board_service.c:328-338 | at or below 4096 the reciprocal is 32767; above it, r*vdc <= 4096*2^15 < (r+1)*vdc, so read at binary point 12 it is 2^15/vdc within one unit; always in [4096, 32767] |
| Measurement.QuotientBounds | project/hal/board_service.c:337 | a divide reached with 4096 < den <= 32767 yields a quotient in [4096, 32767] |
| Measurement.Compensate | project/hal/board_service.c:341-345 | the result equals (x*rvdc)>>12 modulo 2^16, and equals it exactly when the product fits |
| Measurement.CompensateWithinRail | project/hal/board_service.c:326-347 | a phase voltage with -vdc <= x < vdc is compensated without truncation: floor(x*rvdc/2^12) |
| Measurement.CompensateAtRailWraps | project/hal/board_service.c:341 | without saturation, a phase voltage of 8192 at a bus voltage of 8192 wraps to -32768 |
| Measurement.SaturatePot | project/hal/board_service.c:362-365 | the capped reading is at most 21845 and at most the input; below 21845 it is unchanged |
| Measurement.ScalePot | project/hal/board_service.c:367-368 | `p + (p>>1)` is 1.5*p rounded down and stays within 32767 |
| Measurement.PotStep | project/hal/board_service.c:359-370 | afterwards potValue <= 21845, potValueScaled <= 32767, a reading below 21845 is kept, and the bus voltage is untouched |
| Measurement.PotScaledMonotone | project/hal/board_service.c:359-370 | the scaled value does not decrease as the reading grows, and every reading at or above 21845 scales to 32767 |
| Measurement.PotStepIdempotent | project/hal/board_service.c:359-370 | running the saturation and scaling twice gives the same fields as once |
| Measurement.CompensateDCBusVoltage | project/hal/board_service.c:326-347 | each of a, b, c becomes `Compensate` of its old value with the reciprocal of the bus voltage; the measurement is not modified |
| Measurement.SaturateAndScalePot | project/hal/board_service.c:359-370 | the measurement becomes `PotStep` of its old value |

## Left out

- `InitPeripherals` calls the comparator, ADC and PWM drivers and a 400 ms delay. Its only arithmetic uses a floating-point threshold, so it is not modelled.
- `DisablePWMOutputs`, `EnablePWMOutputs` and `ClearPWMPCIFault` are raw register bit writes with no logic, so they are not modelled.
- `hal/port_config.c`, `userparms.h`, `hal/adc.h` and `control.h` hold pin configuration, tuning constants and control-algorithm types. They are not part of this model.
- `FOSC_MHZ` comes from `clock.h`, which is not part of this model. `DEADTIME` and `LOOPTIME_TCY` are therefore constructor parameters of `PowerStage`, not numbers.
- The pin reads `BUTTON_START_STOP` and `BUTTON_SPEED_HALF_DOUBLE` are hardware inputs. They are the arguments of `Board.Service`.
- Measurement.FractionalDivide: the exact rounding of the compiler intrinsic `__builtin_divf` is not visible. The model assumes a Q15 quotient truncated toward zero.
- Measurement.Measure: `potValue` is modelled as a count in [0, 32767]. Negative readings of a signed field are not modelled, because the declaring header is not part of this model.
- `MCAPP_MEASURE_T` and `MC_ABC_T` are modelled with only the fields the board service reads or writes.
- Board.Service: the two scans touch separate records, so their order (start/stop first) cannot be observed in the resulting state.
- Concurrency and interrupt priority between the PWM interrupt (`StepIsr`, the duty writers) and the background `Service` call are not modelled. Calls are a sequential interleaving.
- `logicState` is never written by the code. The model carries it through unchanged.

## Findings

| source | as written | input that shows it | evidently intended | confidence | as-written member | corrected member |
|---|---|---|---|---|---|---|
| project/hal/board_service.c:131 | `pButton->debounceCount--` on a `uint16_t` count below 30 | count 0, one asserted sample then one release: the count wraps to 65535 >= 30, so the press is registered after one sample | `debounceCount++`, so a press needs 30 consecutive asserted samples | high; not executed | Debounce.SingleBouncePressesAsWritten | Debounce.ReleasePressesAfterThresholdIntended |
| project/hal/board_service.c:153 | `buttonStartStop.state = false;` (and line 157 for the other button) | `status` true before `BoardServiceInit`: `IsPressed_Button1` still returns true afterwards | `.status = false`, so initialisation clears pending presses | high; not executed | Debounce.PendingPressSurvivesInit | Debounce.InitIntendedClearsEvents |
