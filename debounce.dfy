/** The button debouncer of hal/board_service.c: ButtonScan over one BUTTON_T,
    the one-shot consumption of its `status`, and per-button initialisation.
    ScanStep is the code as written (the count is decremented in 16 bits);
    ScanStepIntended is the counting debouncer the threshold was evidently meant for. */
module Debounce {
  import opened BoardTypes

  /** ButtonScan on a record value: one service-tick sample of the pin. */
  function ScanStep(b: ButtonRec, asserted: bool): (r: ButtonRec)
    ensures r.logicState == b.logicState
    ensures b.status ==> r.status
    ensures r.status != b.status ==> !asserted && b.debounceCount >= BUTTON_DEBOUNCE_COUNT
    ensures !asserted ==> r.debounceCount == 0
    ensures !asserted ==> (r.state == Pressed <==> b.debounceCount >= BUTTON_DEBOUNCE_COUNT)
    ensures !asserted ==> (r.state == NotPressed <==> b.debounceCount < BUTTON_DEBOUNCE_COUNT)
    ensures !asserted ==> (r.status <==> b.status || b.debounceCount >= BUTTON_DEBOUNCE_COUNT)
    ensures asserted && b.debounceCount >= BUTTON_DEBOUNCE_COUNT ==> r == b
    ensures asserted && b.debounceCount < BUTTON_DEBOUNCE_COUNT ==>
      r.state == Debounce && r.status == b.status &&
      (r.debounceCount + 1 - b.debounceCount) % 0x1_0000 == 0
  {
    if asserted then
      if b.debounceCount < BUTTON_DEBOUNCE_COUNT then
        b.(debounceCount := Wrap16(b.debounceCount - 1), state := Debounce)
      else
        b
    else
      var b' := if b.debounceCount < BUTTON_DEBOUNCE_COUNT then b.(state := NotPressed)
                else b.(state := Pressed, status := true);
      b'.(debounceCount := 0)
  }

  /** The record after ButtonScan has been applied to each sample in turn. */
  function ScanAll(b: ButtonRec, samples: seq<bool>): ButtonRec
  {
    if samples == [] then b
    else ScanStep(ScanAll(b, samples[..|samples| - 1]), samples[|samples| - 1])
  }

  /** Starting from a cleared count, the count after any sample sequence is 65535 when
      the last sample was asserted and 0 otherwise: the decrement wraps at once, and
      65535 already passes the threshold test. */
  lemma {:induction false} ScanAllCount(b: ButtonRec, samples: seq<bool>)
    requires b.debounceCount == 0
    ensures ScanAll(b, samples).debounceCount ==
            if samples != [] && samples[|samples| - 1] then 0xFFFF else 0
  {
    if samples != [] {
      ScanAllCount(b, samples[..|samples| - 1]);
    }
  }

  /** The count never leaves {0, 65535} once it is there. */
  lemma {:induction false} ScanAllCountStaysExtreme(b: ButtonRec, samples: seq<bool>)
    requires b.debounceCount == 0 || b.debounceCount == 0xFFFF
    ensures ScanAll(b, samples).debounceCount == 0 || ScanAll(b, samples).debounceCount == 0xFFFF
  {
    if samples != [] {
      ScanAllCountStaysExtreme(b, samples[..|samples| - 1]);
    }
  }

  /** No sequence of scans ever clears a pending `status`, nor touches `logicState`. */
  lemma {:induction false} ScanAllKeepsStatus(b: ButtonRec, samples: seq<bool>)
    ensures b.status ==> ScanAll(b, samples).status
    ensures ScanAll(b, samples).logicState == b.logicState
  {
    if samples != [] {
      ScanAllKeepsStatus(b, samples[..|samples| - 1]);
    }
  }

  /** As written, from a cleared count a release registers a press exactly when the
      sample just before it was asserted: one asserted sample is enough. */
  lemma ReleasePressesAfterOneSample(b: ButtonRec, samples: seq<bool>)
    requires b.debounceCount == 0
    ensures ScanAll(b, samples + [false]).state == Pressed <==>
            samples != [] && samples[|samples| - 1]
    ensures samples != [] && samples[|samples| - 1] ==> ScanAll(b, samples + [false]).status
  {
    assert (samples + [false])[..|samples|] == samples;
    ScanAllCount(b, samples);
  }

  /** The concrete case: one asserted scan and one released scan set `status`. */
  lemma SingleBouncePressesAsWritten(b: ButtonRec)
    requires b.debounceCount == 0
    ensures ScanAll(b, [true, false]).status
    ensures ScanAll(b, [true, false]).state == Pressed
  {
    ReleasePressesAfterOneSample(b, [true]);
    assert [true] + [false] == [true, false];
  }

  /** ButtonScan as evidently intended: an asserted sample increments the count
      up to the threshold; a release is the same as in ScanStep. */
  function ScanStepIntended(b: ButtonRec, asserted: bool): (r: ButtonRec)
    ensures r.logicState == b.logicState
    ensures b.status ==> r.status
    ensures !asserted ==> r == ScanStep(b, false)
    ensures asserted ==> r.status == b.status
    ensures asserted && b.debounceCount < BUTTON_DEBOUNCE_COUNT ==>
      r.debounceCount == b.debounceCount + 1 && r.state == Debounce
    ensures asserted && b.debounceCount >= BUTTON_DEBOUNCE_COUNT ==> r == b
  {
    if asserted then
      if b.debounceCount < BUTTON_DEBOUNCE_COUNT then
        b.(debounceCount := b.debounceCount + 1, state := Debounce)
      else
        b
    else
      ScanStep(b, false)
  }

  function ScanAllIntended(b: ButtonRec, samples: seq<bool>): ButtonRec
  {
    if samples == [] then b
    else ScanStepIntended(ScanAllIntended(b, samples[..|samples| - 1]), samples[|samples| - 1])
  }

  /** Number of consecutive asserted samples at the end of the sequence. */
  function TrailingAsserted(samples: seq<bool>): (n: nat)
    ensures n <= |samples|
    ensures forall i :: |samples| - n <= i < |samples| ==> samples[i]
    ensures n < |samples| ==> !samples[|samples| - 1 - n]
  {
    if samples == [] || !samples[|samples| - 1] then 0
    else TrailingAsserted(samples[..|samples| - 1]) + 1
  }

  /** Intended behaviour: from a cleared count, the count is the length of the current
      asserted run, capped at the threshold. */
  lemma {:induction false} ScanAllIntendedCount(b: ButtonRec, samples: seq<bool>)
    requires b.debounceCount == 0
    ensures ScanAllIntended(b, samples).debounceCount ==
            Min(TrailingAsserted(samples), BUTTON_DEBOUNCE_COUNT as int)
  {
    if samples != [] {
      ScanAllIntendedCount(b, samples[..|samples| - 1]);
    }
  }

  /** Intended behaviour: a release registers a press exactly when it ends a run of at
      least BUTTON_DEBOUNCE_COUNT asserted samples. */
  lemma ReleasePressesAfterThresholdIntended(b: ButtonRec, samples: seq<bool>)
    requires b.debounceCount == 0
    ensures ScanAllIntended(b, samples + [false]).state == Pressed <==>
            TrailingAsserted(samples) >= BUTTON_DEBOUNCE_COUNT as int
    ensures !b.status ==>
      (ScanAllIntended(b, samples + [false]).status <==> ScanAllIntended(b, samples).status ||
                                                         TrailingAsserted(samples) >= BUTTON_DEBOUNCE_COUNT as int)
  {
    assert (samples + [false])[..|samples|] == samples;
    ScanAllIntendedCount(b, samples);
  }

  /** IsPressed_ButtonN on a record value: the pending event, and the record after it. */
  function Consume(b: ButtonRec): (r: (bool, ButtonRec))
    ensures r.0 <==> b.status
    ensures !r.1.status
    ensures r.1.state == b.state && r.1.debounceCount == b.debounceCount && r.1.logicState == b.logicState
  {
    if b.status then (true, b.(status := false)) else (false, b)
  }

  /** An event is delivered at most once: an immediate second query reports nothing. */
  lemma ConsumeAtMostOnce(b: ButtonRec)
    ensures !Consume(Consume(b).1).0
    ensures Consume(Consume(b).1).1 == Consume(b).1
  {
  }

  /** The record after the button's part of ButtonGroupInitialize, as written: the state
      is set twice and `status` is never written, so a pending press survives. */
  function InitAsWritten(b: ButtonRec): (r: ButtonRec)
    ensures r.state == NotPressed && r.debounceCount == 0
    ensures r.status == b.status && r.logicState == b.logicState
  {
    var b1 := b.(state := NotPressed);
    var b2 := b1.(debounceCount := 0);
    b2.(state := StateOfCode(BoolToInt(false)))
  }

  /** A press pending before initialisation is still reported after it. */
  lemma PendingPressSurvivesInit(b: ButtonRec)
    requires b.status
    ensures Consume(InitAsWritten(b)).0
  {
  }

  /** ButtonGroupInitialize as evidently intended: the second store clears `status`. */
  function InitIntended(b: ButtonRec): (r: ButtonRec)
    ensures r.state == NotPressed && r.debounceCount == 0 && !r.status
    ensures r.logicState == b.logicState
  {
    b.(state := NotPressed, debounceCount := 0, status := false)
  }

  /** After intended initialisation no press is reported until a release scan registers one. */
  lemma {:induction false} InitIntendedClearsEvents(b: ButtonRec, samples: seq<bool>)
    ensures !Consume(InitIntended(b)).0
    ensures ScanAllIntended(InitIntended(b), samples).status ==>
            exists k :: 0 <= k < |samples| && !samples[k] && TrailingAsserted(samples[..k]) >= BUTTON_DEBOUNCE_COUNT as int
  {
    if samples != [] {
      var init := InitIntended(b);
      var pre := samples[..|samples| - 1];
      InitIntendedClearsEvents(b, pre);
      if ScanAllIntended(init, samples).status && !ScanAllIntended(init, pre).status {
        var k := |samples| - 1;
        assert samples[..k] == pre;
        ScanAllIntendedCount(init, pre);
        assert !samples[k] && TrailingAsserted(samples[..k]) >= BUTTON_DEBOUNCE_COUNT as int;
      } else if ScanAllIntended(init, samples).status {
        var k :| 0 <= k < |pre| && !pre[k] && TrailingAsserted(pre[..k]) >= BUTTON_DEBOUNCE_COUNT as int;
        assert pre[..k] == samples[..k];
      }
    }
  }

  /** BUTTON_T, updated in place by the callee. */
  class Button {
    var state: ButtonState
    var debounceCount: uint16
    var logicState: bool
    var status: bool

    function View(): ButtonRec
      reads this
    {
      ButtonRec(state, debounceCount, logicState, status)
    }

    /** A zero-initialised record, as a C global starts out. */
    constructor ()
      ensures View() == ButtonRec(NotPressed, 0, false, false)
    {
      state := NotPressed;
      debounceCount := 0;
      logicState := false;
      status := false;
    }

    /** ButtonScan(pButton, button). */
    method Scan(asserted: bool)
      modifies this
      ensures View() == ScanStep(old(View()), asserted)
    {
      if asserted {
        if debounceCount < BUTTON_DEBOUNCE_COUNT {
          debounceCount := Wrap16(debounceCount - 1);
          state := Debounce;
        }
      } else {
        if debounceCount < BUTTON_DEBOUNCE_COUNT {
          state := NotPressed;
        } else {
          state := Pressed;
          status := true;
        }
        debounceCount := 0;
      }
    }
  }
}
