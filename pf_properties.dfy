/** What the tick handler and init_uc of src/pf_control.c guarantee: the
    counter reset never changes the counter, so that every tick does what the
    tick of the later firmware does on the LTC6903 board; the off branch, the
    closing tone and the sequencer bounds follow from there. Of init_uc: the
    cycle multiples of the fall-through switch, the spacing index, the code
    switch and the two oscillator bytes. */
module PfProperties {
  import opened Bits
  import opened Config
  import opened Sequencer
  import opened Morse
  import opened Tables
  import opened MainFirmware
  import opened MainProperties
  import opened PfFirmware

  // ---------------------------------------------------------------------
  // The tick, against the later firmware

  /** The later firmware's settings for the LTC6903 board: no level setting. */
  function AsMain(c: PfSettings): Settings {
    Settings(ProgFrequency, c.ticksPerSign, c.enablePeriod, c.interval, 0, c.space)
  }

  /** The later firmware's globals, with the LED counter it does not use on
      this board at 0. */
  function ToMain(s: PfState): State {
    State(s.output, s.intervalTicks, s.keyTicks, s.sequencer, 0, s.port)
  }

  /** The counter invariant makes the reset of the enabled branch a no-op. */
  lemma ResetNoOp(c: PfSettings, s: PfState)
    requires CounterOk(c, s) && PfEnabled(c, s)
    ensures CounterReset(c, PfGate(c, s).intervalTicks) == PfGate(c, s).intervalTicks
  {
  }

  /** The counter of a tick: the reset never fires, so in interval mode the
      counter counts every tick and wraps only at 2^16, and in continuous
      mode it stays 0. */
  lemma PfCounter(c: PfSettings, code: seq<bv8>, s: PfState)
    requires CounterOk(c, s)
    ensures var t := PfTickSpec(c, code, s);
      && (c.interval != 0 ==> t.intervalTicks == (s.intervalTicks + 1) % 0x1_0000)
      && (c.interval == 0 ==> t.intervalTicks == 0)
      && CounterOk(c, t)
  {
    if PfEnabled(c, s) {
      ResetNoOp(c, s);
    }
  }

  /** The gate is the same in both firmwares. */
  lemma GateMatch(c: PfSettings, s: PfState)
    ensures Enabled(AsMain(c), ToMain(s)) == PfEnabled(c, s)
    ensures Gate(AsMain(c), ToMain(s)) == ToMain(PfGate(c, s))
  {
  }

  /** Without an enable pin, the start of the enabled branch only forces the
      key in the closing tone. */
  lemma OnOutputMatch(c: PfSettings, output: bv8, ticks: uint16)
    ensures OnOutput(AsMain(c), output, ticks) == if PfClosing(c, ticks) then output | PF_KEY else output
  {
    assert output | OutputEnable(ProgFrequency) == output;
  }

  /** An enabled tick whose countdown expires, after the gate. */
  lemma StepMatch(c: PfSettings, code: seq<bv8>, g: PfState)
    requires CounterReset(c, g.intervalTicks) == g.intervalTicks && g.keyTicks == 0
    ensures EnabledTick(AsMain(c), code, ToMain(g)) == ToMain(PfEnabledTick(c, code, g))
  {
    OnOutputMatch(c, g.output, g.intervalTicks);
  }

  /** An enabled tick between unit steps, after the gate. */
  lemma HoldMatch(c: PfSettings, code: seq<bv8>, g: PfState)
    requires CounterReset(c, g.intervalTicks) == g.intervalTicks && g.keyTicks != 0
    ensures EnabledTick(AsMain(c), code, ToMain(g)) == ToMain(PfEnabledTick(c, code, g))
  {
    OnOutputMatch(c, g.output, g.intervalTicks);
  }

  /** An off tick, after the gate. */
  lemma OffMatch(c: PfSettings, g: PfState)
    ensures OffTick(AsMain(c), ToMain(g)) == ToMain(PfOffTick(c, g))
  {
    assert OutputEnable(ProgFrequency) | OutputKey(ProgFrequency) == PF_KEY;
  }

  /** The end of the handler: no LED, no level setting, the same OUTPUT. */
  lemma FinishMatch(c: PfSettings, b: PfState)
    ensures Finish(AsMain(c), ToMain(b)) == ToMain(b.(port := Output(ProgFrequency, b.port, b.output)))
  {
    assert b.output ^ 0 == b.output;
  }

  /** Under the counter invariant a tick of the earlier firmware is the tick
      of the later firmware on the LTC6903 board, whose enable bit, LED and
      level setting do nothing there, and whose LED counter stays at 0. */
  lemma PfMatchesMain(c: PfSettings, code: seq<bv8>, s: PfState)
    requires CounterOk(c, s)
    ensures TickSpec(AsMain(c), code, ToMain(s)) == ToMain(PfTickSpec(c, code, s))
  {
    var m, ms, g := AsMain(c), ToMain(s), PfGate(c, s);
    GateMatch(c, s);
    var b := if PfEnabled(c, s) then PfEnabledTick(c, code, g) else PfOffTick(c, g);
    if !PfEnabled(c, s) {
      OffMatch(c, g);
    } else {
      ResetNoOp(c, s);
      if s.keyTicks == 0 {
        StepMatch(c, code, g);
      } else {
        HoldMatch(c, code, g);
      }
    }
    assert (if Enabled(m, ms) then EnabledTick(m, code, Gate(m, ms)) else OffTick(m, Gate(m, ms))) == ToMain(b);
    FinishMatch(c, b);
  }

  /** A run of ticks of the earlier firmware is a run of the later one. */
  lemma {:induction false} PfRunMatches(c: PfSettings, code: seq<bv8>, s: PfState, n: nat)
    requires CounterOk(c, s)
    ensures Run(AsMain(c), code, ToMain(s), n) == ToMain(PfRun(c, code, s, n))
    decreases n
  {
    if n != 0 {
      PfMatchesMain(c, code, s);
      PfCounter(c, code, s);
      PfRunMatches(c, code, PfTickSpec(c, code, s), n - 1);
    }
  }

  /** The keying of a run of ticks is the keying of the later firmware. */
  lemma {:induction false} PfTraceMatches(c: PfSettings, code: seq<bv8>, s: PfState, n: nat)
    requires CounterOk(c, s)
    ensures KeyTrace(AsMain(c), code, ToMain(s), n) == PfKeyTrace(c, code, s, n)
    decreases n
  {
    if n != 0 {
      PfMatchesMain(c, code, s);
      PfCounter(c, code, s);
      PfTraceMatches(c, code, PfTickSpec(c, code, s), n - 1);
    }
  }

  // ---------------------------------------------------------------------
  // What carries over

  /** The off branch: key off, the countdown expired, the read position kept
      and the off-unit count set past the threshold, so that the next unit
      step restarts the word. */
  lemma PfOffBranch(c: PfSettings, code: seq<bv8>, s: PfState)
    requires CounterOk(c, s) && !PfEnabled(c, s)
    ensures var t := PfTickSpec(c, code, s);
      && c.interval != 0 && !PfKeyOn(t) && t.keyTicks == 0
      && t.sequencer.codePtr == s.sequencer.codePtr && t.sequencer.bit == s.sequencer.bit
      && t.sequencer.spaceCount == (c.space + 1) % 0x100
      && (c.space < 0xff ==> Restarting(c.space, t.sequencer))
  {
    PfMatchesMain(c, code, s);
    MainProperties.OffBranch(AsMain(c), code, ToMain(s));
  }

  /** The closing tone: past the on-phase less TXOFF_TICKS the key is on
      between unit steps, and off all the same on a step that reads an off
      unit. */
  lemma PfClosingTone(c: PfSettings, code: seq<bv8>, s: PfState)
    requires CounterOk(c, s) && PfEnabled(c, s) && PfClosing(c, Wrap16(s.intervalTicks + 1))
    ensures s.keyTicks != 0 ==> PfKeyOn(PfTickSpec(c, code, s))
    ensures s.keyTicks == 0 && !Step(code, c.space, s.sequencer).key ==> !PfKeyOn(PfTickSpec(c, code, s))
  {
    PfMatchesMain(c, code, s);
    ClosingTone(AsMain(c), code, ToMain(s));
  }

  /** The key after an enabled tick: the unit's level when the countdown
      expires, otherwise the key as it was, forced on in the closing tone. */
  lemma PfEnabledKey(c: PfSettings, code: seq<bv8>, s: PfState)
    requires CounterOk(c, s) && PfEnabled(c, s)
    ensures PfKeyOn(PfTickSpec(c, code, s))
        == if s.keyTicks == 0 then Step(code, c.space, s.sequencer).key
           else PfKeyOn(s) || PfClosing(c, Wrap16(s.intervalTicks + 1))
  {
    if s.keyTicks == 0 {
      PfStepKey(c, code, s);
    } else {
      PfHoldKey(c, code, s);
    }
  }

  /** The key after an enabled tick whose countdown expires. */
  lemma PfStepKey(c: PfSettings, code: seq<bv8>, s: PfState)
    requires CounterOk(c, s) && PfEnabled(c, s) && s.keyTicks == 0
    ensures PfKeyOn(PfTickSpec(c, code, s)) == Step(code, c.space, s.sequencer).key
  {
    PfMatchesMain(c, code, s);
    StepKey(AsMain(c), code, ToMain(s));
  }

  /** The key after an enabled tick between unit steps. */
  lemma PfHoldKey(c: PfSettings, code: seq<bv8>, s: PfState)
    requires CounterOk(c, s) && PfEnabled(c, s) && s.keyTicks != 0
    ensures PfKeyOn(PfTickSpec(c, code, s)) == (PfKeyOn(s) || PfClosing(c, Wrap16(s.intervalTicks + 1)))
  {
    PfMatchesMain(c, code, s);
    HoldKey(AsMain(c), code, ToMain(s));
  }

  /** A tick keeps the read position well formed and the off-unit count
      within one more than the word gap; after a unit step within the gap. */
  lemma PfTickBounds(c: PfSettings, code: seq<bv8>, s: PfState)
    requires CounterOk(c, s) && WellFormed(code, s.sequencer) && 1 <= c.space < 0xff
    ensures var t := PfTickSpec(c, code, s);
      && WellFormed(code, t.sequencer)
      && (s.sequencer.spaceCount <= c.space + 1 ==> t.sequencer.spaceCount <= c.space + 1)
      && (PfEnabled(c, s) && s.keyTicks == 0 ==> t.sequencer.spaceCount <= c.space)
  {
    PfMatchesMain(c, code, s);
    TickBounds(AsMain(c), code, ToMain(s));
  }

  /** The keying of continuous mode: a table's identifier in Morse code, each
      unit `ticksPerSign` ticks long and each word followed by `space` off
      units. */
  lemma PfWordKeying(c: PfSettings, id: CodeId, s: PfState, m: nat)
    requires c.interval == 0 && s.intervalTicks == 0 && 4 <= c.space && 1 <= c.ticksPerSign
    requires s.keyTicks == 0 && Restarting(c.space, s.sequencer)
    ensures PfKeyTrace(c, CodeTable(id), s, m * (CodeLen(id) + c.space) * c.ticksPerSign)
         == Expand(Repeat(WordUnits(Spell(id)) + Zeros(c.space), m), c.ticksPerSign)
  {
    WordKeying(AsMain(c), id, ToMain(s), m);
    PfTraceMatches(c, CodeTable(id), s, m * (CodeLen(id) + c.space) * c.ticksPerSign);
  }

  /** After init_uc in continuous mode the beacon keys its selected
      identifier with a seven-unit word gap from the first tick on. */
  lemma PfStartupKeying(pina: bv8, pinb: bv8, m: nat)
    requires PfConfigure(pina).interval == 0
    ensures var c, id := PfConfigure(pina), PfSelectCode(pina);
      PfKeyTrace(c, CodeTable(id), PfInitial(pina, pinb), m * (CodeLen(id) + 7) * c.ticksPerSign)
        == Expand(Repeat(WordUnits(Spell(id)) + Zeros(7), m), c.ticksPerSign)
  {
    var c := PfConfigure(pina);
    assert PfInitial(pina, pinb).intervalTicks == 0;
    PfWordKeying(c, PfSelectCode(pina), PfInitial(pina, pinb), m);
  }

  /** The port value init_uc leaves: the key pin low, USI_SCK and OSC_SEN
      high, USI_DO high only when PB1 reads 1, the pull-up of PB6 only when
      it reads 1, and the unused pins low. */
  lemma PfInitialPortPins(pinb: bv8)
    ensures var p := PfInitialPort(pinb);
      && p & OutputKey(ProgFrequency) == 0
      && p & ((1 << 2) | (1 << 3)) == (1 << 2) | (1 << 3)
      && p & ((1 << 1) | (1 << 6)) == pinb & ((1 << 1) | (1 << 6))
      && p & 0xB0 == 0
  {
  }

  /** The reset does not shorten the off-phase: once the counter has
      reached the on-phase the key stays off until the counter wraps at
      2^16. */
  lemma PfOffPhaseLength(c: PfSettings, code: seq<bv8>, s: PfState)
    requires CounterOk(c, s) && c.interval != 0 && s.intervalTicks == c.enablePeriod
    ensures PfKeyTrace(c, code, s, 0x1_0000 - c.enablePeriod) == Zeros(0x1_0000 - c.enablePeriod)
    ensures var t := PfRun(c, code, s, 0x1_0000 - c.enablePeriod);
      t.intervalTicks == 0 && (0 < c.enablePeriod ==> PfEnabled(c, t))
  {
    var n := 0x1_0000 - c.enablePeriod;
    OffPhaseLength(AsMain(c), code, ToMain(s));
    PfTraceMatches(c, code, s, n);
    PfRunMatches(c, code, s, n);
    GateMatch(c, PfRun(c, code, s, n));
  }

  // ---------------------------------------------------------------------
  // Configuration (init_uc)

  /** The speed, on-phase and interval switches are read from the pins the
      DIP decoder of config.h assigns them on the LTC6903 board. */
  lemma PfReadsConfigPins(pina: bv8, pinb: bv8)
    ensures (pina & (1 << 3) != 0) == (Dip(ProgFrequency, pina, pinb, SPEED) != 0)
    ensures (pina & (1 << 5) != 0) == (Dip(ProgFrequency, pina, pinb, INTERVAL_LENGTH) != 0)
    ensures IntervalSelect(pina) == Dip(ProgFrequency, pina, pinb, INTERVAL)
  {
  }

  /** The fall-through switch gives switch values 2, 1 and 3 two, three and
      five on-phases per cycle: SET_INTERVAL_VALUE of the LTC6903 board with
      the values 1 and 2 exchanged. */
  lemma PfCycleSwap(sel: bv8)
    requires sel <= 3
    ensures PfMultiple(sel) == CycleMultiple(ProgFrequency, if sel == 1 then 2 else if sel == 2 then 1 else sel)
  {
  }

  /** The spacing index reads the code, speed and on-phase switches only: two
      port values that agree on PA0..PA3 and PA5 look up the same word gap,
      whatever the interval switches say. */
  lemma SpacingIgnoresInterval(pina: bv8, pina': bv8)
    requires pina & 0x2F == pina' & 0x2F
    ensures SpacingIndex(pina) == SpacingIndex(pina')
    ensures PfConfigure(pina).interval != 0 && PfConfigure(pina').interval != 0
        ==> PfConfigure(pina).space == PfConfigure(pina').space
  {
    assert pina & 0x0F == pina' & 0x0F;
    assert (pina & (1 << 5) != 0) == (pina' & (1 << 5) != 0);
  }

  /** Reversing the three bits of the code switch twice gives them back. */
  lemma Reverse3Twice(v: bv8)
    ensures Reverse3(Reverse3(v)) == v & 7
  {
  }

  /** Every code is selected by the switch value that is its code number
      with the bits reversed. */
  lemma PfCodeRoundTrip(id: CodeId)
    ensures PfSelectCode(Reverse3(DipCodeValue(id) as bv8)) == id
  {
    var v := DipCodeValue(id) as bv8;
    Reverse3Twice(v);
    assert Reverse3(Reverse3(v) & 7) == v;
  }

  /** MO is what switch values 0 and 7 select, and every other code is
      selected by exactly one switch value. */
  lemma PfCodeSelection(pina: bv8, pina': bv8)
    ensures PfSelectCode(pina) == MO <==> pina & 7 == 0 || pina & 7 == 7
    ensures PfSelectCode(pina) == PfSelectCode(pina') != MO ==> pina & 7 == pina' & 7
  {
  }

  /** For a 10-bit setting, the high byte carries OCT = 11, the low byte CNF
      = 2, and together they carry the setting. */
  lemma OscRoundTrip(f: bv16)
    requires f < 1024
    ensures OscHigh(f) >> 4 == 11 && OscLow(f) & 3 == 2
    ensures OscSetting(OscHigh(f), OscLow(f)) == f
  {
  }

  /** The oscillator receives the table's setting for the FREQ switches: the
      one the DIP decoder of config.h selects. */
  lemma PfOscillatorWord(pina: bv8, pinb: bv8)
    ensures var f := FREQUENCIES[FrequencyIndex(pina, pinb)];
      && f == FrequencySetting(pina, pinb)
      && OscHigh(f as bv16) >> 4 == 11 && OscLow(f as bv16) & 3 == 2
      && OscSetting(OscHigh(f as bv16), OscLow(f as bv16)) as int == f
  {
    var f := FrequencySetting(pina, pinb);
    OscRoundTrip(f as bv16);
  }

  /** init_uc leaves the counter invariant, and in interval mode a code
      advanced by `n` cycles starts `Advanced(m, ep, n)` ticks into a cycle
      of `m` on-phases: in an off-phase. */
  lemma PfInitialPhase(pina: bv8, pinb: bv8)
    ensures var c, id, m := PfConfigure(pina), PfSelectCode(pina), PfMultiple(IntervalSelect(pina));
      var s := PfInitial(pina, pinb);
      && CounterOk(c, s)
      && (Intervals(id) == 0 ==> s.intervalTicks == 0)
      && (m != 0 && Intervals(id) != 0 ==>
            s.intervalTicks == Advanced(m, c.enablePeriod, Intervals(id)) && !PfEnabled(c, s))
  {
    var c, id, m := PfConfigure(pina), PfSelectCode(pina), PfMultiple(IntervalSelect(pina));
    if m != 0 && Intervals(id) != 0 {
      PreAdvanceClosedForm(m, c.enablePeriod, Intervals(id));
    }
  }
}
