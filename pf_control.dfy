/** The earlier firmware of the LTC6903 board (src/pf_control.c): the same
    8 ms tick handler without oscillator enable pin, status LED or level
    setting, with a counter reset in the enabled branch; and its init_uc,
    which reads the switches with its own pin assignment, selects the cycle
    with a fall-through switch, indexes a 32-entry spacing table and sends
    the oscillator its two-byte setting. The handler is specified by
    `PfTickSpec`; the class `PfBeacon` holds the globals. */
module PfFirmware {
  import opened Bits
  import opened Config
  import opened Sequencer
  import opened Tables
  import opened MainFirmware

  /** The globals init_uc sets and the tick handler only reads. */
  datatype PfSettings = PfSettings(
    ticksPerSign: uint8,
    enablePeriod: uint16,
    interval: uint16,
    space: uint8)

  /** The globals the tick handler changes, and the output port. */
  datatype PfState = PfState(
    output: bv8,
    intervalTicks: uint16,
    keyTicks: uint8,
    sequencer: SeqState,
    port: bv8)

  /** OUTPUT_KEY: PB0, as on the LTC6903 board of the later firmware. */
  const PF_KEY: bv8 := 1 << 0

  /** The interval gate, as in the later firmware. */
  predicate PfEnabled(c: PfSettings, s: PfState) {
    c.interval == 0 || s.intervalTicks < c.enablePeriod
  }

  /** The interval counter after the gate's post-increment. */
  function PfGate(c: PfSettings, s: PfState): PfState {
    s.(intervalTicks := if c.interval == 0 then s.intervalTicks else Wrap16(s.intervalTicks + 1))
  }

  /** The reset at the top of the enabled branch: the counter is cleared once
      it has reached the cycle length. */
  function CounterReset(c: PfSettings, ticks: uint16): uint16 {
    if ticks >= c.interval then 0 else ticks
  }

  /** The condition of the closing tone, on the counter after the reset. */
  predicate PfClosing(c: PfSettings, ticks: uint16) {
    c.interval != 0 && ticks > Sub16(c.enablePeriod, TXOFF_TICKS)
  }

  /** The enabled branch, after the gate: reset the counter at the cycle
      length, force the key in the closing tone, count the unit down, and
      when it expires reload it and run one sequencer step. */
  function PfEnabledTick(c: PfSettings, code: seq<bv8>, g: PfState): PfState {
    var ticks := CounterReset(c, g.intervalTicks);
    var out := if PfClosing(c, ticks) then g.output | PF_KEY else g.output;
    if g.keyTicks == 0 then
      var u := Step(code, c.space, g.sequencer);
      g.(intervalTicks := ticks, output := Keyed(ProgFrequency, out, u.key),
         keyTicks := Wrap8(c.ticksPerSign - 1), sequencer := u.next)
    else
      g.(intervalTicks := ticks, output := out, keyTicks := g.keyTicks - 1)
  }

  /** The off branch, after the gate: key off, the off-unit count past the
      threshold, the countdown expired. */
  function PfOffTick(c: PfSettings, g: PfState): PfState {
    g.(output := g.output & !PF_KEY, keyTicks := 0,
       sequencer := g.sequencer.(spaceCount := Wrap8(c.space + 1)))
  }

  /** One run of the tick handler, ending with OUTPUT(output), which copies
      the key bit into the port. */
  function PfTickSpec(c: PfSettings, code: seq<bv8>, s: PfState): PfState {
    var g := PfGate(c, s);
    var b := if PfEnabled(c, s) then PfEnabledTick(c, code, g) else PfOffTick(c, g);
    b.(port := Output(ProgFrequency, b.port, b.output))
  }

  /** The key bit of the output byte. */
  predicate PfKeyOn(s: PfState) {
    s.output & PF_KEY != 0
  }

  /** The states after each of `n` ticks. */
  function PfRun(c: PfSettings, code: seq<bv8>, s: PfState, n: nat): PfState
    decreases n
  {
    if n == 0 then s else PfRun(c, code, PfTickSpec(c, code, s), n - 1)
  }

  /** The key bit after each of `n` ticks. */
  function PfKeyTrace(c: PfSettings, code: seq<bv8>, s: PfState, n: nat): (keys: seq<bool>)
    ensures |keys| == n
    decreases n
  {
    if n == 0 then []
    else
      var t := PfTickSpec(c, code, s);
      [PfKeyOn(t)] + PfKeyTrace(c, code, t, n - 1)
  }

  // ---------------------------------------------------------------------
  // Configuration (init_uc)

  /** The unit length: the fast speed when PA3 reads 1. */
  function PfSignTicks(pina: bv8): (t: uint8)
    ensures t == 10 || t == 15
    ensures t == 10 <==> pina & (1 << 3) != 0
  {
    SpeedTicks();
    if pina & (1 << 3) != 0 then TicksPerSign(CODE_SPEED_FAST) else TicksPerSign(CODE_SPEED_SLOW)
  }

  /** The on-phase: the short one when PA5 reads 1. */
  function PfPhaseTicks(pina: bv8): (p: uint16)
    ensures p == 1500 || p == 7500
    ensures p == 1500 <==> pina & (1 << 5) != 0
  {
    IntervalUnits();
    if pina & (1 << 5) != 0 then IntervalCount(INTERVAL_SHORT) else IntervalCount(INTERVAL_LONG)
  }

  /** The interval switch value `(PINA >> 6) & 3`. */
  function IntervalSelect(pina: bv8): (sel: bv8)
    ensures sel <= 3
  {
    (pina >> 6) & 3
  }

  /** The number of on-phases per cycle the fall-through switch accumulates:
      case 3 adds two on-phases and falls into case 1, which adds one and
      falls into case 2, which adds another; case 0 selects continuous
      operation. */
  function PfMultiple(sel: bv8): (m: nat)
    requires sel <= 3
    ensures m == 0 || 2 <= m <= 5
  {
    if sel == 2 then 2 else if sel == 1 then 3 else if sel == 3 then 5 else 0
  }

  /** The interval switch of init_uc: the cycle starts as one on-phase and
      the cases add to it, in 16-bit arithmetic; case 0 clears both. */
  method IntervalSwitch(pina: bv8, period: uint16) returns (interval: uint16, ep: uint16)
    ensures interval == Mul16(PfMultiple(IntervalSelect(pina)), period)
    ensures ep == if PfMultiple(IntervalSelect(pina)) == 0 then 0 else period
  {
    ep := period;
    interval := ep;
    var sel := (pina >> 6) & 3;
    if sel == 3 {
      interval := Wrap16(interval + Wrap16(ep + ep));
    }
    if sel == 3 || sel == 1 {
      interval := Wrap16(interval + ep);
    }
    if sel == 3 || sel == 1 || sel == 2 {
      interval := Wrap16(interval + ep);
    } else {
      interval, ep := 0, 0;
    }
    AccumulatedMultiple(sel, period, interval);
  }

  /** The additions of the switch make up the multiple of the on-phase. */
  lemma AccumulatedMultiple(sel: bv8, p: uint16, interval: uint16)
    requires sel <= 3
    requires sel == 3 ==> interval == Wrap16(Wrap16(Wrap16(p + Wrap16(p + p)) + p) + p)
    requires sel == 1 ==> interval == Wrap16(Wrap16(p + p) + p)
    requires sel == 2 ==> interval == Wrap16(p + p)
    requires sel == 0 ==> interval == 0
    ensures interval == Mul16(PfMultiple(sel), p)
  {
    if sel == 3 {
      FiveFold(p);
    } else if sel == 1 {
      Doubled(p);
      Wrapped(2 * p, p);
    }
  }

  /** `p + p` in 16-bit arithmetic. */
  lemma Doubled(p: uint16)
    ensures Wrap16(p + p) == (2 * p) % 0x1_0000
  {
  }

  /** Adding `p` to `(k * p) % 2^16` in 16-bit arithmetic. */
  lemma Wrapped(kp: nat, p: uint16)
    ensures Wrap16(kp % 0x1_0000 + p) == (kp + p) % 0x1_0000
  {
  }

  /** Case 3 of the switch: three additions make five on-phases. */
  lemma FiveFold(p: uint16)
    ensures Wrap16(Wrap16(Wrap16(p + Wrap16(p + p)) + p) + p) == (5 * p) % 0x1_0000
  {
    Doubled(p);
    Wrapped(2 * p, p);
    Wrapped(3 * p, p);
    Wrapped(4 * p, p);
  }

  /** The index into the spacing table: bits 0..3 of the port (the code and
      speed switches) and PA5 (the on-phase switch) as bit 4. */
  function SpacingIndex(pina: bv8): (i: nat)
    ensures i < 32
    ensures i == (pina & 0x0F) as nat + (if pina & (1 << 5) != 0 then 16 else 0)
  {
    ((pina & 0x0F) | ((pina >> 1) & 0x10)) as nat
  }

  /** The settings init_uc derives from port A; the word gap is looked up in
      the spacing table in interval mode and is seven units otherwise. */
  function PfConfigure(pina: bv8): (c: PfSettings)
    ensures 1 <= c.ticksPerSign
    ensures c.interval == 0 ==> c.enablePeriod == 0 && c.space == 7
    ensures c.interval != 0 ==> c.enablePeriod == PfPhaseTicks(pina) && 4 <= c.space
    ensures c.interval == PfMultiple(IntervalSelect(pina)) * c.enablePeriod
    ensures c.interval != 0 ==> c.enablePeriod < c.interval
  {
    var tps := PfSignTicks(pina);
    var period := PfPhaseTicks(pina);
    var m := PfMultiple(IntervalSelect(pina));
    var interval := Mul16(m, period);
    SpacingBounds();
    if interval != 0 then PfSettings(tps, period, interval, PF_SPACE_ADJUST[SpacingIndex(pina)])
    else PfSettings(tps, 0, 0, 7)
  }

  /** The bits of the code switch in the opposite order. */
  function Reverse3(v: bv8): (r: bv8)
    ensures r <= 7
  {
    ((v & 1) << 2) | (v & 2) | ((v >> 2) & 1)
  }

  /** The code switch `PINA & 7`, whose cases 4, 2, 6, 1, 5, 3 select MOE,
      MOI, MOS, MOH, MO5 and S, and any other value MO: the code numbers of
      the later firmware with their three bits reversed. */
  function PfSelectCode(pina: bv8): (id: CodeId)
    ensures id == SelectCode(Reverse3(pina & 7))
  {
    var v := pina & 7;
    if v == 4 then MOE
    else if v == 2 then MOI
    else if v == 6 then MOS
    else if v == 1 then MOH
    else if v == 5 then MO5
    else if v == 3 then S
    else MO
  }

  /** FREQUENCY_SETTINGS: PB6, PB1 and PA4 as bits 2, 1 and 0. */
  function FrequencyIndex(pina: bv8, pinb: bv8): (i: bv8)
    ensures i == Dip(ProgFrequency, pina, pinb, FREQ)
  {
    (((pinb & (1 << 6)) >> 6) << 2) | (((pinb & (1 << 1)) >> 1) << 1) | (((pina & (1 << 4)) >> 4) << 0)
  }

  /** The high byte sent to the LTC6903: OCT3..0 = 11 and DAC9..6, the top
      four bits of the 10-bit setting, truncated to the 8-bit data register. */
  function OscHigh(f: bv16): (hi: bv8)
    ensures f < 1024 ==> hi >> 4 == 11
  {
    (((11 << 4) | (f >> 6)) & 0xFF) as bv8
  }

  /** The low byte: DAC5..0, the low six bits of the setting, and CNF1..0 = 2
      (the inverted clock output off). */
  function OscLow(f: bv16): (lo: bv8)
    ensures lo & 3 == 2
  {
    ((((f & 0x3F) << 2) | 0x02) & 0xFF) as bv8
  }

  /** The 10-bit DAC setting the oscillator reads from the two bytes. */
  function OscSetting(hi: bv8, lo: bv8): bv16 {
    (((hi as bv16) & 0x0F) << 6) | ((lo as bv16) >> 2)
  }

  /** The value init_uc leaves in PORTB: OSC_SEN, USI_SCK and, when the PB1
      switch reads 1, USI_DO high, and the pull-up of PB6 when its switch
      reads 1; the key pin low. */
  function PfInitialPort(pinb: bv8): bv8 {
    (1 << 3) | (1 << 2) | (pinb & ((1 << 1) | (1 << 6)))
  }

  /** The globals the tick handler changes, as init_uc leaves them. */
  function PfInitial(pina: bv8, pinb: bv8): PfState {
    var c := PfConfigure(pina);
    var id := PfSelectCode(pina);
    var ticks := if Intervals(id) != 0 then PreAdvanced(c.interval, c.enablePeriod, Intervals(id)) else 0;
    PfState(0, ticks, 0, Home, PfInitialPort(pinb))
  }

  /** The counter invariant under which the reset never matters: zero in
      continuous mode, and in interval mode a cycle longer than its on-phase. */
  predicate CounterOk(c: PfSettings, s: PfState) {
    (c.interval == 0 ==> s.intervalTicks == 0) && (c.interval != 0 ==> c.enablePeriod < c.interval)
  }

  // ---------------------------------------------------------------------
  // The globals

  /** The globals of src/pf_control.c, with `codePtr` as an index into
      `code`, `port` for PORTB and the two bytes sent to the oscillator. */
  class PfBeacon {
    const code: array<bv8>
    const ticksPerSign: uint8
    const enablePeriod: uint16
    const interval: uint16
    const space: uint8
    const frequency: uint16
    const oscHigh: bv8
    const oscLow: bv8
    var output: bv8
    var intervalTicks: uint16
    var keyTicks: uint8
    var codePtr: nat
    var bit: bv8
    var spaceCount: uint8
    var port: bv8

    function Cfg(): PfSettings {
      PfSettings(ticksPerSign, enablePeriod, interval, space)
    }

    function Snapshot(): PfState
      reads this
    {
      PfState(output, intervalTicks, keyTicks, SeqState(codePtr, bit, spaceCount), port)
    }

    /** The buffer has six bytes, the read position is well formed in it and
        the counter invariant holds. */
    predicate Valid()
      reads this, code
    {
      code.Length == 6 && WellFormed(code[..], Snapshot().sequencer) && CounterOk(Cfg(), Snapshot())
    }

    /** Power-on followed by the configuration part of init_uc for the port
        levels `pina` and `pinb`, with the read position at the first bit of
        the buffer instead of a null pointer. */
    constructor Start(pina: bv8, pinb: bv8)
      ensures Valid()
      ensures Cfg() == PfConfigure(pina) && code[..] == CodeTable(PfSelectCode(pina))
      ensures Snapshot() == PfInitial(pina, pinb)
      ensures frequency == FREQUENCIES[FrequencyIndex(pina, pinb)]
      ensures oscHigh == OscHigh(frequency as bv16) && oscLow == OscLow(frequency as bv16)
    {
      var c := ReadSettings(pina);
      var id := PfSelectCode(pina);
      var buffer := new bv8[6](_ => 0);
      CopyCode(buffer, CodeTable(id));
      var ticks := StartTicks(c, Intervals(id));
      FrequencyBounds();
      var f := FREQUENCIES[FrequencyIndex(pina, pinb)];
      code := buffer;
      ticksPerSign, enablePeriod, interval, space := c.ticksPerSign, c.enablePeriod, c.interval, c.space;
      frequency := f;
      oscHigh, oscLow := OscHigh(f as bv16), OscLow(f as bv16);
      output, intervalTicks, keyTicks := 0, ticks, 0;
      codePtr, bit, spaceCount := 0, 0x80, 0;
      port := PfInitialPort(pinb);
      HomeWellFormed(buffer[..]);
    }

    /** One timer interrupt: the handler runs on the globals and writes them
        back. */
    method Tick()
      requires Valid()
      modifies this
      ensures Valid()
      ensures Snapshot() == PfTickSpec(Cfg(), code[..], old(Snapshot()))
    {
      var t := PfTickHandler(Cfg(), code[..], Snapshot());
      output, intervalTicks, keyTicks, port := t.output, t.intervalTicks, t.keyTicks, t.port;
      codePtr, bit, spaceCount := t.sequencer.codePtr, t.sequencer.bit, t.sequencer.spaceCount;
    }
  }

  /** The switch reading of init_uc: speed, on-phase, the interval switch
      and the spacing table. */
  method ReadSettings(pina: bv8) returns (c: PfSettings)
    ensures c == PfConfigure(pina)
  {
    var tps := TicksPerSign(CODE_SPEED_SLOW);
    if pina & (1 << 3) != 0 {
      tps := TicksPerSign(CODE_SPEED_FAST);
    }
    var period := IntervalCount(INTERVAL_LONG);
    if pina & (1 << 5) != 0 {
      period := IntervalCount(INTERVAL_SHORT);
    }
    IntervalUnits();
    SpeedTicks();
    var interval, ep := IntervalSwitch(pina, period);
    var space: uint8 := 7;
    SpacingBounds();
    if interval != 0 {
      space := PF_SPACE_ADJUST[((pina & 0x0F) | ((pina >> 1) & 0x10)) as nat];
    }
    c := PfSettings(tps, ep, interval, space);
  }

  /** The pre-advance of init_uc, for codes advanced by some cycles; in
      continuous mode it leaves the counter at 0. */
  method StartTicks(c: PfSettings, intervals: uint8) returns (ticks: uint16)
    requires c.interval == 0 ==> c.enablePeriod == 0
    ensures ticks == if intervals != 0 then PreAdvanced(c.interval, c.enablePeriod, intervals) else 0
    ensures c.interval == 0 ==> ticks == 0
  {
    ticks := 0;
    if intervals != 0 {
      ticks := PreAdvance(c.interval, c.enablePeriod, intervals);
    }
  }

  /** The body of the tick handler, on local copies of the globals. */
  method PfTickHandler(c: PfSettings, code: seq<bv8>, s: PfState) returns (t: PfState)
    requires |code| == 6 && WellFormed(code, s.sequencer) && CounterOk(c, s)
    ensures t == PfTickSpec(c, code, s) && WellFormed(code, t.sequencer) && CounterOk(c, t)
  {
    var enabled, ticks := true, s.intervalTicks;
    if c.interval != 0 {
      enabled := ticks < c.enablePeriod;
      ticks := Wrap16(ticks + 1);
    }
    var g := s.(intervalTicks := ticks);
    var b: PfState;
    if enabled {
      b := PfEnabledBranch(c, code, g);
    } else {
      b := PfOffBranch(c, g);
    }
    t := b.(port := Output(ProgFrequency, b.port, b.output));
    PfTickParts(c, code, s, enabled, g, b, t);
  }

  /** The steps of the handler make up `PfTickSpec` and keep the counter
      invariant. */
  lemma PfTickParts(c: PfSettings, code: seq<bv8>, s: PfState, enabled: bool, g: PfState, b: PfState, t: PfState)
    requires CounterOk(c, s)
    requires enabled == PfEnabled(c, s) && g == PfGate(c, s)
    requires b == if enabled then PfEnabledTick(c, code, g) else PfOffTick(c, g)
    requires t == b.(port := Output(ProgFrequency, b.port, b.output))
    ensures t == PfTickSpec(c, code, s) && CounterOk(c, t)
  {
  }

  /** The enabled branch of the handler. */
  method PfEnabledBranch(c: PfSettings, code: seq<bv8>, g: PfState) returns (t: PfState)
    requires WellFormed(code, g.sequencer)
    ensures t == PfEnabledTick(c, code, g) && WellFormed(code, t.sequencer)
  {
    var ticks, output := ResetAndClose(c, g.intervalTicks, g.output);
    ghost var out := output;
    var keyTicks: uint8, sequencer := g.keyTicks, g.sequencer;
    if keyTicks == 0 {
      keyTicks := Wrap8(c.ticksPerSign - 1);
      output, sequencer := UnitStep(ProgFrequency, code, c.space, output, sequencer);
    } else {
      keyTicks := keyTicks - 1;
    }
    t := g.(intervalTicks := ticks, output := output, keyTicks := keyTicks, sequencer := sequencer);
    PfEnabledParts(c, code, g, ticks, out, t);
  }

  /** The start of the enabled branch: the counter reset at the cycle length,
      and the key forced on in the closing tone. */
  method ResetAndClose(c: PfSettings, intervalTicks: uint16, output: bv8) returns (ticks: uint16, out: bv8)
    ensures ticks == CounterReset(c, intervalTicks)
    ensures out == if PfClosing(c, ticks) then output | PF_KEY else output
  {
    ticks := intervalTicks;
    if ticks >= c.interval {
      ticks := 0;
    }
    out := output;
    if c.interval != 0 && ticks > Sub16(c.enablePeriod, TXOFF_TICKS) {
      out := out | PF_KEY;
    }
  }

  /** The parts of the enabled branch make up `PfEnabledTick`. */
  lemma PfEnabledParts(c: PfSettings, code: seq<bv8>, g: PfState, ticks: uint16, out: bv8, t: PfState)
    requires ticks == CounterReset(c, g.intervalTicks)
    requires out == if PfClosing(c, ticks) then g.output | PF_KEY else g.output
    requires if g.keyTicks == 0 then
        var u := Step(code, c.space, g.sequencer);
        t == g.(intervalTicks := ticks, output := Keyed(ProgFrequency, out, u.key),
           keyTicks := Wrap8(c.ticksPerSign - 1), sequencer := u.next)
      else
        t == g.(intervalTicks := ticks, output := out, keyTicks := g.keyTicks - 1)
    ensures t == PfEnabledTick(c, code, g)
  {
  }

  /** The off branch of the handler. */
  method PfOffBranch(c: PfSettings, g: PfState) returns (t: PfState)
    ensures t == PfOffTick(c, g)
  {
    var output := g.output & !PF_KEY;
    var spaceCount := Wrap8(c.space + 1);
    t := g.(output := output, keyTicks := 0, sequencer := g.sequencer.(spaceCount := spaceCount));
  }
}
