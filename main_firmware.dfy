/** The current firmware (src/main.c): the 8 ms timer tick handler with its
    interval gate, unit countdown, Morse sequencer, status LED and output
    write, and the configuration part of init_uc that reads the DIP switches.
    The tick handler is specified by `TickSpec` on values; the class `Beacon`
    holds the globals and its `Tick` is proved to follow `TickSpec`. */
module MainFirmware {
  import opened Bits
  import opened Config
  import opened Sequencer
  import opened Morse
  import opened Tables

  /** The globals init_uc sets and the tick handler only reads. */
  datatype Settings = Settings(
    board: Board,
    ticksPerSign: uint8,
    enablePeriod: uint16,
    interval: uint16,
    outputSet: bv8,
    space: uint8)

  /** The globals the tick handler changes, and the output port. */
  datatype State = State(
    output: bv8,
    intervalTicks: uint16,
    keyTicks: uint8,
    sequencer: SeqState,
    ledTicks: uint16,
    port: bv8)

  /** The interval gate lets a tick through in continuous mode, and in
      interval mode while the counter, before its increment, is below the
      on-phase. */
  predicate Enabled(c: Settings, s: State) {
    c.interval == 0 || s.intervalTicks < c.enablePeriod
  }

  /** The interval counter after the gate: the short-circuit skips the
      post-increment in continuous mode. */
  function Gate(c: Settings, s: State): State {
    s.(intervalTicks := if c.interval == 0 then s.intervalTicks else Wrap16(s.intervalTicks + 1))
  }

  /** The condition of the closing tone, on the incremented counter. */
  predicate Closing(c: Settings, ticks: uint16) {
    c.interval != 0 && ticks > Sub16(c.enablePeriod, TXOFF_TICKS)
  }

  /** The output byte with the key bit set or cleared. */
  function Keyed(board: Board, output: bv8, key: bool): bv8 {
    if key then output | OutputKey(board) else output & !OutputKey(board)
  }

  /** The key bit of the output byte. */
  predicate KeyOn(c: Settings, s: State) {
    s.output & OutputKey(c.board) != 0
  }

  /** The LED counter restarts once it reaches the branch's limit, on the
      LED board. */
  function LedRestart(c: Settings, ledTicks: uint16, limit: nat): uint16 {
    if c.board.UsesLed() && ledTicks >= limit then 0 else ledTicks
  }

  /** The output byte in the enabled branch before the unit countdown: the
      oscillator enabled, and the key forced on in the closing tone. */
  function OnOutput(c: Settings, output: bv8, ticks: uint16): bv8 {
    var out := output | OutputEnable(c.board);
    if Closing(c, ticks) then out | OutputKey(c.board) else out
  }

  /** The enabled branch, after the gate: enable the oscillator, force the key
      in the closing tone, count the unit down, and when it expires reload it
      and run one sequencer step, whose bit sets or clears the key; the LED
      counter restarts every second. */
  function EnabledTick(c: Settings, code: seq<bv8>, g: State): State {
    var out := OnOutput(c, g.output, g.intervalTicks);
    var led := LedRestart(c, g.ledTicks, ENABLED_LED_TICKS);
    if g.keyTicks == 0 then
      var u := Step(code, c.space, g.sequencer);
      g.(output := Keyed(c.board, out, u.key), keyTicks := Wrap8(c.ticksPerSign - 1),
         sequencer := u.next, ledTicks := led)
    else
      g.(output := out, keyTicks := g.keyTicks - 1, ledTicks := led)
  }

  /** The off branch, after the gate: oscillator and key off, the off-unit
      count past the threshold so that the next step restarts, the countdown
      expired; the LED counter restarts once per on-phase. */
  function OffTick(c: Settings, g: State): State {
    g.(output := g.output & !(OutputEnable(c.board) | OutputKey(c.board)),
       keyTicks := 0, sequencer := g.sequencer.(spaceCount := Wrap8(c.space + 1)),
       ledTicks := LedRestart(c, g.ledTicks, c.enablePeriod))
  }

  /** The status LED: lit on the tick its counter is 0. */
  function LedPort(board: Board, ledTicks: uint16, port: bv8): bv8 {
    if !board.UsesLed() then port
    else if ledTicks != 0 then port & !OUTPUT_LED else port | OUTPUT_LED
  }

  /** The end of the handler: on the LED board the LED is set from its
      counter and the counter is incremented; then the output bits, inverted
      where the level setting says so, are written to the port. */
  function Finish(c: Settings, s: State): State {
    s.(ledTicks := if c.board.UsesLed() then Wrap16(s.ledTicks + 1) else s.ledTicks,
       port := Output(c.board, LedPort(c.board, s.ledTicks, s.port), s.output ^ c.outputSet))
  }

  /** One run of the timer tick handler. */
  function TickSpec(c: Settings, code: seq<bv8>, s: State): State {
    var g := Gate(c, s);
    Finish(c, if Enabled(c, s) then EnabledTick(c, code, g) else OffTick(c, g))
  }

  /** The states after each of `n` ticks. */
  function Run(c: Settings, code: seq<bv8>, s: State, n: nat): State
    decreases n
  {
    if n == 0 then s else Run(c, code, TickSpec(c, code, s), n - 1)
  }

  /** The key bit after each of `n` ticks. */
  function KeyTrace(c: Settings, code: seq<bv8>, s: State, n: nat): (keys: seq<bool>)
    ensures |keys| == n
    decreases n
  {
    if n == 0 then []
    else
      var t := TickSpec(c, code, s);
      [KeyOn(c, t)] + KeyTrace(c, code, t, n - 1)
  }

  // ---------------------------------------------------------------------
  // Configuration (init_uc)

  /** The DIP-switch fields init_uc reads with DIP(). */
  datatype Switches = Switches(
    code: bv8,
    speed: bv8,
    intervalLength: bv8,
    interval: bv8,
    keyLevel: bv8,
    enableLevel: bv8)

  /** DIP() of every field on a board. */
  function ReadSwitches(board: Board, pina: bv8, pinb: bv8): (sw: Switches)
    ensures sw.code < 8 && sw.interval <= 3
    ensures sw.speed <= 1 && sw.intervalLength <= 1 && sw.keyLevel <= 1 && sw.enableLevel <= 1
  {
    Switches(
      Dip(board, pina, pinb, CODE),
      Dip(board, pina, pinb, SPEED),
      Dip(board, pina, pinb, INTERVAL_LENGTH),
      Dip(board, pina, pinb, INTERVAL),
      Dip(board, pina, pinb, KEY_LEVEL),
      Dip(board, pina, pinb, ENABLE_LEVEL))
  }

  /** The unit length the speed switch selects. */
  function SignTicks(sw: Switches): (t: uint8)
    ensures t == 10 || t == 15
    ensures t == 10 <==> sw.speed != 0
  {
    SpeedTicks();
    if sw.speed != 0 then TicksPerSign(CODE_SPEED_FAST) else TicksPerSign(CODE_SPEED_SLOW)
  }

  /** The on-phase the interval-length switch selects. */
  function PhaseTicks(sw: Switches): (p: uint16)
    ensures p == 1500 || p == 7500
    ensures p == 1500 <==> sw.intervalLength != 0
  {
    IntervalUnits();
    if sw.intervalLength != 0 then IntervalCount(INTERVAL_SHORT) else IntervalCount(INTERVAL_LONG)
  }

  /** The key and enable levels of the level-setting board: a bit of
      `output_set` is set to invert the pin when its switch reads 0. */
  function LevelSetting(board: Board, sw: Switches): (levels: bv8)
    ensures levels & !OutputMask(board) == 0
    ensures board.UsesLevelSetting() ==> (levels & OutputKey(board) == 0 <==> sw.keyLevel != 0)
    ensures board.UsesLevelSetting() ==> (levels & OutputEnable(board) == 0 <==> sw.enableLevel != 0)
    ensures !board.UsesLevelSetting() ==> levels == 0
  {
    if board.UsesLevelSetting() then
      (if sw.keyLevel != 0 then 0 else OutputKey(board))
      | (if sw.enableLevel != 0 then 0 else OutputEnable(board))
    else 0
  }

  /** The settings init_uc derives from the switches: unit length, on-phase,
      cycle length, levels and word gap; continuous mode clears the on-phase
      and uses a gap of seven units. */
  function Configure(board: Board, sw: Switches): (c: Settings)
    ensures c.board == board && 1 <= c.ticksPerSign
    ensures c.interval == 0 ==> c.enablePeriod == 0 && c.space == 7
    ensures c.interval != 0 ==> c.enablePeriod == PhaseTicks(sw) && 4 <= c.space
  {
    var tps := SignTicks(sw);
    var period := PhaseTicks(sw);
    var interval := SetIntervalValue(board, sw.interval, period);
    var levels := LevelSetting(board, sw);
    SpacingBounds();
    if interval != 0 then Settings(board, tps, period, interval, levels, MAIN_SPACE_ADJUST[sw.interval & 3])
    else Settings(board, tps, 0, 0, levels, 7)
  }

  /** The code switch: each code number selects its table, any other value
      the MO table. */
  function SelectCode(v: bv8): (id: CodeId)
    ensures v < 7 ==> DipCodeValue(id) == v as nat
    ensures 7 <= v ==> id == MO
  {
    if v == 1 then MOE
    else if v == 2 then MOI
    else if v == 3 then MOS
    else if v == 4 then MOH
    else if v == 5 then MO5
    else if v == 6 then S
    else MO
  }

  /** The number of whole cycles the pre-advance of init_uc may skip for the
      selected code: MOI to MO5 skip one to four, the others none. */
  function Intervals(id: CodeId): (n: uint8)
    ensures n <= 4
  {
    match id
    case MOI => 1
    case MOS => 2
    case MOH => 3
    case MO5 => 4
    case _ => 0
  }

  /** The oscillator setting the three FREQ switches of the LTC6903 board
      select. */
  function FrequencySetting(pina: bv8, pinb: bv8): (f: uint16)
    ensures f < 1024
  {
    FrequencyBounds();
    FREQUENCIES[Dip(ProgFrequency, pina, pinb, FREQ)]
  }

  /** The port pins the DIP switches are read from on port B. */
  function PortbDipPins(board: Board): bv8 {
    if board == ProgFrequency then (1 << 1) | (1 << 6) else (1 << 1) | (1 << 0)
  }

  /** The value init_uc leaves in the output port: the level setting, the
      serial interface lines of the LTC6903 board idle high, and the pull-ups
      of the switch pins that read 1. */
  function InitialPort(board: Board, pinb: bv8, levels: bv8): bv8 {
    levels | (if board == ProgFrequency then (1 << 1) | (1 << 3) else 0) | (pinb & PortbDipPins(board))
  }

  /** The do-while loop of the pre-advance: subtract one on-phase in 16-bit
      arithmetic, and go on while cycles remain to be skipped (the count is
      tested, then decremented) and more than one on-phase is left. */
  function PreAdvanced(ticks: uint16, ep: uint16, count: uint8): uint16
    decreases count
  {
    var t := Sub16(ticks, ep);
    if count != 0 && t > ep then PreAdvanced(t, ep, count - 1) else t
  }

  /** The pre-advance loop of init_uc, on its own variables. */
  method PreAdvance(interval: uint16, ep: uint16, n: uint8) returns (ticks: uint16)
    ensures ticks == PreAdvanced(interval, ep, n)
  {
    ticks := Sub16(interval, ep);
    var count := n;
    while count != 0 && ticks > ep
      invariant PreAdvanced(interval, ep, n)
        == if count != 0 && ticks > ep then PreAdvanced(ticks, ep, count - 1) else ticks
      decreases count
    {
      count := count - 1;
      ticks := Sub16(ticks, ep);
    }
  }

  /** The value of the interval counter after the pre-advance, when the cycle
      is `m` on-phases long and the counter is advanced by `n` cycles: it ends
      a whole number of on-phases, at least one, before the end of the cycle. */
  function Advanced(m: nat, ep: nat, n: nat): nat
    requires 2 <= m
  {
    (m - Min(n + 1, m - 1)) * ep
  }

  lemma MulStep(a: nat, ep: nat)
    requires 1 <= a
    ensures a * ep - ep == (a - 1) * ep && ep <= a * ep
    ensures 0 < ep ==> (a * ep > ep <==> a > 1)
  {
  }

  /** From `j >= 2` on-phases with `count` cycles to skip, the loop makes
      `Min(count + 1, j - 1)` subtractions, none of which wraps. */
  lemma {:induction false} PreAdvancedFrom(j: nat, ep: uint16, count: uint8)
    requires 0 < ep && 2 <= j && j * ep < 0x1_0000
    ensures PreAdvanced(j * ep, ep, count) == Advanced(j, ep, count)
    decreases count
  {
    MulStep(j, ep);
    var t := Sub16(j * ep, ep);
    assert t == (j - 1) * ep;
    MulStep(j - 1, ep);
    if count != 0 && t > ep {
      PreAdvancedFrom(j - 1, ep, count - 1);
    }
  }

  /** The pre-advance of `n >= 0` cycles from a cycle of `m >= 2` on-phases
      leaves the counter at `Advanced(m, ep, n)`: at least one on-phase, so
      that the first tick is an off tick. */
  lemma PreAdvanceClosedForm(m: nat, ep: uint16, n: uint8)
    requires 0 < ep && 2 <= m && m * ep < 0x1_0000
    ensures PreAdvanced(m * ep, ep, n) == Advanced(m, ep, n)
    ensures ep <= Advanced(m, ep, n) <= (m - 1) * ep
  {
    PreAdvancedFrom(m, ep, n);
    var k := Min(n + 1, m - 1);
    MulLeft(1, m - k, ep);
    MulLeft(m - k, m - 1, ep);
  }

  /** The interval counter init_uc leaves: the pre-advance from the cycle
      length for codes advanced by some cycles, 0 otherwise. */
  function InitialTicks(c: Settings, id: CodeId): uint16 {
    if Intervals(id) != 0 then PreAdvanced(c.interval, c.enablePeriod, Intervals(id)) else 0
  }

  /** The globals the tick handler changes, as init_uc leaves them for the
      switch settings `sw`. */
  function InitialFrom(board: Board, sw: Switches, pinb: bv8): State {
    var c := Configure(board, sw);
    State(0, InitialTicks(c, SelectCode(sw.code)), 0, Home, 0, InitialPort(board, pinb, c.outputSet))
  }

  function Initial(board: Board, pina: bv8, pinb: bv8): State {
    InitialFrom(board, ReadSwitches(board, pina, pinb), pinb)
  }

  /** In interval mode a code advanced by `n` cycles starts `Advanced(m, ep,
      n)` ticks into a cycle of `m` on-phases: in an off-phase, and at least
      one on-phase away from the end of the cycle. */
  lemma InitialPhase(board: Board, sw: Switches, pinb: bv8)
    ensures var c, id, m := Configure(board, sw), SelectCode(sw.code), CycleMultiple(board, sw.interval);
      var s := InitialFrom(board, sw, pinb);
      && (Intervals(id) == 0 ==> s.intervalTicks == 0)
      && (m != 0 && Intervals(id) != 0 ==>
            s.intervalTicks == Advanced(m, c.enablePeriod, Intervals(id)) && !Enabled(c, s))
  {
    var c, id, m := Configure(board, sw), SelectCode(sw.code), CycleMultiple(board, sw.interval);
    IntervalCycles(board, sw);
    if m != 0 && Intervals(id) != 0 {
      PreAdvanceClosedForm(m, c.enablePeriod, Intervals(id));
    }
  }

  /** The pre-advance does not give every code its own start: in a cycle of
      at most five on-phases MOH and MO5 both end one on-phase in, MOS does
      so as well in a cycle of at most four, and MOI in one of at most three. */
  lemma AdvancedCollisions(m: nat, ep: nat)
    requires 2 <= m <= 5
    ensures Advanced(m, ep, Intervals(MOH)) == Advanced(m, ep, Intervals(MO5)) == ep
    ensures m <= 4 ==> Advanced(m, ep, Intervals(MOS)) == ep
    ensures m <= 3 ==> Advanced(m, ep, Intervals(MOI)) == ep
  {
  }

  /** The start values init_uc gives the codes, for one switch setting but
      the code: MO, MOE and S start at 0, and in interval mode MOH and MO5
      both start at one on-phase, so beacons with these codes started
      together keep the same interval counter. */
  lemma SharedStarts(board: Board, sw: Switches)
    ensures var c, m := Configure(board, sw), CycleMultiple(board, sw.interval);
      && InitialTicks(c, MO) == InitialTicks(c, MOE) == InitialTicks(c, S) == 0
      && (m != 0 ==> InitialTicks(c, MOH) == InitialTicks(c, MO5) == c.enablePeriod)
      && (m != 0 && m <= 4 ==> InitialTicks(c, MOS) == c.enablePeriod)
  {
    var c, m := Configure(board, sw), CycleMultiple(board, sw.interval);
    IntervalCycles(board, sw);
    if m != 0 {
      AdvancedCollisions(m, c.enablePeriod);
      PreAdvanceClosedForm(m, c.enablePeriod, Intervals(MOS));
      PreAdvanceClosedForm(m, c.enablePeriod, Intervals(MOH));
      PreAdvanceClosedForm(m, c.enablePeriod, Intervals(MO5));
    }
  }

  /** The read position of a restart is well formed in any buffer with a zero byte. */
  lemma HomeWellFormed(code: seq<bv8>)
    requires |code| == 6 && code[5] == 0
    ensures WellFormed(code, Home)
  {
    assert HasZero(code) by {
      assert code[5] == 0;
    }
  }

  /** The copy of the selected table into the pattern buffer, byte by byte. */
  method CopyCode(dst: array<bv8>, src: seq<bv8>)
    requires dst.Length == |src|
    modifies dst
    ensures dst[..] == src
  {
    for i := 0 to dst.Length
      invariant dst[..i] == src[..i]
    {
      dst[i] := src[i];
    }
  }

  // ---------------------------------------------------------------------
  // The globals

  /** The globals of src/main.c. `codePtr` stands for `code_ptr` as an index
      into `code`; `port` is OUTPUT_PORT. */
  class Beacon {
    const board: Board
    const code: array<bv8>
    const ticksPerSign: uint8
    const enablePeriod: uint16
    const interval: uint16
    const outputSet: bv8
    const space: uint8
    const frequency: uint16
    var output: bv8
    var intervalTicks: uint16
    var keyTicks: uint8
    var codePtr: nat
    var bit: bv8
    var spaceCount: uint8
    var ledTicks: uint16
    var port: bv8

    function Cfg(): Settings {
      Settings(board, ticksPerSign, enablePeriod, interval, outputSet, space)
    }

    function Snapshot(): State
      reads this
    {
      State(output, intervalTicks, keyTicks, SeqState(codePtr, bit, spaceCount), ledTicks, port)
    }

    /** The pattern buffer has its six bytes and the read position is well
        formed in it. */
    predicate Valid()
      reads this, code
    {
      code.Length == 6 && WellFormed(code[..], Snapshot().sequencer)
    }

    /** Power-on followed by the configuration part of init_uc, with the
        port levels `pina` and `pinb` of the switches. The globals start at
        zero, except that the read position starts at the first bit of the
        buffer instead of a null pointer. */
    constructor Start(board: Board, pina: bv8, pinb: bv8)
      ensures this.board == board && Valid()
      ensures Cfg() == Configure(board, ReadSwitches(board, pina, pinb))
      ensures code[..] == CodeTable(SelectCode(ReadSwitches(board, pina, pinb).code))
      ensures Snapshot() == Initial(board, pina, pinb)
      ensures frequency == if board.UsesProgFreq() then FrequencySetting(pina, pinb) else 0
    {
      var buffer := new bv8[6](_ => 0);
      var sw := ReadSwitches(board, pina, pinb);
      var c := Configure(board, sw);
      var id := SelectCode(sw.code);
      CopyCode(buffer, CodeTable(id));
      var ticks := AdvanceCounter(c, id);
      this.board := board;
      code := buffer;
      ticksPerSign := c.ticksPerSign;
      enablePeriod := c.enablePeriod;
      interval := c.interval;
      outputSet := c.outputSet;
      space := c.space;
      frequency := if board.UsesProgFreq() then FrequencySetting(pina, pinb) else 0;
      output := 0;
      intervalTicks := ticks;
      keyTicks := 0;
      codePtr, bit, spaceCount := 0, 0x80, 0;
      ledTicks := 0;
      port := InitialPort(board, pinb, c.outputSet);
      HomeWellFormed(buffer[..]);
    }

    /** One timer interrupt: the handler runs on the globals and writes
        them back. */
    method Tick()
      requires Valid()
      modifies this
      ensures Valid()
      ensures Snapshot() == TickSpec(Cfg(), code[..], old(Snapshot()))
    {
      var t := TickHandler(Cfg(), code[..], Snapshot());
      output, intervalTicks, keyTicks, ledTicks, port := t.output, t.intervalTicks, t.keyTicks, t.ledTicks, t.port;
      codePtr, bit, spaceCount := t.sequencer.codePtr, t.sequencer.bit, t.sequencer.spaceCount;
    }
  }

  /** The pre-advance of init_uc, for the codes advanced by some cycles. */
  method AdvanceCounter(c: Settings, id: CodeId) returns (ticks: uint16)
    ensures ticks == InitialTicks(c, id)
  {
    var intervals := Intervals(id);
    ticks := 0;
    if intervals != 0 {
      ticks := PreAdvance(c.interval, c.enablePeriod, intervals);
    }
  }

  /** The body of the tick handler, on local copies of the globals: `c` holds
      those it only reads, `s` those it changes. */
  method TickHandler(c: Settings, code: seq<bv8>, s: State) returns (t: State)
    requires |code| == 6 && WellFormed(code, s.sequencer)
    ensures t == TickSpec(c, code, s) && WellFormed(code, t.sequencer)
  {
    var enabled, ticks := GateStep(c, s.intervalTicks);
    var g := s.(intervalTicks := ticks);
    var b: State;
    if enabled {
      b := EnabledBranch(c, code, g);
    } else {
      b := OffBranch(c, g);
    }
    t := ShowAndWrite(c, b);
    TickParts(c, code, s, enabled, g, b, t);
  }

  /** The interval gate: the test of the counter and its post-increment, both
      skipped in continuous mode. */
  method GateStep(c: Settings, intervalTicks: uint16) returns (enabled: bool, ticks: uint16)
    ensures enabled == (c.interval == 0 || intervalTicks < c.enablePeriod)
    ensures ticks == if c.interval == 0 then intervalTicks else Wrap16(intervalTicks + 1)
  {
    enabled, ticks := true, intervalTicks;
    if c.interval != 0 {
      enabled := ticks < c.enablePeriod;
      ticks := Wrap16(ticks + 1);
    }
  }

  /** The steps of the handler make up `TickSpec`. */
  lemma TickParts(c: Settings, code: seq<bv8>, s: State, enabled: bool, g: State, b: State, t: State)
    requires enabled == (c.interval == 0 || s.intervalTicks < c.enablePeriod)
    requires g == s.(intervalTicks := if c.interval == 0 then s.intervalTicks else Wrap16(s.intervalTicks + 1))
    requires b == if enabled then EnabledTick(c, code, g) else OffTick(c, g)
    requires t == Finish(c, b)
    ensures t == TickSpec(c, code, s)
  {
    assert g == Gate(c, s);
    assert enabled == Enabled(c, s);
  }

  /** The enabled branch of the handler. */
  method EnabledBranch(c: Settings, code: seq<bv8>, g: State) returns (t: State)
    requires WellFormed(code, g.sequencer)
    ensures t == EnabledTick(c, code, g) && WellFormed(code, t.sequencer)
  {
    var output := EnableOutputs(c, g.output, g.intervalTicks);
    ghost var out := output;
    var keyTicks: uint8, sequencer := g.keyTicks, g.sequencer;
    if keyTicks == 0 {
      keyTicks := Wrap8(c.ticksPerSign - 1);
      output, sequencer := UnitStep(c.board, code, c.space, output, sequencer);
    } else {
      keyTicks := keyTicks - 1;
    }
    var ledTicks := RestartLed(c, g.ledTicks, ENABLED_LED_TICKS);
    t := g.(output := output, keyTicks := keyTicks, sequencer := sequencer, ledTicks := ledTicks);
    EnabledParts(c, code, g, out, t);
  }

  /** The parts of the enabled branch make up `EnabledTick`. */
  lemma EnabledParts(c: Settings, code: seq<bv8>, g: State, out: bv8, t: State)
    requires out == OnOutput(c, g.output, g.intervalTicks)
    requires var led := LedRestart(c, g.ledTicks, ENABLED_LED_TICKS);
      if g.keyTicks == 0 then
        var u := Step(code, c.space, g.sequencer);
        t == g.(output := Keyed(c.board, out, u.key), keyTicks := Wrap8(c.ticksPerSign - 1),
           sequencer := u.next, ledTicks := led)
      else
        t == g.(output := out, keyTicks := g.keyTicks - 1, ledTicks := led)
    ensures t == EnabledTick(c, code, g)
  {
  }

  /** The start of the enabled branch: the oscillator on, and the key forced
      on in the closing tone. */
  method EnableOutputs(c: Settings, output: bv8, ticks: uint16) returns (out: bv8)
    ensures out == OnOutput(c, output, ticks)
  {
    out := output | OutputEnable(c.board);
    if c.interval != 0 && ticks > Sub16(c.enablePeriod, TXOFF_TICKS) {
      out := out | OutputKey(c.board);
    }
  }

  /** The restart of the LED counter at the branch's limit. */
  method RestartLed(c: Settings, ledTicks: uint16, limit: nat) returns (led: uint16)
    ensures led == LedRestart(c, ledTicks, limit)
  {
    led := ledTicks;
    if c.board.UsesLed() && led >= limit {
      led := 0;
    }
  }

  /** The off branch of the handler. */
  method OffBranch(c: Settings, g: State) returns (t: State)
    ensures t == OffTick(c, g)
  {
    var output := g.output & !(OutputEnable(c.board) | OutputKey(c.board));
    var spaceCount := Wrap8(c.space + 1);
    var keyTicks := 0;
    var ledTicks := RestartLed(c, g.ledTicks, c.enablePeriod);
    t := g.(output := output, keyTicks := keyTicks,
      sequencer := g.sequencer.(spaceCount := spaceCount), ledTicks := ledTicks);
  }

  /** The expiry of the unit countdown: one sequencer step, whose bit sets or
      clears the key in `output`. */
  method UnitStep(board: Board, code: seq<bv8>, space: uint8, output: bv8, q: SeqState)
    returns (out: bv8, next: SeqState)
    requires WellFormed(code, q)
    ensures var u := Step(code, space, q); out == Keyed(board, output, u.key) && next == u.next
    ensures WellFormed(code, next)
  {
    var codePtr, bit, spaceCount := q.codePtr, q.bit, q.spaceCount;
    out := output;
    if spaceCount >= space {
      codePtr, bit, spaceCount := 0, 0x80, 0;
    }
    assert SeqState(codePtr, bit, spaceCount) == if q.spaceCount >= space then Home else q;
    if code[codePtr] & bit != 0 {
      out := out | OutputKey(board);
      spaceCount := 0;
    } else {
      out := out & !OutputKey(board);
      spaceCount := Wrap8(spaceCount + 1);
    }
    bit := bit >> 1;
    if bit == 0 {
      if code[codePtr] != 0 {
        codePtr := codePtr + 1;
      }
      bit := 0x80;
    }
    next := SeqState(codePtr, bit, spaceCount);
    StepWellFormed(code, space, q);
  }

  /** The end of the handler: the status LED, lit on the tick its counter is
      0, and the write of the output bits, inverted where the level setting
      says so. */
  method ShowAndWrite(c: Settings, b: State) returns (t: State)
    ensures t == Finish(c, b)
    ensures t.port & OutputMask(c.board) == (b.output ^ c.outputSet) & OutputMask(c.board)
  {
    var led: uint16, p: bv8 := b.ledTicks, b.port;
    if c.board.UsesLed() {
      if led != 0 {
        p := p & !OUTPUT_LED;
      } else {
        p := p | OUTPUT_LED;
      }
      led := Wrap16(b.ledTicks + 1);
    }
    OutputBits(c.board, p, b.output ^ c.outputSet);
    p := Output(c.board, p, b.output ^ c.outputSet);
    t := b.(ledTicks := led, port := p);
  }

  /** The cycle is the selected number of on-phases; continuous operation
      has neither cycle nor on-phase. */
  lemma IntervalCycles(board: Board, sw: Switches)
    ensures var c, m := Configure(board, sw), CycleMultiple(board, sw.interval);
      && (c.interval == 0 <==> m == 0)
      && (m != 0 ==> 0 < c.enablePeriod)
      && c.interval == m * c.enablePeriod
  {
    CycleLength(board, sw.interval, PhaseTicks(sw));
  }
}
