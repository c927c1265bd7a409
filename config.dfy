/** The build-time configuration of the beacon controller: timing constants and
    their integer arithmetic, the two board revisions and their output pins, the
    masked output write, the DIP-switch decoder with each board's pin map, the
    interval selection and the enumeration of the selectable codes. */
module Config {
  import opened Bits

  /** Timer interrupts per second: one compare match every 8 ms. */
  const TICKS_PER_SECOND: nat := 125

  /** Code speeds in words per minute. */
  const CODE_SPEED_SLOW: nat := 10
  const CODE_SPEED_FAST: nat := 15

  /** The usual on-times of the interval mode, in seconds. */
  const INTERVAL_SHORT: nat := 12
  const INTERVAL_LONG: nat := 60

  /** Length of the closing tone that ends an on-phase in interval mode (2 seconds). */
  const TXOFF_TICKS: nat := 2 * TICKS_PER_SECOND

  /** Timer ticks in one Morse unit at `wpm` words per minute, for the
      conventional 50-unit reference word, evaluated left to right in integer
      arithmetic as the macro is. The result is the largest whole number of
      ticks that does not last longer than one unit (60 / (50 * wpm) seconds). */
  function TicksPerSign(wpm: nat): (r: nat)
    requires wpm > 0
    ensures r * 50 * wpm <= 60 * TICKS_PER_SECOND < (r + 1) * 50 * wpm
  {
    60 * TICKS_PER_SECOND / 50 / wpm
  }

  /** Number of timer ticks in `seconds` seconds. */
  function IntervalCount(seconds: nat): (r: nat)
    ensures r / TICKS_PER_SECOND == seconds && r % TICKS_PER_SECOND == 0
  {
    seconds * TICKS_PER_SECOND
  }

  /** Both code speeds give a unit of at least one tick, so the reload value
      `ticks_per_sign - 1` of the unit countdown never wraps. */
  lemma SpeedTicks()
    ensures TicksPerSign(CODE_SPEED_SLOW) == 15
    ensures TicksPerSign(CODE_SPEED_FAST) == 10
  {
  }

  /** The on-phase lengths agree with the unit counts given beside the macro:
      100 and 500 units at the slow speed, 150 and 750 at the fast speed. */
  lemma IntervalUnits()
    ensures IntervalCount(INTERVAL_SHORT) == 1500 && IntervalCount(INTERVAL_LONG) == 7500
    ensures IntervalCount(INTERVAL_SHORT) / TicksPerSign(CODE_SPEED_SLOW) == 100
    ensures IntervalCount(INTERVAL_LONG) / TicksPerSign(CODE_SPEED_SLOW) == 500
    ensures IntervalCount(INTERVAL_SHORT) / TicksPerSign(CODE_SPEED_FAST) == 150
    ensures IntervalCount(INTERVAL_LONG) / TicksPerSign(CODE_SPEED_FAST) == 750
  {
  }

  /** Both on-phase lengths exceed the closing tone, so the unsigned
      `enable_period - TXOFF_TICKS` does not wrap in interval mode. */
  lemma ClosingToneHeadroom(enablePeriod: uint16)
    requires enablePeriod == IntervalCount(INTERVAL_SHORT) || enablePeriod == IntervalCount(INTERVAL_LONG)
    ensures TXOFF_TICKS == 250 < enablePeriod
    ensures Sub16(enablePeriod, TXOFF_TICKS) == enablePeriod - TXOFF_TICKS
  {
  }

  /** The board revisions: BOARD_VERSION 1, a fixed-frequency oscillator with
      an enable pin, configurable key and enable levels and a status LED; and
      BOARD_VERSION 2, an LTC6903 programmable oscillator without enable pin. */
  datatype Board = FixedFrequency | ProgFrequency {
    predicate UsesLed() { FixedFrequency? }
    predicate UsesLevelSetting() { FixedFrequency? }
    predicate UsesProgFreq() { ProgFrequency? }
  }

  /** OUTPUT_ENABLE: the enable pin of the fixed oscillator; the LTC6903 board has none. */
  function OutputEnable(board: Board): bv8 {
    if board.FixedFrequency? then 1 << 2 else 0
  }

  /** OUTPUT_KEY: the keying pin (PB3 on the fixed board, PB0 on the LTC6903 board). */
  function OutputKey(board: Board): (key: bv8)
    ensures key != 0 && key & OutputEnable(board) == 0
  {
    if board.FixedFrequency? then 1 << 3 else 1 << 0
  }

  /** OUTPUT_LED: the status LED of the fixed board (PB6). */
  const OUTPUT_LED: bv8 := 1 << 6

  /** LED blink periods of the fixed board: once per second while enabled;
      DISABLED_LED_TICKS is defined but not used by the tick handler. */
  const ENABLED_LED_TICKS: nat := TICKS_PER_SECOND
  const DISABLED_LED_TICKS: nat := 60 * TICKS_PER_SECOND

  /** The pins that `OUTPUT` writes. */
  function OutputMask(board: Board): bv8 {
    OutputEnable(board) | OutputKey(board)
  }

  /** OUTPUT(out): the new value of the output port. The enable and key bits
      are copied from `out`; every other bit of the port keeps its value. */
  function Output(board: Board, port: bv8, out: bv8): bv8 {
    (port & !OutputMask(board)) | (out & OutputMask(board))
  }

  /** OUTPUT copies the enable and key bits of `out` and keeps every other bit
      of the port; the LTC6903 board has the key bit only. */
  lemma OutputBits(board: Board, port: bv8, out: bv8)
    ensures var r := Output(board, port, out);
      && r & OutputMask(board) == out & OutputMask(board)
      && r & !OutputMask(board) == port & !OutputMask(board)
      && (board == ProgFrequency ==> r & !OutputKey(board) == port & !OutputKey(board))
  {
  }

  /** The two input ports the DIP switches are read from. */
  datatype Port = PINA | PINB

  /** Bit `pin` of an input port. */
  datatype Pin = Pin(port: Port, pin: bv3)

  /** The DIP-switch fields of DIP(name). */
  datatype DipSwitch = CODE | SPEED | ENABLE_LEVEL | KEY_LEVEL | INTERVAL_LENGTH | INTERVAL | FREQ

  /** A pin map the DIP macros can decode: DIP_BITS_1 .. DIP_BITS_3, pins 0..7. */
  predicate PinsOk(pins: seq<Pin>) {
    1 <= |pins| <= 3
  }

  /** The DIP_<name>_BIT<i>_PORT / _PIN definitions of each board, bit 0 first.
      DIP_INTERVAL_BITS is 2 on both boards, so the BIT2 definition of the
      fixed board is not part of its field. The FREQ field exists only on the
      LTC6903 board. */
  function DipPins(board: Board, name: DipSwitch): (pins: seq<Pin>)
    requires name == FREQ ==> board == ProgFrequency
    ensures PinsOk(pins)
  {
    match name
    case CODE => [Pin(PINA, 5), Pin(PINA, 6), Pin(PINA, 7)]
    case SPEED => if board == ProgFrequency then [Pin(PINA, 3)] else [Pin(PINA, 4)]
    case ENABLE_LEVEL => [Pin(PINB, 1)]
    case KEY_LEVEL => [Pin(PINB, 0)]
    case INTERVAL_LENGTH => if board == ProgFrequency then [Pin(PINA, 5)] else [Pin(PINA, 2)]
    case INTERVAL => if board == ProgFrequency then [Pin(PINA, 6), Pin(PINA, 7)] else [Pin(PINA, 0), Pin(PINA, 1)]
    case FREQ => [Pin(PINA, 4), Pin(PINB, 1), Pin(PINB, 6)]
  }

  /** DIP_BIT(port, pin) >> pin: the level of one input pin as 0 or 1. */
  function Level(pina: bv8, pinb: bv8, p: Pin): (b: bv8)
    ensures b == ((if p.port == PINA then pina else pinb) >> p.pin) & 1
  {
    var reg := if p.port == PINA then pina else pinb;
    (reg & (1 << p.pin)) >> p.pin
  }

  /** DIP_BITS_1 .. DIP_BITS_3: the OR of every pin level shifted to its bit
      position, pin 0 in bit 0. */
  function DipBits(pina: bv8, pinb: bv8, pins: seq<Pin>): (v: bv8)
    requires PinsOk(pins)
    ensures |pins| == 1 ==> v <= 1
    ensures |pins| == 2 ==> v <= 3
    ensures v <= 7
  {
    var b0 := Level(pina, pinb, pins[0]);
    if |pins| == 1 then b0
    else if |pins| == 2 then (Level(pina, pinb, pins[1]) << 1) | b0
    else (Level(pina, pinb, pins[2]) << 2) | (Level(pina, pinb, pins[1]) << 1) | b0
  }

  /** Bit `i` of the value is the level of pin `i`, and no higher bit is set. */
  lemma DipBitsLevels(pina: bv8, pinb: bv8, pins: seq<Pin>)
    requires PinsOk(pins)
    ensures forall i :: 0 <= i < |pins| ==> (DipBits(pina, pinb, pins) >> i) & 1 == Level(pina, pinb, pins[i])
    ensures DipBits(pina, pinb, pins) >> |pins| == 0
  {
  }

  /** DIP(name) on a board, for the port levels `pina` and `pinb`. */
  function Dip(board: Board, pina: bv8, pinb: bv8, name: DipSwitch): (v: bv8)
    requires name == FREQ ==> board == ProgFrequency
    ensures v < 8
    ensures |DipPins(board, name)| == 1 ==> v <= 1
    ensures |DipPins(board, name)| == 2 ==> v <= 3
  {
    DipBits(pina, pinb, DipPins(board, name))
  }

  /** On the LTC6903 board the interval-length switch is the same pin as bit 0
      of the code selector, and the two interval switches are code bits 1 and 2:
      the code number is fixed by the interval settings. */
  lemma ProgFrequencyPinAliasing(pina: bv8, pinb: bv8)
    ensures Dip(ProgFrequency, pina, pinb, CODE)
         == Dip(ProgFrequency, pina, pinb, INTERVAL_LENGTH) | (Dip(ProgFrequency, pina, pinb, INTERVAL) << 1)
  {
    var c := Dip(ProgFrequency, pina, pinb, CODE);
    var l := Dip(ProgFrequency, pina, pinb, INTERVAL_LENGTH);
    var v := Dip(ProgFrequency, pina, pinb, INTERVAL);
    DipBitsLevels(pina, pinb, DipPins(ProgFrequency, CODE));
    DipBitsLevels(pina, pinb, DipPins(ProgFrequency, INTERVAL_LENGTH));
    DipBitsLevels(pina, pinb, DipPins(ProgFrequency, INTERVAL));
    assert (c >> 0) & 1 == (l >> 0) & 1;
    assert (c >> 1) & 1 == (v >> 0) & 1;
    assert (c >> 2) & 1 == (v >> 1) & 1;
  }

  /** SET_INTERVAL_VALUE(interval, period) of each board: the length of a whole
      cycle (on-phase and off-phase) as a multiple of the on-phase `period`,
      or 0 for continuous operation. The product is `unsigned int` arithmetic. */
  function SetIntervalValue(board: Board, dip: bv8, period: uint16): (interval: uint16)
  {
    match board
    case ProgFrequency =>
      if dip == 1 then Mul16(2, period)
      else if dip == 2 then Mul16(3, period)
      else if dip == 3 then Mul16(5, period)
      else 0
    case FixedFrequency =>
      if dip == 4 then Mul16(2, period)
      else if dip == 5 then Mul16(3, period)
      else if dip == 6 then Mul16(4, period)
      else if dip == 7 then Mul16(5, period)
      else 0
  }

  /** On the LTC6903 board switch values 1, 2, 3 give 2, 3, 5 on-phases per
      cycle, anything else continuous operation; the longest cycle,
      5 * 7500 ticks, fits in 16 bits. */
  lemma ProgFrequencyIntervals(dip: bv8, period: uint16)
    requires 0 < period <= IntervalCount(INTERVAL_LONG)
    ensures var interval := SetIntervalValue(ProgFrequency, dip, period);
      && (dip == 1 <==> interval == 2 * period)
      && (dip == 2 <==> interval == 3 * period)
      && (dip == 3 <==> interval == 5 * period)
      && (interval == 0 <==> !(1 <= dip <= 3))
      && interval <= 5 * 7500 < 0x1_0000
  {
  }

  /** On the fixed board the interval field has two bits, so its value never
      reaches the case labels 4..7: the interval is always 0 (continuous). */
  lemma FixedFrequencyAlwaysContinuous(pina: bv8, pinb: bv8, period: uint16)
    ensures SetIntervalValue(FixedFrequency, Dip(FixedFrequency, pina, pinb, INTERVAL), period) == 0
  {
  }

  /** The number of on-phases in a cycle for each switch value of
      SET_INTERVAL_VALUE, or 0 for continuous operation. */
  function CycleMultiple(board: Board, dip: bv8): (m: nat)
    ensures m == 0 || 2 <= m <= 5
  {
    match board
    case ProgFrequency =>
      if dip == 1 then 2 else if dip == 2 then 3 else if dip == 3 then 5 else 0
    case FixedFrequency =>
      if dip == 4 then 2 else if dip == 5 then 3 else if dip == 6 then 4 else if dip == 7 then 5 else 0
  }

  /** For on-phases up to the long one, SET_INTERVAL_VALUE does not wrap: the
      cycle is the selected whole number of on-phases. */
  lemma CycleLength(board: Board, dip: bv8, period: uint16)
    requires period <= IntervalCount(INTERVAL_LONG)
    ensures SetIntervalValue(board, dip, period) == CycleMultiple(board, dip) * period
  {
  }

  /** DIP_CODE_VALUE: the code numbers of the code selector. */
  datatype CodeId = MO | MOE | MOI | MOS | MOH | MO5 | S

  function DipCodeValue(id: CodeId): (v: nat)
    ensures v < 7
  {
    match id
    case MO => 0
    case MOE => 1
    case MOI => 2
    case MOS => 3
    case MOH => 4
    case MO5 => 5
    case S => 6
  }
}
