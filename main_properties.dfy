/** What the tick handler of src/main.c guarantees, stated on `TickSpec`:
    the interval gate, the closing tone, the off branch and its restart, the
    read-position and gap-counter bounds, the status LED, the port write, and
    the keying a run of ticks produces. */
module MainProperties {
  import opened Bits
  import opened Config
  import opened Sequencer
  import opened Morse
  import opened Tables
  import opened MainFirmware

  // ---------------------------------------------------------------------
  // Bits of the output byte

  /** Setting the enable bit leaves the key bit as it was. */
  lemma EnableKeepsKey(board: Board, output: bv8)
    ensures (output | OutputEnable(board)) & OutputKey(board) == output & OutputKey(board)
  {
    var key := OutputKey(board);
    assert key & OutputEnable(board) == 0;
  }

  /** The key bit of a keyed byte is the key level. */
  lemma KeyedKey(board: Board, output: bv8, key: bool)
    ensures (Keyed(board, output, key) & OutputKey(board) != 0) == key
  {
    var k := OutputKey(board);
    assert k != 0;
    assert (output | k) & k == k;
    assert (output & !k) & k == 0;
  }

  /** The key bit of the output byte after the start of the enabled branch. */
  lemma OnOutputKey(c: Settings, output: bv8, ticks: uint16)
    ensures (OnOutput(c, output, ticks) & OutputKey(c.board) != 0)
        == (output & OutputKey(c.board) != 0 || Closing(c, ticks))
  {
    var k := OutputKey(c.board);
    EnableKeepsKey(c.board, output);
    assert k != 0;
    var out := output | OutputEnable(c.board);
    assert (out | k) & k == k;
  }

  // ---------------------------------------------------------------------
  // One tick

  /** The interval gate: in continuous mode every tick is enabled and the
      counter is left alone; in interval mode the tick is enabled exactly
      while the counter, before its increment, is below the on-phase, and the
      counter is incremented on every tick. */
  lemma GateCounter(c: Settings, code: seq<bv8>, s: State)
    ensures var t := TickSpec(c, code, s);
      && (c.interval == 0 ==> Enabled(c, s) && t.intervalTicks == s.intervalTicks)
      && (c.interval != 0 ==> (Enabled(c, s) <==> s.intervalTicks < c.enablePeriod))
      && (c.interval != 0 ==> t.intervalTicks == (s.intervalTicks + 1) % 0x1_0000)
  {
  }

  /** On the fixed-frequency board the oscillator enable bit is set after a
      tick exactly when the tick is enabled. */
  lemma GateEnable(c: Settings, code: seq<bv8>, s: State)
    requires c.board == FixedFrequency
    ensures (TickSpec(c, code, s).output & OutputEnable(c.board) != 0) <==> Enabled(c, s)
  {
    var en := OutputEnable(c.board);
    var g := Gate(c, s);
    if Enabled(c, s) {
      var out := OnOutput(c, g.output, g.intervalTicks);
      assert (g.output | en) & en == en;
      assert (g.output | en | OutputKey(c.board)) & en == en;
      assert out & en == en;
      assert (out | OutputKey(c.board)) & en == en;
      assert (out & !OutputKey(c.board)) & en == en;
    } else {
      assert (g.output & !(en | OutputKey(c.board))) & en == 0;
    }
  }

  /** The key after an enabled tick whose unit countdown has expired is the
      level of the sequencer's unit, whatever the closing tone forced. */
  lemma StepKey(c: Settings, code: seq<bv8>, s: State)
    requires Enabled(c, s) && s.keyTicks == 0
    ensures KeyOn(c, TickSpec(c, code, s)) == Step(code, c.space, s.sequencer).key
  {
    var out := OnOutput(c, s.output, Gate(c, s).intervalTicks);
    var key := Step(code, c.space, s.sequencer).key;
    assert TickSpec(c, code, s).output == Keyed(c.board, out, key);
    KeyedKey(c.board, out, key);
  }

  /** The key after an enabled tick between unit steps is the key as it was,
      forced on in the closing tone. */
  lemma HoldKey(c: Settings, code: seq<bv8>, s: State)
    requires Enabled(c, s) && s.keyTicks != 0
    ensures KeyOn(c, TickSpec(c, code, s)) == (KeyOn(c, s) || Closing(c, Wrap16(s.intervalTicks + 1)))
  {
    OnOutputKey(c, s.output, Gate(c, s).intervalTicks);
  }

  /** The key after an enabled tick: when the unit countdown expires, the
      level of the sequencer's unit; otherwise the key as it was, forced on in
      the closing tone of interval mode, where the post-increment counter
      exceeds the on-phase less TXOFF_TICKS. So the closing tone holds only
      between unit steps: a step that reads an off unit clears it again. */
  lemma EnabledKey(c: Settings, code: seq<bv8>, s: State)
    requires Enabled(c, s)
    ensures KeyOn(c, TickSpec(c, code, s))
        == if s.keyTicks == 0 then Step(code, c.space, s.sequencer).key
           else KeyOn(c, s) || Closing(c, Wrap16(s.intervalTicks + 1))
  {
    if s.keyTicks == 0 {
      StepKey(c, code, s);
    } else {
      HoldKey(c, code, s);
    }
  }

  /** The unit countdown of an enabled tick: when it has expired, it is
      reloaded with one unit less one tick and the sequencer takes one step;
      otherwise it counts down and the sequencer stays. */
  lemma EnabledCountdown(c: Settings, code: seq<bv8>, s: State)
    requires Enabled(c, s)
    ensures var t := TickSpec(c, code, s);
      && (s.keyTicks == 0 ==> t.keyTicks == Wrap8(c.ticksPerSign - 1)
                              && t.sequencer == Step(code, c.space, s.sequencer).next)
      && (s.keyTicks != 0 ==> t.keyTicks == s.keyTicks - 1 && t.sequencer == s.sequencer)
  {
  }

  /** The closing tone in interval mode: on an enabled tick between unit
      steps the key is on once the post-increment counter is past the on-phase
      less TXOFF_TICKS; on a tick whose unit step reads an off unit it is off
      all the same. */
  lemma ClosingTone(c: Settings, code: seq<bv8>, s: State)
    requires Enabled(c, s) && Closing(c, Wrap16(s.intervalTicks + 1))
    ensures s.keyTicks != 0 ==> KeyOn(c, TickSpec(c, code, s))
    ensures s.keyTicks == 0 && !Step(code, c.space, s.sequencer).key ==> !KeyOn(c, TickSpec(c, code, s))
  {
    EnabledKey(c, code, s);
  }

  /** Continuous mode never applies the closing tone: between unit steps the
      key keeps its level. */
  lemma ContinuousKey(c: Settings, code: seq<bv8>, s: State)
    requires c.interval == 0 && s.keyTicks != 0
    ensures KeyOn(c, TickSpec(c, code, s)) == KeyOn(c, s)
  {
    EnabledKey(c, code, s);
  }

  /** The end of the handler reads only the board and the level setting. */
  lemma FinishReads(c: Settings, c': Settings, b: State)
    requires c'.board == c.board && c'.outputSet == c.outputSet
    ensures Finish(c', b) == Finish(c, b)
  {
  }

  /** In interval mode an enabled tick does the same whatever the cycle
      length is. */
  lemma FlagEnabled(c: Settings, code: seq<bv8>, s: State, interval: uint16)
    requires c.interval != 0 && interval != 0 && Enabled(c, s)
    ensures TickSpec(c, code, s) == TickSpec(c.(interval := interval), code, s)
  {
    var c' := c.(interval := interval);
    var g := Gate(c, s);
    assert Gate(c', s) == g;
    if g.keyTicks == 0 {
      FlagStep(c, code, g, interval);
    } else {
      FlagHold(c, code, g, interval);
    }
    FinishReads(c, c', EnabledTick(c, code, g));
  }

  /** An enabled tick whose countdown expires does not read the cycle length. */
  lemma FlagStep(c: Settings, code: seq<bv8>, g: State, interval: uint16)
    requires c.interval != 0 && interval != 0 && g.keyTicks == 0
    ensures EnabledTick(c.(interval := interval), code, g) == EnabledTick(c, code, g)
  {
    assert Closing(c.(interval := interval), g.intervalTicks) == Closing(c, g.intervalTicks);
  }

  /** An enabled tick between unit steps does not read the cycle length. */
  lemma FlagHold(c: Settings, code: seq<bv8>, g: State, interval: uint16)
    requires c.interval != 0 && interval != 0 && g.keyTicks != 0
    ensures EnabledTick(c.(interval := interval), code, g) == EnabledTick(c, code, g)
  {
    assert Closing(c.(interval := interval), g.intervalTicks) == Closing(c, g.intervalTicks);
  }

  /** In interval mode an off tick does the same whatever the cycle length is. */
  lemma FlagOff(c: Settings, code: seq<bv8>, s: State, interval: uint16)
    requires c.interval != 0 && interval != 0 && !Enabled(c, s)
    ensures TickSpec(c, code, s) == TickSpec(c.(interval := interval), code, s)
  {
    var c' := c.(interval := interval);
    var g := Gate(c, s);
    FinishReads(c, c', OffTick(c, g));
  }

  /** The counter is never compared with the cycle length: in interval mode
      the tick does the same whatever the cycle length is. */
  lemma IntervalOnlyAsFlag(c: Settings, code: seq<bv8>, s: State, interval: uint16)
    requires c.interval != 0 && interval != 0
    ensures TickSpec(c, code, s) == TickSpec(c.(interval := interval), code, s)
  {
    if Enabled(c, s) {
      FlagEnabled(c, code, s, interval);
    } else {
      FlagOff(c, code, s, interval);
    }
  }

  /** The off branch: oscillator and key off, the countdown expired, the
      read position kept and the off-unit count set past the threshold, so
      that the next unit step restarts the word. */
  lemma OffBranch(c: Settings, code: seq<bv8>, s: State)
    requires !Enabled(c, s)
    ensures var t := TickSpec(c, code, s);
      && c.interval != 0
      && t.output & (OutputEnable(c.board) | OutputKey(c.board)) == 0
      && !KeyOn(c, t)
      && t.keyTicks == 0
      && t.sequencer.codePtr == s.sequencer.codePtr && t.sequencer.bit == s.sequencer.bit
      && t.sequencer.spaceCount == (c.space + 1) % 0x100
      && (c.space < 0xff ==> Restarting(c.space, t.sequencer))
  {
    var g := Gate(c, s);
    var m := OutputEnable(c.board) | OutputKey(c.board);
    assert (g.output & !m) & m == 0;
    assert (g.output & !m) & OutputKey(c.board) == 0 by {
      assert OutputKey(c.board) & !m == 0;
    }
  }

  /** An enabled tick after a restart is due starts the word again: it reads
      the first bit of the first byte. */
  lemma StepsFromHome(c: Settings, code: seq<bv8>, s: State)
    requires Enabled(c, s) && s.keyTicks == 0 && Restarting(c.space, s.sequencer) && 1 <= c.space
    ensures var t := TickSpec(c, code, s);
      && t.sequencer == Step(code, c.space, Home).next
      && KeyOn(c, t) == (ByteAt(code, 0) & 0x80 != 0)
  {
    EnabledKey(c, code, s);
    assert Step(code, c.space, s.sequencer) == Step(code, c.space, Home);
  }

  /** An off tick followed by an enabled tick restarts the word at the
      first bit of the first byte. */
  lemma OffThenRestart(c: Settings, code: seq<bv8>, s: State)
    requires !Enabled(c, s) && 1 <= c.space < 0xff
    ensures var t := TickSpec(c, code, s);
      Enabled(c, t) ==>
        var u := TickSpec(c, code, t);
        u.sequencer == Step(code, c.space, Home).next && KeyOn(c, u) == (ByteAt(code, 0) & 0x80 != 0)
  {
    OffBranch(c, code, s);
    var t := TickSpec(c, code, s);
    if Enabled(c, t) {
      StepsFromHome(c, code, t);
    }
  }

  /** A tick keeps the read position well formed, and the off-unit count
      stays within one more than the word gap; after a unit step it is within
      the word gap. */
  lemma TickBounds(c: Settings, code: seq<bv8>, s: State)
    requires WellFormed(code, s.sequencer) && 1 <= c.space < 0xff
    ensures var t := TickSpec(c, code, s);
      && WellFormed(code, t.sequencer)
      && (s.sequencer.spaceCount <= c.space + 1 ==> t.sequencer.spaceCount <= c.space + 1)
      && (Enabled(c, s) && s.keyTicks == 0 ==> t.sequencer.spaceCount <= c.space)
  {
    StepWellFormed(code, c.space, s.sequencer);
    StepSpec(code, c.space, s.sequencer);
  }

  // ---------------------------------------------------------------------
  // Status LED and port

  /** The LED counter limit of the branch a tick takes: one second while
      enabled, one on-phase while off. */
  function LedLimit(c: Settings, s: State): nat {
    if Enabled(c, s) then ENABLED_LED_TICKS else c.enablePeriod
  }

  /** On the LED board the LED is lit after a tick exactly when its counter
      was 0 or had reached the branch's limit, and the counter then counts on
      from there. */
  lemma LedLit(c: Settings, code: seq<bv8>, s: State)
    requires c.board.UsesLed()
    ensures var t := TickSpec(c, code, s);
      var restarted := s.ledTicks == 0 || s.ledTicks >= LedLimit(c, s);
      && (t.port & OUTPUT_LED != 0 <==> restarted)
      && t.ledTicks == if s.ledTicks >= LedLimit(c, s) then 1 else (s.ledTicks + 1) % 0x1_0000
  {
    var g := Gate(c, s);
    var b := if Enabled(c, s) then EnabledTick(c, code, g) else OffTick(c, g);
    var m := OutputMask(c.board);
    assert OUTPUT_LED & m == 0;
    LedPin(m, b.port, b.output ^ c.outputSet);
  }

  /** The LED pin is outside the pins OUTPUT writes. */
  lemma LedPin(m: bv8, port: bv8, out: bv8)
    requires OUTPUT_LED & m == 0
    ensures (((port & !OUTPUT_LED) & !m) | (out & m)) & OUTPUT_LED == 0
    ensures (((port | OUTPUT_LED) & !m) | (out & m)) & OUTPUT_LED != 0
  {
  }

  /** The end of the handler leaves the globals other than the LED counter
      and the port alone. */
  lemma FinishLed(c: Settings, b: State, ledTicks: uint16)
    ensures var t, t' := Finish(c, b), Finish(c, b.(ledTicks := ledTicks));
      t'.(ledTicks := t.ledTicks, port := t.port) == t
  {
  }

  /** The pins OUTPUT writes do not depend on the port's other pins. */
  lemma OutputPins(board: Board, p: bv8, q: bv8, out: bv8)
    ensures Output(board, p, out) & OutputMask(board) == Output(board, q, out) & OutputMask(board)
  {
    OutputBits(board, p, out);
    OutputBits(board, q, out);
  }

  /** The LED counter of an enabled tick is its own: it is only restarted. */
  lemma EnabledLed(c: Settings, code: seq<bv8>, s: State, ledTicks: uint16)
    requires Enabled(c, s)
    ensures var b := EnabledTick(c, code, Gate(c, s));
      && TickSpec(c, code, s) == Finish(c, b)
      && TickSpec(c, code, s.(ledTicks := ledTicks))
         == Finish(c, b.(ledTicks := LedRestart(c, ledTicks, ENABLED_LED_TICKS)))
  {
    var g := Gate(c, s);
    assert Gate(c, s.(ledTicks := ledTicks)) == g.(ledTicks := ledTicks);
  }

  /** The LED counter of an off tick is its own: it is only restarted. */
  lemma OffLed(c: Settings, code: seq<bv8>, s: State, ledTicks: uint16)
    requires !Enabled(c, s)
    ensures var b := OffTick(c, Gate(c, s));
      && TickSpec(c, code, s) == Finish(c, b)
      && TickSpec(c, code, s.(ledTicks := ledTicks))
         == Finish(c, b.(ledTicks := LedRestart(c, ledTicks, c.enablePeriod)))
  {
    var g := Gate(c, s);
    assert Gate(c, s.(ledTicks := ledTicks)) == g.(ledTicks := ledTicks);
  }

  /** The LED does not affect keying: the tick does the same to the globals
      other than the LED counter and the port, and writes the same output
      bits, whatever the LED counter holds. */
  lemma LedIndependent(c: Settings, code: seq<bv8>, s: State, ledTicks: uint16)
    ensures var t, t' := TickSpec(c, code, s), TickSpec(c, code, s.(ledTicks := ledTicks));
      && t'.(ledTicks := t.ledTicks, port := t.port) == t
      && t'.port & OutputMask(c.board) == t.port & OutputMask(c.board)
  {
    if Enabled(c, s) {
      EnabledLed(c, code, s, ledTicks);
      var b := EnabledTick(c, code, Gate(c, s));
      var led := LedRestart(c, ledTicks, ENABLED_LED_TICKS);
      FinishLed(c, b, led);
      OutputPins(c.board, LedPort(c.board, b.ledTicks, b.port), LedPort(c.board, led, b.port), b.output ^ c.outputSet);
    } else {
      OffLed(c, code, s, ledTicks);
      var b := OffTick(c, Gate(c, s));
      var led := LedRestart(c, ledTicks, c.enablePeriod);
      FinishLed(c, b, led);
      OutputPins(c.board, LedPort(c.board, b.ledTicks, b.port), LedPort(c.board, led, b.port), b.output ^ c.outputSet);
    }
  }

  /** A masked write: the bits under `m` come from `out`, the others from `p`. */
  lemma MaskedWrite(p: bv8, out: bv8, m: bv8)
    ensures ((p & !m) | (out & m)) & m == out & m
    ensures ((p & !m) | (out & m)) & !m == p & !m
  {
  }

  /** Clearing or setting the LED bit keeps the other bits. */
  lemma LedBits(port: bv8, m: bv8)
    requires m & OUTPUT_LED == 0
    ensures (port & !OUTPUT_LED) & !m & !(m | OUTPUT_LED) == port & !(m | OUTPUT_LED)
    ensures (port | OUTPUT_LED) & !m & !(m | OUTPUT_LED) == port & !(m | OUTPUT_LED)
    ensures port & !m & !(m | OUTPUT_LED) == port & !(m | OUTPUT_LED)
  {
  }

  /** The pins the end of the handler writes: the enable and key bits of the
      output byte, inverted where the level setting says so. */
  lemma FinishWrites(c: Settings, b: State)
    ensures var t, m := Finish(c, b), OutputMask(c.board);
      && t.output == b.output
      && t.port & m == (b.output ^ c.outputSet) & m
  {
    var m, p, out := OutputMask(c.board), LedPort(c.board, b.ledTicks, b.port), b.output ^ c.outputSet;
    assert Finish(c, b).port == (p & !m) | (out & m);
    MaskedWrite(p, out, m);
  }

  /** The pins the end of the handler keeps: every pin but the enable, key
      and LED pins, and the LED pin too on the board without LED. */
  lemma FinishKeeps(c: Settings, b: State)
    ensures var t, m := Finish(c, b), OutputMask(c.board);
      && t.port & !(m | OUTPUT_LED) == b.port & !(m | OUTPUT_LED)
      && (!c.board.UsesLed() ==> t.port & !m == b.port & !m)
  {
    var m, p, out := OutputMask(c.board), LedPort(c.board, b.ledTicks, b.port), b.output ^ c.outputSet;
    var r := Finish(c, b).port;
    assert r == (p & !m) | (out & m);
    MaskedWrite(p, out, m);
    assert m & OUTPUT_LED == 0;
    LedBits(b.port, m);
    assert r & !(m | OUTPUT_LED) == p & !m & !(m | OUTPUT_LED);
  }

  /** The key pin after the write is the key bit, inverted where the level
      setting says so. */
  lemma KeyPin(c: Settings, t: State)
    requires t.port & OutputMask(c.board) == (t.output ^ c.outputSet) & OutputMask(c.board)
    ensures t.port & OutputKey(c.board) != 0 <==> KeyOn(c, t) != (c.outputSet & OutputKey(c.board) != 0)
  {
    var k := OutputKey(c.board);
    assert k & OutputMask(c.board) == k;
    assert t.port & k == (t.port & OutputMask(c.board)) & k;
    KeyLevel(t.output, c.outputSet, k);
  }

  /** An enabled tick is the enabled branch followed by the end of the handler. */
  lemma TickOn(c: Settings, code: seq<bv8>, s: State)
    requires Enabled(c, s)
    ensures var b := EnabledTick(c, code, Gate(c, s));
      TickSpec(c, code, s) == Finish(c, b) && b.port == s.port
  {
  }

  /** An off tick is the off branch followed by the end of the handler. */
  lemma TickOff(c: Settings, code: seq<bv8>, s: State)
    requires !Enabled(c, s)
    ensures var b := OffTick(c, Gate(c, s));
      TickSpec(c, code, s) == Finish(c, b) && b.port == s.port
  {
  }

  /** The port write: the enable and key pins are the output byte's bits,
      inverted where the level setting says so. */
  lemma PortWrite(c: Settings, code: seq<bv8>, s: State)
    ensures var t, m := TickSpec(c, code, s), OutputMask(c.board);
      t.port & m == (t.output ^ c.outputSet) & m
  {
    if Enabled(c, s) {
      TickOn(c, code, s);
      FinishWrites(c, EnabledTick(c, code, Gate(c, s)));
    } else {
      TickOff(c, code, s);
      FinishWrites(c, OffTick(c, Gate(c, s)));
    }
  }

  /** The key pin after a tick is the key level exclusive-or its inversion
      bit of the level setting. */
  lemma KeyPinLevel(c: Settings, code: seq<bv8>, s: State)
    ensures var t := TickSpec(c, code, s);
      t.port & OutputKey(c.board) != 0 <==> KeyOn(c, t) != (c.outputSet & OutputKey(c.board) != 0)
  {
    PortWrite(c, code, s);
    KeyPin(c, TickSpec(c, code, s));
  }

  /** Nothing else of the port changes: the pins outside OUTPUT_ENABLE,
      OUTPUT_KEY and the LED keep their levels, and on the board without LED
      so does the LED pin. */
  lemma PortKeeps(c: Settings, code: seq<bv8>, s: State)
    ensures var t, m := TickSpec(c, code, s), OutputMask(c.board);
      && t.port & !(m | OUTPUT_LED) == s.port & !(m | OUTPUT_LED)
      && (!c.board.UsesLed() ==> t.port & !m == s.port & !m)
  {
    if Enabled(c, s) {
      TickOn(c, code, s);
      FinishKeeps(c, EnabledTick(c, code, Gate(c, s)));
    } else {
      TickOff(c, code, s);
      FinishKeeps(c, OffTick(c, Gate(c, s)));
    }
  }

  /** A single bit of `x ^ y` is set exactly when it is set in one of them. */
  lemma KeyLevel(x: bv8, y: bv8, k: bv8)
    requires k == 1 << 3 || k == 1 << 0
    ensures ((x ^ y) & k != 0) == ((x & k != 0) != (y & k != 0))
  {
  }

  // ---------------------------------------------------------------------
  // Runs of ticks

  /** Each unit held for `n` ticks. */
  function Expand(units: seq<bool>, n: nat): (r: seq<bool>)
    ensures |r| == |units| * n
  {
    if |units| == 0 then [] else Repeat([units[0]], n) + Expand(units[1..], n)
  }

  lemma {:induction false} RunSplitTicks(c: Settings, code: seq<bv8>, s: State, a: nat, b: nat)
    ensures Run(c, code, s, a + b) == Run(c, code, Run(c, code, s, a), b)
    decreases a
  {
    if a > 0 {
      var t := TickSpec(c, code, s);
      RunSplitTicks(c, code, t, a - 1, b);
      assert a - 1 + b == a + b - 1;
      assert Run(c, code, s, a + b) == Run(c, code, t, a - 1 + b);
      assert Run(c, code, s, a) == Run(c, code, t, a - 1);
    }
  }

  lemma {:induction false} TraceSplit(c: Settings, code: seq<bv8>, s: State, a: nat, b: nat)
    ensures KeyTrace(c, code, s, a + b) == KeyTrace(c, code, s, a) + KeyTrace(c, code, Run(c, code, s, a), b)
    decreases a
  {
    if a > 0 {
      var t := TickSpec(c, code, s);
      TraceSplit(c, code, t, a - 1, b);
      assert a - 1 + b == a + b - 1;
      assert KeyTrace(c, code, s, a + b) == [KeyOn(c, t)] + KeyTrace(c, code, t, a - 1 + b);
      assert KeyTrace(c, code, s, a) == [KeyOn(c, t)] + KeyTrace(c, code, t, a - 1);
    }
  }

  /** In continuous mode a unit countdown of `j` ticks keeps the key and
      the sequencer for those `j` ticks and then has expired. */
  lemma {:induction false} HoldTicks(c: Settings, code: seq<bv8>, s: State, j: nat)
    requires c.interval == 0 && s.keyTicks == j
    ensures KeyTrace(c, code, s, j) == Repeat([KeyOn(c, s)], j)
    ensures Run(c, code, s, j).keyTicks == 0 && Run(c, code, s, j).sequencer == s.sequencer
    decreases j
  {
    if j > 0 {
      var t := TickSpec(c, code, s);
      ContinuousKey(c, code, s);
      EnabledCountdown(c, code, s);
      HoldTicks(c, code, t, j - 1);
      assert KeyTrace(c, code, s, j) == [KeyOn(c, t)] + KeyTrace(c, code, t, j - 1);
    }
  }

  /** The unit clock of continuous mode: from an expired countdown, one unit
      lasts `ticksPerSign` ticks, during which the key is the level of one
      sequencer step; after them the countdown has expired again. */
  lemma UnitTicks(c: Settings, code: seq<bv8>, s: State)
    requires c.interval == 0 && s.keyTicks == 0 && 1 <= c.ticksPerSign
    ensures var u, r := Step(code, c.space, s.sequencer), Run(c, code, s, c.ticksPerSign);
      && KeyTrace(c, code, s, c.ticksPerSign) == Repeat([u.key], c.ticksPerSign)
      && r.keyTicks == 0 && r.sequencer == u.next
  {
    var u := Step(code, c.space, s.sequencer);
    var t := TickSpec(c, code, s);
    var j: nat := c.ticksPerSign - 1;
    StepKey(c, code, s);
    EnabledCountdown(c, code, s);
    HoldTicks(c, code, t, j);
    assert KeyTrace(c, code, s, j + 1) == [KeyOn(c, t)] + KeyTrace(c, code, t, j);
    assert Run(c, code, s, j + 1) == Run(c, code, t, j);
  }

  /** Continuous unit clock: from an expired countdown, `n * ticksPerSign`
      ticks take the sequencer through `n` steps and leave the countdown
      expired. */
  lemma {:induction false} ContinuousRun(c: Settings, code: seq<bv8>, s: State, n: nat)
    requires c.interval == 0 && s.keyTicks == 0 && 1 <= c.ticksPerSign
    ensures Run(c, code, s, n * c.ticksPerSign).keyTicks == 0
    ensures Run(c, code, s, n * c.ticksPerSign).sequencer == RunUnits(code, c.space, s.sequencer, n)
    decreases n
  {
    var tps: nat := c.ticksPerSign;
    if n > 0 {
      UnitTicks(c, code, s);
      var r := Run(c, code, s, tps);
      ContinuousRun(c, code, r, n - 1);
      var m := (n - 1) * tps;
      assert n * tps == tps + m;
      RunSplitTicks(c, code, s, tps, m);
      assert Run(c, code, s, n * tps) == Run(c, code, r, m);
    }
  }

  /** Continuous keying: from an expired countdown, `n * ticksPerSign` ticks
      key the first `n` units of the sequencer, each for `ticksPerSign`
      ticks. */
  lemma {:induction false} ContinuousKeying(c: Settings, code: seq<bv8>, s: State, n: nat)
    requires c.interval == 0 && s.keyTicks == 0 && 1 <= c.ticksPerSign
    ensures KeyTrace(c, code, s, n * c.ticksPerSign) == Expand(Units(code, c.space, s.sequencer, n), c.ticksPerSign)
    decreases n
  {
    var tps: nat := c.ticksPerSign;
    if n > 0 {
      var u := Step(code, c.space, s.sequencer);
      UnitTicks(c, code, s);
      var r := Run(c, code, s, tps);
      ContinuousKeying(c, code, r, n - 1);
      assert n * tps == tps + (n - 1) * tps;
      TraceSplit(c, code, s, tps, (n - 1) * tps);
      var units := Units(code, c.space, s.sequencer, n);
      assert units == [u.key] + Units(code, c.space, u.next, n - 1);
      assert units[0] == u.key && units[1..] == Units(code, c.space, u.next, n - 1);
    }
  }

  /** The keying of continuous mode for a table's units `units`, `n` unit
      steps of the sequencer. */
  lemma KeyingOfUnits(c: Settings, code: seq<bv8>, s: State, n: nat, units: seq<bool>)
    requires c.interval == 0 && s.keyTicks == 0 && 1 <= c.ticksPerSign
    requires Units(code, c.space, s.sequencer, n) == units
    ensures KeyTrace(c, code, s, n * c.ticksPerSign) == Expand(units, c.ticksPerSign)
  {
    ContinuousKeying(c, code, s, n);
  }

  /** The keying of continuous mode: from an expired countdown and a
      sequencer about to restart, a table's identifier is keyed in Morse
      code, each unit lasting `ticksPerSign` ticks and each word followed by
      `space` off units, so that the key sequence repeats every
      `(CodeLen + space) * ticksPerSign` ticks. */
  lemma WordKeying(c: Settings, id: CodeId, s: State, m: nat)
    requires c.interval == 0 && 4 <= c.space && 1 <= c.ticksPerSign
    requires s.keyTicks == 0 && Restarting(c.space, s.sequencer)
    ensures KeyTrace(c, CodeTable(id), s, m * (CodeLen(id) + c.space) * c.ticksPerSign)
         == Expand(Repeat(WordUnits(Spell(id)) + Zeros(c.space), m), c.ticksPerSign)
  {
    TableWordRepeats(id, c.space, s.sequencer, m);
    KeyingOfUnits(c, CodeTable(id), s, m * (CodeLen(id) + c.space), Repeat(WordUnits(Spell(id)) + Zeros(c.space), m));
  }

  /** init_uc leaves the countdown expired and the read position at the
      start of the buffer. */
  lemma InitialSequencer(board: Board, sw: Switches, pinb: bv8)
    ensures InitialFrom(board, sw, pinb).keyTicks == 0 && InitialFrom(board, sw, pinb).sequencer == Home
  {
  }

  /** The port value init_uc writes: the output pins already show
      `output ^ output_set` for the cleared output, so key and enable start
      inactive at their configured levels; the LED pin and the unused pins
      are low. On the fixed board both port B switch pins keep the level
      read from them. On the LTC6903 board USI_DO and OSC_SEN are high, and
      PB6 keeps its read level. */
  lemma InitialPortPins(board: Board, sw: Switches, pinb: bv8)
    ensures var c, s := Configure(board, sw), InitialFrom(board, sw, pinb);
      && s.port & OutputMask(board) == (s.output ^ c.outputSet) & OutputMask(board)
      && (board == FixedFrequency ==>
            s.port & PortbDipPins(board) == pinb & PortbDipPins(board) && s.port & (OUTPUT_LED | 0xB0) == 0)
      && (board == ProgFrequency ==>
            s.port & (1 << 6) == pinb & (1 << 6) && s.port & ((1 << 1) | (1 << 3)) == (1 << 1) | (1 << 3)
            && s.port & 0xB4 == 0)
  {
  }

  /** After init_uc in continuous mode the beacon keys its selected
      identifier with a seven-unit word gap, from the first tick on. */
  lemma StartupKeying(board: Board, sw: Switches, pinb: bv8, m: nat)
    requires Configure(board, sw).interval == 0
    ensures var c, id := Configure(board, sw), SelectCode(sw.code);
      KeyTrace(c, CodeTable(id), InitialFrom(board, sw, pinb), m * (CodeLen(id) + 7) * c.ticksPerSign)
        == Expand(Repeat(WordUnits(Spell(id)) + Zeros(7), m), c.ticksPerSign)
  {
    var c := Configure(board, sw);
    InitialSequencer(board, sw, pinb);
    WordKeying(c, SelectCode(sw.code), InitialFrom(board, sw, pinb), m);
  }

  /** In interval mode the counter is compared with the on-phase only: once
      it has reached the on-phase, every tick is an off tick until the 16-bit
      counter wraps to 0, whatever the cycle length. */
  lemma {:induction false} OffStretch(c: Settings, code: seq<bv8>, s: State, n: nat)
    requires c.interval != 0 && c.enablePeriod <= s.intervalTicks && s.intervalTicks + n <= 0x1_0000
    ensures KeyTrace(c, code, s, n) == Zeros(n)
    decreases n
  {
    if n != 0 {
      var t := TickSpec(c, code, s);
      OffBranch(c, code, s);
      GateCounter(c, code, s);
      if n > 1 {
        OffStretch(c, code, t, n - 1);
      }
      assert KeyTrace(c, code, s, n) == [false] + Zeros(n - 1);
    }
  }

  /** In interval mode n ticks advance the counter by n, as long as it does
      not pass the 16-bit wrap. */
  lemma {:induction false} CounterRun(c: Settings, code: seq<bv8>, s: State, n: nat)
    requires c.interval != 0 && s.intervalTicks + n <= 0x1_0000
    ensures Run(c, code, s, n).intervalTicks == (s.intervalTicks + n) % 0x1_0000
    decreases n
  {
    if n != 0 {
      var t := TickSpec(c, code, s);
      GateCounter(c, code, s);
      if n > 1 {
        assert t.intervalTicks == s.intervalTicks + 1;
        CounterRun(c, code, t, n - 1);
      }
      assert Run(c, code, s, n) == Run(c, code, t, n - 1);
    }
  }

  /** After the last tick of an on-phase the transmitter stays off for
      2^16 - enablePeriod ticks: the counter is not wrapped at the cycle
      length. Only then does the counter come back to 0, and the next
      on-phase begins. */
  lemma OffPhaseLength(c: Settings, code: seq<bv8>, s: State)
    requires c.interval != 0 && s.intervalTicks == c.enablePeriod
    ensures KeyTrace(c, code, s, 0x1_0000 - c.enablePeriod) == Zeros(0x1_0000 - c.enablePeriod)
    ensures var t := Run(c, code, s, 0x1_0000 - c.enablePeriod);
      t.intervalTicks == 0 && (0 < c.enablePeriod ==> Enabled(c, t))
  {
    OffStretch(c, code, s, 0x1_0000 - c.enablePeriod);
    CounterRun(c, code, s, 0x1_0000 - c.enablePeriod);
  }
}
