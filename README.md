# ARDF beacon controller: a Dafny model of the tick engine

This project models the controller firmware of an ARDF (amateur radio direction
finding) fox transmitter. The firmware runs on an ATtiny261. A Timer-0 compare
interrupt fires every 8 ms. On each tick it:

- decides whether the transmitter is in its on-phase or its off-phase (the
  interval gate);
- forces a closing tone in the last two seconds of the on-phase;
- counts down the length of one Morse unit;
- when a unit expires, reads the next bit of a six-byte Morse pattern (the
  sequencer), and restarts the word after a configured number of off-units.

At start-up `init_uc` reads DIP switches from the two input ports. From them it
derives:

- the speed, the phase length and the cycle length;
- the word spacing and the code (MO, MOE, MOI, MOS, MOH, MO5 or S);
- a pre-advance of the interval counter by up to four cycles for the codes
  MOI to MO5.

On the LTC6903 board it also derives the two bytes sent to the programmable
oscillator.

The project models both versions of the firmware:

- `src/main.c`, with the board variants of `src/config.h`;
- the older stand-alone `src/pf_control.c`.

Modules:

- `Bits`: C's 8- and 16-bit unsigned arithmetic, written out (wrap-around of
  `++`, `-`, `-=`, and of `*` in 16-bit `int`).
- `Config`: the macros of `src/config.h`:
  - the timing arithmetic;
  - the two boards (fixed frequency with LED and level setting, and
    programmable frequency with the LTC6903);
  - the `DIP()` decoder over each board's pin assignment;
  - both `SET_INTERVAL_VALUE` variants;
  - the `OUTPUT()` masked port write;
  - the code enumeration.
- `Sequencer`: the unit step of the Morse sequencer, shared by both interrupt
  handlers, on an index into the code bytes. It also defines the unit stream a
  pattern denotes and the word-framing theorems.
- `Morse`: Morse letters as dot and dash lists, and the unit stream of a word
  (dot 1, dash 3, element gap 1, character gap 3). These ratios are those of
  Part I, section 2 of ITU-R Recommendation M.1677-1.
- `Tables`: the code tables, their Morse reading, the length constants, both
  `space_adjust` tables, the `SPACE_ADJUST` formula and the frequency table.
- `MainFirmware`: `src/main.c`. It has:
  - the tick as a specification function `TickSpec` over a `State` record;
  - the class `Beacon`, whose fields are the globals and whose `Tick` method
    performs the interrupt body step by step;
  - the constructor `Start`, which performs the configuration part of
    `init_uc` (switch decoding, the code copy loop, the pre-advance
    do-while loop).
- `MainProperties`: lemmas about `TickSpec` and its runs. They cover the
  interval gate, the closing tone, the unit clock, the off branch, the LED
  counter, the port write, continuous keying of whole words, and the length of
  the off-phase.
- `PfFirmware`: `src/pf_control.c`. It has the same structure, in the class
  `PfBeacon`. It adds the fall-through interval switch, the 32-entry spacing
  index, the bit-reversed code switch, the frequency index and the two
  oscillator bytes.
- `PfProperties`: proves that, under a counter invariant that start-up
  establishes and every tick keeps, one tick of `pf_control.c` is one tick of
  `main.c` on the programmable-frequency board. It also proves that the reset
  at `src/pf_control.c:161-162` then never changes the counter. The keying
  theorems about `main.c` carry over through this, together with the
  configuration properties of this variant.

Modelling choices:

- The port inputs `PINA` and `PINB` are parameters of `Start`.
- The output port is a field. Each tick's `OUTPUT(...)` write is a masked
  update of that field.
- `code_ptr` is an index into `code`.
- The interrupt is a method called once per tick.

The pre-advance (`src/main.c:281-288`) counts down from `interval`, and
`src/pf_control.c:161-162` resets the counter at `interval`. Both suggest a
cycle of `interval` ticks. But:

- `src/main.c:124` never compares the counter with `interval`;
- the reset at `src/pf_control.c:161-162` cannot fire in interval mode.

So the counter wraps only at 2^16. `MainProperties.OffPhaseLength` states the
consequence: once the on-phase is over, the key stays off for
`65536 - enable_period` ticks, not for `interval - enable_period` ticks. Only
then is the counter back at 0, and the next on-phase begins.

The pre-advance does not give every code a start of its own either. MO, MOE,
MOI, MOS, MOH, MO5 and S skip 0, 0, 1, 2, 3, 4 and 0 cycles
(`src/main.c:270-276`, `src/pf_control.c:290-296`). But the loop at
`src/main.c:281-288` stops once the counter is down to one on-phase. In every
cycle of two to five on-phases:

- MO, MOE and S start at counter 0;
- MOH and MO5 both start at one on-phase, and so does MOS in a cycle of at
  most four on-phases.

`MainFirmware.SharedStarts` states this for `main.c`. `MainFirmware.AdvancedCollisions`
states it for the closed form that `PfProperties.PfInitialPhase` gives for
`pf_control.c`. For beacons with these codes that are started together with
the same other switch settings, the interval counters start equal. Each tick
then changes every counter in the same way (`MainProperties.GateCounter`).

## Model

| member | source | states |
|---|---|---|
| Bits.Wrap8 | src/main.c:136 | an 8-bit unsigned result is the exact value shifted by at most one multiple of 256 (the `ticks_per_sign - 1` and `space + 1` stores) |
| Bits.Wrap16 | src/main.c:124 | a 16-bit unsigned result is the exact value shifted by at most one multiple of 65536 (the post-increment of `interval_ticks`) |
| Bits.Mul16 | src/config.h:157-164 | a product taken in 16-bit `int` equals the exact product whenever that fits |
| Bits.Sub16 | src/main.c:130 | unsigned 16-bit subtraction is exact unless it borrows, and then it is the value plus 65536 |
| Config.TicksPerSign | src/config.h:38-45 | `TICKS_PER_SIGN(wpm)` is the integer part of the ticks in one unit of a 50-unit word at `wpm` words per minute |
| Config.IntervalCount | src/config.h:54 | `INTERVAL_COUNT(s)` is exactly `s` seconds of 125 ticks each |
| Config.SpeedTicks | src/config.h:42-45 | the two speeds give units of 15 and 10 ticks, so `ticks_per_sign - 1` cannot underflow |
| Config.IntervalUnits | src/config.h:48-54 | the on-phases are 1500 and 7500 ticks, that is 100/500 units slow and 150/750 units fast |
| Config.ClosingToneHeadroom | src/config.h:57 | `TXOFF_TICKS` is 250, below both on-phases, so `enable_period - TXOFF_TICKS` does not wrap |
| Config.OutputKey | src/config.h:65-89 | the key bit is nonzero and disjoint from the enable bit on both boards |
| Config.OutputBits | src/config.h:105 | `OUTPUT(out)` copies exactly the enable and key bits from `out` and keeps every other port bit; on the LTC6903 board only the key bit |
| Config.DipPins | src/config.h:127-210 | every switch field of each board is assigned one to three pins |
| Config.Output | src/config.h:105 | the masked port write; its meaning is stated by `OutputBits` |
| Config.Level | src/config.h:114 | a pin's level is its bit in the port it is assigned to |
| Config.DipBits | src/config.h:116-121 | a one-pin field reads at most 1, a two-pin field at most 3, and every field at most 7 |
| Config.DipBitsLevels | src/config.h:114-121 | bit `i` of the decoded field is the level of its `i`-th pin, and no bit beyond the field is set |
| Config.Dip | src/config.h:123 | `DIP(name)` is below 2 to the power of its pin count |
| Config.ProgFrequencyPinAliasing | src/config.h:127-155 | on the LTC6903 board the CODE field is the INTERVAL_LENGTH bit joined with the INTERVAL field shifted left by one |
| Config.ProgFrequencyIntervals | src/config.h:157-164 | on the LTC6903 board the selection gives 2, 3 or 5 on-phases for 1, 2 or 3, and 0 for anything else, and the largest value fits in 16 bits |
| Config.FixedFrequencyAlwaysContinuous | src/config.h:204-220 | on the fixed board the two-pin INTERVAL field never reaches the cases 4 to 7, so the interval is always 0 |
| Config.SetIntervalValue | src/config.h:157-220 | both `SET_INTERVAL_VALUE` variants; their meaning is stated by `CycleLength`, `ProgFrequencyIntervals` and `FixedFrequencyAlwaysContinuous` |
| Config.CycleMultiple | src/config.h:157-220 | the number of on-phases in a cycle is 0 or between 2 and 5 |
| Config.CycleLength | src/config.h:157-220 | `SET_INTERVAL_VALUE` is that multiple of the on-phase on both boards |
| Config.DipCodeValue | src/config.h:227-236 | every code has a switch value below 7 |
| Sequencer.FirstZero | src/main.c:38-44 | the first zero byte of a pattern is inside the pattern |
| Sequencer.Step | src/main.c:138-160 | one unit step of the sequencer; its meaning is stated by `StepSpec`, and what repeated steps emit by `WordRepeats` |
| Sequencer.StepWellFormed | src/main.c:154-160 | a unit step keeps the read position at or before the first zero byte, with `bit` a single-bit mask |
| Sequencer.StepSpec | src/main.c:138-160 | a step first restarts at `code[0]`/0x80 when `space_count >= space`; it keys exactly on the bit read; a set bit zeroes the gap count and a clear bit increments it; the pointer moves by at most one and never past a zero byte; and the gap count stays at most `space` |
| Sequencer.ByteBits | src/main.c:144 | the eight sequencer bits of a byte are its bits read from the most significant down |
| Sequencer.PatternLength | src/main.c:38-44 | the stream a pattern denotes has eight bits per byte before the first zero byte |
| Sequencer.PatternByte | src/main.c:38-44 | each byte's eight bits sit at their place in the pattern stream |
| Sequencer.BeforeZero | src/main.c:157-158 | every byte before the first zero is nonzero |
| Sequencer.PatternBit | src/main.c:144-160 | bit `k` of the stream is bit `7 - k % 8` of byte `k / 8` |
| Sequencer.Segment | src/main.c:144-160 | a window of the stream has the length asked for |
| Sequencer.ZeroRun | src/main.c:138-153 | the run of off-units before a position is no longer than the position |
| Sequencer.Zeros | src/main.c:149-153 | a run of off-units holds only off-units |
| Sequencer.Repeat | src/main.c:138-160 | a repeated word has the word's length times the count |
| Sequencer.Units | src/main.c:134-160 | the units emitted by `n` steps are `n` in number |
| Sequencer.FirstZeroAt | src/main.c:38-44 | a zero byte preceded only by nonzero bytes is the first zero |
| Sequencer.ZeroRunBound | src/main.c:146-147 | a set bit `j` units back bounds the off-unit run below `j` |
| Sequencer.SegmentPattern | src/main.c:144-160 | the leading window of the stream is the leading part of the pattern |
| Sequencer.StepAtUnit | src/main.c:144-160 | at stream position `k` without a restart, a step keys on stream bit `k`, moves to position `k + 1` and updates the gap count |
| Sequencer.SegmentAt | src/main.c:144-160 | element `i` of a window is stream bit `from + i` |
| Sequencer.SegmentSplit | src/main.c:144-160 | a window of length `a + b` is the window of `a` followed by the next window of `b` |
| Sequencer.AtUnitWellFormed | src/main.c:154-160 | a state at a stream position is a valid read position |
| Sequencer.WalkStep | src/main.c:144-160 | while the gap count is below `space`, a step moves to the next stream position and the gap count follows the stream's off-run |
| Sequencer.WalkState | src/main.c:138-160 | while every gap stays below `space`, the steps from position `k` to position `e` reach `e`, with the gap count equal to the stream's off-run there |
| Sequencer.Walk | src/main.c:138-160 | while every gap stays below `space`, the `n` emitted units are the stream's next `n` bits |
| Sequencer.TrailingZeros | src/main.c:38-44 | after the last set bit of a word the stream is off and the off-run counts up from 0 |
| Sequencer.RunSplit | src/main.c:134-160 | running `a + b` steps is running `a` steps and then `b` |
| Sequencer.UnitsSplit | src/main.c:134-160 | the units of `a + b` steps are those of `a` steps followed by those of the next `b` |
| Sequencer.RunWellFormed | src/main.c:154-160 | any number of steps keeps the read position valid |
| Sequencer.RestartIsHome | src/main.c:138-143 | a state about to restart emits exactly what the start of the pattern emits |
| Sequencer.TrailSegment | src/main.c:149-153 | the stream after a word's last set bit is all off-units |
| Sequencer.GapsThroughTrail | src/main.c:138-153 | with inner gaps below `space`, no off-run reaches `space` before the word's end plus `space` |
| Sequencer.WordCycleUnits | src/main.c:138-160 | from the start of the pattern, `len + space` steps emit the word and then exactly `space` off-units |
| Sequencer.WordCycleCount | src/main.c:138-153 | after one word cycle the gap count equals `space`, so the next step restarts |
| Sequencer.WordCycle | src/main.c:138-160 | from any restarting state, one word cycle emits the word and `space` off-units and ends ready to restart |
| Sequencer.WordRepeats | src/main.c:138-160 | from a restarting state, `m` word cycles emit the word-and-gap unit sequence `m` times and end ready to restart |
| Morse.SignUnits | src/main.c:38-44 | a dot or dash is a nonempty run of on-units |
| Morse.DenseJoin | src/main.c:38-44 | joining two streams without long gaps at an on-unit keeps every window of four units keyed somewhere |
| Morse.CharShape | src/main.c:38-44 | a character's units start and end on and contain no gap of four off-units |
| Morse.WordShape | src/main.c:38-44 | a word's units start and end on and contain no gap of four off-units |
| Morse.WordJoinIsWord | src/main.c:38-44 | the concatenation of two words and the tail of a longer word are words |
| Morse.WordJoin | src/main.c:38-44 | the units of a joined word are the units of its parts with a three-unit character gap between |
| Tables.CodeTable | src/main.c:38-44 | every pattern has six bytes and ends with a zero byte |
| Tables.Spell | src/main.c:38-44 | each code names a Morse word (MO followed by E, I, S, H or 5, or S alone) |
| Tables.ByteLiterals | src/main.c:38-44 | the bits, most significant first, of each pattern byte |
| Tables.Letters | src/main.c:38-44 | the unit streams of M, O, E, I, S, H and 5 |
| Tables.ByteChars | src/main.c:38-44 | the pattern bytes are the letters' units with their gaps, padded with off-units |
| Tables.WordMO | src/main.c:38 | the units of MO are M, a character gap, and O |
| Tables.WordMOX | src/main.c:39-43 | the units of MO followed by a letter are MO, a character gap, and the letter |
| Tables.PatternMO | src/main.c:38 | the MO stream is the bits of its three bytes |
| Tables.PatternMOE | src/main.c:39 | the MOE stream is the bits of its four bytes |
| Tables.PatternMOI | src/main.c:40 | the MOI stream is the bits of its four bytes |
| Tables.PatternMOS | src/main.c:41 | the MOS stream is the bits of its four bytes |
| Tables.PatternMOH | src/main.c:42 | the MOH stream is the bits of its four bytes |
| Tables.PatternMO5 | src/main.c:43 | the MO5 stream is the bits of its five bytes |
| Tables.PatternS | src/main.c:44 | the S stream is the bits of its one byte |
| Tables.Spells | src/main.c:38-52 | each pattern's stream is its word's Morse units followed by off-units, and the word is `CODE_x_LEN` units long (33 for MO5) |
| Tables.WordPattern | src/main.c:38-52 | a pattern that spells a word ends at the word's length, reads as the word, and has every off-run inside it below 4 |
| Tables.DenseGap | src/main.c:38-44 | inside a dense framed word no off-run reaches 4 |
| Tables.CodeShape | src/main.c:38-52 | every table has its first zero byte at index 5 or less, its stream ends at the word's length, reads as the Morse word, and has no off-run of 4 inside the word |
| Tables.TableWordRepeats | src/main.c:138-160 | with `space >= 4` and a restart pending, the sequencer on any table emits the table's Morse word followed by `space` off-units, repeated |
| Tables.CodeLenAsWritten | src/main.c:46-52 | the `CODE_x_LEN` constants as written; `CodeLenAsWrittenMisses` states where they miss the word's end |
| Tables.CodeLen | src/main.c:46-52 | the word lengths with `CODE_MO5_LEN` corrected to 33; `Spells` and `CodeShape` state that each is where its word ends |
| Tables.CodeLenAsWrittenMisses | src/main.c:46-52 | `CODE_MO5_LEN` = 23 is not where the MO5 word ends; every other length constant is |
| Tables.MAIN_SPACE_ADJUST | src/main.c:55-64 | the `space_adjust` table of `main.c`; `SpacingBounds` states its bounds |
| Tables.PF_SPACE_ADJUST | src/pf_control.c:92-101 | the `space_adjust` table of `pf_control.c`; `SpacingBounds` states its bounds |
| Tables.SpacingBounds | src/main.c:55-64 | both spacing tables have 32 entries, each between 4 and 17 |
| Tables.WordsInPhase | src/main.c:66-69 | the divisor of `SPACE_ADJUST` is positive whenever a word with its gap fits in the phase |
| Tables.ShareOut | src/main.c:66-69 | sharing the remainder left by `q` words of `w` ticks, in units of `t`, gives the largest per-word extra `r` with `q * w + q * r * t` at most the total |
| Tables.SpaceAdjust | src/main.c:66-69 | the `SPACE_ADJUST` macro; its meaning is stated by `SpaceAdjustFits` |
| Tables.ShareFits | src/main.c:66-69 | with the extra gap the words fill at most the phase, and one more unit would overfill it |
| Tables.SpaceAdjustFits | src/main.c:66-69 | `SPACE_ADJUST` gives the largest extra gap with which the whole words still fit in the on-phase plus the final gap |
| Tables.FREQUENCIES | src/main.c:72 | the `frequencies` table (also `src/pf_control.c:112`); `FrequencyBounds` states its bounds |
| Tables.FrequencyBounds | src/main.c:72 | the frequency table has 8 entries, each below 1024 |
| MainFirmware.Enabled | src/main.c:124 | the gate condition; its meaning is stated by `GateStep` and `GateCounter` |
| MainFirmware.Gate | src/main.c:124 | the post-increment of the counter; `GateCounter` states that it advances by one modulo 2^16 in interval mode only |
| MainFirmware.Closing | src/main.c:130 | the closing-tone condition; its effect is stated by `OnOutputKey` and `ClosingTone` |
| MainFirmware.OnOutput | src/main.c:127-133 | the enable and closing-tone statements; their meaning is stated by `EnableOutputs`, `EnableKeepsKey` and `OnOutputKey` |
| MainFirmware.EnabledTick | src/main.c:126-166 | the enabled branch; its meaning is stated by `EnabledKey`, `EnabledCountdown`, `ClosingTone` and `EnabledLed` |
| MainFirmware.OffTick | src/main.c:168-178 | the off branch; its meaning is stated by `OffBranch` and `OffLed` |
| MainFirmware.Finish | src/main.c:180-191 | the LED statements and the final port write; their meaning is stated by `LedLit`, `FinishWrites`, `FinishKeeps` and `KeyPin` |
| MainFirmware.TickSpec | src/main.c:121-192 | one interrupt; its meaning is stated by `TickOn`, `TickOff`, `PortWrite`, `TickBounds`, and over many ticks by `WordKeying` and `OffPhaseLength` |
| MainFirmware.KeyTrace | src/main.c:121-192 | the key trace of `n` ticks has `n` entries |
| MainFirmware.ReadSwitches | src/config.h:114-123 | every decoded switch field is within its width |
| MainFirmware.SignTicks | src/main.c:238-241 | the unit is 10 ticks exactly when the SPEED switch reads 1, otherwise 15 |
| MainFirmware.PhaseTicks | src/main.c:244-251 | the on-phase is 1500 ticks exactly when INTERVAL_LENGTH reads 1, otherwise 7500 |
| MainFirmware.LevelSetting | src/main.c:307-309 | `output_set` inverts the key and enable lines exactly when their level switches read 0, and touches nothing else |
| MainFirmware.Configure | src/main.c:238-265 | the unit is at least one tick; continuous mode has no on-phase and a gap of 7; interval mode keeps the selected phase with a gap of at least 4 |
| MainFirmware.SelectCode | src/main.c:268-277 | switch values 0 to 6 select the code with that enumeration value, and 7 selects MO |
| MainFirmware.Intervals | src/main.c:270-276 | a code skips at most 4 cycles |
| MainFirmware.FrequencySetting | src/main.c:292 | the selected frequency is below 1024 |
| MainFirmware.PreAdvance | src/main.c:281-288 | the do-while loop computes the recursive pre-advance |
| MainFirmware.PreAdvanced | src/main.c:281-288 | the pre-advance loop as a recursive function; its closed form is stated by `PreAdvanceClosedForm` |
| MainFirmware.PreAdvancedFrom | src/main.c:284-287 | from `j` on-phases the loop leaves the closed form |
| MainFirmware.PreAdvanceClosedForm | src/main.c:281-288 | from `m` on-phases with `n` skips the counter ends at `(m - min(n + 1, m - 1))` on-phases, between one on-phase and `m - 1` of them, without a borrow |
| MainFirmware.InitialPhase | src/main.c:281-288 | at start-up a code without skips starts at counter 0; a code with skips starts at the closed form, in the off-phase |
| MainFirmware.InitialPort | src/main.c:304-314 | the port value `init_uc` writes; its meaning is stated by `MainProperties.InitialPortPins` |
| MainFirmware.InitialFrom | src/main.c:278-314 | the globals after `init_uc`; their meaning is stated by `InitialSequencer`, `InitialPhase`, `InitialPortPins` and `StartupKeying` |
| MainFirmware.AdvancedCollisions | src/main.c:281-288 | the pre-advance of MOH and MO5 ends one on-phase into any cycle of at most five on-phases, that of MOS too for at most four, and that of MOI for at most three |
| MainFirmware.SharedStarts | src/main.c:268-288 | MO, MOE and S start at counter 0, and in interval mode MOH and MO5 both start at one on-phase (and MOS too for cycles of at most four on-phases) |
| MainFirmware.HomeWellFormed | src/main.c:140-141 | the start of the pattern is a valid read position |
| MainFirmware.CopyCode | src/main.c:278-279 | the copy loop leaves the six table bytes in `code` |
| MainFirmware.Beacon.Start | src/main.c:210-314 | the settings, the copied table, the globals and the frequency are those `init_uc` derives from the switches |
| MainFirmware.Beacon.Tick | src/main.c:121-192 | one interrupt performs `TickSpec` on the globals and keeps the read position valid |
| MainFirmware.AdvanceCounter | src/main.c:281-288 | the counter start value is the pre-advance when the code skips cycles, and 0 otherwise |
| MainFirmware.TickHandler | src/main.c:121-192 | the handler on local copies computes `TickSpec` and keeps the read position valid |
| MainFirmware.GateStep | src/main.c:124 | the tick is enabled exactly in continuous mode or when the old counter is below the on-phase, and the counter is incremented only in interval mode |
| MainFirmware.TickParts | src/main.c:121-192 | gate, branch and port write composed are `TickSpec` |
| MainFirmware.EnabledBranch | src/main.c:126-166 | the enabled branch computes `EnabledTick` and keeps the read position valid |
| MainFirmware.EnabledParts | src/main.c:126-166 | the enable, closing-tone, countdown and LED statements composed are `EnabledTick` |
| MainFirmware.EnableOutputs | src/main.c:127-133 | enable and closing-tone statements compute the enabled output |
| MainFirmware.RestartLed | src/main.c:163-166 | the LED counter restarts at its limit |
| MainFirmware.OffBranch | src/main.c:168-178 | the off branch computes `OffTick` |
| MainFirmware.UnitStep | src/main.c:138-160 | the sequencing statements key the output as the unit step says and keep the read position valid |
| MainFirmware.ShowAndWrite | src/main.c:180-191 | the LED statements and the `OUTPUT(output ^ output_set)` write compute `Finish`, and the output pins then show `output ^ output_set` |
| MainFirmware.IntervalCycles | src/main.c:253-265 | continuous mode exactly when the cycle multiple is 0; otherwise the on-phase is positive and the cycle is that multiple of it |
| MainProperties.EnableKeepsKey | src/main.c:127 | setting the enable bit leaves the key bit |
| MainProperties.KeyedKey | src/main.c:144-153 | after a unit step the key bit is exactly the bit read |
| MainProperties.OnOutputKey | src/main.c:127-133 | after the enable and closing statements the key is on exactly when it was on or the closing tone applies |
| MainProperties.GateCounter | src/main.c:124 | continuous mode: always enabled and the counter untouched; interval mode: enabled exactly when the old counter is below the on-phase, and the counter advances by one modulo 2^16 |
| MainProperties.GateEnable | src/main.c:127 | on the fixed board the enable bit after the tick is set exactly on enabled ticks |
| MainProperties.StepKey | src/main.c:134-153 | on an enabled tick whose unit expires, the key is the bit the step reads |
| MainProperties.HoldKey | src/main.c:130-136 | on an enabled tick within a unit, the key stays as it was or is forced by the closing tone |
| MainProperties.EnabledKey | src/main.c:130-153 | on an enabled tick the key is the bit read when the unit expires, and otherwise the old key or the closing tone |
| MainProperties.EnabledCountdown | src/main.c:134-136 | the unit countdown reloads `ticks_per_sign - 1` and steps exactly when it was 0, and otherwise decrements with the sequencer unchanged |
| MainProperties.ClosingTone | src/main.c:130-151 | in the closing window the key is on within a unit, but a unit step that reads a 0 bit clears it on the same tick |
| MainProperties.ContinuousKey | src/main.c:124-136 | in continuous mode the key does not change within a unit (no closing tone) |
| MainProperties.FlagEnabled | src/main.c:124-133 | on enabled ticks in interval mode the cycle length has no effect |
| MainProperties.FlagStep | src/main.c:130-153 | the enabled branch with a unit step does not depend on the cycle length, only on interval mode being on |
| MainProperties.FlagHold | src/main.c:130-136 | the enabled branch within a unit does not depend on the cycle length |
| MainProperties.FlagOff | src/main.c:168-178 | off ticks do not depend on the cycle length |
| MainProperties.IntervalOnlyAsFlag | src/main.c:121-192 | the counter is never compared with `interval`: two nonzero cycle lengths give the same tick |
| MainProperties.OffBranch | src/main.c:168-172 | an off tick happens only in interval mode, clears enable and key, zeroes the countdown, keeps the read position and sets the gap count to `space + 1`, so the next step restarts |
| MainProperties.StepsFromHome | src/main.c:138-153 | a step from a restarting state reads bit 7 of `code[0]` |
| MainProperties.OffThenRestart | src/main.c:138-143 | the first enabled tick after an off tick steps, and restarts at `code[0]`/0x80 |
| MainProperties.TickBounds | src/main.c:138-160 | a tick keeps the read position valid and the gap count at most `space + 1`, and at most `space` after a step |
| MainProperties.LedLit | src/main.c:163-189 | the LED is lit exactly when its counter was 0 or at its limit, and the counter restarts at 1 or advances |
| MainProperties.FinishLed | src/main.c:180-191 | the LED counter affects only itself and the port |
| MainProperties.OutputPins | src/config.h:105 | the output bits of the port after the write do not depend on the old port |
| MainProperties.EnabledLed | src/main.c:163-166 | on enabled ticks the LED counter enters only through its restart at one second |
| MainProperties.OffLed | src/main.c:174-177 | on off ticks the LED counter enters only through its restart at the on-phase length |
| MainProperties.LedIndependent | src/main.c:163-189 | the LED counter affects neither keying nor the output pins |
| MainProperties.FinishWrites | src/main.c:191 | the final write puts `output ^ output_set` on the output pins |
| MainProperties.FinishKeeps | src/main.c:180-191 | the final write keeps every port bit other than the output and LED pins |
| MainProperties.KeyPin | src/main.c:191 | the key pin is high exactly when the key is on, unless its level is inverted |
| MainProperties.TickOn | src/main.c:124-166 | an enabled tick is the enabled branch followed by the final write, and the branch leaves the port alone |
| MainProperties.TickOff | src/main.c:168-178 | an off tick is the off branch followed by the final write, and the branch leaves the port alone |
| MainProperties.PortWrite | src/main.c:191 | after a tick the output pins show `output ^ output_set` |
| MainProperties.KeyPinLevel | src/main.c:191 | after a tick the key pin is high exactly when the key is on, unless inverted by the level switch |
| MainProperties.PortKeeps | src/main.c:180-191 | a tick changes no port bit but the output pins and the LED |
| MainProperties.Expand | src/main.c:134-136 | holding each unit for `n` ticks multiplies the length by `n` |
| MainProperties.RunSplitTicks | src/main.c:121-192 | `a + b` ticks are `a` ticks followed by `b` |
| MainProperties.TraceSplit | src/main.c:121-192 | the key trace of `a + b` ticks is the trace of `a` followed by that of the next `b` |
| MainProperties.HoldTicks | src/main.c:134-136 | in continuous mode a countdown of `j` holds the key for `j` ticks and then expires, with the sequencer unchanged |
| MainProperties.UnitTicks | src/main.c:134-160 | in continuous mode one unit is `ticks_per_sign` ticks of the stepped key, after which the next unit is due |
| MainProperties.ContinuousRun | src/main.c:134-160 | in continuous mode `n` units take `n * ticks_per_sign` ticks and advance the sequencer by `n` steps |
| MainProperties.ContinuousKeying | src/main.c:134-160 | in continuous mode the key trace is the sequencer's units, each held `ticks_per_sign` ticks |
| MainProperties.KeyingOfUnits | src/main.c:134-160 | the same trace for a given unit sequence |
| MainProperties.WordKeying | src/main.c:121-192 | in continuous mode with `space >= 4` and a restart pending, the key repeats the code's Morse word and `space` off-units, with period `(LEN + space) * ticks_per_sign` ticks |
| MainProperties.InitialSequencer | src/main.c:210-314 | start-up leaves the countdown at 0 and the sequencer at the start of the pattern |
| MainProperties.InitialPortPins | src/main.c:304-314 | after start-up the output pins show `output ^ output_set` for the cleared output, the switch pins of port B keep their read level, the serial lines of the LTC6903 board are high, and the LED and unused pins are low |
| MainProperties.StartupKeying | src/main.c:264 | in continuous mode, from start-up, the key repeats the Morse word and 7 off-units with period `(LEN + 7) * ticks_per_sign` |
| MainProperties.OffStretch | src/main.c:124 | in interval mode, from the end of the on-phase until the counter wraps at 2^16, every tick keys off |
| MainProperties.CounterRun | src/main.c:124 | in interval mode `n` ticks advance the counter by `n`, up to its wrap at 2^16 |
| MainProperties.OffPhaseLength | src/main.c:124 | the off-phase lasts `65536 - enable_period` ticks, whatever `interval` is, and ends there: the counter is back at 0 and the next tick is enabled |
| PfFirmware.PfEnabled | src/pf_control.c:159 | the gate condition; `GateMatch` states that it is that of `main.c` |
| PfFirmware.PfGate | src/pf_control.c:159 | the post-increment of the counter; `GateMatch` and `PfCounter` state its meaning |
| PfFirmware.CounterReset | src/pf_control.c:161-162 | the counter reset; `ResetNoOp` states that it never changes the counter |
| PfFirmware.PfClosing | src/pf_control.c:165 | the closing-tone condition; `OnOutputMatch` and `PfClosingTone` state its effect |
| PfFirmware.PfEnabledTick | src/pf_control.c:161-196 | the enabled branch; its meaning is stated by `PfEnabledKey`, `StepMatch` and `HoldMatch` |
| PfFirmware.PfOffTick | src/pf_control.c:198-203 | the off branch; its meaning is stated by `PfOffBranch` and `OffMatch` |
| PfFirmware.PfTickSpec | src/pf_control.c:157-207 | one interrupt; its meaning is stated by `PfMatchesMain`, `PfTickBounds`, `PfWordKeying` and `PfOffPhaseLength` |
| PfFirmware.PfKeyTrace | src/pf_control.c:157-207 | the key trace of `n` ticks has `n` entries |
| PfFirmware.PfSignTicks | src/pf_control.c:251-254 | the unit is 10 ticks exactly when PA3 reads 1, otherwise 15 |
| PfFirmware.PfPhaseTicks | src/pf_control.c:258-265 | the on-phase is 1500 ticks exactly when PA5 reads 1, otherwise 7500 |
| PfFirmware.IntervalSelect | src/pf_control.c:269 | the switch value `(PINA >> 6) & 3` is at most 3 |
| PfFirmware.PfMultiple | src/pf_control.c:269-275 | the cycle multiple is 0 or between 2 and 5 |
| PfFirmware.IntervalSwitch | src/pf_control.c:266-275 | the fall-through additions give the multiple 3, 5, 2 or 0 of the on-phase for the values 1, 3, 2 and 0, and case 0 clears the on-phase |
| PfFirmware.AccumulatedMultiple | src/pf_control.c:271-274 | the 16-bit sums of each fall-through path equal the multiple of the on-phase |
| PfFirmware.SpacingIndex | src/pf_control.c:280 | the index `(PINA & 0x0F) \| ((PINA >> 1) & 0x10)` is PA0 to PA3 plus 16 for PA5, below 32 |
| PfFirmware.PfConfigure | src/pf_control.c:251-285 | the unit is at least one tick; continuous mode has no on-phase and a gap of 7; interval mode has the selected on-phase, a gap of at least 4 and a cycle longer than the on-phase |
| PfFirmware.Reverse3 | src/pf_control.c:288 | reversing three bits gives at most 7 |
| PfFirmware.PfSelectCode | src/pf_control.c:288-297 | the code switch on PA0 to PA2 is the enumeration of `config.h` read with the bits reversed |
| PfFirmware.FrequencyIndex | src/pf_control.c:104-111 | `FREQUENCY_SETTINGS` is the FREQ field of the LTC6903 board in `config.h` (PA4, PB1, PB6) |
| PfFirmware.OscHigh | src/pf_control.c:336 | for a setting below 1024 the high byte's top nibble is the octave 11 |
| PfFirmware.OscLow | src/pf_control.c:344 | the low byte's two configuration bits are `10` |
| PfFirmware.OscSetting | src/pf_control.c:336-344 | the DAC field the oscillator reads from the two bytes; `OscRoundTrip` states that it gives back the frequency setting |
| PfFirmware.PfInitialPort | src/pf_control.c:330-358 | the port value `init_uc` leaves; its meaning is stated by `PfProperties.PfInitialPortPins` |
| PfFirmware.PfInitial | src/pf_control.c:225-358 | the globals after `init_uc`; their meaning is stated by `PfInitialPhase`, `PfInitialPortPins` and `PfStartupKeying` |
| PfFirmware.PfBeacon.Start | src/pf_control.c:225-358 | the settings, the copied table, the globals, the frequency and the two oscillator bytes are those `init_uc` derives from the switches |
| PfFirmware.PfBeacon.Tick | src/pf_control.c:157-207 | one interrupt performs `PfTickSpec` and keeps the read position and the counter invariant |
| PfFirmware.ReadSettings | src/pf_control.c:251-285 | the switch reading statements compute `PfConfigure` |
| PfFirmware.StartTicks | src/pf_control.c:301-308 | the counter start value is the pre-advance when the code skips cycles, 0 otherwise |
| PfFirmware.PfTickHandler | src/pf_control.c:157-207 | the handler computes `PfTickSpec` and keeps the read position and the counter invariant |
| PfFirmware.PfTickParts | src/pf_control.c:157-207 | gate, branch and port write composed are `PfTickSpec`, and the counter invariant holds after |
| PfFirmware.PfEnabledBranch | src/pf_control.c:161-196 | the enabled branch computes `PfEnabledTick` and keeps the read position valid |
| PfFirmware.ResetAndClose | src/pf_control.c:161-168 | the reset and closing-tone statements |
| PfFirmware.PfEnabledParts | src/pf_control.c:161-196 | reset, closing tone and countdown composed are `PfEnabledTick` |
| PfFirmware.PfOffBranch | src/pf_control.c:198-203 | the off branch computes `PfOffTick` |
| PfProperties.ResetNoOp | src/pf_control.c:161-162 | under the counter invariant the reset of the enabled branch never changes the counter |
| PfProperties.PfCounter | src/pf_control.c:159-162 | interval mode: the counter advances by one modulo 2^16; continuous mode: it stays 0; the invariant is kept |
| PfProperties.GateMatch | src/pf_control.c:159 | the gate is that of `main.c` |
| PfProperties.OnOutputMatch | src/pf_control.c:165-168 | the closing tone is that of `main.c` on a board without an enable line |
| PfProperties.StepMatch | src/pf_control.c:169-196 | an expiring unit is that of `main.c` |
| PfProperties.HoldMatch | src/pf_control.c:169-171 | a unit in progress is that of `main.c` |
| PfProperties.OffMatch | src/pf_control.c:198-203 | the off branch is that of `main.c` |
| PfProperties.FinishMatch | src/pf_control.c:206 | the port write is that of `main.c` with no level inversion |
| PfProperties.PfMatchesMain | src/pf_control.c:157-207 | under the counter invariant one tick is one tick of `main.c` on the LTC6903 board |
| PfProperties.PfRunMatches | src/pf_control.c:157-207 | any number of ticks agree with `main.c` |
| PfProperties.PfTraceMatches | src/pf_control.c:157-207 | the key traces agree with `main.c` |
| PfProperties.PfOffBranch | src/pf_control.c:198-203 | an off tick happens only in interval mode, clears the key, zeroes the countdown, keeps the read position and sets the gap count to `space + 1`, so the next step restarts |
| PfProperties.PfClosingTone | src/pf_control.c:165-188 | in the closing window the key is on within a unit, but a step that reads a 0 bit clears it on the same tick |
| PfProperties.PfEnabledKey | src/pf_control.c:165-188 | on an enabled tick the key is the bit read when the unit expires, and otherwise the old key or the closing tone |
| PfProperties.PfStepKey | src/pf_control.c:169-188 | an expiring unit keys on the bit read |
| PfProperties.PfHoldKey | src/pf_control.c:165-171 | a unit in progress keeps the key or forces it in the closing window |
| PfProperties.PfTickBounds | src/pf_control.c:173-195 | a tick keeps the read position valid and the gap count at most `space + 1`, and at most `space` after a step |
| PfProperties.PfWordKeying | src/pf_control.c:157-207 | in continuous mode with `space >= 4` and a restart pending, the key repeats the Morse word and `space` off-units |
| PfProperties.PfStartupKeying | src/pf_control.c:284 | in continuous mode, from start-up, the key repeats the Morse word and 7 off-units with period `(LEN + 7) * ticks_per_sign` |
| PfProperties.PfOffPhaseLength | src/pf_control.c:159-162 | the off-phase lasts `65536 - enable_period` ticks, whatever `interval` is, and ends there: the counter is back at 0 and the next tick is enabled |
| PfProperties.PfInitialPortPins | src/pf_control.c:330-358 | after start-up the key pin is low, USI_SCK and OSC_SEN are high, USI_DO and PB6 keep their read level, and the unused pins are low |
| PfProperties.PfReadsConfigPins | src/pf_control.c:251-269 | the speed, phase and interval bits read are the SPEED, INTERVAL_LENGTH and INTERVAL fields of the LTC6903 board in `config.h` |
| PfProperties.PfCycleSwap | src/pf_control.c:269-275 | the multiple is that of `config.h` for the LTC6903 board with the values 1 and 2 swapped |
| PfProperties.SpacingIgnoresInterval | src/pf_control.c:280 | the spacing index ignores PA4, PA6 and PA7 |
| PfProperties.Reverse3Twice | src/pf_control.c:288 | reversing three bits twice gives the three bits |
| PfProperties.PfCodeRoundTrip | src/pf_control.c:288-297 | each code is selected by its enumeration value with the bits reversed |
| PfProperties.PfCodeSelection | src/pf_control.c:288-297 | MO is selected exactly by 0 and 7, and every other code by exactly one switch value |
| PfProperties.OscRoundTrip | src/pf_control.c:336-344 | for a setting below 1024 the two bytes carry the octave 11 and the configuration `10`, and their DAC fields put back together give the setting |
| PfProperties.PfOscillatorWord | src/pf_control.c:311-344 | the selected frequency is that of `main.c`, and the two bytes sent for it carry the octave 11, the configuration `10` and the frequency |
| PfProperties.PfInitialPhase | src/pf_control.c:301-308 | start-up establishes the counter invariant; a code without skips starts at counter 0, and one with skips starts at the closed form, in the off-phase |

## Left out

- Register and power setup: the analog comparator, the power reduction register, data direction registers, pull-up handling on port A, the timer setup, and `sei`/`sleep_mode` in `main`. These are hardware writes with no behaviour of their own.
- The serial interface polling loops (`src/pf_control.c:339-349`) wait on a hardware flag. Only the two bytes they send are modelled.
- The oscillator block of `src/main.c:316-345` is guarded by `USE_LTC6309`, while `config.h` defines `USE_LTC6903`. It is never compiled, so no oscillator bytes are modelled for `main.c`.
- The analog meaning of the LTC6903 octave and DAC fields is left out. The frequency formula is real-valued.
- Interrupt concurrency is left out. The handler is a method called once per tick, and nothing else changes its globals.
- The power-on sequencer state is not modelled. There, `code_ptr` is NULL and `bit` is 0, and the first enabled step reads outside `code`. Both constructors start the sequencer at the start of the pattern instead. Any later restart, such as after an off tick or a full gap count, reaches that same state.
- The `SPACE_ADJUST` macro is never used, so it is defined and its meaning proved. It is not related to either `space_adjust` table, which are plain constants.
- `main.c` reads only `space_adjust[DIP(INTERVAL) & 3]`. The other 28 entries of its table are checked only for their bounds.
- `DISABLED_LED_TICKS` is defined but never used, and `output_set` in `pf_control.c` is never written; neither is modelled.
- `PORTA = PINA` and the data direction writes are left out. `PfInitialPort` and `InitialPort` are the final values of port B only.
- The comment at `src/pf_control.c:310` names PA3, PB6 and PB3 as the frequency pins. The code (`src/pf_control.c:104-111`) reads PA4, PB1 and PB6, and the model follows the code.
- The fixed board defines a third INTERVAL pin (`src/config.h:209-210`), but `DIP_INTERVAL_BITS` is 2 (`src/config.h:204`). The model reads the field with two pins, as the code does, so the cases 4 to 7 of `src/config.h:215-218` are never reached and this board always runs continuously (`Config.FixedFrequencyAlwaysContinuous`). A three-pin reading is not modelled.
- `TICKS_PER_SIGN` in `pf_control.c` is `150 / (wpm)`, without parentheses around the whole expression. Every use is a plain assignment, so this gives the same 15 and 10 ticks as `config.h`. PfSignTicks states those values directly.

## Findings

| source | as written | input that shows it | evidently intended | confidence | as-written member | corrected member |
|---|---|---|---|---|---|---|
| src/main.c:51 (also src/pf_control.c:70) | `CODE_MO5_LEN` is 23 | the MO5 pattern `ee 3b b8 aa 80` has its last set bit at unit 33; unit 23 lies in the character gap between O and 5 | 33, the length of MO5 in Morse units, as the other length constants are | not executed | Tables.CodeLenAsWrittenMisses | Tables.CodeShape |
