/** The code tables of the firmware: the seven selectable beacon patterns
    with their length constants, the spacing tables of both firmware
    variants with the unused `SPACE_ADJUST` macro, and the oscillator
    frequency table. Each pattern is shown to spell its beacon identifier in
    Morse code. */
module Tables {
  import opened Bits
  import opened Config
  import opened Sequencer
  import opened Morse

  /** CODE_MO .. CODE_S: six bytes each, read most significant bit first, one
      bit per Morse unit; the unlisted bytes of each initializer are zero. */
  function CodeTable(id: CodeId): (code: seq<bv8>)
    ensures |code| == 6 && code[5] == 0
  {
    match id
    case MO => [0xee, 0x3b, 0xb8, 0, 0, 0]
    case MOE => [0xee, 0x3b, 0xb8, 0x80, 0, 0]
    case MOI => [0xee, 0x3b, 0xb8, 0xa0, 0, 0]
    case MOS => [0xee, 0x3b, 0xb8, 0xa8, 0, 0]
    case MOH => [0xee, 0x3b, 0xb8, 0xaa, 0, 0]
    case MO5 => [0xee, 0x3b, 0xb8, 0xaa, 0x80, 0]
    case S => [0xa8, 0, 0, 0, 0, 0]
  }

  /** The ARDF beacon identifier each code stands for. */
  function Spell(id: CodeId): (w: seq<seq<Sign>>)
    ensures IsWord(w)
  {
    match id
    case MO => [LETTER_M, LETTER_O]
    case MOE => [LETTER_M, LETTER_O, LETTER_E]
    case MOI => [LETTER_M, LETTER_O, LETTER_I]
    case MOS => [LETTER_M, LETTER_O, LETTER_S]
    case MOH => [LETTER_M, LETTER_O, LETTER_H]
    case MO5 => [LETTER_M, LETTER_O, DIGIT_5]
    case S => [LETTER_S]
  }

  /** The CODE_<x>_LEN constants as they are defined. */
  function CodeLenAsWritten(id: CodeId): nat {
    match id
    case MO => 21
    case MOE => 25
    case MOI => 27
    case MOS => 29
    case MOH => 31
    case MO5 => 23
    case S => 5
  }

  /** The index of the first zero byte of each table. */
  function TableBytes(id: CodeId): nat {
    match id
    case MO => 3
    case MO5 => 5
    case S => 1
    case _ => 4
  }

  /** The length of each pattern in units, up to and including its last
      key-down unit. */
  function CodeLen(id: CodeId): nat {
    match id
    case MO => 21
    case MOE => 25
    case MOI => 27
    case MOS => 29
    case MOH => 31
    case MO5 => 33
    case S => 5
  }

  /** The bits of the pattern bytes used. */
  lemma ByteLiterals()
    ensures ByteBits(0xee) == [true, true, true, false, true, true, true, false]
    ensures ByteBits(0x3b) == [false, false, true, true, true, false, true, true]
    ensures ByteBits(0xb8) == [true, false, true, true, true, false, false, false]
    ensures ByteBits(0x80) == [true, false, false, false, false, false, false, false]
    ensures ByteBits(0xa0) == [true, false, true, false, false, false, false, false]
    ensures ByteBits(0xa8) == [true, false, true, false, true, false, false, false]
    ensures ByteBits(0xaa) == [true, false, true, false, true, false, true, false]
  {
  }

  /** The units of the characters used. */
  lemma Letters()
    ensures CharUnits(LETTER_M) == [true, true, true, false, true, true, true]
    ensures CharUnits(LETTER_O) == [true, true, true, false, true, true, true, false, true, true, true]
    ensures CharUnits(LETTER_E) == [true]
    ensures CharUnits(LETTER_I) == [true, false, true]
    ensures CharUnits(LETTER_S) == [true, false, true, false, true]
    ensures CharUnits(LETTER_H) == [true, false, true, false, true, false, true]
    ensures CharUnits(DIGIT_5) == [true, false, true, false, true, false, true, false, true]
  {
    assert LETTER_M[1..] == [Dash];
    assert LETTER_O[1..] == [Dash, Dash];
    assert LETTER_O[1..][1..] == [Dash];
    assert LETTER_I[1..] == [Dot];
    assert LETTER_S[1..] == [Dot, Dot];
    assert LETTER_S[1..][1..] == [Dot];
    assert LETTER_H[1..] == [Dot, Dot, Dot];
    assert LETTER_H[1..][1..] == [Dot, Dot];
    assert LETTER_H[1..][1..][1..] == [Dot];
    assert DIGIT_5[1..] == [Dot, Dot, Dot, Dot];
    assert DIGIT_5[1..][1..] == [Dot, Dot, Dot];
    assert DIGIT_5[1..][1..][1..] == [Dot, Dot];
    assert DIGIT_5[1..][1..][1..][1..] == [Dot];
  }

  /** Pattern bytes in terms of characters: the three bytes every MO code
      starts with hold M, a character gap, O and another character gap; the
      later bytes hold the last character and off units. */
  lemma ByteChars()
    ensures ByteBits(0xee) + ByteBits(0x3b) + ByteBits(0xb8)
         == CharUnits(LETTER_M) + [false, false, false] + CharUnits(LETTER_O) + Zeros(3)
    ensures ByteBits(0x80) == CharUnits(LETTER_E) + Zeros(7)
    ensures ByteBits(0xa0) == CharUnits(LETTER_I) + Zeros(5)
    ensures ByteBits(0xa8) == CharUnits(LETTER_S) + Zeros(3)
    ensures ByteBits(0xaa) == CharUnits(LETTER_H) + Zeros(1)
    ensures ByteBits(0xaa) + ByteBits(0x80) == CharUnits(DIGIT_5) + Zeros(7)
  {
    ByteLiterals();
    Letters();
    assert Zeros(1) == [false];
    assert Zeros(3) == [false, false, false];
    assert Zeros(5) == [false, false, false, false, false];
    assert Zeros(7) == [false, false, false, false, false, false, false];
  }

  lemma Associative(a: seq<bool>, b: seq<bool>, c: seq<bool>)
    ensures a + (b + c) == a + b + c
  {
  }

  /** The units of the MO word. */
  lemma WordMO()
    ensures WordUnits([LETTER_M, LETTER_O]) == CharUnits(LETTER_M) + [false, false, false] + CharUnits(LETTER_O)
  {
    WordJoin([LETTER_M], [LETTER_O]);
    assert [LETTER_M] + [LETTER_O] == [LETTER_M, LETTER_O];
  }

  /** The units of MO followed by one more character `x`. */
  lemma WordMOX(x: seq<Sign>)
    requires |x| >= 1
    ensures WordUnits([LETTER_M, LETTER_O, x]) == WordUnits([LETTER_M, LETTER_O]) + [false, false, false] + CharUnits(x)
  {
    WordJoin([LETTER_M, LETTER_O], [x]);
    assert [LETTER_M, LETTER_O] + [x] == [LETTER_M, LETTER_O, x];
  }

  /** The pattern bytes of each table up to its first zero byte. */
  lemma PatternMO()
    ensures Pattern(CodeTable(MO)) == ByteBits(0xee) + ByteBits(0x3b) + ByteBits(0xb8)
  {
    var code := CodeTable(MO);
    assert Pattern(code[1..][1..][1..]) == [] by { assert code[1..][1..][1..] == [0x00, 0x00, 0x00]; }
    assert Pattern(code[1..][1..]) == ByteBits(0xb8) by { assert code[1..][1..][0] == 0xb8; }
    assert Pattern(code[1..]) == ByteBits(0x3b) + ByteBits(0xb8) by { assert code[1..][0] == 0x3b; }
  }

  lemma PatternMOE()
    ensures Pattern(CodeTable(MOE)) == ByteBits(0xee) + ByteBits(0x3b) + ByteBits(0xb8) + ByteBits(0x80)
  {
    var code := CodeTable(MOE);
    assert Pattern(code[1..][1..][1..][1..]) == [] by { assert code[1..][1..][1..][1..] == [0x00, 0x00]; }
    assert Pattern(code[1..][1..][1..]) == ByteBits(0x80) by { assert code[1..][1..][1..][0] == 0x80; }
    assert Pattern(code[1..][1..]) == ByteBits(0xb8) + ByteBits(0x80) by { assert code[1..][1..][0] == 0xb8; }
    assert Pattern(code[1..]) == ByteBits(0x3b) + ByteBits(0xb8) + ByteBits(0x80) by { assert code[1..][0] == 0x3b; }
  }

  lemma PatternMOI()
    ensures Pattern(CodeTable(MOI)) == ByteBits(0xee) + ByteBits(0x3b) + ByteBits(0xb8) + ByteBits(0xa0)
  {
    var code := CodeTable(MOI);
    assert Pattern(code[1..][1..][1..][1..]) == [] by { assert code[1..][1..][1..][1..] == [0x00, 0x00]; }
    assert Pattern(code[1..][1..][1..]) == ByteBits(0xa0) by { assert code[1..][1..][1..][0] == 0xa0; }
    assert Pattern(code[1..][1..]) == ByteBits(0xb8) + ByteBits(0xa0) by { assert code[1..][1..][0] == 0xb8; }
    assert Pattern(code[1..]) == ByteBits(0x3b) + ByteBits(0xb8) + ByteBits(0xa0) by { assert code[1..][0] == 0x3b; }
  }

  lemma PatternMOS()
    ensures Pattern(CodeTable(MOS)) == ByteBits(0xee) + ByteBits(0x3b) + ByteBits(0xb8) + ByteBits(0xa8)
  {
    var code := CodeTable(MOS);
    assert Pattern(code[1..][1..][1..][1..]) == [] by { assert code[1..][1..][1..][1..] == [0x00, 0x00]; }
    assert Pattern(code[1..][1..][1..]) == ByteBits(0xa8) by { assert code[1..][1..][1..][0] == 0xa8; }
    assert Pattern(code[1..][1..]) == ByteBits(0xb8) + ByteBits(0xa8) by { assert code[1..][1..][0] == 0xb8; }
    assert Pattern(code[1..]) == ByteBits(0x3b) + ByteBits(0xb8) + ByteBits(0xa8) by { assert code[1..][0] == 0x3b; }
  }

  lemma PatternMOH()
    ensures Pattern(CodeTable(MOH)) == ByteBits(0xee) + ByteBits(0x3b) + ByteBits(0xb8) + ByteBits(0xaa)
  {
    var code := CodeTable(MOH);
    assert Pattern(code[1..][1..][1..][1..]) == [] by { assert code[1..][1..][1..][1..] == [0x00, 0x00]; }
    assert Pattern(code[1..][1..][1..]) == ByteBits(0xaa) by { assert code[1..][1..][1..][0] == 0xaa; }
    assert Pattern(code[1..][1..]) == ByteBits(0xb8) + ByteBits(0xaa) by { assert code[1..][1..][0] == 0xb8; }
    assert Pattern(code[1..]) == ByteBits(0x3b) + ByteBits(0xb8) + ByteBits(0xaa) by { assert code[1..][0] == 0x3b; }
  }

  lemma PatternMO5()
    ensures Pattern(CodeTable(MO5)) == ByteBits(0xee) + ByteBits(0x3b) + ByteBits(0xb8) + ByteBits(0xaa) + ByteBits(0x80)
  {
    var code := CodeTable(MO5);
    var e, o, t, h, f := ByteBits(0xee), ByteBits(0x3b), ByteBits(0xb8), ByteBits(0xaa), ByteBits(0x80);
    assert Pattern(code[5..]) == [] by { assert code[5..] == [0x00]; }
    assert Pattern(code[4..]) == f by { assert code[4..][1..] == code[5..]; }
    assert Pattern(code[3..]) == h + f by { assert code[3..][1..] == code[4..]; }
    assert Pattern(code[2..]) == t + (h + f) by { assert code[2..][1..] == code[3..]; }
    assert Pattern(code[1..]) == o + (t + (h + f)) by { assert code[1..][1..] == code[2..]; }
    assert Pattern(code) == e + (o + (t + (h + f)));
  }

  lemma PatternS()
    ensures Pattern(CodeTable(S)) == ByteBits(0xa8)
  {
    var code := CodeTable(S);
    assert Pattern(code[1..]) == [] by { assert code[1..] == [0x00, 0x00, 0x00, 0x00, 0x00]; }
  }

  /** Every pattern is its identifier's units followed by off units. */
  lemma Spells(id: CodeId)
    ensures |WordUnits(Spell(id))| == CodeLen(id)
    ensures Pattern(CodeTable(id)) == WordUnits(Spell(id)) + Zeros(8 * TableBytes(id) - CodeLen(id))
  {
    ByteChars();
    Letters();
    var g := [false, false, false];
    WordMO();
    var mo := WordUnits([LETTER_M, LETTER_O]);
    var prefix := ByteBits(0xee) + ByteBits(0x3b) + ByteBits(0xb8);
    assert prefix == mo + g by {
      assert Zeros(3) == g;
    }
    match id
    case MO => PatternMO();
    case MOE => PatternMOE(); WordMOX(LETTER_E); Associative(mo + g, CharUnits(LETTER_E), Zeros(7));
    case MOI => PatternMOI(); WordMOX(LETTER_I); Associative(mo + g, CharUnits(LETTER_I), Zeros(5));
    case MOS => PatternMOS(); WordMOX(LETTER_S); Associative(mo + g, CharUnits(LETTER_S), Zeros(3));
    case MOH => PatternMOH(); WordMOX(LETTER_H); Associative(mo + g, CharUnits(LETTER_H), Zeros(1));
    case MO5 =>
      PatternMO5();
      WordMOX(DIGIT_5);
      Associative(prefix, ByteBits(0xaa), ByteBits(0x80));
      Associative(mo + g, CharUnits(DIGIT_5), Zeros(7));
    case S => PatternS();
  }

  /** A pattern that is the units of a Morse word followed by off units has
      that word as its first `len` units, ends its word at `len`, and has no
      run of more than three off units inside the word. */
  lemma WordPattern(code: seq<bv8>, w: seq<seq<Sign>>, t: nat)
    requires IsWord(w) && Pattern(code) == WordUnits(w) + Zeros(t)
    ensures WordEnds(code, |WordUnits(w)|)
    ensures Segment(code, 0, |WordUnits(w)|) == WordUnits(w)
    ensures GapsBelow(code, |WordUnits(w)|, 4)
  {
    var u := WordUnits(w);
    var p := Pattern(code);
    var len := |u|;
    WordShape(w);
    assert p[len - 1] == u[len - 1];
    forall k | len <= k < |p|
      ensures !StreamBit(code, k)
    {
      assert p[k] == Zeros(t)[k - len];
    }
    SegmentPattern(code, len);
    assert p[..len] == u;
    forall k | 0 <= k < len
      ensures ZeroRun(code, k) < 4
    {
      DenseGap(code, u, k);
    }
  }

  /** Within a dense, framed prefix `u` of the pattern, fewer than four off
      units precede any unit. */
  lemma DenseGap(code: seq<bv8>, u: seq<bool>, k: nat)
    requires Dense(u) && Framed(u) && k < |u| <= |Pattern(code)| && Pattern(code)[..|u|] == u
    ensures ZeroRun(code, k) < 4
  {
    if k >= 4 {
      var i := k - 4;
      assert u[i] || u[i + 1] || u[i + 2] || u[i + 3];
      var j := if u[k - 1] then 1 else if u[k - 2] then 2 else if u[k - 3] then 3 else 4;
      assert u[k - j] == Pattern(code)[k - j];
      ZeroRunBound(code, k, j);
    } else if k > 0 {
      assert u[0] == Pattern(code)[0];
      ZeroRunBound(code, k, k);
    }
  }

  /** Each pattern spells its identifier in Morse code: its first `CodeLen`
      units are the identifier's units, every later unit is off, no run of off
      units inside the word is longer than three, and every table has a zero
      byte at index 5 or earlier, where the read position stops. */
  lemma CodeShape(id: CodeId)
    ensures HasZero(CodeTable(id)) && FirstZero(CodeTable(id)) == TableBytes(id) <= 5
    ensures |WordUnits(Spell(id))| == CodeLen(id)
    ensures WordEnds(CodeTable(id), CodeLen(id))
    ensures Segment(CodeTable(id), 0, CodeLen(id)) == WordUnits(Spell(id))
    ensures GapsBelow(CodeTable(id), CodeLen(id), 4)
  {
    var code := CodeTable(id);
    FirstZeroAt(code, TableBytes(id));
    Spells(id);
    WordPattern(code, Spell(id), 8 * TableBytes(id) - CodeLen(id));
  }

  /** Word framing of each table: with a word gap of at least four units,
      from a state about to restart, the sequencer emits the identifier's
      Morse units followed by exactly `space` off units, `m` times over, and
      is then about to restart again. */
  lemma TableWordRepeats(id: CodeId, space: uint8, q: SeqState, m: nat)
    requires 4 <= space && Restarting(space, q)
    ensures var code, len := CodeTable(id), CodeLen(id);
      && Units(code, space, q, m * (len + space)) == Repeat(WordUnits(Spell(id)) + Zeros(space), m)
      && Restarting(space, RunUnits(code, space, q, m * (len + space)))
  {
    var code, len := CodeTable(id), CodeLen(id);
    CodeShape(id);
    assert GapsBelow(code, len, space) by {
      assert forall k :: 0 <= k < len ==> ZeroRun(code, k) < 4;
    }
    WordRepeats(code, space, q, len, m);
  }

  /** CODE_MO5_LEN is 23, but unit 23 of the MO5 pattern is off (it is in the
      gap between O and 5): the MO5 word is 33 units long. Every other length
      constant is the length of its word. */
  lemma CodeLenAsWrittenMisses()
    ensures !WordEnds(CodeTable(MO5), CodeLenAsWritten(MO5))
    ensures forall id :: id != MO5 ==> CodeLenAsWritten(id) == CodeLen(id)
  {
    PatternMO5();
    ByteLiterals();
    assert Pattern(CodeTable(MO5))[22] == ByteBits(0xb8)[6];
  }

  /** space_adjust of the current firmware: the gap after each word, in units,
      for each interval setting. Only the first four entries are ever indexed. */
  const MAIN_SPACE_ADJUST: seq<uint8> :=
    [10, 7, 8, 4, 6, 17, 4, 7, 11, 15, 10, 5, 9, 13, 10, 13,
     7, 11, 8, 11, 5, 9, 6, 9, 9, 5, 5, 7, 10, 7, 8, 4]

  /** space_adjust of the older LTC6903 firmware, indexed by five switch bits. */
  const PF_SPACE_ADJUST: seq<uint8> :=
    [10, 7, 11, 9, 6, 5, 9, 10, 8, 8, 10, 5, 4, 6, 10, 8,
     7, 11, 15, 5, 17, 9, 13, 7, 4, 11, 5, 7, 7, 9, 13, 4]

  /** Both spacing tables have 32 entries between 4 and 17: every word gap is
      longer than the longest run of off units inside a word, and `space + 1`
      fits in a `uint8_t`. */
  lemma SpacingBounds()
    ensures |MAIN_SPACE_ADJUST| == 32 && |PF_SPACE_ADJUST| == 32
    ensures forall i :: 0 <= i < 32 ==> 4 <= MAIN_SPACE_ADJUST[i] <= 17
    ensures forall i :: 0 <= i < 32 ==> 4 <= PF_SPACE_ADJUST[i] <= 17
  {
  }

  /** SPACE_ADJUST(len, wpm, i), which neither firmware uses: the units of
      word gap beyond the usual seven that spread the rest of an on-phase of
      `seconds` seconds evenly over the words of `len` units it holds. The
      divisions need a unit of at least one tick and room for one word. */
  function SpaceAdjust(len: nat, wpm: nat, seconds: nat): nat
    requires 0 < wpm && 0 < TicksPerSign(wpm)
    requires (len + 7) * TicksPerSign(wpm) <= IntervalCount(seconds) + 7 * TicksPerSign(wpm)
  {
    var t := TicksPerSign(wpm);
    Share(IntervalCount(seconds) + 7 * t, len + 7, t)
  }

  /** The units of `t` ticks left over when `x` ticks hold whole words of `n`
      units, divided by the number of those words. */
  function Share(x: nat, n: nat, t: nat): nat
    requires 0 < n && 0 < t && n * t <= x
  {
    WordsInPhase(x, n, t);
    x % (n * t) / t / (x / (n * t))
  }

  /** A word of `n` units of `t` ticks fits `x` at least once. */
  lemma WordsInPhase(x: nat, n: nat, t: nat)
    requires 0 < n && 0 < t && n * t <= x
    ensures 0 < n * t && 1 <= x / (n * t)
  {
    MulLeft(1, n, t);
  }

  lemma DivMod(a: nat, b: nat)
    requires 0 < b
    ensures a == a / b * b + a % b && a % b < b
  {
  }

  /** The quotient-and-remainder steps of SPACE_ADJUST: `x` ticks are `q`
      words of `w` ticks and `u` spare units of `t` ticks (and less than a
      unit more), and the `u` spare units share out as `r` per word. */
  lemma ShareOut(x: nat, w: nat, t: nat, q: nat, u: nat, r: nat)
    requires 0 < t && 0 < w && 1 <= q
    requires q == x / w && u == x % w / t && r == u / q
    ensures q * w + q * r * t <= x < q * w + q * (r + 1) * t
  {
    var rem := x % w;
    DivMod(x, w);
    DivMod(rem, t);
    DivMod(u, q);
    assert q * r <= u && u + 1 <= q * (r + 1);
    MulLeft(q * r, u, t);
    MulLeft(u + 1, q * (r + 1), t);
  }

  lemma MulLeft(a: nat, b: nat, c: nat)
    requires a <= b
    ensures a * c <= b * c
  {
  }

  /** The `q` words of `n` units that fit in `x` ticks still fit with `r`
      more units each, and would not with `r + 1` more. */
  lemma ShareFits(x: nat, n: nat, t: nat)
    requires 0 < n && 0 < t && n * t <= x
    ensures var q, r := x / (n * t), Share(x, n, t);
      1 <= q && q * (n + r) * t <= x < q * (n + r + 1) * t
  {
    var w := n * t;
    WordsInPhase(x, n, t);
    var q, r := x / w, Share(x, n, t);
    ShareOut(x, w, t, q, x % w / t, r);
    Spread(q, n, r, t);
    Spread(q, n, r + 1, t);
  }

  lemma Spread(q: nat, n: nat, r: nat, t: nat)
    ensures q * (n + r) * t == q * (n * t) + q * r * t
  {
    assert q * (n + r) == q * n + q * r;
    assert (q * n + q * r) * t == q * n * t + q * r * t;
    assert q * n * t == q * (n * t);
  }

  /** SPACE_ADJUST's word gap spreads an on-phase evenly: the `q` words of
      `len` units with the usual seven-unit gap that fit in the on-phase (plus
      one trailing gap) still fit when each gap is longer by the result, and
      would not with one unit more. */
  lemma SpaceAdjustFits(len: nat, wpm: nat, seconds: nat)
    requires 0 < wpm && 0 < TicksPerSign(wpm)
    requires (len + 7) * TicksPerSign(wpm) <= IntervalCount(seconds) + 7 * TicksPerSign(wpm)
    ensures var t, r := TicksPerSign(wpm), SpaceAdjust(len, wpm, seconds);
      var x := IntervalCount(seconds) + 7 * t;
      var q := x / ((len + 7) * t);
      && 1 <= q
      && q * (len + 7 + r) * t <= x < q * (len + 7 + r + 1) * t
  {
    ShareFits(IntervalCount(seconds) + 7 * TicksPerSign(wpm), len + 7, TicksPerSign(wpm));
  }

  /** The LTC6903 divider settings of the eight frequency-switch positions. */
  const FREQUENCIES: seq<uint16> := [803, 810, 813, 820, 824, 827, 834, 837]

  /** Every frequency setting fits the ten DAC bits of the oscillator. */
  lemma FrequencyBounds()
    ensures |FREQUENCIES| == 8
    ensures forall i :: 0 <= i < 8 ==> FREQUENCIES[i] < 1024
  {
  }
}
