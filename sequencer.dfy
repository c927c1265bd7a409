/** The Morse sequencer shared by both tick handlers: the body that runs when a
    unit countdown expires (restart check, read of the current pattern bit,
    advance of the read position), and what a run of such unit steps emits.
    The position `code_ptr` of the C code is an index into the 6-byte `code`
    buffer. */
module Sequencer {
  import opened Bits

  /** The single-bit mask `bit` holds at bit position `i` of a byte, most
      significant bit first: 0x80 >> i. */
  function Mask(i: nat): bv8
    requires i < 8
  {
    if i == 0 then 0x80 else if i == 1 then 0x40 else if i == 2 then 0x20
    else if i == 3 then 0x10 else if i == 4 then 0x08 else if i == 5 then 0x04
    else if i == 6 then 0x02 else 0x01
  }

  /** One of the eight single-bit masks. */
  predicate IsMask(b: bv8) {
    b == 0x80 || b == 0x40 || b == 0x20 || b == 0x10 || b == 0x08 || b == 0x04 || b == 0x02 || b == 0x01
  }

  predicate HasZero(code: seq<bv8>) {
    exists i :: 0 <= i < |code| && code[i] == 0
  }

  /** Index of the first zero byte of a pattern buffer: the byte the read position stops at. */
  function FirstZero(code: seq<bv8>): (z: nat)
    requires HasZero(code)
    ensures z < |code| && code[z] == 0
  {
    if code[0] == 0 then 0
    else
      assert HasZero(code[1..]) by {
        var i :| 0 <= i < |code| && code[i] == 0;
        assert code[1..][i - 1] == 0;
      }
      1 + FirstZero(code[1..])
  }

  /** The sequencer globals: `code_ptr` (as an index), `bit` and `space_count`. */
  datatype SeqState = SeqState(codePtr: nat, bit: bv8, spaceCount: uint8)

  /** The state the restart branch sets: first byte, mask 0x80, no off units counted. */
  const Home: SeqState := SeqState(0, 0x80, 0)

  /** The read position lies inside the buffer, no further than its first zero
      byte, and `bit` is a single-bit mask. */
  predicate WellFormed(code: seq<bv8>, s: SeqState) {
    HasZero(code) && s.codePtr <= FirstZero(code) && IsMask(s.bit)
  }

  /** What one unit step decides: the key level of the unit and the next state. */
  datatype Unit = Unit(key: bool, next: SeqState)

  /** The byte at position `p`; a well-formed state never reads past the
      buffer, where the value 0 stands in. */
  function ByteAt(code: seq<bv8>, p: nat): bv8 {
    if p < |code| then code[p] else 0
  }

  /** The body of the tick handler that runs when the unit countdown expires.
      If `space` off units have been counted the word restarts at the first
      byte; the bit under the mask is the key level of the unit; a set bit
      clears the off-unit count and a clear bit increments it; the mask moves
      right, and after the last bit of a byte the position moves to the next
      byte unless the current byte is zero. */
  function Step(code: seq<bv8>, space: uint8, s: SeqState): Unit {
    var from := if s.spaceCount >= space then Home else s;
    var byte := ByteAt(code, from.codePtr);
    var key := byte & from.bit != 0;
    var count := if key then 0 else Wrap8(from.spaceCount + 1);
    var bit := from.bit >> 1;
    if bit == 0 then
      Unit(key, SeqState(if byte != 0 then from.codePtr + 1 else from.codePtr, 0x80, count))
    else
      Unit(key, SeqState(from.codePtr, bit, count))
  }

  /** A unit step keeps the state well formed: the mask stays a single bit
      and the read position never moves past the first zero byte. */
  lemma StepWellFormed(code: seq<bv8>, space: uint8, s: SeqState)
    requires WellFormed(code, s)
    ensures WellFormed(code, Step(code, space, s).next)
  {
    var from := if s.spaceCount >= space then Home else s;
    assert from.bit >> 1 == 0 || IsMask(from.bit >> 1);
  }

  /** What a unit step does: it restarts when `space` off units have been
      counted; the key level is the bit under the mask; a set bit clears the
      off-unit count and a clear bit adds one to it, which stays within
      `space`; the read position moves by at most one byte, and never past a
      zero byte. */
  lemma StepSpec(code: seq<bv8>, space: uint8, s: SeqState)
    requires WellFormed(code, s)
    ensures var u := Step(code, space, s);
      var from := if s.spaceCount >= space then Home else s;
      && (u.key <==> code[from.codePtr] & from.bit != 0)
      && (u.key ==> u.next.spaceCount == 0)
      && (!u.key ==> u.next.spaceCount == from.spaceCount + 1)
      && (u.next.codePtr == from.codePtr || (u.next.codePtr == from.codePtr + 1 && code[from.codePtr] != 0))
      && (1 <= space ==> u.next.spaceCount <= space)
  {
  }

  function Min(a: nat, b: nat): nat {
    if a <= b then a else b
  }

  /** The eight bits of a byte, most significant first. */
  function ByteBits(b: bv8): (r: seq<bool>)
    ensures |r| == 8 && forall i :: 0 <= i < 8 ==> r[i] == (b & Mask(i) != 0)
  {
    [b & 0x80 != 0, b & 0x40 != 0, b & 0x20 != 0, b & 0x10 != 0,
     b & 0x08 != 0, b & 0x04 != 0, b & 0x02 != 0, b & 0x01 != 0]
  }

  /** The bits of the pattern buffer up to its first zero byte. */
  function Pattern(code: seq<bv8>): (p: seq<bool>)
  {
    if |code| == 0 || code[0] == 0 then [] else ByteBits(code[0]) + Pattern(code[1..])
  }

  /** The pattern holds eight units per byte before the first zero byte. */
  lemma {:induction false} PatternLength(code: seq<bv8>)
    requires HasZero(code)
    ensures |Pattern(code)| == 8 * FirstZero(code)
  {
    if code[0] != 0 {
      PatternLength(code[1..]);
    }
  }

  /** Units `8 * b` to `8 * b + 7` of the pattern are the bits of byte `b`. */
  lemma {:induction false} PatternByte(code: seq<bv8>, b: nat)
    requires HasZero(code) && b < FirstZero(code)
    ensures 8 * b + 8 <= |Pattern(code)| && Pattern(code)[8 * b .. 8 * b + 8] == ByteBits(code[b])
  {
    PatternLength(code);
    var rest := code[1..];
    var head := ByteBits(code[0]);
    assert Pattern(code) == head + Pattern(rest);
    if b == 0 {
      assert Pattern(code)[0..8] == head;
    } else {
      var b' := b - 1;
      assert FirstZero(rest) == FirstZero(code) - 1;
      PatternByte(rest, b');
      assert 8 * b' + 8 == 8 * b;
      assert Pattern(code)[8 * b .. 8 * b + 8] == Pattern(rest)[8 * b' .. 8 * b' + 8];
      assert rest[b'] == code[b];
    }
  }

  /** Every byte before the first zero byte is nonzero. */
  lemma {:induction false} BeforeZero(code: seq<bv8>, j: nat)
    requires HasZero(code) && j < FirstZero(code)
    ensures code[j] != 0
  {
    if j > 0 {
      var rest := code[1..];
      BeforeZero(rest, j - 1);
      assert rest[j - 1] == code[j];
    }
  }

  /** Unit `k` of the pattern is the bit of byte `k / 8` under mask `k % 8`. */
  lemma PatternBit(code: seq<bv8>, k: nat)
    requires HasZero(code) && k < 8 * FirstZero(code)
    ensures k < |Pattern(code)| && Pattern(code)[k] == (code[k / 8] & Mask(k % 8) != 0)
  {
    var b, i := k / 8, k % 8;
    assert k == 8 * b + i && i < 8;
    PatternByte(code, b);
    assert Pattern(code)[k] == Pattern(code)[8 * b .. 8 * b + 8][i];
  }

  /** Unit `k` of the pattern; every unit from the first zero byte on is off. */
  function StreamBit(code: seq<bv8>, k: nat): bool
  {
    k < |Pattern(code)| && Pattern(code)[k]
  }

  /** The sequencer is positioned at unit `k` of the pattern: the read position
      stays at the first zero byte once it reaches it. */
  predicate AtUnit(code: seq<bv8>, s: SeqState, k: nat)
    requires HasZero(code)
  {
    s.codePtr == Min(k / 8, FirstZero(code)) && s.bit == Mask(k % 8)
  }

  /** Units `from`, ..., `from + n - 1` of the pattern. */
  function Segment(code: seq<bv8>, from: nat, n: nat): (r: seq<bool>)
    ensures |r| == n
    decreases n
  {
    if n == 0 then [] else [StreamBit(code, from)] + Segment(code, from + 1, n - 1)
  }

  /** Number of off units immediately before unit `k` of the pattern. */
  function ZeroRun(code: seq<bv8>, k: nat): (r: nat)
    ensures r <= k
  {
    if k == 0 then 0
    else if StreamBit(code, k - 1) then 0
    else ZeroRun(code, k - 1) + 1
  }

  function Zeros(n: nat): (r: seq<bool>)
    ensures |r| == n && forall i :: 0 <= i < n ==> !r[i]
  {
    seq(n, _ => false)
  }

  function Repeat(w: seq<bool>, m: nat): (r: seq<bool>)
    ensures |r| == m * |w|
  {
    if m == 0 then [] else w + Repeat(w, m - 1)
  }

  /** The state after `n` unit steps. */
  function RunUnits(code: seq<bv8>, space: uint8, s: SeqState, n: nat): SeqState
    decreases n
  {
    if n == 0 then s else RunUnits(code, space, Step(code, space, s).next, n - 1)
  }

  /** The key levels of `n` unit steps. */
  function Units(code: seq<bv8>, space: uint8, s: SeqState, n: nat): (keys: seq<bool>)
    ensures |keys| == n
    decreases n
  {
    if n == 0 then []
    else
      var u := Step(code, space, s);
      [u.key] + Units(code, space, u.next, n - 1)
  }

  /** The first zero byte is the zero byte that only nonzero bytes precede. */
  lemma {:induction false} FirstZeroAt(code: seq<bv8>, z: nat)
    requires z < |code| && code[z] == 0
    requires forall j :: 0 <= j < z ==> code[j] != 0
    ensures HasZero(code) && FirstZero(code) == z
  {
    if z > 0 {
      var rest := code[1..];
      assert forall j :: 0 <= j < z - 1 ==> rest[j] == code[j + 1];
      FirstZeroAt(rest, z - 1);
    }
  }

  /** A set unit `j` places before `k` bounds the run of off units before `k`. */
  lemma {:induction false} ZeroRunBound(code: seq<bv8>, k: nat, j: nat)
    requires 1 <= j <= k && StreamBit(code, k - j)
    ensures ZeroRun(code, k) < j
    decreases j
  {
    if j > 1 {
      if !StreamBit(code, k - 1) {
        ZeroRunBound(code, k - 1, j - 1);
      }
    }
  }

  /** Leading units of the pattern, as a segment. */
  lemma SegmentPattern(code: seq<bv8>, n: nat)
    requires n <= |Pattern(code)|
    ensures Segment(code, 0, n) == Pattern(code)[..n]
  {
    forall i | 0 <= i < n
      ensures Segment(code, 0, n)[i] == Pattern(code)[i]
    {
      SegmentAt(code, 0, n, i);
    }
  }

  /** `len` is the length of the word in the pattern: unit `len - 1` is on,
      every later unit is off. */
  predicate WordEnds(code: seq<bv8>, len: nat) {
    && 1 <= len
    && StreamBit(code, len - 1)
    && forall k :: len <= k < |Pattern(code)| ==> !StreamBit(code, k)
  }

  /** No run of off units inside the word reaches the restart threshold. */
  predicate GapsBelow(code: seq<bv8>, len: nat, space: nat) {
    forall k :: 0 <= k < len ==> ZeroRun(code, k) < space
  }

  /** The sequencer will restart the word at its next step: the off-unit count
      has reached the threshold (as after an off tick or a finished word), or
      it has just been restarted. */
  predicate Restarting(space: uint8, s: SeqState) {
    s.spaceCount >= space || s == Home
  }

  /** A step from unit `k`, when no restart is due, emits unit `k` of the
      pattern and moves to unit `k + 1`. */
  lemma StepAtUnit(code: seq<bv8>, space: uint8, s: SeqState, k: nat)
    requires HasZero(code) && AtUnit(code, s, k) && s.spaceCount < space
    ensures WellFormed(code, s)
    ensures var u := Step(code, space, s);
      && u.key == StreamBit(code, k)
      && AtUnit(code, u.next, k + 1)
      && u.next.spaceCount == (if u.key then 0 else s.spaceCount + 1)
  {
    var z := FirstZero(code);
    var i := k % 8;
    PatternLength(code);
    if k < 8 * z {
      PatternBit(code, k);
      BeforeZero(code, k / 8);
    }
    assert k / 8 < z ==> s.codePtr == k / 8;
    assert k / 8 >= z ==> s.codePtr == z;
    if i < 7 {
      assert (k + 1) / 8 == k / 8 && (k + 1) % 8 == i + 1;
      assert Mask(i) >> 1 == Mask(i + 1);
    } else {
      assert (k + 1) / 8 == k / 8 + 1 && (k + 1) % 8 == 0;
      assert Mask(i) >> 1 == 0;
    }
  }

  lemma {:induction false} SegmentAt(code: seq<bv8>, from: nat, n: nat, i: nat)
    requires i < n
    ensures Segment(code, from, n)[i] == StreamBit(code, from + i)
    decreases n
  {
    var rest := Segment(code, from + 1, n - 1);
    assert Segment(code, from, n) == [StreamBit(code, from)] + rest;
    if i > 0 {
      SegmentAt(code, from + 1, n - 1, i - 1);
      assert Segment(code, from, n)[i] == rest[i - 1];
      assert from + 1 + (i - 1) == from + i;
    }
  }

  lemma {:induction false} SegmentSplit(code: seq<bv8>, from: nat, a: nat, b: nat)
    ensures Segment(code, from, a + b) == Segment(code, from, a) + Segment(code, from + a, b)
    decreases a
  {
    if a > 0 {
      var next, a', n' := from + 1, a - 1, a + b - 1;
      assert a' + b == n' && next + a' == from + a;
      SegmentSplit(code, next, a', b);
      var head := [StreamBit(code, from)];
      assert Segment(code, from, a + b) == head + Segment(code, next, n');
      assert Segment(code, from, a) == head + Segment(code, next, a');
    }
  }

  /** A sequencer positioned at unit `k` is well formed. */
  lemma AtUnitWellFormed(code: seq<bv8>, s: SeqState, k: nat)
    requires HasZero(code) && AtUnit(code, s, k)
    ensures WellFormed(code, s)
  {
  }

  /** From unit `k`, with the off-unit count equal to the run of off units
      before `k`, the `e - k` steps to unit `e` reach it with the off-unit
      count equal to the run before it, as long as no run before them
      reaches the threshold. */
  lemma {:induction false} WalkState(code: seq<bv8>, space: uint8, s: SeqState, k: nat, e: nat)
    requires HasZero(code) && AtUnit(code, s, k) && s.spaceCount == ZeroRun(code, k) && k <= e
    requires forall j :: k <= j < e ==> ZeroRun(code, j) < space
    ensures AtUnit(code, RunUnits(code, space, s, e - k), e)
    ensures RunUnits(code, space, s, e - k).spaceCount == ZeroRun(code, e)
    decreases e - k
  {
    if k < e {
      WalkStep(code, space, s, k);
      var t := Step(code, space, s).next;
      WalkState(code, space, t, k + 1, e);
      assert RunUnits(code, space, s, e - k) == RunUnits(code, space, t, e - (k + 1));
    }
  }

  /** One step of the walk: the position moves to the next unit and the gap
      count follows the pattern's off-run. */
  lemma WalkStep(code: seq<bv8>, space: uint8, s: SeqState, k: nat)
    requires HasZero(code) && AtUnit(code, s, k) && s.spaceCount == ZeroRun(code, k) < space
    ensures var t := Step(code, space, s).next;
      AtUnit(code, t, k + 1) && t.spaceCount == ZeroRun(code, k + 1)
  {
    StepAtUnit(code, space, s, k);
  }

  /** Under the same conditions, the `n` steps emit units `k .. k + n - 1`
      of the pattern. */
  lemma {:induction false} Walk(code: seq<bv8>, space: uint8, s: SeqState, k: nat, n: nat)
    requires HasZero(code) && AtUnit(code, s, k) && s.spaceCount == ZeroRun(code, k)
    requires forall j :: k <= j < k + n ==> ZeroRun(code, j) < space
    ensures Units(code, space, s, n) == Segment(code, k, n)
    decreases n
  {
    if n > 0 {
      var k', n' := k + 1, n - 1;
      assert k' + n' == k + n;
      StepAtUnit(code, space, s, k);
      var u := Step(code, space, s);
      assert u.next.spaceCount == ZeroRun(code, k');
      Walk(code, space, u.next, k', n');
      assert Units(code, space, s, n) == [u.key] + Units(code, space, u.next, n');
      assert Segment(code, k, n) == [StreamBit(code, k)] + Segment(code, k', n');
    }
  }

  /** After the word, the run of off units grows by one per unit. */
  lemma {:induction false} TrailingZeros(code: seq<bv8>, len: nat, j: nat)
    requires WordEnds(code, len)
    ensures ZeroRun(code, len + j) == j
    ensures !StreamBit(code, len + j)
  {
    var k := len + j;
    if j > 0 {
      TrailingZeros(code, len, j - 1);
      assert k - 1 == len + (j - 1);
    } else {
      assert k - 1 == len - 1;
    }
  }

  lemma {:induction false} RunSplit(code: seq<bv8>, space: uint8, s: SeqState, a: nat, b: nat)
    ensures RunUnits(code, space, s, a + b) == RunUnits(code, space, RunUnits(code, space, s, a), b)
    decreases a
  {
    if a > 0 {
      var t := Step(code, space, s).next;
      var a', n' := a - 1, a + b - 1;
      assert a' + b == n';
      RunSplit(code, space, t, a', b);
      assert RunUnits(code, space, s, a) == RunUnits(code, space, t, a');
      assert RunUnits(code, space, s, a + b) == RunUnits(code, space, t, n');
    }
  }

  lemma {:induction false} UnitsSplit(code: seq<bv8>, space: uint8, s: SeqState, a: nat, b: nat)
    ensures Units(code, space, s, a + b) == Units(code, space, s, a) + Units(code, space, RunUnits(code, space, s, a), b)
    decreases a
  {
    if a > 0 {
      var u := Step(code, space, s);
      var t := u.next;
      var a', n' := a - 1, a + b - 1;
      assert a' + b == n';
      UnitsSplit(code, space, t, a', b);
      assert RunUnits(code, space, s, a) == RunUnits(code, space, t, a');
      assert Units(code, space, s, a + b) == [u.key] + Units(code, space, t, n');
      assert Units(code, space, s, a) == [u.key] + Units(code, space, t, a');
    }
  }

  /** Every state a run of unit steps reaches from a well-formed state is well formed. */
  lemma {:induction false} RunWellFormed(code: seq<bv8>, space: uint8, s: SeqState, n: nat)
    requires WellFormed(code, s)
    ensures WellFormed(code, RunUnits(code, space, s, n))
    decreases n
  {
    if n > 0 {
      StepWellFormed(code, space, s);
      RunWellFormed(code, space, Step(code, space, s).next, n - 1);
    }
  }

  /** A state about to restart behaves as the restarted state `Home`. */
  lemma RestartIsHome(code: seq<bv8>, space: uint8, s: SeqState, n: nat)
    requires Restarting(space, s) && 1 <= space && 1 <= n
    ensures Units(code, space, s, n) == Units(code, space, Home, n)
    ensures RunUnits(code, space, s, n) == RunUnits(code, space, Home, n)
  {
    assert Step(code, space, s) == Step(code, space, Home);
  }

  /** The pattern units after the word are all off. */
  lemma TrailSegment(code: seq<bv8>, len: nat, m: nat)
    requires WordEnds(code, len)
    ensures Segment(code, len, m) == Zeros(m)
  {
    forall i | 0 <= i < m
      ensures Segment(code, len, m)[i] == false
    {
      SegmentAt(code, len, m, i);
      TrailingZeros(code, len, i);
    }
  }

  /** The off runs stay below the threshold until `space` off units follow the word. */
  lemma GapsThroughTrail(code: seq<bv8>, len: nat, space: uint8)
    requires WordEnds(code, len) && GapsBelow(code, len, space)
    ensures forall j :: 0 <= j < len + space ==> ZeroRun(code, j) < space
  {
    forall j | 0 <= j < len + space
      ensures ZeroRun(code, j) < space
    {
      if j >= len {
        TrailingZeros(code, len, j - len);
      }
    }
  }

  /** Word framing from the restarted state: the word, then `space` off units. */
  lemma WordCycleUnits(code: seq<bv8>, space: uint8, len: nat)
    requires HasZero(code) && 1 <= space
    requires WordEnds(code, len) && GapsBelow(code, len, space)
    ensures Units(code, space, Home, len + space) == Segment(code, 0, len) + Zeros(space)
  {
    GapsThroughTrail(code, len, space);
    assert AtUnit(code, Home, 0);
    Walk(code, space, Home, 0, len + space);
    SegmentSplit(code, 0, len, space);
    TrailSegment(code, len, space);
  }

  /** After them `space` off units have been counted. */
  lemma WordCycleCount(code: seq<bv8>, space: uint8, len: nat)
    requires HasZero(code) && 1 <= space
    requires WordEnds(code, len) && GapsBelow(code, len, space)
    ensures RunUnits(code, space, Home, len + space).spaceCount == space
  {
    GapsThroughTrail(code, len, space);
    assert AtUnit(code, Home, 0);
    WalkState(code, space, Home, 0, len + space);
    assert len + space - 0 == len + space;
    TrailingZeros(code, len, space);
  }

  /** Word framing: from a state about to restart, the next `len + space`
      unit steps emit the word (pattern units 1 .. len) followed by exactly
      `space` off units, and leave the sequencer about to restart again. */
  lemma WordCycle(code: seq<bv8>, space: uint8, s: SeqState, len: nat)
    requires HasZero(code) && Restarting(space, s) && 1 <= space
    requires WordEnds(code, len) && GapsBelow(code, len, space)
    ensures Units(code, space, s, len + space) == Segment(code, 0, len) + Zeros(space)
    ensures RunUnits(code, space, s, len + space).spaceCount == space
  {
    RestartIsHome(code, space, s, len + space);
    WordCycleUnits(code, space, len);
    WordCycleCount(code, space, len);
  }

  /** The word repeats: from a state about to restart, `m * (len + space)`
      unit steps emit `m` copies of the word with its `space` trailing off units. */
  lemma {:induction false} WordRepeats(code: seq<bv8>, space: uint8, s: SeqState, len: nat, m: nat)
    requires HasZero(code) && Restarting(space, s) && 1 <= space
    requires WordEnds(code, len) && GapsBelow(code, len, space)
    ensures Units(code, space, s, m * (len + space)) == Repeat(Segment(code, 0, len) + Zeros(space), m)
    ensures Restarting(space, RunUnits(code, space, s, m * (len + space)))
    decreases m
  {
    var p := len + space;
    if m == 0 {
    } else {
      WordCycle(code, space, s, len);
      var t := RunUnits(code, space, s, p);
      WordRepeats(code, space, t, len, m - 1);
      assert m * p == p + (m - 1) * p;
      UnitsSplit(code, space, s, p, (m - 1) * p);
      RunSplit(code, space, s, p, (m - 1) * p);
    }
  }
}
