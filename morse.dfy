/** International Morse code timing as the beacon patterns use it
    (ITU-R Recommendation M.1677-1, Part I, section 2): a dot lasts one unit,
    a dash three, the gap between the signs of a character one unit and the
    gap between characters three units. A unit is `true` while the key is
    down. */
module Morse {

  datatype Sign = Dot | Dash

  /** The characters the beacon codes are spelled with. */
  const LETTER_M: seq<Sign> := [Dash, Dash]
  const LETTER_O: seq<Sign> := [Dash, Dash, Dash]
  const LETTER_E: seq<Sign> := [Dot]
  const LETTER_I: seq<Sign> := [Dot, Dot]
  const LETTER_S: seq<Sign> := [Dot, Dot, Dot]
  const LETTER_H: seq<Sign> := [Dot, Dot, Dot, Dot]
  const DIGIT_5: seq<Sign> := [Dot, Dot, Dot, Dot, Dot]

  /** A character has at least one sign; a word at least one character. */
  predicate IsWord(w: seq<seq<Sign>>) {
    |w| >= 1 && forall i :: 0 <= i < |w| ==> |w[i]| >= 1
  }

  function SignUnits(x: Sign): (u: seq<bool>)
    ensures |u| >= 1 && forall i :: 0 <= i < |u| ==> u[i]
  {
    if x == Dot then [true] else [true, true, true]
  }

  /** The units of a character: its signs separated by one off unit. */
  function CharUnits(c: seq<Sign>): (u: seq<bool>)
    requires |c| >= 1
    decreases |c|
  {
    if |c| == 1 then SignUnits(c[0]) else SignUnits(c[0]) + [false] + CharUnits(c[1..])
  }

  /** The units of a word: its characters separated by three off units. */
  function WordUnits(w: seq<seq<Sign>>): (u: seq<bool>)
    requires IsWord(w)
    decreases |w|
  {
    if |w| == 1 then CharUnits(w[0]) else CharUnits(w[0]) + [false, false, false] + WordUnits(w[1..])
  }

  /** Every window of four consecutive units holds a key-down unit: no run of
      off units is longer than three. */
  predicate Dense(p: seq<bool>) {
    forall i :: 0 <= i && i + 4 <= |p| ==> p[i] || p[i + 1] || p[i + 2] || p[i + 3]
  }

  /** Starts and ends with a key-down unit. */
  predicate Framed(p: seq<bool>) {
    |p| >= 1 && p[0] && p[|p| - 1]
  }

  /** The window at `i` of `a + b` holds a key-down unit; a window across
      the junction contains the last unit of `a` or the first unit of `b`. */
  lemma DenseJoinAt(a: seq<bool>, b: seq<bool>, i: nat)
    requires Dense(a) && Dense(b)
    requires (|a| >= 1 && a[|a| - 1]) || (|b| >= 1 && b[0])
    requires i + 4 <= |a + b|
    ensures var p := a + b; p[i] || p[i + 1] || p[i + 2] || p[i + 3]
  {
    var p := a + b;
    if i + 4 <= |a| {
      assert a[i] || a[i + 1] || a[i + 2] || a[i + 3];
      assert p[i] == a[i] && p[i + 1] == a[i + 1] && p[i + 2] == a[i + 2] && p[i + 3] == a[i + 3];
    } else if i >= |a| {
      var j := i - |a|;
      assert b[j] || b[j + 1] || b[j + 2] || b[j + 3];
      assert p[i] == b[j] && p[i + 1] == b[j + 1] && p[i + 2] == b[j + 2] && p[i + 3] == b[j + 3];
    } else if |a| >= 1 && a[|a| - 1] {
      assert p[|a| - 1] == a[|a| - 1];
    } else {
      assert p[|a|] == b[0];
    }
  }

  /** A set unit on either side of the junction keeps a join dense. */
  lemma DenseJoin(a: seq<bool>, b: seq<bool>)
    requires Dense(a) && Dense(b)
    requires (|a| >= 1 && a[|a| - 1]) || (|b| >= 1 && b[0])
    ensures Dense(a + b)
  {
    forall i | 0 <= i && i + 4 <= |a + b|
      ensures (a + b)[i] || (a + b)[i + 1] || (a + b)[i + 2] || (a + b)[i + 3]
    {
      DenseJoinAt(a, b, i);
    }
  }

  /** A character's units start and end with a sign and have no long gap. */
  lemma {:induction false} CharShape(c: seq<Sign>)
    requires |c| >= 1
    ensures Framed(CharUnits(c)) && Dense(CharUnits(c))
    decreases |c|
  {
    var s := SignUnits(c[0]);
    if |c| > 1 {
      var rest := CharUnits(c[1..]);
      CharShape(c[1..]);
      DenseJoin(s, [false]);
      DenseJoin(s + [false], rest);
      assert CharUnits(c) == s + [false] + rest;
    }
  }

  /** A word's units start and end with a sign, and no run of off units inside
      it is longer than the three-unit character gap. */
  lemma {:induction false} WordShape(w: seq<seq<Sign>>)
    requires IsWord(w)
    ensures Framed(WordUnits(w)) && Dense(WordUnits(w))
    decreases |w|
  {
    var c := CharUnits(w[0]);
    CharShape(w[0]);
    if |w| > 1 {
      var rest := WordUnits(w[1..]);
      WordShape(w[1..]);
      DenseJoin(c, [false, false, false]);
      DenseJoin(c + [false, false, false], rest);
      assert WordUnits(w) == c + [false, false, false] + rest;
    }
  }

  /** Every character of a joined word has a sign. */
  lemma WordJoinIsWord(a: seq<seq<Sign>>, b: seq<seq<Sign>>)
    requires IsWord(a) && IsWord(b)
    ensures IsWord(a + b) && (|a| > 1 ==> IsWord(a[1..]))
  {
    var ab := a + b;
    forall i | 0 <= i < |ab|
      ensures |ab[i]| >= 1
    {
      if i < |a| {
        assert ab[i] == a[i];
      } else {
        assert ab[i] == b[i - |a|];
      }
    }
    if |a| > 1 {
      var a' := a[1..];
      forall i | 0 <= i < |a'|
        ensures |a'[i]| >= 1
      {
        assert a'[i] == a[i + 1];
      }
    }
  }

  /** Joining two words puts one character gap between their units. */
  lemma {:induction false} WordJoin(a: seq<seq<Sign>>, b: seq<seq<Sign>>)
    requires IsWord(a) && IsWord(b)
    ensures IsWord(a + b)
    ensures WordUnits(a + b) == WordUnits(a) + [false, false, false] + WordUnits(b)
    decreases |a|
  {
    WordJoinIsWord(a, b);
    var g := [false, false, false];
    var ab := a + b;
    var c := CharUnits(a[0]);
    assert ab[0] == a[0];
    if |a| == 1 {
      assert ab[1..] == b;
    } else {
      var a' := a[1..];
      assert ab[1..] == a' + b;
      WordJoin(a', b);
      var x, y := WordUnits(a'), WordUnits(b);
      assert WordUnits(ab) == c + g + (x + g + y);
      assert WordUnits(a) == c + g + x;
    }
  }
}
