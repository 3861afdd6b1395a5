/** Game-wide constants of Values.cs and the numeric helpers the source takes from Mathf/System.Math. */
module Values {
  /** Pre-roll before the audio starts, in ms. */
  const WaitTime: int := 1500
  /** How far ahead of its time stamp a note or barline is spawned, in ms. */
  const SpawnTime: int := 1000
  /** Judgment windows in ms (the first is spelled `prefectWindow` in the source). */
  const PerfectWindow: int := 60
  const GoodWindow: int := 90
  const BadWindow: int := 120
  /** Size of the note holder (the playfield) in pixels. */
  const NoteHolderWidth: int := 512
  const NoteHolderHeight: int := 384

  function Abs(x: int): (r: nat)
    ensures r == x || r == -x
  {
    if x < 0 then -x else x
  }

  function AbsReal(x: real): (r: real)
    ensures r >= 0.0 && (r == x || r == -x)
  {
    if x < 0.0 then -x else x
  }

  /** C#'s `(int)` cast of a float: truncation toward zero. */
  function Truncate(x: real): (r: int)
    ensures x >= 0.0 ==> r as real <= x < r as real + 1.0
    ensures x < 0.0 ==> r as real - 1.0 < x <= r as real
  {
    if x >= 0.0 then x.Floor else -((-x).Floor)
  }

  /** Mathf.FloorToInt. */
  function FloorToInt(x: real): (r: int)
    ensures r as real <= x < r as real + 1.0
  {
    x.Floor
  }

  /** Mathf.Clamp on ints: below `lo` gives `lo`, above `hi` gives `hi`. */
  function Clamp(x: int, lo: int, hi: int): (r: int)
    requires lo <= hi
    ensures lo <= r <= hi
    ensures lo <= x <= hi ==> r == x
    ensures x < lo ==> r == lo
    ensures x > hi ==> r == hi
  {
    if x < lo then lo else if x > hi then hi else x
  }

  /** Mathf.Clamp on floats. */
  function ClampReal(x: real, lo: real, hi: real): (r: real)
    requires lo <= hi
    ensures lo <= r <= hi
    ensures lo <= x <= hi ==> r == x
    ensures x < lo ==> r == lo
    ensures x > hi ==> r == hi
  {
    if x < lo then lo else if x > hi then hi else x
  }

  /** Division of naturals stays natural, and nothing divided is nothing. */
  lemma NatDivision(x: nat, y: nat)
    requires y > 0
    ensures x / y >= 0 && (x == 0 ==> x / y == 0)
  {
  }

  /**
   * C#'s integer `/`, which truncates toward zero (Dafny's `/` is
   * Euclidean): the magnitude is the quotient of the magnitudes, and the
   * sign is positive when the operands' signs agree, negative when they differ.
   */
  function TruncDiv(a: int, b: int): (q: int)
    requires b != 0
    ensures Abs(q) == Abs(a) / Abs(b)
    ensures q > 0 ==> (a > 0) == (b > 0)
    ensures q < 0 ==> (a > 0) != (b > 0)
    ensures a >= 0 && b > 0 ==> q == a / b
  {
    var m := Abs(a) / Abs(b);
    NatDivision(Abs(a), Abs(b));
    if (a >= 0) == (b > 0) then m else -m
  }
}
