/**
 * The string operations the chart reader and writer use from .NET:
 * String.Split on one character, String.StartsWith, int.Parse and
 * float.Parse (on white space around plain decimal text), and the decimal
 * text of an integer.
 */
module Text {
  import opened Wrappers

  predicate StartsWith(s: string, prefix: string)
  {
    |prefix| <= |s| && s[..|prefix|] == prefix
  }

  /** `s.Split(c)`: the pieces between separators, empty ones included; there is always at least one. */
  function Split(s: string, c: char): (parts: seq<string>)
    ensures |parts| >= 1
    ensures forall k :: 0 <= k < |parts| ==> c !in parts[k]
  {
    if s == [] then [[]]
    else
      var rest := Split(s[1..], c);
      if s[0] == c then [[]] + rest
      else [[s[0]] + rest[0]] + rest[1..]
  }

  /** `String.Join(c, parts)`. */
  function Join(parts: seq<string>, c: char): string
    requires |parts| >= 1
  {
    if |parts| == 1 then parts[0] else parts[0] + [c] + Join(parts[1..], c)
  }

  /** Joining one more piece adds the separator and the piece. */
  lemma {:induction false} JoinSnoc(parts: seq<string>, p: string, c: char)
    requires |parts| >= 1
    ensures Join(parts + [p], c) == Join(parts, c) + [c] + p
    decreases |parts|
  {
    if |parts| == 1 {
      assert (parts + [p])[1..] == [p];
    } else {
      assert (parts + [p])[1..] == parts[1..] + [p];
      JoinSnoc(parts[1..], p, c);
    }
  }

  /** Splitting and joining again gives back the text. */
  lemma {:induction false} JoinSplit(s: string, c: char)
    ensures Join(Split(s, c), c) == s
  {
    if s != [] {
      var rest := Split(s[1..], c);
      JoinSplit(s[1..], c);
      if s[0] == c {
        assert Split(s, c)[1..] == rest;
      } else {
        var parts := Split(s, c);
        if |rest| == 1 {
          assert parts == [[s[0]] + rest[0]];
        } else {
          assert parts[1..] == rest[1..];
          assert Join(rest, c) == rest[0] + [c] + Join(rest[1..], c);
        }
      }
    }
  }

  /** Joining pieces that do not contain the separator and splitting again gives back the pieces. */
  lemma {:induction false} SplitJoin(parts: seq<string>, c: char)
    requires |parts| >= 1 && forall k :: 0 <= k < |parts| ==> c !in parts[k]
    ensures Split(Join(parts, c), c) == parts
    decreases |parts|, |parts[0]|
  {
    if |parts| == 1 {
      SplitNoSeparator(parts[0], c);
    } else if parts[0] == [] {
      var tail := Join(parts[1..], c);
      assert Join(parts, c) == [c] + tail;
      assert ([c] + tail)[1..] == tail;
      SplitJoin(parts[1..], c);
      assert parts == [[]] + parts[1..];
    } else {
      var shorter := [parts[0][1..]] + parts[1..];
      assert shorter[1..] == parts[1..];
      assert forall k :: 0 <= k < |shorter| ==> c !in shorter[k] by {
        forall k | 0 <= k < |shorter| ensures c !in shorter[k] {
          if k == 0 {
            assert forall x :: x in parts[0][1..] ==> x in parts[0];
          } else {
            assert shorter[k] == parts[k];
          }
        }
      }
      SplitJoin(shorter, c);
      var j := Join(parts, c);
      assert j == [parts[0][0]] + Join(shorter, c);
      assert j[1..] == Join(shorter, c);
      assert parts[0][0] != c by { assert parts[0][0] in parts[0]; }
      assert [parts[0][0]] + parts[0][1..] == parts[0];
    }
  }

  lemma {:induction false} SplitNoSeparator(s: string, c: char)
    requires c !in s
    ensures Split(s, c) == [s]
  {
    if s != [] {
      assert c !in s[1..] by { assert forall x :: x in s[1..] ==> x in s; }
      SplitNoSeparator(s[1..], c);
      assert [s[0]] + s[1..] == s;
    }
  }

  predicate IsDigit(ch: char)
  {
    '0' <= ch <= '9'
  }

  predicate AllDigits(s: string)
  {
    forall k :: 0 <= k < |s| ==> IsDigit(s[k])
  }

  /** The value of a string of decimal digits. */
  function DigitsValue(s: string): nat
    requires AllDigits(s)
  {
    if s == [] then 0 else DigitsValue(s[..|s| - 1]) * 10 + (s[|s| - 1] - '0') as nat
  }

  /** The decimal text of a natural number, without leading zeros. */
  function ShowNat(n: nat): (s: string)
    ensures |s| >= 1 && AllDigits(s)
  {
    var d := ['0' + (n % 10) as char];
    if n < 10 then d else ShowNat(n / 10) + d
  }

  /** `n.ToString()` for an integer. */
  function ShowInt(n: int): (s: string)
    ensures |s| >= 1
  {
    if n < 0 then "-" + ShowNat(-n) else ShowNat(n)
  }

  lemma {:induction false} DigitsOfShowNat(n: nat)
    ensures DigitsValue(ShowNat(n)) == n
  {
    var s := ShowNat(n);
    if n >= 10 {
      DigitsOfShowNat(n / 10);
      assert s[..|s| - 1] == ShowNat(n / 10);
    }
  }

  /** The white space `int.Parse` and `float.Parse` skip around the number: U+0009 to U+000D and the space. */
  predicate IsWhite(ch: char)
  {
    ch == ' ' || '\t' <= ch <= '\r'
  }

  /** The text without its trailing white space. */
  function TrimEnd(s: string): (t: string)
  {
    if s != [] && IsWhite(s[|s| - 1]) then TrimEnd(s[..|s| - 1]) else s
  }

  /** The text without its leading white space. */
  function TrimStart(s: string): (t: string)
  {
    if s != [] && IsWhite(s[0]) then TrimStart(s[1..]) else s
  }

  /** TrimEnd keeps a prefix that does not end in white space, and what it drops is white space. */
  lemma {:induction false} TrimEndShape(s: string)
    ensures var t := TrimEnd(s);
            && |t| <= |s| && t == s[..|t|]
            && (t != [] ==> !IsWhite(t[|t| - 1]))
            && forall k :: |t| <= k < |s| ==> IsWhite(s[k])
  {
    if s != [] && IsWhite(s[|s| - 1]) {
      TrimEndShape(s[..|s| - 1]);
    }
  }

  /** TrimStart keeps a suffix that does not start with white space, and what it drops is white space. */
  lemma {:induction false} TrimStartShape(s: string)
    ensures var t := TrimStart(s);
            && |t| <= |s| && t == s[|s| - |t|..]
            && (t != [] ==> !IsWhite(t[0]))
            && forall k :: 0 <= k < |s| - |t| ==> IsWhite(s[k])
  {
    if s != [] && IsWhite(s[0]) {
      TrimStartShape(s[1..]);
      assert forall k :: 1 <= k < |s| ==> s[k] == s[1..][k - 1];
    }
  }

  /** The text without white space at either end. */
  function Trim(s: string): string
  {
    TrimStart(TrimEnd(s))
  }

  /** White space after the text is trimmed with the rest. */
  lemma TrimSnocWhite(s: string, w: char)
    requires IsWhite(w)
    ensures Trim(s + [w]) == Trim(s)
  {
    assert (s + [w])[..|s|] == s;
  }

  lemma {:induction false} TrimEndCons(w: char, s: string)
    requires IsWhite(w)
    ensures TrimEnd([w] + s) == if TrimEnd(s) == [] then [] else [w] + TrimEnd(s)
    decreases |s|
  {
    if s == [] {
      assert TrimEnd([w]) == TrimEnd([w][..0]);
    } else if IsWhite(s[|s| - 1]) {
      assert ([w] + s)[..|s|] == [w] + s[..|s| - 1];
      TrimEndCons(w, s[..|s| - 1]);
    }
  }

  /** White space before the text is trimmed with the rest. */
  lemma TrimConsWhite(w: char, s: string)
    requires IsWhite(w)
    ensures Trim([w] + s) == Trim(s)
  {
    TrimEndCons(w, s);
    if TrimEnd(s) != [] {
      assert ([w] + TrimEnd(s))[1..] == TrimEnd(s);
    }
  }

  /** Text that neither starts nor ends with white space is its own trim. */
  lemma TrimUnchanged(s: string)
    requires s != [] && !IsWhite(s[0]) && !IsWhite(s[|s| - 1])
    ensures Trim(s) == s
  {
  }

  /** The least and greatest value of a C# `int`. */
  const Int32Min: int := -0x8000_0000
  const Int32Max: int := 0x7FFF_FFFF

  predicate IsInt32(n: int)
  {
    Int32Min <= n <= Int32Max
  }

  /** The integer that an optional sign followed by decimal digits spells; None for any other text. */
  function SignedDigits(t: string): (r: Option<int>)
    ensures r.Some? ==> |t| >= 1
  {
    if |t| >= 2 && (t[0] == '-' || t[0] == '+') && AllDigits(t[1..]) then
      Some(if t[0] == '-' then -(DigitsValue(t[1..]) as int) else DigitsValue(t[1..]))
    else if |t| >= 1 && AllDigits(t) then Some(DigitsValue(t))
    else None
  }

  /**
   * `int.Parse`: white space around the number is skipped, then an optional
   * sign and decimal digits; other text fails (FormatException), and so
   * does a value outside the range of `int` (OverflowException).
   */
  function ParseInt(s: string): (r: Option<int>)
    ensures r.Some? ==> IsInt32(r.value) && Trim(s) != []
  {
    match SignedDigits(Trim(s))
    case Some(v) => if IsInt32(v) then Some(v) else None
    case None => None
  }

  /** White space on either side of a number does not change what `int.Parse` reads. */
  lemma ParseIntIgnoresWhite(s: string, w: char)
    requires IsWhite(w)
    ensures ParseInt(s + [w]) == ParseInt(s)
    ensures ParseInt([w] + s) == ParseInt(s)
  {
    TrimSnocWhite(s, w);
    TrimConsWhite(w, s);
  }

  /** The digits of an integer spell it. */
  lemma SignedDigitsOfShowInt(n: int)
    ensures SignedDigits(ShowInt(n)) == Some(n)
  {
    if n < 0 {
      var t := ShowNat(-n);
      var s := "-" + t;
      assert s[0] == '-' && s[1..] == t;
      DigitsOfShowNat(-n);
      assert SignedDigits(s) == Some(-(DigitsValue(t) as int));
    } else {
      var t := ShowNat(n);
      DigitsOfShowNat(n);
      assert IsDigit(t[0]);
      assert SignedDigits(t) == Some(DigitsValue(t));
    }
  }

  /**
   * The text `ToString` writes for an integer reads back as the same
   * integer exactly when it is in the range of `int`.
   */
  lemma ParseShowInt(n: int)
    ensures ParseInt(ShowInt(n)) == if IsInt32(n) then Some(n) else None
  {
    var s := ShowInt(n);
    assert s[|s| - 1] == ShowNat(if n < 0 then -n else n)[|ShowNat(if n < 0 then -n else n)| - 1];
    TrimUnchanged(s);
    SignedDigitsOfShowInt(n);
  }

  function Pow10(k: nat): (p: nat)
    ensures p >= 1
  {
    if k == 0 then 1 else 10 * Pow10(k - 1)
  }

  /** Index of the first '.', or |s| when there is none. */
  function DotIndex(s: string): (i: nat)
    ensures i <= |s| && '.' !in s[..i]
    ensures i < |s| ==> s[i] == '.'
  {
    if s == [] then 0
    else if s[0] == '.' then 0
    else
      var i := 1 + DotIndex(s[1..]);
      assert s[..i] == [s[0]] + s[1..][..i - 1];
      i
  }

  /** The value of unsigned decimal text: digits, optionally followed by '.' and more digits. */
  function UnsignedDecimal(s: string): Option<real>
  {
    var i := DotIndex(s);
    var whole := s[..i];
    if whole == [] || !AllDigits(whole) then None
    else if i == |s| then Some(DigitsValue(whole) as real)
    else
      var frac := s[i + 1..];
      if frac == [] || !AllDigits(frac) then None
      else Some(DigitsValue(whole) as real + DigitsValue(frac) as real / Pow10(|frac|) as real)
  }

  /** An optional sign, digits, and an optional fraction, read exactly as a real number; None for any other text. */
  function SignedDecimal(t: string): Option<real>
  {
    if |t| >= 1 && (t[0] == '-' || t[0] == '+') then
      match UnsignedDecimal(t[1..])
      case Some(v) => Some(if t[0] == '-' then -v else v)
      case None => None
    else UnsignedDecimal(t)
  }

  /** `float.Parse`: white space around the number is skipped, then an optional sign, digits and an optional fraction. */
  function ParseReal(s: string): (r: Option<real>)
    ensures r.Some? ==> Trim(s) != []
  {
    SignedDecimal(Trim(s))
  }

  /** White space on either side of a number does not change what `float.Parse` reads. */
  lemma ParseRealIgnoresWhite(s: string, w: char)
    requires IsWhite(w)
    ensures ParseReal(s + [w]) == ParseReal(s)
    ensures ParseReal([w] + s) == ParseReal(s)
  {
    TrimSnocWhite(s, w);
    TrimConsWhite(w, s);
  }

  /** Integer text parses to the same value as a float. */
  lemma ParseRealOfInt(s: string)
    requires ParseInt(s).Some?
    ensures ParseReal(s) == Some(ParseInt(s).value as real)
  {
    var t := Trim(s);
    if t[0] == '-' || t[0] == '+' {
      var u := t[1..];
      NoDotInDigits(u);
      assert u[..|u|] == u;
      assert UnsignedDecimal(u) == Some(DigitsValue(u) as real);
    } else {
      NoDotInDigits(t);
      assert t[..|t|] == t;
    }
  }

  lemma NoDotInDigits(s: string)
    requires AllDigits(s)
    ensures DotIndex(s) == |s|
  {
    if s != [] {
      NoDotInDigits(s[1..]);
    }
  }
}
