/**
 * Util.cs: Sign, PivotMiddle, the integer binomial coefficient of the
 * Bezier curve, and GetChart, the reader of osu!-style chart text.
 *
 * GetChart reads the text line by line in one of three modes (no section,
 * [TimingPoints], [HitObjects]). A failing Parse or a missing field throws
 * out of GetChart; here it is an `Err` that ends the whole read.
 */
module Util {
  import opened Wrappers
  import opened Values
  import opened Text
  import opened Queue

  /** The sign of a float as 1, -1 or 0. */
  function Sign(value: real): (s: int)
    ensures s == 1 <==> value > 0.0
    ensures s == -1 <==> value < 0.0
    ensures s == 0 <==> value == 0.0
  {
    if value > 0.0 then 1 else if value < 0.0 then -1 else 0
  }

  /** A value is its sign times its magnitude. */
  lemma SignTimesAbs(value: real)
    ensures Sign(value) as real * AbsReal(value) == value
  {
  }

  datatype Vec = Vec(x: real, y: real)

  /**
   * From pixel coordinates of the note holder (origin top left, y down) to
   * coordinates centred on it with y up.
   */
  function PivotMiddle(p: Vec): (q: Vec)
    ensures 0.0 <= p.x <= NoteHolderWidth as real ==> -(NoteHolderWidth as real) / 2.0 <= q.x <= NoteHolderWidth as real / 2.0
    ensures 0.0 <= p.y <= NoteHolderHeight as real ==> -(NoteHolderHeight as real) / 2.0 <= q.y <= NoteHolderHeight as real / 2.0
  {
    Vec(p.x - 0.5 * NoteHolderWidth as real, -p.y + 0.5 * NoteHolderHeight as real)
  }

  /** The reverse conversion, back to top-left pixel coordinates. */
  function PivotTopLeft(q: Vec): Vec
  {
    Vec(q.x + 0.5 * NoteHolderWidth as real, 0.5 * NoteHolderHeight as real - q.y)
  }

  /** The two conversions are inverse to each other; PivotMiddle keeps x order and flips y order. */
  lemma PivotRoundTrip(p: Vec, q: Vec)
    ensures PivotTopLeft(PivotMiddle(p)) == p
    ensures PivotMiddle(PivotTopLeft(q)) == q
    ensures p.x <= q.x <==> PivotMiddle(p).x <= PivotMiddle(q).x
    ensures p.y <= q.y <==> PivotMiddle(p).y >= PivotMiddle(q).y
  {
  }

  // ---------------------------------------------------------------------
  // Binomial coefficient

  /** Pascal's rule: the number of k-element subsets of an n-element set. */
  function Binom(n: nat, k: nat): nat
  {
    if k == 0 then 1 else if n == 0 then 0 else Binom(n - 1, k - 1) + Binom(n - 1, k)
  }

  lemma {:induction false} BinomAbove(n: nat, k: nat)
    requires n < k
    ensures Binom(n, k) == 0
  {
    if n > 0 {
      BinomAbove(n - 1, k - 1);
      BinomAbove(n - 1, k);
    }
  }

  lemma {:induction false} BinomDiagonal(n: nat)
    ensures Binom(n, n) == 1
  {
    if n > 0 {
      BinomDiagonal(n - 1);
      BinomAbove(n - 1, n);
    }
  }

  lemma {:induction false} BinomOne(n: nat)
    ensures Binom(n, 1) == n
  {
    if n > 0 {
      BinomOne(n - 1);
    }
  }

  /** The absorption identity k C(n,k) = n C(n-1,k-1) that makes each division of the loop exact. */
  lemma {:induction false} BinomAbsorption(n: nat, k: nat)
    requires 1 <= k && 1 <= n
    ensures k * Binom(n, k) == n * Binom(n - 1, k - 1)
  {
    if k == 1 {
      BinomOne(n);
    } else if n == 1 {
      BinomAbove(0, k - 1);
      BinomAbove(0, k);
    } else {
      BinomAbsorption(n - 1, k);
      BinomAbsorption(n - 1, k - 1);
      AbsorptionStep(k, n, Binom(n - 1, k - 1), Binom(n - 1, k), Binom(n - 2, k - 2), Binom(n - 2, k - 1));
    }
  }

  /** The arithmetic of one induction step of the absorption identity. */
  lemma AbsorptionStep(k: int, n: int, a: int, b: int, a0: int, b0: int)
    requires a == a0 + b0 && k * b == (n - 1) * b0 && (k - 1) * a == (n - 1) * a0
    ensures k * (a + b) == n * a
  {
    calc {
      k * (a + b);
      k * a + k * b;
      (k - 1) * a + a + (n - 1) * b0;
      (n - 1) * a0 + (n - 1) * b0 + a;
      (n - 1) * (a0 + b0) + a;
      n * a;
    }
  }

  lemma DivideExactly(c: int, m: int, i: int, b: int)
    requires i >= 1 && i * b == m * c
    ensures (c * m) / i == b
  {
    var q := c * m;
    var r := q / i;
    var rem := q % i;
    assert q == i * r + rem && 0 <= rem < i;
    assert i * (b - r) == rem;
    assert b - r >= 1 ==> i * (b - r) >= i * 1;
    assert b - r <= -1 ==> i * (b - r) <= i * -1;
  }

  /**
   * BinomialCoefficient: 1 when k is 0 or n; otherwise C(n,k) by the
   * product loop with C#'s truncating division, which is exact at every
   * step when 0 <= k <= n, and gives 0 when 0 <= n < k.
   */
  method BinomialCoefficient(n: int, k: int) returns (c: int)
    ensures 0 <= k <= n ==> c == Binom(n, k)
    ensures 0 <= n < k ==> c == 0
    ensures k < 0 ==> c == 1
  {
    if k == 0 || k == n {
      if 0 <= k && k == n {
        BinomDiagonal(n);
      }
      return 1;
    }
    c := 1;
    var i := 1;
    while i <= k
      invariant 1 <= i && (k >= 0 ==> i <= k + 1)
      invariant 0 <= k <= n ==> c == Binom(n - k + i - 1, i - 1)
      invariant 0 <= n < k && i - 1 >= k - n ==> c == 0
      invariant k < 0 ==> c == 1
    {
      var m := n - (k - i);
      if 0 <= k <= n {
        BinomAbsorption(m, i);
        DivideExactly(c, m, i, Binom(m, i));
      }
      c := c * m;
      c := TruncDiv(c, i);
      i := i + 1;
    }
  }

  // ---------------------------------------------------------------------
  // GetChart

  /** The value of `reading`: "", "TimingPoints" or "HitObjects". */
  datatype Section = NoSection | TimingPoints | HitObjects

  /**
   * A timing point; `endTime` None stands for Mathf.Infinity and
   * `slideSpeed` None for the infinity of -100 / 0.
   */
  datatype TimingPoint = TimingPoint(startTime: real, endTime: Option<real>, beatInterval: real, slideSpeed: Option<real>)

  /** A note as GetChart creates it: a Tap, a Slide, or a default Note. */
  datatype ParsedNote =
    | TapNote(position: Vec, timeStamp: int, nthNote: int)
    | SlideNote(position: Vec, timeStamp: int, nthNote: int)
    | PlainNote

  /** Why GetChart throws: a field that does not parse, a field index out of range, or an inherited first timing point. */
  datatype Failure = BadNumber | MissingField | NoPreviousPoint

  /**
   * The loop's state: the mode, the timing points, the ordinal counter `n`,
   * the chart's notes, and the last value written to Values.baseSlideSpeed.
   */
  datatype Reader = Reader(reading: Section, timingPoints: seq<TimingPoint>, n: int, notes: seq<ParsedNote>, sliderMultiplier: Option<real>)

  const Initial: Reader := Reader(NoSection, [], 1, [], None)

  /** The timing points with the last one ended at `start`. */
  function Close(tps: seq<TimingPoint>, start: real): (r: seq<TimingPoint>)
    ensures |r| == |tps|
  {
    if tps == [] then [] else tps[..|tps| - 1] + [tps[|tps| - 1].(endTime := Some(start))]
  }

  /** One line of the [TimingPoints] section, split at commas. */
  function TimingLine(s: Reader, data: seq<string>): Result<Reader, Failure>
    requires |data| >= 1
  {
    match ParseReal(data[0])
    case None => Err(BadNumber)
    case Some(start) =>
      var tps := s.timingPoints;
      var closed := Close(tps, start);
      if |data| < 7 then Err(MissingField)
      else match ParseInt(data[6])
        case None => Err(BadNumber)
        case Some(flag) =>
          if flag == 1 then
            match ParseReal(data[1])
            case None => Err(BadNumber)
            case Some(interval) => Ok(s.(timingPoints := closed + [TimingPoint(start, None, interval, Some(1.0))]))
          else if tps == [] then Err(NoPreviousPoint)
          else match ParseReal(data[1])
            case None => Err(BadNumber)
            case Some(f) =>
              var speed := if f == 0.0 then None else Some(-100.0 / f);
              Ok(s.(timingPoints := closed + [TimingPoint(start, None, tps[|tps| - 1].beatInterval, speed)]))
  }

  /** A Tap (bit 0 of the type) takes precedence over a Slide (bit 1); negative types use two's complement bits. */
  predicate TapBit(noteType: int) { noteType % 2 == 1 }
  predicate SlideBit(noteType: int) { (noteType / 2) % 2 == 1 }

  /** One line of the [HitObjects] section, split at commas. */
  function HitLine(s: Reader, data: seq<string>): Result<Reader, Failure>
  {
    if |data| < 4 then Err(MissingField)
    else match ParseInt(data[3])
      case None => Err(BadNumber)
      case Some(noteType) =>
        if TapBit(noteType) || SlideBit(noteType) then
          match (ParseInt(data[0]), ParseInt(data[1]), ParseInt(data[2]))
          case (Some(x), Some(y), Some(t)) =>
            var position := PivotMiddle(Vec(x as real, y as real));
            var note := if TapBit(noteType) then TapNote(position, t, s.n) else SlideNote(position, t, s.n);
            Ok(s.(n := s.n + 1, notes := s.notes + [note]))
          case _ => Err(BadNumber)
        else Ok(s.(notes := s.notes + [PlainNote]))
  }

  /** A line that only steers the reader: empty, or starting with '[' or "SliderMultiplier". */
  predicate Control(line: string)
  {
    line == "" || StartsWith(line, "[") || StartsWith(line, "SliderMultiplier")
  }

  /** The body of GetChart's loop for one line. */
  function Step(s: Reader, line: string): Result<Reader, Failure>
  {
    if line == "" then Ok(s)
    else if StartsWith(line, "[TimingPoints]") then Ok(s.(reading := TimingPoints))
    else if StartsWith(line, "[HitObjects]") then Ok(s.(reading := HitObjects))
    else if StartsWith(line, "SliderMultiplier") then
      var parts := Split(line, ' ');
      if |parts| < 2 then Err(MissingField)
      else match ParseReal(parts[1])
        case None => Err(BadNumber)
        case Some(v) => Ok(s.(sliderMultiplier := Some(v)))
    else if StartsWith(line, "[") then Ok(s.(reading := NoSection))
    else if s.reading == TimingPoints then TimingLine(s, Split(line, ','))
    else if s.reading == HitObjects then HitLine(s, Split(line, ','))
    else Ok(s)
  }

  /** The reader after the first k lines; the first failure ends the read. */
  function Run(lines: seq<string>, k: nat): Result<Reader, Failure>
    requires k <= |lines|
  {
    if k == 0 then Ok(Initial)
    else match Run(lines, k - 1)
      case Err(e) => Err(e)
      case Ok(s) => Step(s, lines[k - 1])
  }

  /** Once a line fails, every longer read fails the same way: there is no per-line recovery. */
  lemma {:induction false} RunFailureSticks(lines: seq<string>, i: nat, j: nat)
    requires i <= j <= |lines| && Run(lines, i).Err?
    ensures Run(lines, j) == Run(lines, i)
    decreases j
  {
    if i < j {
      RunFailureSticks(lines, i, j - 1);
    }
  }

  /** GetChart: the text split at '\n', read line by line. */
  method GetChart(chartData: string) returns (r: Result<Reader, Failure>)
    ensures r == Run(Split(chartData, '\n'), |Split(chartData, '\n')|)
  {
    var lines := Split(chartData, '\n');
    var state := Initial;
    var i := 0;
    while i < |lines|
      invariant i <= |lines| && Run(lines, i) == Ok(state)
    {
      var next := Step(state, lines[i]);
      if next.Err? {
        RunFailureSticks(lines, i + 1, |lines|);
        return next;
      }
      state := next.value;
      i := i + 1;
    }
    return Ok(state);
  }

  /**
   * Section handling: an empty line or a line starting with '[' succeeds
   * and changes at most the mode, to TimingPoints or HitObjects for those
   * headers and to none for any other; outside the two sections an
   * ordinary line changes nothing.
   */
  lemma StepSections(s: Reader, line: string)
    ensures line == "" ==> Step(s, line) == Ok(s)
    ensures line != "" && StartsWith(line, "[") ==>
              && Step(s, line).Ok?
              && Step(s, line).value == s.(reading := Step(s, line).value.reading)
              && (Step(s, line).value.reading == TimingPoints <==> StartsWith(line, "[TimingPoints]"))
              && (Step(s, line).value.reading == HitObjects <==> !StartsWith(line, "[TimingPoints]") && StartsWith(line, "[HitObjects]"))
    ensures !Control(line) && s.reading == NoSection ==> Step(s, line) == Ok(s)
  {
    if line != "" && StartsWith(line, "[") {
      assert !StartsWith(line, "SliderMultiplier") by {
        assert line[0] == '[';
        assert "SliderMultiplier"[0] == 'S';
      }
    }
  }

  /** Consecutive timing points meet (each ends where the next starts) and the last one never ends. */
  predicate Contiguous(tps: seq<TimingPoint>)
  {
    && (forall i :: 0 <= i < |tps| - 1 ==> tps[i].endTime == Some(tps[i + 1].startTime))
    && (tps != [] ==> tps[|tps| - 1].endTime == None)
  }

  /** Appending a point that never ends, after ending the last one at its start, keeps the points contiguous. */
  lemma AppendContiguous(tps: seq<TimingPoint>, p: TimingPoint)
    requires Contiguous(tps) && p.endTime == None
    ensures Contiguous(Close(tps, p.startTime) + [p])
  {
    var c := Close(tps, p.startTime);
    var u := c + [p];
    assert forall j :: 0 <= j < |tps| - 1 ==> c[j] == tps[j];
    assert tps != [] ==> c[|tps| - 1].endTime == Some(p.startTime);
    forall i | 0 <= i < |u| - 1
      ensures u[i].endTime == Some(u[i + 1].startTime)
    {
      if i < |tps| - 1 {
        assert u[i] == tps[i] && u[i + 1] == c[i + 1];
      }
    }
  }

  /** Only an ordinary line of the [TimingPoints] section touches the timing points. */
  lemma StepTimingPoints(s: Reader, line: string)
    requires Step(s, line).Ok?
    ensures !Control(line) && s.reading == TimingPoints ==> Step(s, line) == TimingLine(s, Split(line, ','))
    ensures Control(line) || s.reading != TimingPoints ==> Step(s, line).value.timingPoints == s.timingPoints
  {
    if line == "" || StartsWith(line, "[") {
    } else if StartsWith(line, "SliderMultiplier") {
      var parts := Split(line, ' ');
      assert |parts| >= 2 && ParseReal(parts[1]).Some?;
    } else if s.reading == HitObjects {
      HitLineEffect(s, Split(line, ','));
    }
  }

  lemma StepContiguous(s: Reader, line: string)
    requires Contiguous(s.timingPoints) && Step(s, line).Ok?
    ensures Contiguous(Step(s, line).value.timingPoints)
  {
    StepTimingPoints(s, line);
    if !Control(line) && s.reading == TimingPoints {
      var data := Split(line, ',');
      var u := Step(s, line).value.timingPoints;
      TimingLineEffect(s, data);
      AppendContiguous(s.timingPoints, u[|u| - 1]);
    }
  }

  /** Every prefix of a successful read leaves contiguous, half-open timing intervals. */
  lemma {:induction false} RunContiguous(lines: seq<string>, k: nat)
    requires k <= |lines| && Run(lines, k).Ok?
    ensures Contiguous(Run(lines, k).value.timingPoints)
  {
    if k > 0 {
      RunContiguous(lines, k - 1);
      StepContiguous(Run(lines, k - 1).value, lines[k - 1]);
    }
  }

  /**
   * A timing-point line: it appends one point starting at field 0; an
   * uninherited one (field 6 is 1) takes its beat interval from field 1 and
   * slide speed 1, an inherited one keeps the previous beat interval and
   * needs a previous point; unparsable fields fail.
   */
  lemma TimingLineEffect(s: Reader, data: seq<string>)
    requires |data| >= 1
    ensures ParseReal(data[0]).None? ==> TimingLine(s, data) == Err(BadNumber)
    ensures ParseReal(data[0]).Some? && |data| < 7 ==> TimingLine(s, data) == Err(MissingField)
    ensures ParseReal(data[0]).Some? && |data| >= 7 && ParseInt(data[6]).Some? && ParseInt(data[6]).value != 1 && s.timingPoints == [] ==>
              TimingLine(s, data) == Err(NoPreviousPoint)
    ensures TimingLine(s, data).Ok? ==>
              var t := TimingLine(s, data).value;
              var p := t.timingPoints[|t.timingPoints| - 1];
              && |data| >= 7 && ParseInt(data[6]).Some? && ParseReal(data[1]).Some?
              && t == s.(timingPoints := t.timingPoints)
              && t.timingPoints == Close(s.timingPoints, p.startTime) + [p]
              && p.startTime == ParseReal(data[0]).value && p.endTime == None
              && (ParseInt(data[6]).value == 1 ==> p.beatInterval == ParseReal(data[1]).value && p.slideSpeed == Some(1.0))
              && (ParseInt(data[6]).value != 1 ==>
                    && s.timingPoints != []
                    && p.beatInterval == s.timingPoints[|s.timingPoints| - 1].beatInterval
                    && (ParseReal(data[1]).value != 0.0 ==> p.slideSpeed == Some(-100.0 / ParseReal(data[1]).value)))
  {
  }

  /**
   * A hit-object line appends exactly one note at the end: a Tap when bit 0
   * of field 3 is set, else a Slide when bit 1 is, each with the next
   * ordinal, else a default Note that takes no ordinal.
   */
  lemma HitLineEffect(s: Reader, data: seq<string>)
    ensures HitLine(s, data).Ok? ==>
              var t := HitLine(s, data).value;
              var noteType := ParseInt(data[3]).value;
              var note := t.notes[|t.notes| - 1];
              && |data| >= 4 && ParseInt(data[3]).Some?
              && t.notes == s.notes + [note]
              && t.reading == s.reading && t.timingPoints == s.timingPoints && t.sliderMultiplier == s.sliderMultiplier
              && (TapBit(noteType) ==> note.TapNote? && t.n == s.n + 1)
              && (!TapBit(noteType) && SlideBit(noteType) ==> note.SlideNote? && t.n == s.n + 1)
              && (TapBit(noteType) || SlideBit(noteType) ==>
                    && ParseInt(data[0]).Some? && ParseInt(data[1]).Some? && ParseInt(data[2]).Some?
                    && note.position == PivotMiddle(Vec(ParseInt(data[0]).value as real, ParseInt(data[1]).value as real))
                    && note.timeStamp == ParseInt(data[2]).value && note.nthNote == s.n)
              && (!TapBit(noteType) && !SlideBit(noteType) ==> note == PlainNote && t.n == s.n)
    ensures |data| < 4 ==> HitLine(s, data) == Err(MissingField)
    ensures |data| >= 4 && ParseInt(data[3]).None? ==> HitLine(s, data) == Err(BadNumber)
    ensures |data| >= 4 && ParseInt(data[3]).Some? && (TapBit(ParseInt(data[3]).value) || SlideBit(ParseInt(data[3]).value)) ==>
              (HitLine(s, data).Ok? <==> ParseInt(data[0]).Some? && ParseInt(data[1]).Some? && ParseInt(data[2]).Some?)
    ensures |data| >= 4 && ParseInt(data[3]).Some? && !TapBit(ParseInt(data[3]).value) && !SlideBit(ParseInt(data[3]).value) ==>
              HitLine(s, data).Ok?
  {
  }

  /**
   * White space after a field, such as the '\r' that ends the last field of
   * a line in a file with CRLF line ends, does not change what a hit-object
   * line reads.
   */
  lemma HitLineIgnoresWhite(s: Reader, data: seq<string>, k: nat, w: char)
    requires k < |data| && IsWhite(w)
    ensures HitLine(s, data[k := data[k] + [w]]) == HitLine(s, data)
  {
    ParseIntIgnoresWhite(data[k], w);
  }

  /** Only a line read in the [HitObjects] section adds a note, and it adds one at the end. */
  lemma StepNotes(s: Reader, line: string)
    requires Step(s, line).Ok?
    ensures var t := Step(s, line).value;
            || (t.notes == s.notes && t.n == s.n)
            || (s.reading == HitObjects && !Control(line) && |t.notes| == |s.notes| + 1 && t.notes[..|s.notes|] == s.notes)
  {
    var t := Step(s, line).value;
    if !Control(line) && s.reading == HitObjects {
      HitLineEffect(s, Split(line, ','));
      assert (s.notes + [t.notes[|t.notes| - 1]])[..|s.notes|] == s.notes;
    }
  }

  /** The ordinals of the Tap and Slide notes, in list order. */
  function Ordinals(notes: seq<ParsedNote>): seq<int>
  {
    if notes == [] then []
    else
      var last := notes[|notes| - 1];
      Ordinals(notes[..|notes| - 1]) + (if last.PlainNote? then [] else [last.nthNote])
  }

  predicate Numbered(s: Reader)
  {
    s.n >= 1 && Ordinals(s.notes) == Range(1, s.n)
  }

  lemma HitLineNumbered(s: Reader, data: seq<string>)
    requires Numbered(s) && HitLine(s, data).Ok?
    ensures Numbered(HitLine(s, data).value)
  {
    var t := HitLine(s, data).value;
    var note := t.notes[|t.notes| - 1];
    HitLineEffect(s, data);
    assert t.notes[..|t.notes| - 1] == s.notes;
    if !note.PlainNote? {
      assert t.n == s.n + 1 && note.nthNote == s.n;
      assert Range(1, t.n) == Range(1, s.n) + [s.n];
    }
  }

  lemma StepNumbered(s: Reader, line: string)
    requires Numbered(s) && Step(s, line).Ok?
    ensures Numbered(Step(s, line).value)
  {
    if !Control(line) && s.reading == HitObjects {
      HitLineNumbered(s, Split(line, ','));
    }
  }

  /** Tap and Slide notes are numbered 1, 2, 3, ... in file order; default Notes take no number. */
  lemma {:induction false} RunNumbered(lines: seq<string>, k: nat)
    requires k <= |lines| && Run(lines, k).Ok?
    ensures Numbered(Run(lines, k).value)
  {
    if k == 0 {
      assert Range(1, 1) == [];
    } else {
      RunNumbered(lines, k - 1);
      StepNumbered(Run(lines, k - 1).value, lines[k - 1]);
    }
  }
}
