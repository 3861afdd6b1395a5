/**
 * ChartEditor.cs: the chart editor's note list, kept sorted by time and
 * numbered 1..n, note toggling at a grid cell, the time-0 BPM event, the
 * playback flags, and the text export.
 *
 * Editor notes are values: the list's invariant gives every note a
 * distinct ordinal, so a note value identifies one list entry just as the
 * source's object reference does. A note's position is the centre of its
 * cell and is not stored. Grid size, the cell size and the float-to-text
 * formatting of C# are parameters.
 */
module ChartEditor {
  import opened Wrappers
  import opened Values
  import opened Chart
  import opened Text
  import Util

  /** An editor note: kind, cell, time in ms and 1-based ordinal. */
  datatype EditorNote = EditorNote(noteType: NoteType, cell: Cell, timeStamp: real, nthNote: int)

  /** A chart event; `data` is the number its text holds. */
  datatype ChartEvent = ChartEvent(timeStamp: real, eventType: string, data: real)

  // ---------------------------------------------------------------------
  // Searching a list (List.Find, List.Contains/IndexOf, FindNoteAt's loop)

  /** The index of the first element satisfying `p`, if any. */
  function FirstIndex<T>(s: seq<T>, p: T -> bool): (r: Option<nat>)
    ensures r.Some? ==> r.value < |s| && p(s[r.value]) && forall j :: 0 <= j < r.value ==> !p(s[j])
    ensures r.None? ==> forall j :: 0 <= j < |s| ==> !p(s[j])
  {
    if s == [] then None
    else match FirstIndex(s[..|s| - 1], p)
      case Some(k) => Some(k)
      case None => if p(s[|s| - 1]) then Some(|s| - 1) else None
  }

  /** A front-to-back search loop. */
  method Find<T>(s: seq<T>, p: T -> bool) returns (r: Option<nat>)
    ensures r == FirstIndex(s, p)
  {
    var i := 0;
    while i < |s|
      invariant i <= |s| && forall j :: 0 <= j < i ==> !p(s[j])
    {
      if p(s[i]) {
        return Some(i);
      }
      i := i + 1;
    }
    return None;
  }

  // ---------------------------------------------------------------------
  // The note list

  const TimeThreshold: real := 50.0

  /** A note within 50 ms of `time` in cell `pos`. */
  predicate Matches(n: EditorNote, time: real, pos: Cell)
  {
    AbsReal(n.timeStamp - time) <= TimeThreshold && n.cell == pos
  }

  /**
   * FindNoteAt: the first note in list order within 50 ms of `time` in the
   * cell, or none.
   */
  method FindNoteAt(notes: seq<EditorNote>, time: real, pos: Cell) returns (r: Option<nat>)
    ensures r == FirstIndex(notes, n => Matches(n, time, pos))
    ensures r.Some? ==> r.value < |notes| && Matches(notes[r.value], time, pos)
    ensures r.None? ==> forall j :: 0 <= j < |notes| ==> !Matches(notes[j], time, pos)
  {
    r := Find(notes, n => Matches(n, time, pos));
  }

  /** CreateNote: a note of the chosen kind in the cell at `time`, numbered after the `count` existing notes. */
  function CreateNote(noteType: NoteType, pos: Cell, time: real, count: nat): (n: EditorNote)
    ensures n.nthNote == count + 1 && Strip(n) == EditorNote(noteType, pos, time, 0)
  {
    EditorNote(noteType, pos, time, count + 1)
  }

  predicate Sorted(notes: seq<EditorNote>)
  {
    forall i, j :: 0 <= i < j < |notes| ==> notes[i].timeStamp <= notes[j].timeStamp
  }

  predicate Numbered(notes: seq<EditorNote>)
  {
    forall i :: 0 <= i < |notes| ==> notes[i].nthNote == i + 1
  }

  /** A note without its ordinal. */
  function Strip(n: EditorNote): EditorNote
  {
    n.(nthNote := 0)
  }

  function Stripped(notes: seq<EditorNote>): (r: seq<EditorNote>)
    ensures |r| == |notes| && forall i :: 0 <= i < |notes| ==> r[i] == Strip(notes[i])
  {
    seq(|notes|, i requires 0 <= i < |notes| => Strip(notes[i]))
  }

  /** The list with every note's ordinal set to its position + 1. */
  function Renumbered(notes: seq<EditorNote>): (r: seq<EditorNote>)
    ensures |r| == |notes| && forall i :: 0 <= i < |notes| ==> r[i] == notes[i].(nthNote := i + 1)
  {
    seq(|notes|, i requires 0 <= i < |notes| => notes[i].(nthNote := i + 1))
  }

  /** Renumbering numbers the list 1..n and changes nothing else: order, times, kinds and cells stay. */
  lemma RenumberedKeeps(notes: seq<EditorNote>)
    ensures Numbered(Renumbered(notes))
    ensures Stripped(Renumbered(notes)) == Stripped(notes)
    ensures Sorted(notes) ==> Sorted(Renumbered(notes))
  {
  }

  /** In a numbered list a note sits at the position its ordinal names. */
  lemma NumberedPosition(notes: seq<EditorNote>, n: EditorNote)
    requires Numbered(notes) && n in notes
    ensures 1 <= n.nthNote <= |notes| && notes[n.nthNote - 1] == n
  {
  }

  /** The renumbering loop over the list. */
  method Renumber(notes: seq<EditorNote>) returns (r: seq<EditorNote>)
    ensures r == Renumbered(notes)
  {
    r := notes;
    var i := 0;
    while i < |r|
      invariant i <= |r| == |notes|
      invariant forall j :: 0 <= j < i ==> r[j] == notes[j].(nthNote := j + 1)
      invariant forall j :: i <= j < |r| ==> r[j] == notes[j]
    {
      r := r[i := r[i].(nthNote := i + 1)];
      i := i + 1;
    }
  }

  /** Where a note with time stamp `t` goes in a sorted list: after every note not later than it. */
  method InsertionPoint(notes: seq<EditorNote>, t: real) returns (k: nat)
    requires Sorted(notes)
    ensures k <= |notes|
    ensures forall i :: 0 <= i < k ==> notes[i].timeStamp <= t
    ensures forall i :: k <= i < |notes| ==> notes[i].timeStamp > t
  {
    k := 0;
    while k < |notes| && notes[k].timeStamp <= t
      invariant k <= |notes| && forall i :: 0 <= i < k ==> notes[i].timeStamp <= t
    {
      k := k + 1;
    }
  }

  /** Inserting at the insertion point keeps the list sorted. */
  lemma InsertKeepsSorted(notes: seq<EditorNote>, n: EditorNote, k: nat)
    requires Sorted(notes) && k <= |notes|
    requires forall i :: 0 <= i < k ==> notes[i].timeStamp <= n.timeStamp
    requires forall i :: k <= i < |notes| ==> notes[i].timeStamp > n.timeStamp
    ensures Sorted(notes[..k] + [n] + notes[k..])
  {
    var r := notes[..k] + [n] + notes[k..];
    assert forall i :: 0 <= i < |r| ==> r[i] == if i < k then notes[i] else if i == k then n else notes[i - 1];
  }

  /** Inserting a note anywhere adds exactly that note (ordinals aside) and loses none. */
  lemma InsertAddsNote(notes: seq<EditorNote>, n: EditorNote, k: nat)
    requires k <= |notes|
    ensures multiset(Stripped(notes[..k] + [n] + notes[k..])) == multiset(Stripped(notes)) + multiset{Strip(n)}
  {
    var r := notes[..k] + [n] + notes[k..];
    assert Stripped(r) == Stripped(notes[..k]) + [Strip(n)] + Stripped(notes[k..]);
    assert Stripped(notes) == Stripped(notes[..k]) + Stripped(notes[k..]);
  }

  /** Removing one entry keeps a sorted list sorted. */
  lemma RemoveKeepsSorted(notes: seq<EditorNote>, k: nat)
    requires Sorted(notes) && k < |notes|
    ensures Sorted(notes[..k] + notes[k + 1..])
  {
    var r := notes[..k] + notes[k + 1..];
    forall i, j | 0 <= i < j < |r|
      ensures r[i].timeStamp <= r[j].timeStamp
    {
      var i0 := if i < k then i else i + 1;
      var j0 := if j < k then j else j + 1;
      assert r[i] == notes[i0] && r[j] == notes[j0];
    }
  }

  // ---------------------------------------------------------------------
  // Events

  /** The chart's initial BPM event: type "bpm" at time 0. */
  predicate IsInitialBpm(e: ChartEvent)
  {
    e.eventType == "bpm" && e.timeStamp == 0.0
  }

  /** Milliseconds per beat at `bpm` beats per minute. */
  function BeatLength(bpm: real): real
    requires bpm > 0.0
  {
    60000.0 / bpm
  }

  /** The events after UpdateBPMInChart: the first initial BPM event carries the new beat length, or one is appended. */
  function WithBpm(events: seq<ChartEvent>, bpm: real): seq<ChartEvent>
    requires bpm > 0.0
  {
    match FirstIndex(events, IsInitialBpm)
    case Some(k) => events[k := events[k].(data := BeatLength(bpm))]
    case None => events + [ChartEvent(0.0, "bpm", BeatLength(bpm))]
  }

  /** The number of initial BPM events. */
  function CountInitialBpm(events: seq<ChartEvent>): nat
  {
    if events == [] then 0
    else CountInitialBpm(events[..|events| - 1]) + (if IsInitialBpm(events[|events| - 1]) then 1 else 0)
  }

  lemma {:induction false} CountUpdate(events: seq<ChartEvent>, k: nat, e: ChartEvent)
    requires k < |events| && IsInitialBpm(events[k]) && IsInitialBpm(e)
    ensures CountInitialBpm(events[k := e]) == CountInitialBpm(events)
  {
    var u := events[k := e];
    if k < |events| - 1 {
      CountUpdate(events[..|events| - 1], k, e);
      assert u[..|u| - 1] == events[..|events| - 1][k := e];
    } else {
      assert u[..|u| - 1] == events[..|events| - 1];
    }
  }

  lemma {:induction false} CountZeroWhenNone(events: seq<ChartEvent>)
    requires forall j :: 0 <= j < |events| ==> !IsInitialBpm(events[j])
    ensures CountInitialBpm(events) == 0
  {
    if events != [] {
      CountZeroWhenNone(events[..|events| - 1]);
    }
  }

  lemma {:induction false} CountPositive(events: seq<ChartEvent>, k: nat)
    requires k < |events| && IsInitialBpm(events[k])
    ensures CountInitialBpm(events) >= 1
  {
    if k < |events| - 1 {
      CountPositive(events[..|events| - 1], k);
    }
  }

  /** An element satisfying `p` with none before it is the first one. */
  lemma FirstIndexAt<T>(s: seq<T>, p: T -> bool, k: nat)
    requires k < |s| && p(s[k]) && forall j :: 0 <= j < k ==> !p(s[j])
    ensures FirstIndex(s, p) == Some(k)
  {
    var r := FirstIndex(s, p);
    assert r.Some?;
    assert !(r.value < k) && !(k < r.value);
  }

  /**
   * UpdateBPMInChart never adds a second initial BPM event: afterwards
   * there is exactly one when there was none and as many as before
   * otherwise, and its beat length is the new one. The last call wins.
   */
  lemma WithBpmSingle(events: seq<ChartEvent>, bpm: real, bpm2: real)
    requires bpm > 0.0 && bpm2 > 0.0
    ensures CountInitialBpm(WithBpm(events, bpm)) == if CountInitialBpm(events) == 0 then 1 else CountInitialBpm(events)
    ensures var k := FirstIndex(WithBpm(events, bpm), IsInitialBpm);
            k.Some? && WithBpm(events, bpm)[k.value].data == BeatLength(bpm)
    ensures WithBpm(WithBpm(events, bpm), bpm2) == WithBpm(events, bpm2)
  {
    match FirstIndex(events, IsInitialBpm)
    case Some(k) => WithBpmUpdates(events, bpm, k);
    case None => WithBpmAppends(events, bpm);
  }

  lemma WithBpmUpdates(events: seq<ChartEvent>, bpm: real, k: nat)
    requires bpm > 0.0 && FirstIndex(events, IsInitialBpm) == Some(k)
    ensures CountInitialBpm(WithBpm(events, bpm)) == CountInitialBpm(events) >= 1
    ensures FirstIndex(WithBpm(events, bpm), IsInitialBpm) == Some(k)
  {
    var after := events[k := events[k].(data := BeatLength(bpm))];
    CountUpdate(events, k, after[k]);
    CountPositive(events, k);
    assert forall j :: 0 <= j < k ==> after[j] == events[j];
    FirstIndexAt(after, IsInitialBpm, k);
  }

  lemma WithBpmAppends(events: seq<ChartEvent>, bpm: real)
    requires bpm > 0.0 && FirstIndex(events, IsInitialBpm) == None
    ensures CountInitialBpm(WithBpm(events, bpm)) == 1 && CountInitialBpm(events) == 0
    ensures FirstIndex(WithBpm(events, bpm), IsInitialBpm) == Some(|events|)
  {
    var after := events + [ChartEvent(0.0, "bpm", BeatLength(bpm))];
    CountZeroWhenNone(events);
    assert after[..|after| - 1] == events;
    FirstIndexAt(after, IsInitialBpm, |events|);
  }

  // ---------------------------------------------------------------------
  // Playback flags

  /** isPlaying, isPaused and PlayInfo.isAutoplay. */
  datatype Playback = Playback(isPlaying: bool, isPaused: bool, isAutoplay: bool)

  /** TogglePlayback: playing pauses; otherwise, when there is an audio clip, play starts or resumes with autoplay on. */
  function Toggle(p: Playback, hasClip: bool): Playback
  {
    if p.isPlaying then Playback(false, true, false)
    else if hasClip then Playback(true, false, true)
    else p
  }

  /**
   * Toggling never leaves the editor both playing and paused, and with a
   * clip two toggles from playing come back to playing, while two toggles
   * from stopped or paused come back to paused; without a clip a stopped
   * editor stays as it is.
   */
  lemma ToggleProperties(p: Playback, hasClip: bool)
    ensures !(p.isPlaying && p.isPaused) ==> !(Toggle(p, hasClip).isPlaying && Toggle(p, hasClip).isPaused)
    ensures Toggle(p, hasClip).isPlaying ==> Toggle(p, hasClip).isAutoplay
    ensures hasClip && p.isPlaying ==> Toggle(Toggle(p, hasClip), hasClip) == Playback(true, false, true)
    ensures hasClip && !p.isPlaying ==> Toggle(Toggle(p, hasClip), hasClip) == Playback(false, true, false)
    ensures !hasClip && !p.isPlaying ==> Toggle(p, hasClip) == p
  {
  }

  // ---------------------------------------------------------------------
  // Text export

  /** The type code written for each kind. */
  function TypeCode(t: NoteType): (c: int)
    ensures c == 1 || c == 2 || c == 4
  {
    match t
    case Tap => 1
    case Drag => 2
    case Block => 4
  }

  /** Different kinds get different codes. */
  lemma TypeCodeDistinct(a: NoteType, b: NoteType)
    ensures TypeCode(a) == TypeCode(b) <==> a == b
  {
  }

  /**
   * How C# writes text: a float by `ToString(CultureInfo.InvariantCulture)`
   * and by `ToString("F0")`, and the end of a line that `AppendLine` writes,
   * `Environment.NewLine` ("\n", or "\r\n" on Windows).
   */
  datatype Formats = Formats(plain: real -> string, fixed0: real -> string, newline: string)

  const Header: seq<string> := ["[General]", "AudioFilename: track.mp3", "AudioLeadIn: 0", "", "[TimingPoints]"]
  const Middle: seq<string> := ["", "[HitObjects]"]

  /** The timing-point line of a BPM event: time, beat length, then "4,1,0,100,1,0" (uninherited). */
  function EventLine(e: ChartEvent, f: Formats): string
  {
    Join([f.plain(e.timeStamp), f.plain(e.data), "4", "1", "0", "100", "1", "0"], ',')
  }

  /** The lines of the BPM events, in list order; other events write nothing. */
  function EventLines(events: seq<ChartEvent>, f: Formats): seq<string>
  {
    if events == [] then []
    else
      var e := events[|events| - 1];
      EventLines(events[..|events| - 1], f) + (if e.eventType == "bpm" then [EventLine(e, f)] else [])
  }

  /** The centre of cell `i` along an axis with cells of `size`. */
  function Centre(i: int, size: real): real
  {
    (i as real + 0.5) * size
  }

  /** The hit-object line of a note: the cell centre in top-left coordinates, the time, 0, then the type code. */
  function NoteLine(n: EditorNote, cellSize: Util.Vec, f: Formats): string
  {
    Join([f.fixed0(Centre(n.cell.x, cellSize.x)), f.fixed0(Centre(n.cell.y, cellSize.y)),
          f.plain(n.timeStamp), "0", ShowInt(TypeCode(n.noteType))], ',')
  }

  function NoteLines(notes: seq<EditorNote>, cellSize: Util.Vec, f: Formats): (r: seq<string>)
    ensures |r| == |notes| && forall i :: 0 <= i < |notes| ==> r[i] == NoteLine(notes[i], cellSize, f)
  {
    seq(|notes|, i requires 0 <= i < |notes| => NoteLine(notes[i], cellSize, f))
  }

  /** The text of StringBuilder.AppendLine calls: each line followed by the line end `nl`. */
  function Unlines(lines: seq<string>, nl: string): string
  {
    if lines == [] then "" else Unlines(lines[..|lines| - 1], nl) + lines[|lines| - 1] + nl
  }

  function ChartLines(events: seq<ChartEvent>, notes: seq<EditorNote>, cellSize: Util.Vec, f: Formats): seq<string>
  {
    Header + EventLines(events, f) + Middle + NoteLines(notes, cellSize, f)
  }

  lemma UnlinesSnoc(lines: seq<string>, line: string, nl: string)
    ensures Unlines(lines + [line], nl) == Unlines(lines, nl) + line + nl
  {
    assert (lines + [line])[..|lines|] == lines;
  }

  /** The text of two groups of lines is the text of the first followed by the text of the second. */
  lemma {:induction false} UnlinesAppend(a: seq<string>, b: seq<string>, nl: string)
    ensures Unlines(a + b, nl) == Unlines(a, nl) + Unlines(b, nl)
    decreases |b|
  {
    if b != [] {
      var b0 := b[..|b| - 1];
      var last := b[|b| - 1];
      UnlinesAppend(a, b0, nl);
      assert a + b == (a + b0) + [last];
      UnlinesSnoc(a + b0, last, nl);
      calc {
        Unlines(a + b, nl);
        Unlines(a + b0, nl) + last + nl;
        Unlines(a, nl) + Unlines(b0, nl) + last + nl;
        Unlines(a, nl) + (Unlines(b0, nl) + last + nl);
      }
    } else {
      assert a + b == a;
    }
  }

  /** Each line with `suffix` appended. */
  function Suffixed(lines: seq<string>, suffix: string): (r: seq<string>)
    ensures |r| == |lines| && forall i :: 0 <= i < |lines| ==> r[i] == lines[i] + suffix
  {
    seq(|lines|, i requires 0 <= i < |lines| => lines[i] + suffix)
  }

  /** Lines ended by `suffix` and '\n' are the lines so ended joined at '\n', with an empty last piece. */
  lemma {:induction false} UnlinesIsJoin(lines: seq<string>, suffix: string)
    ensures Unlines(lines, suffix + "\n") == Join(Suffixed(lines, suffix) + [""], '\n')
    decreases |lines|
  {
    var nl := suffix + "\n";
    if lines != [] {
      var init := lines[..|lines| - 1];
      var last := lines[|lines| - 1];
      var t := Suffixed(init, suffix);
      UnlinesIsJoin(init, suffix);
      assert lines == init + [last];
      UnlinesSnoc(init, last, nl);
      assert Suffixed(lines, suffix) + [""] == (t + [last + suffix]) + [""];
      JoinSnoc(t + [last + suffix], "", '\n');
      if t == [] {
        assert Join([last + suffix], '\n') == last + suffix;
        assert Unlines(init, nl) == Join([""], '\n') == "";
      } else {
        JoinSnoc(t, last + suffix, '\n');
        JoinSnoc(t, "", '\n');
        calc {
          Unlines(lines, nl);
          Unlines(init, nl) + last + nl;
          Join(t, '\n') + ['\n'] + last + suffix + ['\n'];
          Join(t + [last + suffix], '\n') + ['\n'] + "";
        }
      }
    }
  }

  /**
   * What the reader's `Split('\n')` gives back from exported text: the lines
   * in order, each followed by what the line end has before its '\n' (nothing
   * for "\n", a '\r' for "\r\n"), then one empty piece.
   */
  lemma UnlinesSplit(lines: seq<string>, suffix: string)
    requires '\n' !in suffix && forall i :: 0 <= i < |lines| ==> '\n' !in lines[i]
    ensures Split(Unlines(lines, suffix + "\n"), '\n') == Suffixed(lines, suffix) + [""]
  {
    UnlinesIsJoin(lines, suffix);
    var parts := Suffixed(lines, suffix) + [""];
    forall k | 0 <= k < |parts|
      ensures '\n' !in parts[k]
    {
      if k < |lines| {
        assert parts[k] == lines[k] + suffix;
      }
    }
    SplitJoin(parts, '\n');
  }

  /**
   * The blank line after the header reads back as empty, and so is skipped,
   * only when the line end is "\n"; with "\r\n" it reads back as "\r".
   */
  lemma HeaderBlankLine()
    ensures var r := Split(Unlines(Header, "\n"), '\n'); |r| == 6 && r[3] == ""
    ensures var r := Split(Unlines(Header, "\r\n"), '\n'); |r| == 6 && r[3] == "\r"
  {
    assert forall i :: 0 <= i < |Header| ==> '\n' !in Header[i];
    UnlinesSplit(Header, "");
    assert "" + "\n" == "\n";
    UnlinesSplit(Header, "\r");
    assert "\r" + "\n" == "\r\n";
  }

  /** The loop over the events: one line per BPM event. */
  method WriteEvents(events: seq<ChartEvent>, f: Formats) returns (text: string)
    ensures text == Unlines(EventLines(events, f), f.newline)
  {
    text := "";
    var i := 0;
    while i < |events|
      invariant i <= |events| && text == Unlines(EventLines(events[..i], f), f.newline)
    {
      assert events[..i + 1][..i] == events[..i];
      assert EventLines(events[..i + 1], f) ==
        EventLines(events[..i], f) + (if events[i].eventType == "bpm" then [EventLine(events[i], f)] else []);
      if events[i].eventType == "bpm" {
        var line := EventLine(events[i], f);
        UnlinesSnoc(EventLines(events[..i], f), line, f.newline);
        text := text + line + f.newline;
      } else {
        assert EventLines(events[..i + 1], f) == EventLines(events[..i], f);
      }
      i := i + 1;
    }
    assert events[..|events|] == events;
  }

  /** The loop over the notes: one line per note. */
  method WriteNotes(notes: seq<EditorNote>, cellSize: Util.Vec, f: Formats) returns (text: string)
    ensures text == Unlines(NoteLines(notes, cellSize, f), f.newline)
  {
    text := "";
    var i := 0;
    while i < |notes|
      invariant i <= |notes| && text == Unlines(NoteLines(notes[..i], cellSize, f), f.newline)
    {
      var line := NoteLine(notes[i], cellSize, f);
      UnlinesSnoc(NoteLines(notes[..i], cellSize, f), line, f.newline);
      assert NoteLines(notes[..i + 1], cellSize, f) == NoteLines(notes[..i], cellSize, f) + [line];
      text := text + line + f.newline;
      i := i + 1;
    }
    assert notes[..|notes|] == notes;
  }

  /** ConvertChartToText: the header, one line per BPM event, then one line per note. */
  method ConvertChartToText(events: seq<ChartEvent>, notes: seq<EditorNote>, cellSize: Util.Vec, f: Formats) returns (text: string)
    ensures text == Unlines(ChartLines(events, notes, cellSize, f), f.newline)
  {
    var eventText := WriteEvents(events, f);
    var noteText := WriteNotes(notes, cellSize, f);
    text := Unlines(Header, f.newline) + eventText + Unlines(Middle, f.newline) + noteText;
    UnlinesAppend(Header, EventLines(events, f), f.newline);
    UnlinesAppend(Header + EventLines(events, f), Middle, f.newline);
    UnlinesAppend(Header + EventLines(events, f) + Middle, NoteLines(notes, cellSize, f), f.newline);
  }

  /** The number of lines: five header lines, one per BPM event, two more, one per note. */
  lemma {:induction false} ChartLinesCount(events: seq<ChartEvent>, notes: seq<EditorNote>, cellSize: Util.Vec, f: Formats)
    ensures |ChartLines(events, notes, cellSize, f)| == 7 + CountBpm(events) + |notes|
  {
    EventLinesCount(events, f);
  }

  /** The number of events of type "bpm". */
  function CountBpm(events: seq<ChartEvent>): nat
  {
    if events == [] then 0
    else CountBpm(events[..|events| - 1]) + (if events[|events| - 1].eventType == "bpm" then 1 else 0)
  }

  lemma {:induction false} EventLinesCount(events: seq<ChartEvent>, f: Formats)
    ensures |EventLines(events, f)| == CountBpm(events)
  {
    if events != [] {
      EventLinesCount(events[..|events| - 1], f);
    }
  }

  /** C# writes the number without a comma. */
  predicate CommaFree(f: Formats, x: real)
  {
    ',' !in f.plain(x) && ',' !in f.fixed0(x)
  }

  lemma ShowIntCommaFree(n: int)
    ensures ',' !in ShowInt(n)
  {
    var s := ShowInt(n);
    if n < 0 {
      assert AllDigits(s[1..]);
      assert forall k :: 1 <= k < |s| ==> s[k] == s[1..][k - 1];
    }
  }

  /** Every BPM event line has eight fields: its time, its beat length, and 1 (uninherited) in field 6. */
  lemma ExportedEventFields(e: ChartEvent, f: Formats)
    requires CommaFree(f, e.timeStamp) && CommaFree(f, e.data)
    ensures var data := Split(EventLine(e, f), ',');
            && |data| == 8 && data[0] == f.plain(e.timeStamp) && data[1] == f.plain(e.data)
            && ParseInt(data[6]) == Some(1)
  {
    var ev := [f.plain(e.timeStamp), f.plain(e.data), "4", "1", "0", "100", "1", "0"];
    SplitJoin(ev, ',');
    assert ShowInt(1) == "1";
    ParseShowInt(1);
  }

  /** Every note line has five fields: the cell centre, the time, 0 in field 3 and the type code in field 4. */
  lemma ExportedNoteFields(n: EditorNote, cellSize: Util.Vec, f: Formats)
    requires CommaFree(f, n.timeStamp)
    requires CommaFree(f, Centre(n.cell.x, cellSize.x)) && CommaFree(f, Centre(n.cell.y, cellSize.y))
    ensures var data := Split(NoteLine(n, cellSize, f), ',');
            && |data| == 5 && data[2] == f.plain(n.timeStamp) && data[3] == "0"
            && ParseInt(data[4]) == Some(TypeCode(n.noteType))
  {
    var code := TypeCode(n.noteType);
    ParseShowInt(code);
    assert ParseInt(ShowInt(code)) == Some(code);
    ShowIntCommaFree(code);
    var nl := [f.fixed0(Centre(n.cell.x, cellSize.x)), f.fixed0(Centre(n.cell.y, cellSize.y)),
               f.plain(n.timeStamp), "0", ShowInt(code)];
    SplitJoin(nl, ',');
    assert Split(NoteLine(n, cellSize, f), ',') == nl;
  }

  /**
   * The export does not read back as written: GetChart takes the type from
   * field 3, where the export writes 0, so every exported note is read in
   * the [HitObjects] section as a default Note without an ordinal.
   */
  lemma ExportedNoteReadsAsPlain(s: Util.Reader, n: EditorNote, cellSize: Util.Vec, f: Formats)
    requires CommaFree(f, n.timeStamp)
    requires CommaFree(f, Centre(n.cell.x, cellSize.x)) && CommaFree(f, Centre(n.cell.y, cellSize.y))
    ensures Util.HitLine(s, Split(NoteLine(n, cellSize, f), ',')) == Ok(s.(notes := s.notes + [Util.PlainNote]))
  {
    ExportedNoteFields(n, cellSize, f);
    assert ShowInt(0) == "0";
    ParseShowInt(0);
  }

  // ---------------------------------------------------------------------
  // The editor

  class ChartEditor {
    /** Values.gridColumns and Values.gridRows. */
    const columns: int
    const rows: int
    var notes: seq<EditorNote>
    /** The chart's event list; None is a null list. */
    var events: Option<seq<ChartEvent>>
    var currentTime: real
    var currentBPM: real
    var offset: real
    var selectedNoteType: NoteType
    var isPlaying: bool
    var isPaused: bool
    /** PlayInfo.isAutoplay. */
    var isAutoplay: bool

    /** The note list is sorted by time and numbered 1..n; the BPM stays in the range the editor clamps to. */
    ghost predicate Valid()
      reads this
    {
      Sorted(notes) && Numbered(notes) && 60.0 <= currentBPM <= 300.0
    }

    function PlaybackFlags(): Playback
      reads this
    {
      Playback(isPlaying, isPaused, isAutoplay)
    }

    function EventList(): seq<ChartEvent>
      reads this
    {
      match events case Some(es) => es case None => []
    }

    /** Awake (InitializeEditor) followed by Start's CreateNewChart. */
    constructor (columns: int, rows: int)
      ensures Valid() && this.columns == columns && this.rows == rows
      ensures notes == [] && events == Some([ChartEvent(0.0, "bpm", BeatLength(120.0))])
      ensures currentTime == 0.0 && currentBPM == 120.0 && offset == 0.0 && selectedNoteType == Tap
      ensures PlaybackFlags() == Playback(false, false, false)
    {
      this.columns, this.rows := columns, rows;
      notes, events := [], Some([ChartEvent(0.0, "bpm", BeatLength(120.0))]);
      currentTime, currentBPM, offset := 0.0, 120.0, 0.0;
      selectedNoteType := Tap;
      isPlaying, isPaused, isAutoplay := false, false, false;
    }

    /** AddNote: the note joins the list, which stays sorted by time and is renumbered 1..n. */
    method AddNote(note: EditorNote)
      requires Valid()
      modifies this
      ensures Valid() && |notes| == |old(notes)| + 1
      ensures multiset(Stripped(notes)) == multiset(Stripped(old(notes))) + multiset{Strip(note)}
      ensures events == old(events) && currentTime == old(currentTime) && currentBPM == old(currentBPM)
      ensures selectedNoteType == old(selectedNoteType) && PlaybackFlags() == old(PlaybackFlags()) && offset == old(offset)
    {
      var k := InsertionPoint(notes, note.timeStamp);
      InsertKeepsSorted(notes, note, k);
      InsertAddsNote(notes, note, k);
      var inserted := notes[..k] + [note] + notes[k..];
      RenumberedKeeps(inserted);
      notes := Renumber(inserted);
    }

    /** RemoveNote: an absent note changes nothing; otherwise it leaves the list, which is renumbered 1..n. */
    method RemoveNote(note: EditorNote)
      requires Valid()
      modifies this
      ensures Valid()
      ensures note !in old(notes) ==> notes == old(notes)
      ensures note in old(notes) ==>
                var k := note.nthNote - 1;
                && 0 <= k < |old(notes)| && old(notes)[k] == note
                && |notes| == |old(notes)| - 1
                && Stripped(notes) == Stripped(old(notes)[..k] + old(notes)[k + 1..])
      ensures events == old(events) && currentTime == old(currentTime) && currentBPM == old(currentBPM)
      ensures selectedNoteType == old(selectedNoteType) && PlaybackFlags() == old(PlaybackFlags()) && offset == old(offset)
    {
      var found := Find(notes, x => x == note);
      if found.None? {
        return;
      }
      var k := found.value;
      NumberedPosition(notes, note);
      RemoveKeepsSorted(notes, k);
      var rest := notes[..k] + notes[k + 1..];
      RenumberedKeeps(rest);
      notes := Renumber(rest);
    }

    /**
     * ToggleNoteAtPosition: removes the first note within 50 ms of the
     * current time in the cell, or, when there is none, adds a note of the
     * selected kind there at the current time.
     */
    method ToggleNoteAtPosition(pos: Cell)
      requires Valid()
      modifies this
      ensures Valid()
      ensures var m := FirstIndex(old(notes), n => Matches(n, old(currentTime), pos));
              m.Some? ==> |notes| == |old(notes)| - 1 && Stripped(notes) == Stripped(old(notes)[..m.value] + old(notes)[m.value + 1..])
      ensures var m := FirstIndex(old(notes), n => Matches(n, old(currentTime), pos));
              m.None? ==> multiset(Stripped(notes)) == multiset(Stripped(old(notes))) + multiset{EditorNote(old(selectedNoteType), pos, old(currentTime), 0)}
      ensures events == old(events) && currentTime == old(currentTime) && currentBPM == old(currentBPM)
      ensures selectedNoteType == old(selectedNoteType) && PlaybackFlags() == old(PlaybackFlags()) && offset == old(offset)
    {
      var existing := FindNoteAt(notes, currentTime, pos);
      if existing.Some? {
        NumberedPosition(notes, notes[existing.value]);
        RemoveNote(notes[existing.value]);
      } else {
        AddNote(CreateNote(selectedNoteType, pos, currentTime, |notes|));
      }
    }

    /** HandleLeftClick after the cell lookup: only a cell inside the grid toggles a note. */
    method HandleLeftClick(pos: Cell)
      requires Valid()
      modifies this
      ensures Valid()
      ensures !(0 <= pos.x < columns && 0 <= pos.y < rows) ==> unchanged(this)
      ensures 0 <= pos.x < columns && 0 <= pos.y < rows ==>
                var m := FirstIndex(old(notes), n => Matches(n, old(currentTime), pos));
                m.Some? ==> |notes| == |old(notes)| - 1 && Stripped(notes) == Stripped(old(notes)[..m.value] + old(notes)[m.value + 1..])
      ensures 0 <= pos.x < columns && 0 <= pos.y < rows ==>
                var m := FirstIndex(old(notes), n => Matches(n, old(currentTime), pos));
                m.None? ==>
                  && |notes| == |old(notes)| + 1
                  && multiset(Stripped(notes)) == multiset(Stripped(old(notes))) + multiset{EditorNote(old(selectedNoteType), pos, old(currentTime), 0)}
      ensures events == old(events) && currentTime == old(currentTime) && currentBPM == old(currentBPM)
      ensures selectedNoteType == old(selectedNoteType) && PlaybackFlags() == old(PlaybackFlags()) && offset == old(offset)
    {
      if 0 <= pos.x < columns && 0 <= pos.y < rows {
        ToggleNoteAtPosition(pos);
        assert |multiset(Stripped(notes))| == |Stripped(notes)|;
      }
    }

    method SelectNoteType(t: NoteType)
      requires Valid()
      modifies this
      ensures Valid() && selectedNoteType == t
      ensures notes == old(notes) && events == old(events) && currentTime == old(currentTime)
      ensures currentBPM == old(currentBPM) && PlaybackFlags() == old(PlaybackFlags()) && offset == old(offset)
    {
      selectedNoteType := t;
    }

    /** UpdateBPMInChart: a null event list becomes a list, then the initial BPM event is updated or added. */
    method UpdateBPMInChart()
      requires Valid()
      modifies this
      ensures Valid() && events == Some(WithBpm(old(EventList()), currentBPM))
      ensures notes == old(notes) && currentTime == old(currentTime) && currentBPM == old(currentBPM)
      ensures selectedNoteType == old(selectedNoteType) && PlaybackFlags() == old(PlaybackFlags()) && offset == old(offset)
    {
      if events.None? {
        events := Some([]);
      }
      var list := events.value;
      var found := Find(list, IsInitialBpm);
      if found.Some? {
        var k := found.value;
        events := Some(list[k := list[k].(data := BeatLength(currentBPM))]);
      } else {
        events := Some(list + [ChartEvent(0.0, "bpm", BeatLength(currentBPM))]);
      }
    }

    /** OnBPMChanged: text that parses sets the BPM, clamped to 60..300, and updates the BPM event; other text is ignored. */
    method OnBPMChanged(value: string)
      requires Valid()
      modifies this
      ensures Valid()
      ensures ParseReal(value).None? ==> unchanged(this)
      ensures ParseReal(value).Some? ==>
                && currentBPM == ClampReal(ParseReal(value).value, 60.0, 300.0)
                && events == Some(WithBpm(old(EventList()), currentBPM))
                && notes == old(notes) && currentTime == old(currentTime) && offset == old(offset)
                && selectedNoteType == old(selectedNoteType) && PlaybackFlags() == old(PlaybackFlags())
    {
      match ParseReal(value)
      case None =>
      case Some(newBPM) =>
        currentBPM := ClampReal(newBPM, 60.0, 300.0);
        UpdateBPMInChart();
    }

    /** OnOffsetChanged: text that parses becomes the offset; other text is ignored. */
    method OnOffsetChanged(value: string)
      requires Valid()
      modifies this
      ensures Valid()
      ensures ParseReal(value).None? ==> unchanged(this)
      ensures ParseReal(value).Some? ==>
                && offset == ParseReal(value).value
                && notes == old(notes) && events == old(events) && currentTime == old(currentTime)
                && currentBPM == old(currentBPM) && PlaybackFlags() == old(PlaybackFlags())
                && selectedNoteType == old(selectedNoteType)
    {
      match ParseReal(value)
      case None =>
      case Some(newOffset) =>
        offset := newOffset;
    }

    method TogglePlayback(hasClip: bool)
      requires Valid()
      modifies this
      ensures Valid() && PlaybackFlags() == Toggle(old(PlaybackFlags()), hasClip)
      ensures notes == old(notes) && events == old(events) && currentTime == old(currentTime)
      ensures currentBPM == old(currentBPM) && selectedNoteType == old(selectedNoteType) && offset == old(offset)
    {
      if isPlaying {
        isPlaying := false;
        isPaused := true;
        isAutoplay := false;
      } else if hasClip {
        isPlaying := true;
        isPaused := false;
        isAutoplay := true;
      }
    }

    /** CreateNewChart: playback stops, the chart is emptied, time, BPM and offset are reset, and the BPM event is written. */
    method CreateNewChart()
      requires Valid()
      modifies this
      ensures Valid() && notes == [] && events == Some([ChartEvent(0.0, "bpm", BeatLength(120.0))])
      ensures currentTime == 0.0 && currentBPM == 120.0 && offset == 0.0
      ensures PlaybackFlags() == Playback(false, false, false) && selectedNoteType == old(selectedNoteType)
    {
      isPlaying, isPaused, isAutoplay := false, false, false;
      notes, events := [], Some([]);
      currentTime, currentBPM, offset := 0.0, 120.0, 0.0;
      UpdateBPMInChart();
      assert WithBpm([], 120.0) == [ChartEvent(0.0, "bpm", BeatLength(120.0))];
    }
  }
}
