/**
 * NoteJudge.cs: the grid-cell judgment engine. Each frame it enqueues the
 * notes that entered the bad window, auto-misses the late prefix of the
 * queue, resolves Block and Drag notes by cursor cell, and resolves Tap notes
 * on discrete tap input. Resolved queue positions are removed back to front.
 */
module NoteJudge {
  import opened Wrappers
  import opened Values
  import opened Chart
  import opened JudgeCenter
  import opened Queue

  /** Whether a note is resolved, and the effects produced while looking at it. */
  datatype Outcome = Outcome(remove: bool, effects: seq<Effect>)

  /** Number of judgments an effect list delivers, immediately or deferred. */
  function Resolutions(e: seq<Effect>): nat
  {
    if e == [] then 0 else (if e[0].Feedback? || e[0].Deferred? then 1 else 0) + Resolutions(e[1..])
  }

  lemma {:induction false} ResolutionsAppend(a: seq<Effect>, b: seq<Effect>)
    ensures Resolutions(a + b) == Resolutions(a) + Resolutions(b)
  {
    if a == [] {
      assert a + b == b;
    } else {
      ResolutionsAppend(a[1..], b);
      assert (a + b)[0] == a[0];
      assert (a + b)[1..] == a[1..] + b;
    }
  }

  /** The grades of the immediate judgments in an effect list, in order. */
  function Grades(e: seq<Effect>): seq<Judgment>
  {
    if e == [] then [] else (if e[0].Feedback? then [e[0].grade] else []) + Grades(e[1..])
  }

  lemma {:induction false} GradesAppend(a: seq<Effect>, b: seq<Effect>)
    ensures Grades(a + b) == Grades(a) + Grades(b)
  {
    if a == [] {
      assert a + b == b;
    } else {
      GradesAppend(a[1..], b);
      var h := if a[0].Feedback? then [a[0].grade] else [];
      assert (a + b)[0] == a[0];
      assert (a + b)[1..] == a[1..] + b;
      assert Grades(a + b) == h + (Grades(a[1..]) + Grades(b));
      assert h + (Grades(a[1..]) + Grades(b)) == (h + Grades(a[1..])) + Grades(b);
    }
  }

  /** The delays of the deferred judgments in an effect list, in order. */
  function Delays(e: seq<Effect>): seq<int>
  {
    if e == [] then [] else (if e[0].Deferred? then [e[0].delayMs] else []) + Delays(e[1..])
  }

  lemma {:induction false} DelaysAppend(a: seq<Effect>, b: seq<Effect>)
    ensures Delays(a + b) == Delays(a) + Delays(b)
  {
    if a == [] {
      assert a + b == b;
    } else {
      DelaysAppend(a[1..], b);
      var h := if a[0].Deferred? then [a[0].delayMs] else [];
      assert (a + b)[0] == a[0];
      assert (a + b)[1..] == a[1..] + b;
      assert Delays(a + b) == h + (Delays(a[1..]) + Delays(b));
      assert h + (Delays(a[1..]) + Delays(b)) == (h + Delays(a[1..])) + Delays(b);
    }
  }

  /*
   * The per-kind rules. `hit` is whether the note counts as under the cursor:
   * the cursor's cell in NoteJudge.cs, inside the block or judge radius in
   * TouchInput.cs.
   */

  /** ProcessBlockNote: waits until the note is past, then Miss (with shake) under the cursor, else Perfect. */
  function BlockOutcome(timeDifference: int, hit: bool): Outcome
  {
    if timeDifference >= 0 then Outcome(false, [])
    else if hit then Outcome(true, [Feedback(Miss, None), Shake])
    else Outcome(true, [Feedback(Perfect, None)])
  }

  /** ProcessDragNote: under the cursor and not Bad, a Perfect, deferred by the remaining time if early. */
  function DragOutcome(index: nat, timeDifference: int, hit: bool): Outcome
  {
    if !hit || Judge(timeDifference) == Bad then Outcome(false, [])
    else if timeDifference > 0 then Outcome(true, [Deferred(index, timeDifference)])
    else Outcome(true, [Feedback(Perfect, Some(index))])
  }

  /** ProcessTapNote: under the cursor, graded by Judge. */
  function TapOutcome(index: nat, timeDifference: int, hit: bool): Outcome
  {
    if !hit then Outcome(false, [])
    else Outcome(true, [Feedback(Judge(timeDifference), Some(index))])
  }

  /** One iteration of ProcessActiveNotes: the shared FadeOut, then the Block or Drag rule; Tap is not handled. */
  function ActiveOutcome(note: NoteData, index: nat, time: int, cursor: Cell): (o: Outcome)
    ensures o.remove ==> note.noteType != Tap
    ensures note.noteType == Block ==> (o.remove <==> note.timeStamp < time)
    ensures note.noteType == Drag ==> (o.remove <==> note.cell == cursor && Judge(note.timeStamp - time) != Bad)
  {
    var d := note.timeStamp - time;
    var fade := if d <= 0 then [FadeOut(index)] else [];
    var sameCell := note.cell == cursor;
    var rule := match note.noteType
      case Block => BlockOutcome(d, sameCell)
      case Drag => DragOutcome(index, d, sameCell)
      case Tap => Outcome(false, []);
    Outcome(rule.remove, fade + rule.effects)
  }

  /** A note the active pass removes receives exactly one judgment, immediate or deferred; a kept note none. */
  lemma ActiveOutcomeResolves(note: NoteData, index: nat, time: int, cursor: Cell)
    ensures var o := ActiveOutcome(note, index, time, cursor);
            Resolutions(o.effects) == if o.remove then 1 else 0
  {
    var d := note.timeStamp - time;
    var fade := if d <= 0 then [FadeOut(index)] else [];
    var rule := match note.noteType
      case Block => BlockOutcome(d, note.cell == cursor)
      case Drag => DragOutcome(index, d, note.cell == cursor)
      case Tap => Outcome(false, []);
    ResolutionsAppend(fade, rule.effects);
  }

  /**
   * The judgment the active pass gives: Miss only for a Block note in the
   * cursor's cell (with a shake), Perfect otherwise, deferred by the
   * remaining time when a Drag note is taken early; the note fades once its
   * time has come.
   */
  lemma ActiveOutcomeGrades(note: NoteData, index: nat, time: int, cursor: Cell)
    ensures var o := ActiveOutcome(note, index, time, cursor);
      && ((FadeOut(index) in o.effects) <==> note.timeStamp <= time)
      && Grades(o.effects) == (if !o.remove || note.timeStamp > time then []
                               else [if note.noteType == Block && note.cell == cursor then Miss else Perfect])
      && Delays(o.effects) == (if o.remove && note.timeStamp > time then [note.timeStamp - time] else [])
      && ((Shake in o.effects) <==> o.remove && note.noteType == Block && note.cell == cursor)
  {
    var d := note.timeStamp - time;
    var fade := if d <= 0 then [FadeOut(index)] else [];
    var rule := match note.noteType
      case Block => BlockOutcome(d, note.cell == cursor)
      case Drag => DragOutcome(index, d, note.cell == cursor)
      case Tap => Outcome(false, []);
    GradesAppend(fade, rule.effects);
    DelaysAppend(fade, rule.effects);
  }

  /** The state of the ProcessActiveNotes loop after the first `n` queue positions: positions to remove, effects so far. */
  datatype Pass = Pass(removeIndices: seq<int>, produced: seq<Effect>)

  /** ProcessActiveNotes' loop over the first `n` positions of the queue. */
  function ActivePass(notes: seq<NoteData>, queue: seq<int>, n: nat, time: int, cursor: Cell): (p: Pass)
    requires IndicesBelow(queue, |notes|) && n <= |queue|
    ensures Increasing(p.removeIndices) && IndicesBelow(p.removeIndices, n)
  {
    if n == 0 then Pass([], [])
    else
      var p := ActivePass(notes, queue, n - 1, time, cursor);
      var o := ActiveOutcome(notes[queue[n - 1]], queue[n - 1], time, cursor);
      Pass(p.removeIndices + (if o.remove then [n - 1] else []), p.produced + o.effects)
  }

  /** The active pass removes a position exactly when that note's own outcome says so; never a Tap note. */
  lemma {:induction false} ActivePassMarks(notes: seq<NoteData>, queue: seq<int>, n: nat, time: int, cursor: Cell, j: nat)
    requires IndicesBelow(queue, |notes|) && j < n <= |queue|
    ensures j in ActivePass(notes, queue, n, time, cursor).removeIndices
        <==> ActiveOutcome(notes[queue[j]], queue[j], time, cursor).remove
    ensures notes[queue[j]].noteType == Tap ==> j !in ActivePass(notes, queue, n, time, cursor).removeIndices
  {
    var p := ActivePass(notes, queue, n - 1, time, cursor);
    var o := ActiveOutcome(notes[queue[n - 1]], queue[n - 1], time, cursor);
    var extra := if o.remove then [n - 1] else [];
    assert ActivePass(notes, queue, n, time, cursor).removeIndices == p.removeIndices + extra;
    if j < n - 1 {
      ActivePassMarks(notes, queue, n - 1, time, cursor, j);
      assert j !in extra;
    } else {
      assert j !in p.removeIndices;
    }
  }

  /** Every note the active pass removes receives exactly one judgment, and no other note does. */
  lemma {:induction false} ActivePassResolutions(notes: seq<NoteData>, queue: seq<int>, n: nat, time: int, cursor: Cell)
    requires IndicesBelow(queue, |notes|) && n <= |queue|
    ensures var p := ActivePass(notes, queue, n, time, cursor);
            Resolutions(p.produced) == |p.removeIndices|
  {
    if n > 0 {
      var p := ActivePass(notes, queue, n - 1, time, cursor);
      var o := ActiveOutcome(notes[queue[n - 1]], queue[n - 1], time, cursor);
      ActivePassResolutions(notes, queue, n - 1, time, cursor);
      ActiveOutcomeResolves(notes[queue[n - 1]], queue[n - 1], time, cursor);
      ResolutionsAppend(p.produced, o.effects);
    }
  }

  /** A note ProcessTapInput may resolve: a Tap note in the cursor's cell. */
  predicate TapEligible(note: NoteData, cursor: Cell)
  {
    note.noteType == Tap && note.cell == cursor
  }

  /** Number of eligible notes among the first `n` queue positions. */
  function EligibleBefore(notes: seq<NoteData>, queue: seq<int>, n: nat, cursor: Cell): nat
    requires IndicesBelow(queue, |notes|) && n <= |queue|
  {
    if n == 0 then 0
    else EligibleBefore(notes, queue, n - 1, cursor) + (if TapEligible(notes[queue[n - 1]], cursor) then 1 else 0)
  }

  /** The state of the ProcessTapInput loop after the first `n` positions, with the taps still unused. */
  datatype TapPass = TapPass(removeIndices: seq<int>, produced: seq<Effect>, remaining: int)

  /**
   * ProcessTapInput's loop over the first `n` positions: each eligible note
   * takes one tap while taps remain. The number resolved is the number of
   * eligible notes seen, capped by the tap count.
   */
  function TapPassOf(notes: seq<NoteData>, queue: seq<int>, n: nat, tapCount: int, time: int, cursor: Cell): (p: TapPass)
    requires IndicesBelow(queue, |notes|) && n <= |queue|
    ensures Increasing(p.removeIndices) && IndicesBelow(p.removeIndices, n)
    ensures p.remaining == tapCount - |p.removeIndices|
    ensures |p.removeIndices| == if tapCount <= 0 then 0
                                 else if EligibleBefore(notes, queue, n, cursor) < tapCount then EligibleBefore(notes, queue, n, cursor)
                                 else tapCount
  {
    if n == 0 then TapPass([], [], tapCount)
    else
      var p := TapPassOf(notes, queue, n - 1, tapCount, time, cursor);
      var index := queue[n - 1];
      var note := notes[index];
      if p.remaining > 0 && TapEligible(note, cursor) then
        TapPass(p.removeIndices + [n - 1], p.produced + [Feedback(Judge(note.timeStamp - time), Some(index))], p.remaining - 1)
      else p
  }

  /**
   * Taps are consumed in queue order: a position is resolved exactly when its
   * note is eligible and fewer than `tapCount` eligible notes precede it.
   */
  lemma {:induction false} TapPassTakesEarliest(notes: seq<NoteData>, queue: seq<int>, n: nat, tapCount: int, time: int, cursor: Cell, j: nat)
    requires IndicesBelow(queue, |notes|) && j < n <= |queue|
    ensures j in TapPassOf(notes, queue, n, tapCount, time, cursor).removeIndices
        <==> TapEligible(notes[queue[j]], cursor) && EligibleBefore(notes, queue, j, cursor) < tapCount
  {
    if j < n - 1 {
      TapPassTakesEarliest(notes, queue, n - 1, tapCount, time, cursor, j);
    }
  }

  /** Each resolved position gets one immediate judgment: Judge of its own time difference, naming its note. */
  lemma {:induction false} TapPassJudgments(notes: seq<NoteData>, queue: seq<int>, n: nat, tapCount: int, time: int, cursor: Cell)
    requires IndicesBelow(queue, |notes|) && n <= |queue|
    ensures var p := TapPassOf(notes, queue, n, tapCount, time, cursor);
            && |p.produced| == |p.removeIndices|
            && forall k :: 0 <= k < |p.produced| ==>
                 p.produced[k] == Feedback(Judge(notes[queue[p.removeIndices[k]]].timeStamp - time), Some(queue[p.removeIndices[k]]))
  {
    if n > 0 {
      TapPassJudgments(notes, queue, n - 1, tapCount, time, cursor);
    }
  }

  /** Once the taps are used up, the rest of the queue is left alone. */
  lemma {:induction false} TapPassStalls(notes: seq<NoteData>, queue: seq<int>, i: nat, n: nat, tapCount: int, time: int, cursor: Cell)
    requires IndicesBelow(queue, |notes|) && i <= n <= |queue|
    requires TapPassOf(notes, queue, i, tapCount, time, cursor).remaining <= 0
    ensures TapPassOf(notes, queue, n, tapCount, time, cursor) == TapPassOf(notes, queue, i, tapCount, time, cursor)
  {
    if i < n {
      TapPassStalls(notes, queue, i, n - 1, tapCount, time, cursor);
    }
  }

  /**
   * The loop of ProcessActiveNotes: visits the queue front to back, collects
   * the positions to remove in ascending order, and produces the effects.
   */
  method ScanActive(notes: seq<NoteData>, queue: seq<int>, time: int, cursor: Cell)
    returns (removeIndices: seq<int>, produced: seq<Effect>)
    requires IndicesBelow(queue, |notes|)
    ensures Pass(removeIndices, produced) == ActivePass(notes, queue, |queue|, time, cursor)
  {
    removeIndices, produced := [], [];
    var i := 0;
    while i < |queue|
      invariant 0 <= i <= |queue|
      invariant Pass(removeIndices, produced) == ActivePass(notes, queue, i, time, cursor)
    {
      var index := queue[i];
      var outcome := ActiveOutcome(notes[index], index, time, cursor);
      produced := produced + outcome.effects;
      if outcome.remove {
        removeIndices := removeIndices + [i];
      }
      i := i + 1;
    }
  }

  /**
   * The loop of ProcessTapInput: stops at the end of the queue or when the
   * taps run out; non-Tap notes are skipped.
   */
  method ScanTaps(notes: seq<NoteData>, queue: seq<int>, tapCount: int, time: int, cursor: Cell)
    returns (removeIndices: seq<int>, produced: seq<Effect>)
    requires IndicesBelow(queue, |notes|)
    ensures var p := TapPassOf(notes, queue, |queue|, tapCount, time, cursor);
            removeIndices == p.removeIndices && produced == p.produced
  {
    var remainingTaps := tapCount;
    removeIndices, produced := [], [];
    var i := 0;
    while i < |queue| && remainingTaps > 0
      invariant 0 <= i <= |queue|
      invariant TapPass(removeIndices, produced, remainingTaps) == TapPassOf(notes, queue, i, tapCount, time, cursor)
    {
      var index := queue[i];
      var note := notes[index];
      if note.noteType == Tap {
        var outcome := TapOutcome(index, note.timeStamp - time, note.cell == cursor);
        produced := produced + outcome.effects;
        if outcome.remove {
          remainingTaps := remainingTaps - 1;
          removeIndices := removeIndices + [i];
        }
      }
      i := i + 1;
    }
    if i < |queue| {
      TapPassStalls(notes, queue, i, |queue|, tapCount, time, cursor);
    }
  }

  class NoteJudge {
    /** The chart's note list, shared with GameManager and never changed here. */
    const notes: seq<NoteData>
    var judgmentQueue: seq<int>
    var pointer: nat
    /** Effects handed to JudgeCenter, the note objects and the shake effects, in order. */
    var effects: seq<Effect>
    /** Every index that has left the queue, in order of leaving. */
    ghost var removed: seq<int>

    /**
     * The queue is strictly increasing and below `pointer`, and every index
     * enqueued so far is either still queued or has left exactly once.
     */
    ghost predicate Valid()
      reads this
    {
      && pointer <= |notes|
      && QueueInvariant(judgmentQueue, pointer, removed)
    }

    /** Awake/Start: takes GameManager's note list. */
    constructor (notes: seq<NoteData>)
      ensures Valid() && this.notes == notes
      ensures judgmentQueue == [] && pointer == 0 && effects == [] && removed == []
    {
      this.notes := notes;
      judgmentQueue, pointer, effects := [], 0, [];
      removed := [];
    }

    /** Some enqueued note is still waiting to be resolved. */
    function IsJudging(): (b: bool)
      requires Valid()
      reads this
      ensures b <==> multiset(removed) != multiset(Range(0, pointer))
    {
      |judgmentQueue| > 0
    }

    /** Appends consecutive indices from `pointer` while the note is at most BadWindow ahead. */
    method UpdateJudgmentQueue(time: int)
      requires Valid()
      modifies this
      ensures Valid()
      ensures pointer == AdmitStop(TimeStamps(notes), old(pointer), time, BadWindow)
      ensures judgmentQueue == old(judgmentQueue) + Range(old(pointer), pointer)
      ensures effects == old(effects) && removed == old(removed)
    {
      var added, stop := Admit(TimeStamps(notes), pointer, time, BadWindow);
      assert Range(0, stop) == Range(0, pointer) + added;
      judgmentQueue := judgmentQueue + added;
      pointer := stop;
    }

    /** Removes the maximal late prefix of the queue, one Miss per removed note. */
    method ProcessMissedNotes(time: int)
      requires Valid()
      modifies this
      ensures Valid() && pointer == old(pointer)
      ensures var k := MissCount(notes, old(judgmentQueue), time);
              && judgmentQueue == old(judgmentQueue)[k..]
              && effects == old(effects) + Misses(k)
              && removed == old(removed) + old(judgmentQueue)[..k]
    {
      var queue := judgmentQueue;
      var missCount, produced := SweepMisses(notes, queue, time);
      effects := effects + produced;
      if missCount > 0 {
        LeavePrefix(queue, missCount, removed, pointer);
        removed := removed + queue[..missCount];
        judgmentQueue := queue[missCount..];
      }
    }

    /** Resolves Block and Drag notes; resolved positions are removed back to front. */
    method ProcessActiveNotes(time: int, cursor: Cell)
      requires Valid()
      modifies this
      ensures Valid() && pointer == old(pointer)
      ensures var p := ActivePass(notes, old(judgmentQueue), |old(judgmentQueue)|, time, cursor);
              var marks := Marks(|old(judgmentQueue)|, p.removeIndices);
              && judgmentQueue == Filtered(old(judgmentQueue), marks)
              && effects == old(effects) + p.produced
              && removed == old(removed) + Selected(old(judgmentQueue), marks)
    {
      var queue := judgmentQueue;
      var removeIndices, produced := ScanActive(notes, queue, time, cursor);
      ghost var marks := Marks(|queue|, removeIndices);
      effects := effects + produced;
      LeaveMarked(queue, marks, removed, pointer);
      removed := removed + Selected(queue, marks);
      judgmentQueue := RemoveBackToFront(queue, removeIndices);
    }

    /** Resolves at most `tapCount` Tap notes in the cursor's cell, in queue order. */
    method ProcessTapInput(tapCount: int, cursor: Cell, time: int)
      requires Valid()
      modifies this
      ensures Valid() && pointer == old(pointer)
      ensures var p := TapPassOf(notes, old(judgmentQueue), |old(judgmentQueue)|, tapCount, time, cursor);
              var marks := Marks(|old(judgmentQueue)|, p.removeIndices);
              && judgmentQueue == Filtered(old(judgmentQueue), marks)
              && effects == old(effects) + p.produced
              && removed == old(removed) + Selected(old(judgmentQueue), marks)
    {
      var queue := judgmentQueue;
      var removeIndices, produced := ScanTaps(notes, queue, tapCount, time, cursor);
      ghost var marks := Marks(|queue|, removeIndices);
      effects := effects + produced;
      LeaveMarked(queue, marks, removed, pointer);
      removed := removed + Selected(queue, marks);
      judgmentQueue := RemoveBackToFront(queue, removeIndices);
    }

    /** The input event handler: taps are processed only when there are taps and queued notes. */
    method HandleInput(tapCount: int, cursor: Cell, time: int)
      requires Valid()
      modifies this
      ensures Valid() && pointer == old(pointer)
      ensures tapCount <= 0 || old(judgmentQueue) == [] ==> unchanged(this)
      ensures tapCount > 0 && old(judgmentQueue) != [] ==>
              var p := TapPassOf(notes, old(judgmentQueue), |old(judgmentQueue)|, tapCount, time, cursor);
              && judgmentQueue == Filtered(old(judgmentQueue), Marks(|old(judgmentQueue)|, p.removeIndices))
              && effects == old(effects) + p.produced
    {
      if tapCount > 0 && |judgmentQueue| > 0 {
        ProcessTapInput(tapCount, cursor, time);
      }
    }

    /** The miss sweep, then (if anything is left) the active pass. */
    method JudgeNotes(time: int, cursor: Cell)
      requires Valid()
      modifies this
      ensures Valid() && pointer == old(pointer)
      ensures var k := MissCount(notes, old(judgmentQueue), time);
              old(judgmentQueue)[k..] == [] ==> judgmentQueue == [] && effects == old(effects) + Misses(k)
      ensures var k := MissCount(notes, old(judgmentQueue), time);
              var rest := old(judgmentQueue)[k..];
              rest != [] ==>
                var p := ActivePass(notes, rest, |rest|, time, cursor);
                && judgmentQueue == Filtered(rest, Marks(|rest|, p.removeIndices))
                && effects == old(effects) + Misses(k) + p.produced
    {
      if |judgmentQueue| > 0 {
        ProcessMissedNotes(time);
        if |judgmentQueue| > 0 {
          ProcessActiveNotes(time, cursor);
        }
      }
    }

    /** One frame: nothing unless the game is playing; otherwise admit, then judge the admitted queue. */
    method Update(isPlaying: bool, time: int, cursor: Cell)
      requires Valid()
      modifies this
      ensures Valid()
      ensures !isPlaying ==> unchanged(this)
      ensures isPlaying ==> pointer == AdmitStop(TimeStamps(notes), old(pointer), time, BadWindow)
      ensures isPlaying ==>
              var admitted := old(judgmentQueue) + Range(old(pointer), pointer);
              var k := MissCount(notes, admitted, time);
              admitted[k..] == [] ==> judgmentQueue == [] && effects == old(effects) + Misses(k)
      ensures isPlaying ==>
              var admitted := old(judgmentQueue) + Range(old(pointer), pointer);
              var k := MissCount(notes, admitted, time);
              var rest := admitted[k..];
              rest != [] ==>
                var p := ActivePass(notes, rest, |rest|, time, cursor);
                && judgmentQueue == Filtered(rest, Marks(|rest|, p.removeIndices))
                && effects == old(effects) + Misses(k) + p.produced
    {
      if isPlaying {
        UpdateJudgmentQueue(time);
        JudgeNotes(time, cursor);
      }
    }
  }
}
