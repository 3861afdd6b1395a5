/**
 * TouchInput.cs: the older, radius-based judgment engine. It keeps the same
 * forward pointer and judgment queue as NoteJudge, but Tap notes are judged
 * inside the per-frame pass, each consuming one of the taps counted this
 * frame. The distance tests against the tilt cursor are inputs: the sets of
 * note indices inside the judge radius and inside the block radius.
 */
module TouchInput {
  import opened Wrappers
  import opened Values
  import opened Chart
  import opened JudgeCenter
  import opened Queue
  import opened NoteJudge

  /** One iteration of the ProcessActiveNotes loop, given the taps left before it. */
  function TouchOutcome(note: NoteData, index: nat, time: int, tap: int, inJudge: bool, inBlock: bool): (o: Outcome)
    ensures note.noteType == Block ==> (o.remove <==> note.timeStamp < time)
    ensures note.noteType == Tap ==> (o.remove <==> tap > 0 && inJudge)
    ensures note.noteType == Drag ==> (o.remove <==> inJudge && Judge(note.timeStamp - time) != Bad)
  {
    var d := note.timeStamp - time;
    match note.noteType
    case Block =>
      var rule := BlockOutcome(d, inBlock);
      Outcome(rule.remove, (if rule.remove then [FadeOut(index)] else []) + rule.effects)
    case Tap => if tap > 0 then TapOutcome(index, d, inJudge) else Outcome(false, [])
    case Drag => DragOutcome(index, d, inJudge)
  }

  /**
   * What a resolved note receives: one judgment, immediate or deferred; a
   * Block note fades and gets Miss with a shake inside the block radius,
   * Perfect outside it; a Tap note is graded by Judge; a Drag note gets a
   * Perfect, deferred by the remaining time when early. A kept note gets nothing.
   */
  lemma TouchOutcomeGrades(note: NoteData, index: nat, time: int, tap: int, inJudge: bool, inBlock: bool)
    ensures var o := TouchOutcome(note, index, time, tap, inJudge, inBlock);
      && Resolutions(o.effects) == (if o.remove then 1 else 0)
      && Grades(o.effects) == (if !o.remove then []
                               else match note.noteType
                                 case Block => [if inBlock then Miss else Perfect]
                                 case Tap => [Judge(note.timeStamp - time)]
                                 case Drag => if note.timeStamp > time then [] else [Perfect])
      && Delays(o.effects) == (if o.remove && note.noteType == Drag && note.timeStamp > time
                               then [note.timeStamp - time] else [])
      && ((FadeOut(index) in o.effects) <==> o.remove && note.noteType == Block)
      && ((Shake in o.effects) <==> o.remove && note.noteType == Block && inBlock)
  {
    if note.noteType == Block {
      var rule := BlockOutcome(note.timeStamp - time, inBlock);
      var fade := if rule.remove then [FadeOut(index)] else [];
      ResolutionsAppend(fade, rule.effects);
      GradesAppend(fade, rule.effects);
      DelaysAppend(fade, rule.effects);
    }
  }

  /** A Tap note that a tap would resolve: inside the judge radius. */
  predicate Hittable(notes: seq<NoteData>, index: int, inJudge: set<int>)
    requires 0 <= index < |notes|
  {
    notes[index].noteType == Tap && index in inJudge
  }

  /** Number of hittable Tap notes among the first `n` queue positions. */
  function HittableBefore(notes: seq<NoteData>, queue: seq<int>, n: nat, inJudge: set<int>): nat
    requires IndicesBelow(queue, |notes|) && n <= |queue|
  {
    if n == 0 then 0
    else HittableBefore(notes, queue, n - 1, inJudge) + (if Hittable(notes, queue[n - 1], inJudge) then 1 else 0)
  }

  /** The state of the ProcessActiveNotes loop after the first `n` positions, with the `tap` counter. */
  datatype TouchPass = TouchPass(removeIndices: seq<int>, produced: seq<Effect>, tap: int)

  /**
   * ProcessActiveNotes' loop over the first `n` positions. The taps used are
   * the hittable Tap notes seen, capped by the frame's tap count.
   */
  function TouchPassOf(notes: seq<NoteData>, queue: seq<int>, n: nat, tap: int, time: int, inJudge: set<int>, inBlock: set<int>): (p: TouchPass)
    requires IndicesBelow(queue, |notes|) && n <= |queue|
    ensures Increasing(p.removeIndices) && IndicesBelow(p.removeIndices, n)
    ensures p.tap == if tap <= 0 then tap
                     else if HittableBefore(notes, queue, n, inJudge) < tap then tap - HittableBefore(notes, queue, n, inJudge)
                     else 0
  {
    if n == 0 then TouchPass([], [], tap)
    else
      var p := TouchPassOf(notes, queue, n - 1, tap, time, inJudge, inBlock);
      var index := queue[n - 1];
      var o := TouchOutcome(notes[index], index, time, p.tap, index in inJudge, index in inBlock);
      TouchPass(p.removeIndices + (if o.remove then [n - 1] else []),
                p.produced + o.effects,
                if o.remove && notes[index].noteType == Tap then p.tap - 1 else p.tap)
  }

  /**
   * Which positions the pass resolves: a Block note once past, a Drag note
   * inside the judge radius and not Bad, and a Tap note inside the judge
   * radius while fewer than `tap` hittable Tap notes precede it.
   */
  lemma {:induction false} TouchPassMarks(notes: seq<NoteData>, queue: seq<int>, n: nat, tap: int, time: int,
                                          inJudge: set<int>, inBlock: set<int>, j: nat)
    requires IndicesBelow(queue, |notes|) && j < n <= |queue|
    ensures var note := notes[queue[j]];
            j in TouchPassOf(notes, queue, n, tap, time, inJudge, inBlock).removeIndices
            <==> match note.noteType
                 case Block => note.timeStamp < time
                 case Drag => queue[j] in inJudge && Judge(note.timeStamp - time) != Bad
                 case Tap => queue[j] in inJudge && HittableBefore(notes, queue, j, inJudge) < tap
  {
    var p := TouchPassOf(notes, queue, n - 1, tap, time, inJudge, inBlock);
    var index := queue[n - 1];
    var o := TouchOutcome(notes[index], index, time, p.tap, index in inJudge, index in inBlock);
    var extra := if o.remove then [n - 1] else [];
    assert TouchPassOf(notes, queue, n, tap, time, inJudge, inBlock).removeIndices == p.removeIndices + extra;
    if j < n - 1 {
      TouchPassMarks(notes, queue, n - 1, tap, time, inJudge, inBlock, j);
      assert j !in extra;
    } else {
      assert j !in p.removeIndices;
    }
  }

  /** Every note the pass removes receives exactly one judgment, and no other note does. */
  lemma {:induction false} TouchPassResolutions(notes: seq<NoteData>, queue: seq<int>, n: nat, tap: int, time: int,
                                                inJudge: set<int>, inBlock: set<int>)
    requires IndicesBelow(queue, |notes|) && n <= |queue|
    ensures var p := TouchPassOf(notes, queue, n, tap, time, inJudge, inBlock);
            Resolutions(p.produced) == |p.removeIndices|
  {
    if n > 0 {
      var p := TouchPassOf(notes, queue, n - 1, tap, time, inJudge, inBlock);
      var index := queue[n - 1];
      var o := TouchOutcome(notes[index], index, time, p.tap, index in inJudge, index in inBlock);
      TouchPassResolutions(notes, queue, n - 1, tap, time, inJudge, inBlock);
      TouchOutcomeGrades(notes[index], index, time, p.tap, index in inJudge, index in inBlock);
      ResolutionsAppend(p.produced, o.effects);
    }
  }

  /** The loop of ProcessActiveNotes, with the `tap` counter it decrements. */
  method ScanTouch(notes: seq<NoteData>, queue: seq<int>, tap: int, time: int, inJudge: set<int>, inBlock: set<int>)
    returns (removeIndices: seq<int>, produced: seq<Effect>, tapLeft: int)
    requires IndicesBelow(queue, |notes|)
    ensures TouchPass(removeIndices, produced, tapLeft) == TouchPassOf(notes, queue, |queue|, tap, time, inJudge, inBlock)
  {
    removeIndices, produced, tapLeft := [], [], tap;
    var i := 0;
    while i < |queue|
      invariant 0 <= i <= |queue|
      invariant TouchPass(removeIndices, produced, tapLeft) == TouchPassOf(notes, queue, i, tap, time, inJudge, inBlock)
    {
      var index := queue[i];
      var note := notes[index];
      var outcome := TouchOutcome(note, index, time, tapLeft, index in inJudge, index in inBlock);
      produced := produced + outcome.effects;
      if outcome.remove && note.noteType == Tap {
        tapLeft := tapLeft - 1;
      }
      if outcome.remove {
        removeIndices := removeIndices + [i];
      }
      i := i + 1;
    }
  }

  /**
   * The whole of ProcessActiveNotes on values: the pass, then the removal
   * of its positions back to front, and the entries removed; the queue
   * invariant and a non-negative tap count are kept.
   */
  method TouchStep(notes: seq<NoteData>, queue: seq<int>, tap: int, time: int, inJudge: set<int>, inBlock: set<int>,
                   ghost removed: seq<int>, pointer: nat)
    returns (rest: seq<int>, produced: seq<Effect>, tapLeft: int, ghost gone: seq<int>)
    requires pointer <= |notes| && QueueInvariant(queue, pointer, removed) && tap >= 0
    ensures var p := TouchPassOf(notes, queue, |queue|, tap, time, inJudge, inBlock);
            var marks := Marks(|queue|, p.removeIndices);
            && rest == Filtered(queue, marks) && gone == Selected(queue, marks)
            && produced == p.produced && tapLeft == p.tap
    ensures QueueInvariant(rest, pointer, removed + gone) && tapLeft >= 0
  {
    var removeIndices;
    removeIndices, produced, tapLeft := ScanTouch(notes, queue, tap, time, inJudge, inBlock);
    var marks := Marks(|queue|, removeIndices);
    LeaveMarked(queue, marks, removed, pointer);
    rest := RemoveBackToFront(queue, removeIndices);
    gone := Selected(queue, marks);
  }

  /** Number of touches that began this frame. */
  function CountBegan(began: seq<bool>): (c: nat)
    ensures c <= |began|
    ensures c == 0 <==> forall k :: 0 <= k < |began| ==> !began[k]
  {
    if began == [] then 0
    else CountBegan(began[..|began| - 1]) + (if began[|began| - 1] then 1 else 0)
  }

  /** The taps a frame counts: touches that began with the sensor, one for a Z or X press without it. */
  function FrameTaps(accAvail: bool, began: seq<bool>, zPressed: bool, xPressed: bool): (taps: nat)
    ensures !accAvail ==> taps <= 1
    ensures accAvail ==> taps <= |began|
  {
    if accAvail then CountBegan(began) else if zPressed || xPressed then 1 else 0
  }

  class TouchInput {
    /** The chart's note list, shared with GameManager and never changed here. */
    const notes: seq<NoteData>
    var judgmentQueue: seq<int>
    var pointer: nat
    /** Taps counted this frame and not yet used by a Tap note. */
    var tap: int
    /** Effects handed to JudgeCenter, the note objects and the shake effects, in order. */
    var effects: seq<Effect>
    /** Every index that has left the queue, in order of leaving. */
    ghost var removed: seq<int>

    /** As in NoteJudge, and the tap counter is never negative. */
    ghost predicate Valid()
      reads this
    {
      && pointer <= |notes| && tap >= 0
      && QueueInvariant(judgmentQueue, pointer, removed)
    }

    /** Awake/Start: takes GameManager's note list. */
    constructor (notes: seq<NoteData>)
      ensures Valid() && this.notes == notes
      ensures judgmentQueue == [] && pointer == 0 && tap == 0 && effects == [] && removed == []
    {
      this.notes := notes;
      judgmentQueue, pointer, tap, effects := [], 0, 0, [];
      removed := [];
    }

    method InitializeInputData()
      requires Valid()
      modifies this
      ensures Valid() && tap == 0
      ensures judgmentQueue == old(judgmentQueue) && pointer == old(pointer)
      ensures effects == old(effects) && removed == old(removed)
    {
      tap := 0;
    }

    /** Counts one tap per touch that began this frame. */
    method ProcessTouch(began: seq<bool>)
      requires Valid()
      modifies this
      ensures Valid() && tap == old(tap) + CountBegan(began)
      ensures judgmentQueue == old(judgmentQueue) && pointer == old(pointer)
      ensures effects == old(effects) && removed == old(removed)
    {
      var i := 0;
      while i < |began|
        invariant 0 <= i <= |began|
        invariant tap == old(tap) + CountBegan(began[..i])
        invariant judgmentQueue == old(judgmentQueue) && pointer == old(pointer)
        invariant effects == old(effects) && removed == old(removed)
      {
        assert began[..i + 1][..i] == began[..i];
        if began[i] {
          tap := tap + 1;
        }
        i := i + 1;
      }
      assert began[..i] == began;
    }

    /** Counts one tap when Z or X was pressed this frame. */
    method ProcessMouse(zPressed: bool, xPressed: bool)
      requires Valid()
      modifies this
      ensures Valid() && tap == old(tap) + (if zPressed || xPressed then 1 else 0)
      ensures judgmentQueue == old(judgmentQueue) && pointer == old(pointer)
      ensures effects == old(effects) && removed == old(removed)
    {
      if zPressed || xPressed {
        tap := tap + 1;
      }
    }

    /** Appends consecutive indices from `pointer` while the note is at most BadWindow ahead. */
    method UpdateJudgmentQueue(time: int)
      requires Valid()
      modifies this
      ensures Valid()
      ensures pointer == AdmitStop(TimeStamps(notes), old(pointer), time, BadWindow)
      ensures judgmentQueue == old(judgmentQueue) + Range(old(pointer), pointer)
      ensures tap == old(tap) && effects == old(effects) && removed == old(removed)
    {
      var added, stop := Admit(TimeStamps(notes), pointer, time, BadWindow);
      assert Range(0, stop) == Range(0, pointer) + added;
      judgmentQueue := judgmentQueue + added;
      pointer := stop;
    }

    /** Removes the maximal late prefix of the queue, one Miss per removed note. */
    method ProcessMissedNotes(time: int)
      requires Valid()
      modifies this
      ensures Valid() && pointer == old(pointer) && tap == old(tap)
      ensures var k := MissCount(notes, old(judgmentQueue), time);
              && judgmentQueue == old(judgmentQueue)[k..]
              && effects == old(effects) + Misses(k)
              && removed == old(removed) + old(judgmentQueue)[..k]
    {
      var queue := judgmentQueue;
      var missCount, produced := SweepMisses(notes, queue, time);
      effects := effects + produced;
      if missCount > 0 {
        LeavePrefix(queue, missCount, removed, pointer);
        removed := removed + queue[..missCount];
        judgmentQueue := queue[missCount..];
      }
    }

    /** Resolves Block, Tap and Drag notes; resolved positions are removed back to front. */
    method ProcessActiveNotes(time: int, inJudge: set<int>, inBlock: set<int>)
      requires Valid()
      modifies this
      ensures Valid() && pointer == old(pointer)
      ensures var p := TouchPassOf(notes, old(judgmentQueue), |old(judgmentQueue)|, old(tap), time, inJudge, inBlock);
              var marks := Marks(|old(judgmentQueue)|, p.removeIndices);
              && judgmentQueue == Filtered(old(judgmentQueue), marks)
              && effects == old(effects) + p.produced
              && tap == p.tap
              && removed == old(removed) + Selected(old(judgmentQueue), marks)
    {
      var rest, produced, tapLeft;
      ghost var gone;
      rest, produced, tapLeft, gone := TouchStep(notes, judgmentQueue, tap, time, inJudge, inBlock, removed, pointer);
      Commit(rest, produced, tapLeft, gone);
    }

    /** Stores the outcome of a pass: the queue left, the effects added, the taps left and the entries gone. */
    method Commit(rest: seq<int>, produced: seq<Effect>, tapLeft: int, ghost gone: seq<int>)
      requires pointer <= |notes| && QueueInvariant(rest, pointer, removed + gone) && tapLeft >= 0
      modifies this
      ensures Valid() && pointer == old(pointer)
      ensures judgmentQueue == rest && effects == old(effects) + produced && tap == tapLeft
      ensures removed == old(removed) + gone
    {
      judgmentQueue, effects, tap, removed := rest, effects + produced, tapLeft, removed + gone;
    }

    /** The miss sweep, then (if anything is left) the active pass. */
    method JudgeNotes(time: int, inJudge: set<int>, inBlock: set<int>)
      requires Valid()
      modifies this
      ensures Valid() && pointer == old(pointer)
      ensures var k := MissCount(notes, old(judgmentQueue), time);
              old(judgmentQueue)[k..] == [] ==>
                judgmentQueue == [] && effects == old(effects) + Misses(k) && tap == old(tap)
      ensures var k := MissCount(notes, old(judgmentQueue), time);
              var rest := old(judgmentQueue)[k..];
              rest != [] ==>
                var p := TouchPassOf(notes, rest, |rest|, old(tap), time, inJudge, inBlock);
                && judgmentQueue == Filtered(rest, Marks(|rest|, p.removeIndices))
                && effects == old(effects) + Misses(k) + p.produced
                && tap == p.tap
    {
      if |judgmentQueue| > 0 {
        ProcessMissedNotes(time);
        if |judgmentQueue| > 0 {
          ProcessActiveNotes(time, inJudge, inBlock);
        }
      }
    }

    /** The frame's input: the tap counter restarts, then counts the touches that began, or a pressed Z or X key without a touch screen. */
    method ReadInput(accAvail: bool, began: seq<bool>, zPressed: bool, xPressed: bool)
      requires Valid()
      modifies this
      ensures Valid() && tap == FrameTaps(accAvail, began, zPressed, xPressed)
      ensures judgmentQueue == old(judgmentQueue) && pointer == old(pointer)
      ensures effects == old(effects) && removed == old(removed)
    {
      InitializeInputData();
      if accAvail {
        ProcessTouch(began);
      } else {
        ProcessMouse(zPressed, xPressed);
      }
    }

    /**
     * One frame: the tap counter restarts from this frame's input, then, while
     * playing, notes are admitted and judged.
     */
    method Update(isPlaying: bool, time: int, accAvail: bool, began: seq<bool>, zPressed: bool, xPressed: bool,
                  inJudge: set<int>, inBlock: set<int>)
      requires Valid()
      modifies this
      ensures Valid()
      ensures !isPlaying ==>
              && tap == FrameTaps(accAvail, began, zPressed, xPressed)
              && judgmentQueue == old(judgmentQueue) && pointer == old(pointer) && effects == old(effects)
      ensures isPlaying ==> pointer == AdmitStop(TimeStamps(notes), old(pointer), time, BadWindow)
      ensures isPlaying ==>
              var admitted := old(judgmentQueue) + Range(old(pointer), pointer);
              var k := MissCount(notes, admitted, time);
              admitted[k..] == [] ==>
                && judgmentQueue == [] && effects == old(effects) + Misses(k)
                && tap == FrameTaps(accAvail, began, zPressed, xPressed)
      ensures isPlaying ==>
              var admitted := old(judgmentQueue) + Range(old(pointer), pointer);
              var k := MissCount(notes, admitted, time);
              var rest := admitted[k..];
              rest != [] ==>
                var p := TouchPassOf(notes, rest, |rest|, FrameTaps(accAvail, began, zPressed, xPressed), time, inJudge, inBlock);
                && judgmentQueue == Filtered(rest, Marks(|rest|, p.removeIndices))
                && effects == old(effects) + Misses(k) + p.produced
                && tap == p.tap
    {
      ReadInput(accAvail, began, zPressed, xPressed);
      if isPlaying {
        UpdateJudgmentQueue(time);
        JudgeNotes(time, inJudge, inBlock);
      }
    }
  }
}
