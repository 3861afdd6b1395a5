/**
 * The list operations shared by the two judgment engines (NoteJudge.cs and
 * TouchInput.cs) and the schedulers: index ranges, the monotone admission
 * walk, the late-prefix length of the miss sweep, and the back-to-front
 * removal of marked queue positions.
 */
module Queue {
  import opened Wrappers
  import opened Values
  import opened Chart
  import opened JudgeCenter

  /** What an engine hands to its collaborators while judging, in call order. */
  datatype Effect =
    /** JudgeFeedback(grade, note): stat update, popup, hit sound, PopOut of the note (null for `None`). */
    | Feedback(grade: Judgment, target: Option<nat>)
    /** note.FadeOut() on the note with this index. */
    | FadeOut(note: nat)
    /** TriggerShake on every shake effect. */
    | Shake
    /** A Perfect feedback for the note, scheduled to run `delayMs` ms later. */
    | Deferred(note: nat, delayMs: int)

  /** The indices lo, lo+1, ..., hi-1. */
  function Range(lo: int, hi: int): (r: seq<int>)
    ensures |r| == if lo <= hi then hi - lo else 0
    ensures forall k :: 0 <= k < |r| ==> r[k] == lo + k
  {
    if lo <= hi then seq(hi - lo, k => lo + k) else []
  }

  function TimeStamps(notes: seq<NoteData>): (ts: seq<int>)
    ensures |ts| == |notes|
    ensures forall i :: 0 <= i < |notes| ==> ts[i] == notes[i].timeStamp
  {
    seq(|notes|, i requires 0 <= i < |notes| => notes[i].timeStamp)
  }

  /**
   * Where a forward walk that starts at `p` and admits item after item while
   * `ts[k] - now <= window` (equivalently `now >= ts[k] - window`) stops.
   */
  function AdmitStop(ts: seq<int>, p: nat, now: int, window: int): (q: nat)
    requires p <= |ts|
    ensures p <= q <= |ts|
    ensures forall k :: p <= k < q ==> ts[k] - now <= window
    ensures q == |ts| || ts[q] - now > window
    decreases |ts| - p
  {
    if p == |ts| || ts[p] - now > window then p else AdmitStop(ts, p + 1, now, window)
  }

  /** The walk stops at its first blocked item: nothing after it is admitted, even if due. */
  lemma {:induction false} AdmitStopIsFirstBlocked(ts: seq<int>, p: nat, now: int, window: int, q: nat)
    requires p <= q <= |ts|
    requires forall k :: p <= k < q ==> ts[k] - now <= window
    requires q == |ts| || ts[q] - now > window
    ensures AdmitStop(ts, p, now, window) == q
    decreases q - p
  {
    if p < q {
      AdmitStopIsFirstBlocked(ts, p + 1, now, window, q);
    }
  }

  /**
   * The admission loop shared by UpdateJudgmentQueue (window BadWindow),
   * GameManager.SpawnNotes and BarlineManager.Update (window SpawnTime): from
   * `start`, takes index after index while `ts[k] - now <= window`.
   */
  method Admit(ts: seq<int>, start: nat, now: int, window: int) returns (added: seq<int>, stop: nat)
    requires start <= |ts|
    ensures stop == AdmitStop(ts, start, now, window)
    ensures added == Range(start, stop)
  {
    added, stop := [], start;
    while stop < |ts|
      invariant start <= stop <= |ts|
      invariant added == Range(start, stop)
      invariant AdmitStop(ts, stop, now, window) == AdmitStop(ts, start, now, window)
    {
      if ts[stop] - now > window {
        break;
      }
      added := added + [stop];
      stop := stop + 1;
    }
  }

  predicate Increasing(r: seq<int>)
  {
    forall i, j :: 0 <= i < j < |r| ==> r[i] < r[j]
  }

  predicate IndicesBelow(r: seq<int>, n: int)
  {
    forall k :: 0 <= k < |r| ==> 0 <= r[k] < n
  }

  /** The number of queue entries, from the front, whose notes are more than BadWindow late. */
  function MissCount(notes: seq<NoteData>, queue: seq<int>, time: int): (k: nat)
    requires IndicesBelow(queue, |notes|)
    ensures k <= |queue|
    ensures forall j :: 0 <= j < k ==> notes[queue[j]].timeStamp - time < -BadWindow
    ensures k < |queue| ==> notes[queue[k]].timeStamp - time >= -BadWindow
  {
    if queue == [] || notes[queue[0]].timeStamp - time >= -BadWindow then 0
    else 1 + MissCount(notes, queue[1..], time)
  }

  /** A count whose entries before it are all late and whose entry at it is not is the miss count. */
  lemma MissCountUnique(notes: seq<NoteData>, queue: seq<int>, time: int, k: nat)
    requires IndicesBelow(queue, |notes|) && k <= |queue|
    requires forall j :: 0 <= j < k ==> notes[queue[j]].timeStamp - time < -BadWindow
    requires k < |queue| ==> notes[queue[k]].timeStamp - time >= -BadWindow
    ensures MissCount(notes, queue, time) == k
  {
  }

  /** `k` Miss feedbacks without a note. */
  function Misses(k: nat): (e: seq<Effect>)
    ensures |e| == k && forall i :: 0 <= i < k ==> e[i] == Feedback(Miss, None)
  {
    seq(k, _ => Feedback(Miss, None))
  }

  /**
   * The counting loop of ProcessMissedNotes: walks the queue from the front
   * while the note is more than BadWindow late, one Miss per note.
   */
  method SweepMisses(notes: seq<NoteData>, queue: seq<int>, time: int) returns (k: nat, produced: seq<Effect>)
    requires IndicesBelow(queue, |notes|)
    ensures k == MissCount(notes, queue, time) && produced == Misses(k)
  {
    k, produced := 0, [];
    while k < |queue|
      invariant k <= |queue|
      invariant forall j :: 0 <= j < k ==> notes[queue[j]].timeStamp - time < -BadWindow
      invariant produced == Misses(k)
    {
      if notes[queue[k]].timeStamp - time >= -BadWindow {
        break;
      }
      k := k + 1;
      produced := produced + [Feedback(Miss, None)];
    }
    MissCountUnique(notes, queue, time, k);
  }

  /** The queue without the positions marked in `remove`, in their original order. */
  function Filtered(q: seq<int>, remove: seq<bool>): seq<int>
    requires |remove| == |q|
  {
    if q == [] then [] else (if remove[0] then [] else [q[0]]) + Filtered(q[1..], remove[1..])
  }

  /** The entries at the marked positions, in order. */
  function Selected(q: seq<int>, remove: seq<bool>): seq<int>
    requires |remove| == |q|
  {
    if q == [] then [] else (if remove[0] then [q[0]] else []) + Selected(q[1..], remove[1..])
  }

  /** The marked positions, ascending. */
  function Positions(f: seq<bool>): (r: seq<int>)
    ensures Increasing(r) && IndicesBelow(r, |f|)
    ensures forall k :: 0 <= k < |r| ==> f[r[k]]
    ensures forall j :: 0 <= j < |f| && f[j] ==> j in r
  {
    if f == [] then []
    else
      var r := Positions(f[..|f| - 1]) + (if f[|f| - 1] then [|f| - 1] else []);
      assert forall j :: 0 <= j < |f| - 1 ==> f[..|f| - 1][j] == f[j];
      r
  }

  /** The mark vector of a list of positions. */
  function Marks(n: nat, r: seq<int>): (f: seq<bool>)
    ensures |f| == n && forall j :: 0 <= j < n ==> (f[j] <==> j in r)
  {
    seq(n, j => j in r)
  }

  lemma MarksOfPositions(f: seq<bool>)
    ensures Marks(|f|, Positions(f)) == f
  {
  }

  lemma {:induction false} FilteredSplit(q: seq<int>, f: seq<bool>, m: nat)
    requires |f| == |q| && m <= |q|
    ensures Filtered(q, f) == Filtered(q[..m], f[..m]) + Filtered(q[m..], f[m..])
  {
    if m > 0 {
      FilteredSplit(q[1..], f[1..], m - 1);
      assert q[..m][1..] == q[1..][..m - 1];
      assert f[..m][1..] == f[1..][..m - 1];
      assert q[1..][m - 1..] == q[m..];
      assert f[1..][m - 1..] == f[m..];
    }
  }

  lemma {:induction false} FilteredNoMarks(q: seq<int>, f: seq<bool>)
    requires |f| == |q| && forall j :: 0 <= j < |f| ==> !f[j]
    ensures Filtered(q, f) == q
  {
    if q != [] {
      FilteredNoMarks(q[1..], f[1..]);
    }
  }

  /**
   * Removing position `p` from a queue already filtered by marks that all lie
   * after `p` is the same as also marking `p`.
   */
  lemma RemoveAtBeforeMarks(q: seq<int>, f: seq<bool>, p: nat)
    requires |f| == |q| && p < |q| && forall j :: 0 <= j <= p ==> !f[j]
    ensures p < |Filtered(q, f)|
    ensures Filtered(q, f[p := true]) == Filtered(q, f)[..p] + Filtered(q, f)[p + 1..]
  {
    var g := f[p := true];
    FilteredSplit(q, f, p + 1);
    FilteredSplit(q, g, p + 1);
    FilteredNoMarks(q[..p + 1], f[..p + 1]);
    FilteredSplit(q[..p + 1], g[..p + 1], p);
    FilteredNoMarks(q[..p + 1][..p], g[..p + 1][..p]);
    assert g[p + 1..] == f[p + 1..];
    assert q[..p + 1][..p] == q[..p];
    assert Filtered(q[..p + 1][p..], g[..p + 1][p..]) == [] by {
      assert q[..p + 1][p..] == [q[p]];
      assert g[..p + 1][p..] == [true];
    }
  }

  /**
   * The back-to-front `RemoveAt` loop over ascending positions: removes
   * exactly the listed positions and keeps the other entries in order.
   */
  method RemoveBackToFront(queue: seq<int>, removeIndices: seq<int>) returns (q: seq<int>)
    requires Increasing(removeIndices) && IndicesBelow(removeIndices, |queue|)
    ensures q == Filtered(queue, Marks(|queue|, removeIndices))
  {
    q := queue;
    FilteredNoMarks(queue, Marks(|queue|, []));
    var i := |removeIndices| - 1;
    assert removeIndices[i + 1..] == [];
    while i >= 0
      invariant -1 <= i < |removeIndices|
      invariant q == Filtered(queue, Marks(|queue|, removeIndices[i + 1..]))
    {
      var p := removeIndices[i];
      var f := Marks(|queue|, removeIndices[i + 1..]);
      RemoveAtBeforeMarks(queue, f, p);
      assert f[p := true] == Marks(|queue|, removeIndices[i..]);
      q := q[..p] + q[p + 1..];
      i := i - 1;
    }
  }

  /** Filtering keeps a subsequence: order and bounds survive. */
  lemma {:induction false} FilteredKeepsOrder(q: seq<int>, f: seq<bool>, n: int)
    requires |f| == |q| && Increasing(q) && IndicesBelow(q, n)
    ensures Increasing(Filtered(q, f)) && IndicesBelow(Filtered(q, f), n)
    ensures forall k :: 0 <= k < |Filtered(q, f)| ==> Filtered(q, f)[k] in q
    ensures q != [] ==> forall k :: 0 <= k < |Filtered(q, f)| ==> q[0] <= Filtered(q, f)[k]
  {
    if q != [] {
      FilteredKeepsOrder(q[1..], f[1..], n);
      var rest := Filtered(q[1..], f[1..]);
      forall k | 0 <= k < |rest| ensures q[0] < rest[k] {
        assert rest[k] in q[1..];
      }
    }
  }

  /** The kept and the removed entries together are the whole queue. */
  lemma {:induction false} FilteredSelectedPartition(q: seq<int>, f: seq<bool>)
    requires |f| == |q|
    ensures multiset(Filtered(q, f)) + multiset(Selected(q, f)) == multiset(q)
  {
    if q != [] {
      FilteredSelectedPartition(q[1..], f[1..]);
      assert q == [q[0]] + q[1..];
    }
  }

  /**
   * The judgment queue's invariant: ascending entries below the pointer
   * that, with the removed log, are every admitted index exactly once.
   */
  ghost predicate QueueInvariant(queue: seq<int>, pointer: int, removed: seq<int>)
  {
    && Increasing(queue) && IndicesBelow(queue, pointer)
    && multiset(removed) + multiset(queue) == multiset(Range(0, pointer))
  }

  /** Dropping a prefix of the queue into the removed log keeps the queue invariant. */
  lemma LeavePrefix(queue: seq<int>, k: nat, removed: seq<int>, pointer: nat)
    requires k <= |queue| && QueueInvariant(queue, pointer, removed)
    ensures QueueInvariant(queue[k..], pointer, removed + queue[..k])
  {
    assert queue == queue[..k] + queue[k..];
  }

  /** Removing the marked entries into the removed log keeps the queue invariant. */
  lemma LeaveMarked(queue: seq<int>, f: seq<bool>, removed: seq<int>, pointer: nat)
    requires |f| == |queue| && QueueInvariant(queue, pointer, removed)
    ensures QueueInvariant(Filtered(queue, f), pointer, removed + Selected(queue, f))
  {
    FilteredSelectedPartition(queue, f);
    FilteredKeepsOrder(queue, f, pointer);
  }
}
