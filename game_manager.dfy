/**
 * GameManager.cs: the play clock, the note spawner and the play/audio flags.
 * Audio playback time, Unity's Time.time and the note objects' Initialize
 * calls are inputs and a log: `spawned` lists the indices Initialize was
 * called on, in call order.
 */
module GameManager {
  import opened Wrappers
  import opened Values
  import opened Chart
  import opened Queue

  /**
   * The clock during the pre-roll, `elapsed` seconds after GameStart:
   * elapsed milliseconds, truncated, minus WaitTime.
   */
  function PreRollTime(elapsed: real): (t: int)
    requires 0.0 <= elapsed
    ensures (t + WaitTime) as real <= elapsed * 1000.0 < (t + WaitTime + 1) as real
    ensures elapsed * 1000.0 < WaitTime as real ==> -WaitTime <= t < 0
  {
    Truncate(elapsed * 1000.0) - WaitTime
  }

  /** The clock while the audio plays: its position in ms, truncated toward zero. */
  function AudioTime(audioSeconds: real): (t: int)
    requires 0.0 <= audioSeconds
    ensures t as real <= audioSeconds * 1000.0 < t as real + 1.0
  {
    Truncate(audioSeconds * 1000.0)
  }

  class GameManager {
    /** The chart's notes (GetChart's result, or empty when no chart was found). */
    const notes: seq<NoteData>
    var currentTime: int
    var isGamePlaying: bool
    var isAudioPlaying: bool
    var nextNoteIndex: nat
    /** The notes Initialize was called on, in order. */
    var spawned: seq<int>

    /** Notes are spawned once each, in index order, up to `nextNoteIndex`. */
    ghost predicate Valid()
      reads this
    {
      nextNoteIndex <= |notes| && spawned == Range(0, nextNoteIndex)
    }

    /** Awake: the loaded chart and the field initialisers. */
    constructor (notes: seq<NoteData>)
      ensures Valid() && this.notes == notes
      ensures currentTime == 0 && !isGamePlaying && !isAudioPlaying && nextNoteIndex == 0
    {
      this.notes := notes;
      currentTime, isGamePlaying, isAudioPlaying := 0, false, false;
      nextNoteIndex, spawned := 0, [];
    }

    /** GameStart up to its wait loop: the clock starts at -WaitTime and the game is playing. */
    method GameStart()
      requires Valid()
      modifies this
      ensures Valid() && currentTime == -WaitTime && isGamePlaying
      ensures isAudioPlaying == old(isAudioPlaying) && nextNoteIndex == old(nextNoteIndex) && spawned == old(spawned)
    {
      currentTime := -WaitTime;
      isGamePlaying := true;
    }

    /**
     * One frame of GameStart's wait loop, `elapsed` seconds after it began:
     * within the pre-roll the clock follows elapsed time; after it the audio starts.
     */
    method PreRollFrame(elapsed: real)
      requires Valid() && 0.0 <= elapsed
      modifies this
      ensures Valid()
      ensures elapsed < WaitTime as real / 1000.0 ==>
              currentTime == PreRollTime(elapsed) && -WaitTime <= currentTime < 0 && isAudioPlaying == old(isAudioPlaying)
      ensures elapsed >= WaitTime as real / 1000.0 ==> currentTime == old(currentTime) && isAudioPlaying
      ensures isGamePlaying == old(isGamePlaying) && nextNoteIndex == old(nextNoteIndex) && spawned == old(spawned)
    {
      if elapsed < WaitTime as real / 1000.0 {
        currentTime := PreRollTime(elapsed);
      } else {
        isAudioPlaying := true;
      }
    }

    /** The next note exists and its spawn time has come. */
    predicate ShouldSpawnNextNote()
      requires Valid()
      reads this
    {
      nextNoteIndex < |notes| && currentTime >= notes[nextNoteIndex].timeStamp - SpawnTime
    }

    /**
     * Initializes notes in index order while their spawn time has come: the
     * walk stops at the first note not yet due, and no note is spawned twice.
     */
    method SpawnNotes()
      requires Valid()
      modifies this
      ensures Valid() && !ShouldSpawnNextNote()
      ensures nextNoteIndex == AdmitStop(TimeStamps(notes), old(nextNoteIndex), currentTime, SpawnTime)
      ensures spawned == old(spawned) + Range(old(nextNoteIndex), nextNoteIndex)
      ensures currentTime == old(currentTime) && isGamePlaying == old(isGamePlaying) && isAudioPlaying == old(isAudioPlaying)
    {
      var added, stop := Admit(TimeStamps(notes), nextNoteIndex, currentTime, SpawnTime);
      assert Range(0, stop) == Range(0, nextNoteIndex) + added;
      spawned := spawned + added;
      nextNoteIndex := stop;
    }

    /**
     * The last note's time has come and the judgment queue is empty; None
     * when the chart is empty, where reading the last note throws.
     */
    function IsGameFinished(queueEmpty: bool): (r: Option<bool>)
      reads this
      ensures r.None? <==> notes == []
      ensures r.Some? ==> (r.value <==> currentTime >= notes[|notes| - 1].timeStamp && queueEmpty)
    {
      if notes == [] then None else Some(currentTime >= notes[|notes| - 1].timeStamp && queueEmpty)
    }

    /** The first step of the EndGame coroutine; the volume fade runs afterwards. */
    method EndGame()
      requires Valid()
      modifies this
      ensures Valid() && !isGamePlaying
      ensures currentTime == old(currentTime) && isAudioPlaying == old(isAudioPlaying)
      ensures nextNoteIndex == old(nextNoteIndex) && spawned == old(spawned)
    {
      isGamePlaying := false;
    }

    /** The end of the EndGame coroutine, once the fade is over. */
    method FinishEndGame()
      requires Valid()
      modifies this
      ensures Valid() && !isAudioPlaying
      ensures currentTime == old(currentTime) && isGamePlaying == old(isGamePlaying)
      ensures nextNoteIndex == old(nextNoteIndex) && spawned == old(spawned)
    {
      isAudioPlaying := false;
    }

    method Pause()
      requires Valid()
      modifies this
      ensures Valid() && !isGamePlaying && !isAudioPlaying
      ensures currentTime == old(currentTime) && nextNoteIndex == old(nextNoteIndex) && spawned == old(spawned)
    {
      isGamePlaying := false;
      isAudioPlaying := false;
    }

    method Resume()
      requires Valid()
      modifies this
      ensures Valid() && isGamePlaying && isAudioPlaying
      ensures currentTime == old(currentTime) && nextNoteIndex == old(nextNoteIndex) && spawned == old(spawned)
    {
      isGamePlaying := true;
      isAudioPlaying := true;
    }

    /**
     * One frame: nothing unless the game is playing; notes are spawned
     * against the previous clock; then, only while the audio plays, the
     * clock is read from the audio and the game ends once finished. With an
     * empty chart (no chart was loaded) the finish test throws, which ends
     * the frame: `threw` reports it, and the game goes on playing.
     */
    method Update(audioSeconds: real, queueEmpty: bool) returns (threw: bool)
      requires Valid() && 0.0 <= audioSeconds
      modifies this
      ensures Valid()
      ensures threw <==> old(isGamePlaying) && old(isAudioPlaying) && notes == []
      ensures !old(isGamePlaying) ==> unchanged(this)
      ensures old(isGamePlaying) ==>
              && nextNoteIndex == AdmitStop(TimeStamps(notes), old(nextNoteIndex), old(currentTime), SpawnTime)
              && spawned == old(spawned) + Range(old(nextNoteIndex), nextNoteIndex)
              && isAudioPlaying == old(isAudioPlaying)
      ensures old(isGamePlaying) && !old(isAudioPlaying) ==> currentTime == old(currentTime) && isGamePlaying
      ensures old(isGamePlaying) && old(isAudioPlaying) ==> currentTime == AudioTime(audioSeconds)
      ensures old(isGamePlaying) && old(isAudioPlaying) && notes == [] ==> isGamePlaying
      ensures old(isGamePlaying) && old(isAudioPlaying) && notes != [] ==>
              (isGamePlaying <==> !(currentTime >= notes[|notes| - 1].timeStamp && queueEmpty))
    {
      threw := false;
      if !isGamePlaying {
        return;
      }
      SpawnNotes();
      if !isAudioPlaying {
        return;
      }
      currentTime := AudioTime(audioSeconds);
      match IsGameFinished(queueEmpty)
      case None =>
        threw := true;
      case Some(finished) =>
        if finished {
          EndGame();
        }
    }
  }
}
