/**
 * GameState.cs: the play/audio/pause flags and the clock of a play session.
 * Each transition is specified by a step function on the flag record, and
 * the invariant "paused implies not playing" is proved for every sequence of
 * transitions from the default state.
 */
module GameState {
  import opened Values

  /** The four properties of a GameState (CurrentTime in ms). */
  datatype Flags = Flags(isPlaying: bool, isAudioPlaying: bool, isPaused: bool, currentTime: int)

  datatype Transition = StartGame | StartAudio | Pause | Resume | EndGame | EndAudio

  /** `new GameState()`: every property at its default. */
  const Default: Flags := Flags(false, false, false, 0)

  /** What each method assigns; every other property keeps its value. */
  function Step(s: Flags, t: Transition): Flags
  {
    match t
    case StartGame => s.(isPlaying := true, isPaused := false, currentTime := -WaitTime)
    case StartAudio => s.(isAudioPlaying := true)
    case Pause => s.(isPlaying := false, isAudioPlaying := false, isPaused := true)
    case Resume => s.(isPlaying := true, isAudioPlaying := true, isPaused := false)
    case EndGame => s.(isPlaying := false)
    case EndAudio => s.(isAudioPlaying := false)
  }

  /** The transitions applied in order. */
  function Run(s: Flags, ts: seq<Transition>): Flags
    decreases |ts|
  {
    if ts == [] then s else Run(Step(s, ts[0]), ts[1..])
  }

  /** A paused game is never playing. */
  predicate Consistent(s: Flags)
  {
    s.isPaused ==> !s.isPlaying
  }

  /** Every transition keeps the invariant; Pause and Resume fix all three flags. */
  lemma StepConsistent(s: Flags, t: Transition)
    requires Consistent(s)
    ensures Consistent(Step(s, t))
    ensures t == Pause ==> (Step(s, t).isPlaying, Step(s, t).isAudioPlaying, Step(s, t).isPaused) == (false, false, true)
    ensures t == Resume ==> (Step(s, t).isPlaying, Step(s, t).isAudioPlaying, Step(s, t).isPaused) == (true, true, false)
  {
  }

  /** From any consistent state (the default one included), every sequence of transitions keeps "paused implies not playing". */
  lemma {:induction false} RunConsistent(s: Flags, ts: seq<Transition>)
    requires Consistent(s)
    ensures Consistent(Run(s, ts))
    decreases |ts|
  {
    if ts != [] {
      StepConsistent(s, ts[0]);
      RunConsistent(Step(s, ts[0]), ts[1..]);
    }
  }

  /**
   * Only StartGame writes the clock: after any run without StartGame the
   * clock is where it was, and after a run whose last StartGame is followed
   * by other transitions only, it reads -WaitTime.
   */
  lemma {:induction false} ClockOnlyFromStartGame(s: Flags, ts: seq<Transition>)
    ensures StartGame !in ts ==> Run(s, ts).currentTime == s.currentTime
    ensures StartGame in ts ==> Run(s, ts).currentTime == -WaitTime
    decreases |ts|
  {
    if ts != [] {
      ClockOnlyFromStartGame(Step(s, ts[0]), ts[1..]);
      assert ts == [ts[0]] + ts[1..];
    }
  }

  /**
   * Which transitions write which property: only StartGame the clock; only
   * StartAudio, Pause, Resume and EndAudio the audio flag; only StartGame,
   * Pause and Resume the pause flag. EndGame thus changes IsPlaying alone.
   */
  lemma StepWrites(s: Flags, t: Transition)
    ensures Step(s, t).currentTime != s.currentTime ==> t == StartGame
    ensures Step(s, t).isAudioPlaying != s.isAudioPlaying ==> t in {StartAudio, Pause, Resume, EndAudio}
    ensures Step(s, t).isPaused != s.isPaused ==> t in {StartGame, Pause, Resume}
    ensures Step(s, t).isPlaying != s.isPlaying ==> t in {StartGame, Pause, Resume, EndGame}
  {
  }

  class GameState {
    var isPlaying: bool
    var isAudioPlaying: bool
    var isPaused: bool
    var currentTime: int

    function Snapshot(): Flags
      reads this
    {
      Flags(isPlaying, isAudioPlaying, isPaused, currentTime)
    }

    ghost predicate Valid()
      reads this
    {
      Consistent(Snapshot())
    }

    constructor ()
      ensures Valid() && Snapshot() == Default
    {
      isPlaying, isAudioPlaying, isPaused, currentTime := false, false, false, 0;
    }

    method StartGame()
      requires Valid()
      modifies this
      ensures Valid() && Snapshot() == Step(old(Snapshot()), Transition.StartGame)
    {
      isPlaying := true;
      isPaused := false;
      currentTime := -WaitTime;
    }

    method StartAudio()
      requires Valid()
      modifies this
      ensures Valid() && Snapshot() == Step(old(Snapshot()), Transition.StartAudio)
    {
      isAudioPlaying := true;
    }

    method Pause()
      requires Valid()
      modifies this
      ensures Valid() && Snapshot() == Step(old(Snapshot()), Transition.Pause)
    {
      isPlaying := false;
      isAudioPlaying := false;
      isPaused := true;
    }

    method Resume()
      requires Valid()
      modifies this
      ensures Valid() && Snapshot() == Step(old(Snapshot()), Transition.Resume)
    {
      isPlaying := true;
      isAudioPlaying := true;
      isPaused := false;
    }

    method EndGame()
      requires Valid()
      modifies this
      ensures Valid() && Snapshot() == Step(old(Snapshot()), Transition.EndGame)
    {
      isPlaying := false;
    }

    method EndAudio()
      requires Valid()
      modifies this
      ensures Valid() && Snapshot() == Step(old(Snapshot()), Transition.EndAudio)
    {
      isAudioPlaying := false;
    }
  }
}
