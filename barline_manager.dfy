/**
 * BarlineManager.cs: spawns bar lines ahead of their time stamps. Drawing a
 * bar line (SpawnBarline) is opaque; `spawned` lists the time stamps it was
 * called with, in call order.
 */
module BarlineManager {
  import opened Wrappers
  import opened Values
  import opened Queue

  class BarlineManager {
    var barlineTimestamps: seq<int>
    var nextIndex: nat
    var initialized: bool
    var spawned: seq<int>

    /** Bar lines are spawned once each, in list order, up to `nextIndex`. */
    ghost predicate Valid()
      reads this
    {
      nextIndex <= |barlineTimestamps| && spawned == barlineTimestamps[..nextIndex]
    }

    /** The component before Init: nothing to spawn. */
    constructor ()
      ensures Valid() && !initialized && barlineTimestamps == [] && nextIndex == 0
    {
      barlineTimestamps, nextIndex, initialized, spawned := [], 0, false, [];
    }

    /** Takes the list (a missing one becomes empty) and restarts from its first entry. */
    method Init(timestamps: Option<seq<int>>)
      requires Valid()
      modifies this
      ensures Valid() && initialized && nextIndex == 0 && spawned == []
      ensures barlineTimestamps == match timestamps case Some(ts) => ts case None => []
    {
      barlineTimestamps := match timestamps case Some(ts) => ts case None => [];
      nextIndex := 0;
      initialized := true;
      spawned := [];
    }

    /**
     * One frame: nothing unless initialised, the game manager exists and the
     * game is playing; otherwise every bar line whose spawn time has come is
     * spawned in order, stopping at the first one not yet due.
     */
    method Update(managerPresent: bool, isPlaying: bool, current: int)
      requires Valid()
      modifies this
      ensures Valid() && barlineTimestamps == old(barlineTimestamps) && initialized == old(initialized)
      ensures !(initialized && managerPresent && isPlaying) ==> unchanged(this)
      ensures initialized && managerPresent && isPlaying ==>
              nextIndex == AdmitStop(barlineTimestamps, old(nextIndex), current, SpawnTime)
      ensures spawned == old(spawned) + barlineTimestamps[old(nextIndex)..nextIndex]
    {
      if !initialized || !managerPresent {
        return;
      }
      if !isPlaying {
        return;
      }
      if nextIndex >= |barlineTimestamps| {
        return;
      }
      var added, stop := Admit(barlineTimestamps, nextIndex, current, SpawnTime);
      assert barlineTimestamps[..stop] == barlineTimestamps[..nextIndex] + barlineTimestamps[nextIndex..stop];
      spawned := spawned + barlineTimestamps[nextIndex..stop];
      nextIndex := stop;
    }
  }
}
