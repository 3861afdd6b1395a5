/**
 * Chart.cs: note kinds, the note data read by the judgment engines, and the
 * display lifecycle of a note object (Initialize, FadeOut, PopOut, Release).
 */
module Chart {
  /** The NoteType enum (its first member, Tap, is also the default value of the field). */
  datatype NoteType = Tap | Drag | Block

  /** A grid cell index (Vector2Int cellIndex). */
  datatype Cell = Cell(x: int, y: int)

  /** The fields of a note that the judgment engines and schedulers read. */
  datatype NoteData = NoteData(timeStamp: int, cell: Cell, noteType: NoteType)

  /**
   * A note object. `visual` is false for an instance of the base class Note,
   * whose lifecycle methods are empty, and true for Tap and its subclasses
   * Drag and Block. The pooled game object is abstracted to `holdsObject`
   * (gameObject != null) and the counts of objects taken from and returned to
   * the pool; tweens are opaque.
   */
  class Note {
    const visual: bool
    var noteType: NoteType
    var timeStamp: int
    var nthNote: int
    var cell: Cell
    var holdsObject: bool
    var isFading: bool
    var scrollActive: bool
    var sortingOrder: int
    var taken: nat
    var returned: nat

    /** Every returned object was taken, and the one held is not yet returned. */
    ghost predicate Valid()
      reads this
    {
      && returned + (if holdsObject then 1 else 0) <= taken
      && (!visual ==> !holdsObject && taken == 0)
    }

    /** `new Note()`: the base class, every field at its default. */
    constructor Plain()
      ensures Valid() && !visual
      ensures noteType == NoteType.Tap && timeStamp == 0 && nthNote == 0 && cell == Cell(0, 0)
      ensures !holdsObject && !isFading && taken == 0 && returned == 0
    {
      visual := false;
      noteType := NoteType.Tap;
      timeStamp, nthNote, cell := 0, 0, Cell(0, 0);
      holdsObject, isFading, scrollActive, sortingOrder := false, false, false, 0;
      taken, returned := 0, 0;
    }

    /** `new Tap()`. */
    constructor Tap()
      ensures Valid() && visual && noteType == NoteType.Tap
      ensures timeStamp == 0 && nthNote == 0 && cell == Cell(0, 0)
      ensures !holdsObject && !isFading && taken == 0 && returned == 0
    {
      visual := true;
      noteType := NoteType.Tap;
      timeStamp, nthNote, cell := 0, 0, Cell(0, 0);
      holdsObject, isFading, scrollActive, sortingOrder := false, false, false, 0;
      taken, returned := 0, 0;
    }

    /** `new Drag()`: a Tap whose constructor then sets the kind to Drag. */
    constructor Drag()
      ensures Valid() && visual && noteType == NoteType.Drag
      ensures timeStamp == 0 && nthNote == 0 && cell == Cell(0, 0)
      ensures !holdsObject && !isFading && taken == 0 && returned == 0
    {
      visual := true;
      noteType := NoteType.Drag;
      timeStamp, nthNote, cell := 0, 0, Cell(0, 0);
      holdsObject, isFading, scrollActive, sortingOrder := false, false, false, 0;
      taken, returned := 0, 0;
    }

    /** `new Block()`: a Tap whose constructor then sets the kind to Block. */
    constructor Block()
      ensures Valid() && visual && noteType == NoteType.Block
      ensures timeStamp == 0 && nthNote == 0 && cell == Cell(0, 0)
      ensures !holdsObject && !isFading && taken == 0 && returned == 0
    {
      visual := true;
      noteType := NoteType.Block;
      timeStamp, nthNote, cell := 0, 0, Cell(0, 0);
      holdsObject, isFading, scrollActive, sortingOrder := false, false, false, 0;
      taken, returned := 0, 0;
    }

    /**
     * Acquires a pooled object, starts scrolling, layers the note by
     * `sortingOrder = -nthNote` and clears the fading flag. The pool hands
     * out objects only for Tap notes: for a Drag or Block note `Get` gives
     * null, the note drops any object it held, and reading the null object's
     * transform throws, reported as `threw`.
     */
    method Initialize() returns (threw: bool)
      requires Valid()
      modifies this
      ensures Valid()
      ensures threw <==> visual && old(noteType) != NoteType.Tap
      ensures noteType == old(noteType) && timeStamp == old(timeStamp) && nthNote == old(nthNote) && cell == old(cell)
      ensures visual && !threw ==> holdsObject && taken == old(taken) + 1 && returned == old(returned)
      ensures visual && !threw ==> scrollActive && !isFading && sortingOrder == -nthNote
      ensures threw ==> !holdsObject && taken == old(taken) && returned == old(returned)
                        && isFading == old(isFading) && scrollActive == old(scrollActive) && sortingOrder == old(sortingOrder)
      ensures !visual ==> unchanged(this)
    {
      threw := false;
      if visual {
        if noteType != NoteType.Tap {
          holdsObject := false;
          threw := true;
          return;
        }
        holdsObject := true;
        taken := taken + 1;
        sortingOrder := -nthNote;
        scrollActive := true;
        isFading := false;
      }
    }

    /** Starts fading once: only while an object is held and it is not already fading. */
    method FadeOut()
      requires Valid()
      modifies this
      ensures Valid()
      ensures if old(visual && holdsObject && !isFading)
              then && isFading && holdsObject == old(holdsObject) && scrollActive == old(scrollActive)
                   && taken == old(taken) && returned == old(returned)
                   && sortingOrder == old(sortingOrder)
                   && noteType == old(noteType) && timeStamp == old(timeStamp) && nthNote == old(nthNote) && cell == old(cell)
              else unchanged(this)
      ensures old(isFading) ==> unchanged(this)
    {
      if visual && holdsObject && !isFading {
        isFading := true;
      }
    }

    /** Stops scrolling the held object (its pop animation then releases it). */
    method PopOut()
      requires Valid()
      modifies this
      ensures Valid()
      ensures if old(visual && holdsObject)
              then && !scrollActive && holdsObject && isFading == old(isFading)
                   && taken == old(taken) && returned == old(returned) && sortingOrder == old(sortingOrder)
                   && noteType == old(noteType) && timeStamp == old(timeStamp) && nthNote == old(nthNote) && cell == old(cell)
              else unchanged(this)
    {
      if visual && holdsObject {
        scrollActive := false;
      }
    }

    /** Returns the held object to the pool and drops it; a second call does nothing. */
    method Release()
      requires Valid()
      modifies this
      ensures Valid()
      ensures if old(visual && holdsObject)
              then && !holdsObject && returned == old(returned) + 1 && taken == old(taken)
                   && isFading == old(isFading) && scrollActive == old(scrollActive) && sortingOrder == old(sortingOrder)
                   && noteType == old(noteType) && timeStamp == old(timeStamp) && nthNote == old(nthNote) && cell == old(cell)
              else unchanged(this)
      ensures !holdsObject
    {
      if visual && holdsObject {
        returned := returned + 1;
        holdsObject := false;
      }
    }
  }

  /** Two consecutive Release calls return exactly one object to the pool. */
  method ReleaseTwice(n: Note)
    requires n.Valid() && n.visual && n.holdsObject
    modifies n
    ensures n.Valid() && !n.holdsObject && n.returned == old(n.returned) + 1
  {
    n.Release();
    n.Release();
  }

  /** A second FadeOut changes nothing. */
  method FadeOutTwice(n: Note)
    requires n.Valid()
    modifies n
    ensures n.Valid()
    ensures n.holdsObject == old(n.holdsObject) && n.taken == old(n.taken) && n.returned == old(n.returned)
    ensures old(n.visual && n.holdsObject) ==> n.isFading
  {
    n.FadeOut();
    n.FadeOut();
  }
}
