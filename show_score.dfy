/**
 * ShowScore.cs and PlayData.cs: the rating of an accuracy and the player's
 * best result per song and difficulty. The clock text of a new result's
 * timestamp is an input.
 */
module ShowScore {
  /** The ratings, best first; "NEW!" is the rating of a result never played. */
  const Ratings: seq<string> := ["P", "SSS", "SS", "S", "AAA", "AA", "A", "B", "C", "D"]

  /** The rating ladder over the accuracy in percent. */
  function GetRating(acc: real): (r: string)
    ensures r in Ratings
    ensures r == "P" <==> acc == 100.0
    ensures r == "D" <==> acc <= 60.0
  {
    if acc == 100.0 then "P"
    else if acc > 99.5 then "SSS"
    else if acc > 99.0 then "SS"
    else if acc > 98.0 then "S"
    else if acc > 95.0 then "AAA"
    else if acc > 92.0 then "AA"
    else if acc > 88.0 then "A"
    else if acc > 80.0 then "B"
    else if acc > 60.0 then "C"
    else "D"
  }

  /** The position of a rating in the ladder: 0 for P, 9 for D. */
  function Position(r: string): (k: nat)
    requires r in Ratings
    ensures k < |Ratings| && Ratings[k] == r
  {
    if r == "P" then 0 else if r == "SSS" then 1 else if r == "SS" then 2 else if r == "S" then 3
    else if r == "AAA" then 4 else if r == "AA" then 5 else if r == "A" then 6
    else if r == "B" then 7 else if r == "C" then 8 else 9
  }

  /** Within 0..100 a higher accuracy never gets a worse rating. */
  lemma RatingMonotone(a: real, b: real)
    requires a <= b <= 100.0
    ensures Position(GetRating(b)) <= Position(GetRating(a))
  {
  }

  /**
   * Past 100 the ladder falls back to SSS, below P: the order holds only
   * because a play's accuracy never exceeds 100.
   */
  lemma RatingAboveHundred(a: real)
    requires a > 100.0
    ensures GetRating(a) == "SSS" && Position(GetRating(a)) > Position(GetRating(100.0))
  {
  }

  /** A PlayResult; the default one has accuracy 0 and rating "NEW!". */
  datatype PlayResult = PlayResult(accuracy: real, rating: string, timestamp: string)

  function DefaultResult(now: string): PlayResult
  {
    PlayResult(0.0, "NEW!", now)
  }

  /** The result of this play: its accuracy and the rating of that accuracy. */
  function GetPlayResult(acc: real, now: string): (r: PlayResult)
    ensures r.accuracy == acc && r.rating == GetRating(acc) && r.rating in Ratings
  {
    PlayResult(acc, GetRating(acc), now)
  }

  type Results = map<string, map<int, PlayResult>>

  /** The accuracy on record for a song and difficulty, 0 when there is none. */
  function Best(results: Results, song: string, diff: int): real
  {
    if song in results && diff in results[song] then results[song][diff].accuracy else 0.0
  }

  /**
   * The records after a play: the song gets a (possibly empty) table, and
   * the play replaces the record of its difficulty only when it is strictly
   * more accurate.
   */
  function Recorded(results: Results, song: string, diff: int, play: PlayResult): Results
  {
    var data := if song in results then results[song] else map[];
    var oldAccuracy := if diff in data then data[diff].accuracy else 0.0;
    results[song := if play.accuracy > oldAccuracy then data[diff := play] else data]
  }

  /**
   * Recording keeps the best: the accuracy on record becomes the larger of
   * the old one and the play's; the record is the play exactly when the
   * play is better; every other song and difficulty is untouched.
   */
  lemma RecordedKeepsBest(results: Results, song: string, diff: int, play: PlayResult)
    ensures var after := Recorded(results, song, diff, play);
            && song in after
            && (Best(results, song, diff) < play.accuracy ==> Best(after, song, diff) == play.accuracy && after[song][diff] == play)
            && (play.accuracy <= Best(results, song, diff) ==> Best(after, song, diff) == Best(results, song, diff))
            && (song in results && diff in results[song] && play.accuracy <= Best(results, song, diff) ==>
                  diff in after[song] && after[song][diff] == results[song][diff])
            && (forall other :: other in results && other != song ==> other in after && after[other] == results[other])
            && (forall other :: other in after && other != song ==> other in results)
            && (forall d :: d != diff ==> (d in after[song] <==> song in results && d in results[song]))
            && (forall d :: d != diff && d in after[song] ==> after[song][d] == results[song][d])
  {
  }

  /** Recording the same play twice is recording it once, and the record never loses accuracy. */
  lemma RecordedIdempotent(results: Results, song: string, diff: int, play: PlayResult, song2: string, diff2: int)
    ensures Recorded(Recorded(results, song, diff, play), song, diff, play) == Recorded(results, song, diff, play)
    ensures Best(results, song2, diff2) <= Best(Recorded(results, song, diff, play), song2, diff2)
  {
  }

  /** Values.playerData: the results table, updated in place. */
  class PlayerData {
    var songResults: Results

    constructor ()
      ensures songResults == map[]
    {
      songResults := map[];
    }

    /** UpdateResult: records this play's result under the current song and difficulty. */
    method UpdateResult(song: string, diff: int, acc: real, now: string)
      modifies this
      ensures songResults == Recorded(old(songResults), song, diff, GetPlayResult(acc, now))
    {
      var playResult := GetPlayResult(acc, now);
      if song !in songResults {
        songResults := songResults[song := map[]];
      }
      var data := songResults[song];
      var oldScore := if diff in data then data[diff] else DefaultResult(now);
      if playResult.accuracy > oldScore.accuracy {
        songResults := songResults[song := data[diff := playResult]];
      }
    }
  }
}
