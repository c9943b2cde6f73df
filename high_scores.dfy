/** `ScoreManager`: the persisted top-five table. The file `high_scores.txt`
    is modelled by its contents, a string field, so that reading and writing
    it are plain field accesses. */
module HighScores {
  import opened ScoreFile
  import opened Ranking

  class ScoreManager {
    /** The contents of the high-score file on disk. */
    var file: string
    /** `self.scores`: the table as of the last recording, `[]` before. */
    var scores: seq<nat>
    /** `self.has_update_scores`: set by the first recording, never cleared. */
    var hasUpdateScores: bool
    /** Every score recorded by this manager, in order (history only). */
    ghost var recorded: seq<nat>

    /** Once the table has been recorded, the file holds exactly it. */
    ghost predicate Valid()
      reads this
    {
      && (hasUpdateScores <==> recorded != [])
      && (hasUpdateScores ==> Parse(file) == Some(scores))
      && |scores| <= MaxEntries
      && SortedDesc(scores)
    }

    /** `ScoreManager()`, with the file found holding `contents`. */
    constructor (contents: string)
      ensures Valid()
      ensures file == contents && scores == [] && !hasUpdateScores && recorded == []
    {
      file := contents;
      scores := [];
      hasUpdateScores := false;
      recorded := [];
    }

    /** `update_high_scores(new_score)`. Reads the file, appends the score,
        sorts descending, keeps five and writes the table back. When a token
        of the file is not an integer, `int()` raises: `ok` is false and
        nothing has changed. */
    method UpdateHighScores(newScore: nat) returns (ok: bool)
      requires Valid()
      modifies this
      ensures Valid()
      ensures ok <==> Parse(old(file)).Some?
      ensures ok ==> scores == TopScores(Parse(old(file)).value + [newScore])
      ensures ok ==> file == Serialize(scores) && hasUpdateScores
      ensures ok ==> recorded == old(recorded) + [newScore]
      ensures !ok ==> unchanged(this)
    {
      var parsed := Parse(file);
      if parsed.None? {
        return false;
      }
      ghost var all := parsed.value + [newScore];
      scores := parsed.value;
      scores := scores + [newScore];
      scores := SortDesc(scores);
      if |scores| > MaxEntries {
        scores := scores[..MaxEntries];
      }
      assert scores == TopScores(all);
      file := Serialize(scores);
      assert Parse(file) == Some(scores) by {
        ParseSerialize(scores);
      }
      hasUpdateScores := true;
      recorded := recorded + [newScore];
      ok := true;
    }

    /** `get_high_scores()`: records a score of 0 if nothing has been recorded
        yet, then returns the table. `ok` is false when that recording failed. */
    method GetHighScores() returns (table: seq<nat>, ok: bool)
      requires Valid()
      modifies this
      ensures Valid()
      ensures ok ==> hasUpdateScores && table == scores
      ensures old(hasUpdateScores) ==> ok && unchanged(this)
      ensures !old(hasUpdateScores) ==> (ok <==> Parse(old(file)).Some?)
      ensures !old(hasUpdateScores) && ok ==>
                scores == TopScores(Parse(old(file)).value + [0]) && recorded == [0]
      ensures !ok ==> unchanged(this)
    {
      ok := true;
      if !hasUpdateScores {
        ok := UpdateHighScores(0);
        if !ok {
          return [], false;
        }
      }
      table := scores;
    }
  }
}
