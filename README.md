# A verified model of the core of `cargame.py`

`cargame.py` is a two-lane dodging game written with pygame. The player's car
switches between lanes at the bottom of the road. An enemy car comes down the
road, faster at every level. A collision moves the game from MAIN GAME to
GAME OVER, and holding space restarts it. A top-five high-score table is kept
in the text file `high_scores.txt`.

The model has five modules, one file each:

- `ScoreFile` (`score_file.dfy`): the text format of the score file. It
  covers `str.split()`, `int()` on digit tokens, `str()` and `" ".join`, and
  proves that the written table reads back unchanged.
- `Ranking` (`ranking.dfy`): how the table is ordered. It sorts descending
  and keeps five, with a reference sort, its uniqueness, the shape of the kept
  table, and the fact that truncating to five loses nothing later.
- `HighScores` (`high_scores.dfy`): the class `ScoreManager`. Its
  `update_high_scores` and `get_high_scores` work on a string field that
  stands for the file. A ghost history of recorded scores goes with it.
- `Geometry` (`geometry.dfy`): pygame's integer `Rect` and the class `Car`.
  It covers truncation of float coordinates, `center`, `move` and
  `colliderect`.
- `Game` (`game.dfy`): the class `CarGame`. It covers the parameter reset,
  the key handling, the enemy's motion, reset and level-ups, the collision,
  the frame counter, `event_loop`, `game_over_draw`, `restart_game`, and one
  pass of `main_loop` as `Step`.

`CarGame.Valid()` is the invariant every pass keeps:

- the frame counter stays in 0..660 and equals, modulo 661, the number of
  passes since the game parameters were last initialised (at the start or
  at a restart);
- the level equals the number of main-game frames whose score was a multiple
  of 5000;
- the speed is 3 + 0.16 per level;
- the player's x is a fixed lane-L position in lane L and that position plus
  250 in lane R; every pass keeps that position, except a restart, which
  sets it anew;
- the score manager's table has at most five entries in descending order,
  and once a score has been recorded the file holds exactly that table (before
  that the table is empty and the file holds whatever it held);
- at most one score has ever been recorded, and that score is 0.

The last point holds because `display_high_scores` (cargame.py:330) calls
`get_high_scores`, which records 0 before the guard at cargame.py:332 is
reached. So the guarded `update_high_scores(self.score)` never runs, and no
final score ever reaches the table. `GameOverDraw` proves that branch
unreachable.

An incoming event, the held-space snapshot, the enemy's first x drawn by
`random.uniform`, and the lanes drawn by `random.randint` are all parameters.
The file is a string that the constructor receives.

### Behaviour worth noting

- A level-up fires on every score that is a multiple of 5000, and score 0,
  the first frame, is one (cargame.py:274). After the frame with score `s`
  the level is therefore `s div 5000 + 1`.
- A token of the score file that `int()` rejects raises `ValueError`, which
  ends the process (cargame.py:101). Nothing catches it.
- The counter goes back to 0 only once it exceeds the screen height of 660
  (cargame.py:212), so it counts modulo 661.
- Key presses move the player in GAME OVER too (cargame.py:234-235): the
  key handler does not look at the game state.
- The player starts in lane "L" (cargame.py:195) while sitting at the screen
  centre. So the two x values the car alternates between are the centre and
  the centre plus 250, not the two lane centres.
- `restart_game` cannot run to its end (see Findings). The corrected restart
  puts the player on the right lane's centre (x 525), because the missing
  attribute is named `right_lane` and the next line sets `car_lane = "R"`.
  Recentring the car horizontally is the other possible reading.

## Model

| member | source | states |
|---|---|---|
| ScoreFile.Word | cargame.py:101 | the result is the longest prefix holding no Python whitespace, and the character after it, if any, is whitespace |
| ScoreFile.Split | cargame.py:101 | every element of `str.split()` is a non-empty run free of whitespace |
| ScoreFile.Str | cargame.py:110 | `str(n)` is a non-empty digit string that starts with '0' only for 0 itself |
| ScoreFile.ParseInt | cargame.py:101 | `int(t)` succeeds exactly on non-empty digit tokens |
| ScoreFile.ParseTokens | cargame.py:101 | the list comprehension succeeds iff every token parses, and then yields one value per token, in order |
| ScoreFile.Join | cargame.py:110 | `" ".join` of digit strings holds only digits and spaces |
| ScoreFile.Parse | cargame.py:101 | reading the file succeeds exactly when every whitespace-separated token is a digit string, and then gives one score per token, each the value `int` reads from that token, in order |
| ScoreFile.Serialize | cargame.py:110 | the text written for a table holds only digits and spaces |
| ScoreFile.WordOfToken | cargame.py:101 | a token followed by a separator or the end is read back as exactly that token |
| ScoreFile.SplitJoin | cargame.py:101-110 | `split()` of `" ".join(ts)` is `ts` for whitespace-free non-empty tokens |
| ScoreFile.ParseIntStr | cargame.py:101-110 | `int(str(n)) == n` |
| ScoreFile.StrDigitsValue | cargame.py:101-110 | `str(int(t)) == t` for a digit token without a superfluous leading zero |
| ScoreFile.ParseSerialize | cargame.py:101-110 | the file written for any table reads back as that same table |
| Ranking.Insert | cargame.py:104 | inserting into a descending list keeps it descending, adds exactly the one entry, and puts the larger of the entry and the old head first |
| Ranking.SortDesc | cargame.py:104 | `sort(reverse=True)`: the result is descending and a permutation of the input |
| Ranking.TopScores | cargame.py:102-107 | the table kept from a list of scores has at most five entries, is descending, and is drawn from the list |
| Ranking.TakeShape | cargame.py:106-107 | `scores[:5]` (`Take`) keeps the first min(n, 5) entries, in order |
| Ranking.SortedUnique | cargame.py:104 | two descending orders of the same multiset are equal, so every correct descending sort agrees with `SortDesc` |
| Ranking.SortedPrefix | cargame.py:106-107 | a prefix of a descending list is descending, drawn from it, and no entry past it exceeds an entry in it |
| Ranking.TopScoresShape | cargame.py:101-107 | the kept table has min(n, 5) entries, is descending, is drawn from the entries, and nothing dropped is higher than anything kept |
| Ranking.SortDescPermutation | cargame.py:104 | the sorted table does not depend on the order the entries were read in |
| Ranking.SortDescOfSorted | cargame.py:104 | sorting a list that is already descending changes nothing |
| Ranking.SortDescAppend | cargame.py:102-104 | appending one entry and sorting is inserting it into the sorted list |
| Ranking.InsertTake | cargame.py:104-107 | entries beyond the first k of a descending list cannot reach the first k when one entry is inserted |
| Ranking.RecordIntoTop | cargame.py:101-110 | recording into the kept five gives the top five of every entry ever recorded |
| HighScores.ScoreManager.constructor | cargame.py:91-94 | a new manager has an empty table, the flag unset and the given file contents |
| HighScores.ScoreManager.UpdateHighScores | cargame.py:96-112 | it succeeds iff every token of the file is an integer; then the table is the top five of the file's scores plus the new one, the file holds that table, and the flag is set; on failure nothing changes |
| HighScores.ScoreManager.GetHighScores | cargame.py:114-118 | once the flag is set it returns the table and changes nothing; before, it records 0 first and then returns the top five of the file's scores and 0 |
| Geometry.Trunc | cargame.py:291 | a float stored into a `Rect` field is truncated toward zero: it is within one of the float, on the same side of zero |
| Geometry.WithCenter | cargame.py:27-28 | setting `center` keeps the size and makes the centre the truncated point |
| Geometry.Translate | cargame.py:33-37 | `move` keeps the size and shifts the centre by the offset |
| Geometry.Center | cargame.py:28 | the centre of a non-empty rectangle lies inside it |
| Geometry.Colliderect | cargame.py:282 | when two rectangles collide, the top-left corner of their overlap is a pixel of both |
| Geometry.CollideIffSharedPixel | cargame.py:282 | `colliderect` holds exactly when some pixel lies in both rectangles |
| Geometry.ScenarioBoxesCollide | cargame.py:282 | (100,100,50,50) meets (120,120,50,50) and does not meet (150,100,50,50), which only shares an edge |
| Geometry.HalfSize | cargame.py:15-16 | scaling a side by 0.5 and applying `int()` gives half the side, rounded down |
| Geometry.Car.constructor | cargame.py:10-19 | the car's rectangle is the half-scaled image size at the origin |
| Geometry.Car.SetInitialPosition | cargame.py:27-28 | the car's rectangle is re-centred on the truncated point |
| Geometry.Car.Move | cargame.py:33-37 | "left" and "right" shift the car by the distance; any other direction leaves it in place |
| Game.RoadRight | cargame.py:245 | a car of the given width at that x touches the road's right edge |
| Game.MovesLeft | cargame.py:247-248 | the move left and the move right are never both asked for by one key |
| Game.MovesRight | cargame.py:251-252 | a right move is taken only while the car's right edge is short of the road's right edge |
| Game.KeyStep | cargame.py:243-254 | one key keeps the car's height and size and its x less the lane's offset (0 in L, 250 in R) |
| Game.EventsOutcome | cargame.py:230-237 | the queue ends normally exactly when it holds no quit and no resize event; otherwise the process exits or raises |
| Game.AfterKeys | cargame.py:231-235 | the key events before the first quit or resize, in order, keep the car's height, size and x less its lane's offset |
| Game.FirstStopDecides | cargame.py:231-237 | the first quit or resize event decides how the loop ends, and no key event after it has any effect |
| Game.LevelUps | cargame.py:274-275 | the level-ups of the first `n` frames number at most `n`, and at least one once a frame has run |
| Game.SpeedAt | cargame.py:285-287 | the speed never falls below the starting 3 |
| Game.LaneCentre | cargame.py:293-299 | both lane centres lie strictly inside the road |
| Game.EnemyAfter | cargame.py:277-280 | after a main-game frame the enemy keeps its size and is never below the bottom edge |
| Game.LevelUpsClosedForm | cargame.py:274-275 | after the frame with score `s` (the score rises at line 225) the level is `s div 5000 + 1` |
| Game.FiveThousandFrames | cargame.py:274-287 | from a fresh start, 5000 frames give level 1 and speed 3.16, and the frame with score 5000 gives level 2 |
| Game.EnemyAfterShape | cargame.py:277-299 | each frame the enemy either moves straight down by at least 3 pixels and less than the speed plus one, staying on screen, or, having passed the bottom edge, is re-centred at height -200 on x 525 or 275 |
| Game.CarGame.constructor | cargame.py:122-205 | all parameters start at their initial values; the player is centred at x 400 on the bottom edge in lane L; the enemy is centred on the drawn x at -1.5 heights, which lies on the road when the enemy fits on it; the invariant holds |
| Game.CarGame.InitializeGameParameters | cargame.py:158-166 | speed 3, counter 0, MAIN GAME, score 0, level 0 |
| Game.CarGame.HandleKeyEvent | cargame.py:243-254 | the lane and the player's rectangle become `KeyStep` of the key: a left key in lane R with x past the left road edge moves 250 left into L, a right key in L with x short of the right bound moves 250 right into R, and otherwise nothing moves; the lane-L position and everything else are kept |
| Game.CarGame.ResetEnemyCar | cargame.py:293-299 | the enemy is re-centred at height -200 on the drawn lane's centre |
| Game.CarGame.LevelUp | cargame.py:285-288 | speed rises by 0.16 and level by one; nothing else changes |
| Game.CarGame.MoveEnemyCar | cargame.py:290-291 | the enemy's y becomes the truncation of y plus speed times the speed factor |
| Game.CarGame.HandleCollision | cargame.py:301-303 | the state becomes GAME OVER and nothing else changes |
| Game.CarGame.UpdateMainGameState | cargame.py:273-283 | a level-up exactly when the score is a multiple of 5000, then the enemy moves and resets as `EnemyAfter` says, and GAME OVER exactly when the cars then collide |
| Game.CarGame.UpdateGameState | cargame.py:269-271 | nothing changes in GAME OVER; in MAIN GAME it is the main-game update |
| Game.CarGame.RestartAsWritten | cargame.py:352-356 | the parameters are reset and then the process ends with an AttributeError |
| Game.CarGame.Restart | cargame.py:352-359 | parameters reset, the player centred on the right lane at the bottom in lane R, the enemy reset into the drawn lane, invariant kept |
| Game.CarGame.EventLoop | cargame.py:230-240 | the outcome is `EventsOutcome` of the queue; the lane and the player's rectangle are `AfterKeys` of the queue; when the queue ends normally with space held in GAME OVER, the game restarts from there; otherwise nothing else changes |
| Game.CarGame.GameOverDraw | cargame.py:324-333 | the table is fetched, which records 0 the first time; it fails exactly when nothing was recorded and the file does not parse, and then ends the process; afterwards the table is recorded and the history is `[0]`; the guarded recording at line 333 is unreachable |
| Game.CarGame.AdvanceCounter | cargame.py:210-213 | the counter becomes its successor modulo 661 and stays in 0..660 |
| Game.CarGame.MainGamePass | cargame.py:220-225 | the main-game update, then the score rises by one, on the collision frame too |
| Game.CarGame.Frame | cargame.py:210-228 | after the counter, a GAME OVER pass only fetches the table and crashes exactly when `GameOverDraw` does; a MAIN GAME pass does the update and the score increment without touching the table; the history only grows and the flag is never cleared |
| Game.CarGame.Step | cargame.py:207-240 | one pass: it exits or raises exactly as its event queue says, and otherwise crashes only in GAME OVER when the first fetch of the table finds a bad file; the player's car follows the key events; MAIN GAME to GAME OVER only on a collision; GAME OVER to MAIN GAME only by a restart, which leaves score 1, level 1, speed 3.16 and counter 1, the enemy reset into the drawn lane and then moved by `EnemyAfter`, and the state GAME OVER exactly when that enemy meets the player; in a MAIN GAME pass the score, level and enemy follow `MainGamePass`, and a GAME OVER pass without restart changes none of them; the score history only grows, the flag is never cleared, and only a game-over pass without restart touches the table; the invariant is kept |

## Left out

- Rendering, fonts, sound, the window, `pygame.display.update` and the frame clock (`CLOCK.tick`, `FPS`): they have no effect on the game's state.
- `Road` and its dashed-line animation: float drawing geometry whose only input from the state is the frame counter.
- File I/O: the file is a string held by `ScoreManager`. A missing or unreadable file, which raises in the source, is not modelled.
- ScoreFile.ParseInt: accepts only ASCII digit strings. Signs, underscores between digits and non-ASCII digits, which Python's `int()` also accepts, read as a failed parse, and scores are non-negative.
- Floating point: speeds are exact reals (3 + 0.16 per level) rather than IEEE doubles, so rounding in the accumulated speed is not modelled.
- `handle_resize_event`: it is modelled only as the `TypeError` that `Road(...)` with two missing arguments raises at cargame.py:261. The resize itself and the screen size it would set are not modelled, so `SCREEN_WIDTH`, `SCREEN_HEIGHT` and the speed factor are constants.
- `car2_lane`: it is written at cargame.py:296, 299 and 359 but never read, so it is not a field of the model.
- `random.uniform` and `random.randint`: the drawn values are parameters of the constructor, `ResetEnemyCar`, `EventLoop` and `Step`.
- `main_loop` runs forever; the model gives one pass (`Step`), and the loop is its repetition.
- `quit_game`: `sys.exit()` is the outcome `Exit`.
- `print` and the crash sound at cargame.py:288, 302 and 360.
- Game.CarGame.Step: for a GAME OVER pass it does not state which table the first fetch records; `Frame` and `GameOverDraw` state that.
- Game.CarGame.EventLoop: calls the corrected `Restart`, not `RestartAsWritten`. As written, every restart ends the process with an `AttributeError` (cargame.py:355), so the program never returns from GAME OVER to MAIN GAME.
- Game.CarGame.Step: its restart case is that of the corrected program, through `EventLoop`; as written that pass ends with `Crashed(RestartAttributeError)`.

## Findings

| source | as written | input that shows it | evidently intended | confidence | as-written member | corrected member |
|---|---|---|---|---|---|---|
| cargame.py:354-355 | `restart_game` reads `self.road.right_lane`, but `Road` has no such attribute, so `AttributeError` ends the process after the parameters are reset | any pass in GAME OVER with space held | the player is put back on the right lane's centre (x 525, matching `car_lane = "R"`) at its starting height, and play resumes | high, not executed | Game.CarGame.RestartAsWritten | Game.CarGame.Restart |
