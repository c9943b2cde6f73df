/** `CarGame`: one session of the game. Each pass of `main_loop` is one call
    of `Step`; the event queue, the held-key snapshot and the random draws
    of that pass are its parameters. */
module Game {
  import opened ScoreFile
  import opened Ranking
  import opened HighScores
  import opened Geometry

  const ScreenWidth: int := 800
  const ScreenHeight: int := 660
  /** `int(SCREEN_WIDTH / 1.6)`. */
  const RoadWidth: int := 500
  /** `int(road_width / 2)`: how far one lane change moves the player. */
  const LaneShift: int := 250
  /** `SCREEN_WIDTH / 2 - road_width / 2`. */
  const RoadLeft: int := 150
  /** `SCREEN_WIDTH / 2 + road_width / 4` and `SCREEN_WIDTH / 2 - road_width / 4`. */
  const RightLaneX: real := 525.0
  const LeftLaneX: real := 275.0
  /** The centre height an enemy car is put back at. */
  const ResetY: real := -200.0
  /** The level rises on every score that is a multiple of this. */
  const LevelInterval: nat := 5000
  const BaseSpeed: real := 3.0
  const SpeedStep: real := 0.16
  /** `SCREEN_HEIGHT / 660`. */
  const SpeedFactor: real := 1.0

  datatype Lane = L | R
  datatype GameState = MainGame | GameOver

  /** The keys the game tells apart. */
  datatype Key = KeyA | KeyLeft | KeyD | KeyRight | KeySpace | OtherKey

  /** What `pygame.event.get()` can deliver. */
  datatype Event = QuitEvent | KeyDown(key: Key) | VideoResize(w: int, h: int) | OtherEvent

  /** The exceptions that end the process. */
  datatype Crash =
    | BadScoreFile           // `int()` on a token of the score file fails
    | ResizeTypeError        // `Road(...)` in `handle_resize_event` lacks two arguments
    | RestartAttributeError  // `self.road.right_lane` in `restart_game` does not exist

  /** How one pass of the loop ends: it goes on, `sys.exit()` ran, or an
      exception escaped. */
  datatype Outcome = Running | Exit | Crashed(reason: Crash)

  predicate IsLeftKey(k: Key) { k == KeyA || k == KeyLeft }
  predicate IsRightKey(k: Key) { k == KeyD || k == KeyRight }

  /** `SCREEN_WIDTH / 2 + road_width / 2 - car.rect.width`: the x at which a
      car of that width touches the road's right edge. */
  function RoadRight(carWidth: nat): (x: int)
    ensures x + carWidth == RoadLeft + RoadWidth
  {
    ScreenWidth / 2 + RoadWidth / 2 - carWidth
  }

  /** The player changes lanes left: a left key, lane R, and the car's current
      x still right of the road's left edge. A key never asks for both moves. */
  predicate MovesLeft(k: Key, lane: Lane, r: Rect)
    ensures MovesLeft(k, lane, r) ==> !MovesRight(k, lane, r)
  {
    IsLeftKey(k) && lane == R && r.x > RoadLeft
  }

  /** The mirror image: a right key, lane L, and x left of the right bound,
      that is, the car's right edge still short of the road's right edge. */
  predicate MovesRight(k: Key, lane: Lane, r: Rect)
    ensures MovesRight(k, lane, r) ==> r.x + r.w < RoadLeft + RoadWidth
  {
    IsRightKey(k) && lane == L && r.x < RoadRight(r.w)
  }

  /** How far right of its lane-L position the player's car is in a lane. */
  function LaneOffset(lane: Lane): (d: int) {
    if lane == L then 0 else LaneShift
  }

  /** `handle_key_events(event)` on the lane and the player's rectangle. A
      lane change moves the car by exactly the lane's offset, so the car's x
      less its lane's offset never changes. */
  function KeyStep(k: Key, lane: Lane, r: Rect): (after: (Lane, Rect))
    ensures after.1.y == r.y && after.1.w == r.w && after.1.h == r.h
    ensures after.1.x - LaneOffset(after.0) == r.x - LaneOffset(lane)
  {
    if MovesLeft(k, lane, r) then (L, Translate(r, -LaneShift, 0))
    else if MovesRight(k, lane, r) then (R, Translate(r, LaneShift, 0))
    else (lane, r)
  }

  /** The events that end `event_loop`: `quit_game` or `handle_resize_event`. */
  predicate Stops(e: Event) {
    e.QuitEvent? || e.VideoResize?
  }

  /** How `event_loop` ends for a queue of events: at its first quit or
      resize event, or normally when it holds neither. */
  function EventsOutcome(events: seq<Event>): (o: Outcome)
    ensures o == Running <==> forall i :: 0 <= i < |events| ==> !Stops(events[i])
    ensures o == Running || o == Exit || o == Crashed(ResizeTypeError)
  {
    if events == [] then Running
    else match events[0]
      case QuitEvent => Exit
      case VideoResize(_, _) => Crashed(ResizeTypeError)
      case _ =>
        assert forall i :: 1 <= i < |events| ==> events[i] == events[1..][i - 1];
        EventsOutcome(events[1..])
  }

  /** The lane and the player's rectangle after the key events of a queue
      that come before its first quit or resize event, in order. The height,
      the size and the car's x less its lane's offset are kept. */
  function AfterKeys(events: seq<Event>, lane: Lane, r: Rect): (after: (Lane, Rect))
    ensures after.1.y == r.y && after.1.w == r.w && after.1.h == r.h
    ensures after.1.x - LaneOffset(after.0) == r.x - LaneOffset(lane)
  {
    if events == [] then (lane, r)
    else match events[0]
      case KeyDown(k) =>
        var next := KeyStep(k, lane, r);
        AfterKeys(events[1..], next.0, next.1)
      case OtherEvent => AfterKeys(events[1..], lane, r)
      case _ => (lane, r)
  }

  /** The pass restarts a finished game: its queue ends normally, space is
      held, and the game is over. */
  predicate Restarts(events: seq<Event>, spaceHeld: bool, state: GameState) {
    EventsOutcome(events) == Running && spaceHeld && state == GameOver
  }

  /** The first quit or resize event decides how `event_loop` ends, and no
      key after it moves the player. */
  lemma {:induction false} FirstStopDecides(events: seq<Event>, i: nat, lane: Lane, r: Rect)
    requires i < |events| && Stops(events[i])
    requires forall j :: 0 <= j < i ==> !Stops(events[j])
    ensures EventsOutcome(events) == if events[i].QuitEvent? then Exit else Crashed(ResizeTypeError)
    ensures AfterKeys(events, lane, r) == AfterKeys(events[..i], lane, r)
  {
    if i > 0 {
      assert !Stops(events[0]);
      var tail := events[1..];
      assert tail[i - 1] == events[i];
      assert events[..i][1..] == tail[..i - 1];
      match events[0]
      case KeyDown(k) =>
        var next := KeyStep(k, lane, r);
        FirstStopDecides(tail, i - 1, next.0, next.1);
      case OtherEvent =>
        FirstStopDecides(tail, i - 1, lane, r);
    }
  }

  /** How many level-ups the first `frames` main-game frames of a session
      fire: frame `s` (run with score `s`) fires when `s % 5000 == 0`. */
  function LevelUps(frames: nat): (n: nat)
    ensures n <= frames
    ensures frames > 0 ==> n > 0
  {
    if frames == 0 then 0
    else LevelUps(frames - 1) + (if (frames - 1) % LevelInterval == 0 then 1 else 0)
  }

  /** The speed after `level` level-ups: each adds 0.16 to the starting 3. */
  function SpeedAt(level: nat): (v: real)
    ensures v >= BaseSpeed
  {
    BaseSpeed + SpeedStep * level as real
  }

  /** The x centre `reset_enemy_car` puts the enemy car at for a lane: a
      point strictly inside the road. */
  function LaneCentre(lane: Lane): (x: real)
    ensures RoadLeft as real < x < (RoadLeft + RoadWidth) as real
  {
    if lane == R then RightLaneX else LeftLaneX
  }

  /** The enemy car after one main-game frame: moved down by
      `speed * speed_factor` (truncated by the rectangle), then put back at the
      top of lane `lane` once it is below the screen. Either way it ends the
      frame no lower than the bottom edge. */
  function EnemyAfter(r: Rect, speed: real, lane: Lane): (r': Rect)
    ensures r'.w == r.w && r'.h == r.h
    ensures r'.y <= ScreenHeight
  {
    var moved := r.(y := Trunc(r.y as real + speed * SpeedFactor));
    if moved.y > ScreenHeight then WithCenter(moved, LaneCentre(lane), ResetY) else moved
  }

  /** After the frame with score `s`, the level is `s div 5000 + 1`. */
  lemma {:induction false} LevelUpsClosedForm(s: nat)
    ensures LevelUps(s + 1) == s / LevelInterval + 1
  {
    if s > 0 {
      LevelUpsClosedForm(s - 1);
      var q, r := (s - 1) / LevelInterval, (s - 1) % LevelInterval;
      assert s == LevelInterval * q + r + 1;
      if r == LevelInterval - 1 {
        assert s == LevelInterval * (q + 1);
        assert s % LevelInterval == 0 && s / LevelInterval == q + 1;
      } else {
        assert s % LevelInterval == r + 1 && s / LevelInterval == q;
      }
    }
  }

  /** After 5000 collision-free frames from a fresh start the level is 1 and
      the speed 3.16; the frame with score 5000 makes it 2. */
  lemma FiveThousandFrames()
    ensures LevelUps(5000) == 1 && SpeedAt(LevelUps(5000)) == 3.16
    ensures LevelUps(5001) == 2
  {
    LevelUpsClosedForm(4999);
    LevelUpsClosedForm(5000);
  }

  /** One frame either moves the enemy car straight down by at least 3
      pixels and by less than a pixel more than the speed, staying above the
      bottom edge, or, when the move takes it past that edge, puts its centre
      exactly at height -200 in one of the two lanes. */
  lemma EnemyAfterShape(r: Rect, speed: real, lane: Lane)
    requires speed >= BaseSpeed
    ensures var r' := EnemyAfter(r, speed, lane);
      && r'.w == r.w && r'.h == r.h
      && ((&& r'.x == r.x && r.y + 3 <= r'.y <= ScreenHeight
           && (r'.y - r.y) as real < speed + 1.0)
          || (&& r.y as real + speed * SpeedFactor > ScreenHeight as real
              && Center(r') == (if lane == R then 525 else 275, -200)))
  {
    var v := r.y as real + speed * SpeedFactor;
    var moved := r.(y := Trunc(v));
    assert r.y + 3 <= moved.y;
    if moved.y > ScreenHeight {
      assert Trunc(LaneCentre(lane)) == if lane == R then 525 else 275;
      assert Trunc(ResetY) == -200;
    }
  }

  class CarGame {
    var speed: real
    /** `event_updater_counter`: the animation phase of the road. */
    var counter: nat
    var state: GameState
    var score: nat
    var level: nat
    /** `car_lane`: the lane the game believes the player is in. */
    var carLane: Lane
    /** The player's car and the enemy car. */
    const car: Car
    const car2: Car
    const scoreManager: ScoreManager
    /** The player's x in lane L; in lane R it is one lane shift further right. */
    ghost var anchor: int
    /** Passes of the loop since the parameters were last initialised. */
    ghost var frames: nat

    ghost predicate Valid()
      reads this, car, car2, scoreManager
    {
      && car != car2
      && counter <= ScreenHeight
      && counter == frames % (ScreenHeight + 1)
      && level == LevelUps(score)
      && speed == SpeedAt(level)
      && car.rect.x == anchor + LaneOffset(carLane)
      && scoreManager.Valid()
      && (scoreManager.recorded == [] || scoreManager.recorded == [0])
    }

    /** The lowest and highest x `random.uniform` can draw for the enemy's
        first position: between the road's left edge and its right edge less
        the enemy's width, in whichever order those two come. */
    static predicate StartXInRange(enemyWidth: nat, x: real) {
      var a, b := RoadLeft as real, (ScreenWidth / 2 + RoadWidth / 2 - enemyWidth) as real;
      (a <= x <= b) || (b <= x <= a)
    }

    /** `CarGame()`: `initialize_game_parameters`, `initialize_cars` and
        `initialize_score_manager`. The cars are built from images of the
        given sizes; `enemyStartX` is the enemy's first `random.uniform`
        x centre; `scoreFile` is what `high_scores.txt` holds. */
    constructor (carImageW: nat, carImageH: nat, enemyImageW: nat, enemyImageH: nat,
                 enemyStartX: real, scoreFile: string)
      requires StartXInRange(HalfSize(enemyImageW), enemyStartX)
      ensures Valid()
      ensures fresh(car) && fresh(car2) && fresh(scoreManager)
      ensures speed == BaseSpeed && counter == 0 && state == MainGame && score == 0 && level == 0
      ensures carLane == L
      ensures car.rect.w == HalfSize(carImageW) && car.rect.h == HalfSize(carImageH)
      ensures Center(car.rect) == (400, Trunc(ScreenHeight as real - car.rect.h as real * 0.5))
      ensures car2.rect.w == HalfSize(enemyImageW) && car2.rect.h == HalfSize(enemyImageH)
      ensures Center(car2.rect) == (Trunc(enemyStartX), Trunc(-(car2.rect.h as real) * 1.5))
      ensures scoreManager.file == scoreFile && scoreManager.scores == []
      ensures !scoreManager.hasUpdateScores
      // the enemy's first centre is on the road, when the enemy fits on it
      ensures car2.rect.w <= RoadWidth ==>
                RoadLeft <= Center(car2.rect).0 <= RoadLeft + RoadWidth - car2.rect.w
    {
      speed := BaseSpeed;
      counter := 0;
      state := MainGame;
      score := 0;
      level := 0;
      var player := new Car(carImageW, carImageH);
      var playerY := ScreenHeight as real - player.rect.h as real * 0.5;
      assert ScreenWidth as real / 2.0 == 400 as real;
      TruncOfInt(400);
      player.SetInitialPosition(ScreenWidth as real / 2.0, playerY);
      assert Center(player.rect) == (400, Trunc(playerY));
      var enemy := new Car(enemyImageW, enemyImageH);
      enemy.SetInitialPosition(enemyStartX, -(enemy.rect.h as real) * 1.5);
      car := player;
      car2 := enemy;
      carLane := L;
      anchor := player.rect.x;
      frames := 0;
      scoreManager := new ScoreManager(scoreFile);
    }

    /** `initialize_game_parameters()`: the session values back to their
        starting values (the frame rate and the clock are not modelled). */
    method InitializeGameParameters()
      modifies this
      ensures speed == BaseSpeed && counter == 0 && state == MainGame && score == 0 && level == 0
      ensures frames == 0
      ensures carLane == old(carLane) && anchor == old(anchor)
    {
      speed := BaseSpeed;
      counter := 0;
      state := MainGame;
      score := 0;
      level := 0;
      frames := 0;
    }

    /** `handle_key_events(event)`: the lane change. The boundary is checked
        on the car's current x, and a move shifts it by exactly 250 pixels. */
    method HandleKeyEvent(k: Key)
      requires Valid()
      modifies this, car
      ensures Valid()
      ensures (carLane, car.rect) == KeyStep(k, old(carLane), old(car.rect))
      ensures anchor == old(anchor)
      ensures speed == old(speed) && counter == old(counter) && state == old(state)
      ensures score == old(score) && level == old(level) && frames == old(frames)
    {
      if IsLeftKey(k) && carLane == R {
        if car.rect.x > RoadLeft {
          car.Move("left", LaneShift);
          carLane := L;
        }
      }
      if IsRightKey(k) && carLane == L {
        if car.rect.x < RoadRight(car.rect.w) {
          car.Move("right", LaneShift);
          carLane := R;
        }
      }
    }

    /** `reset_enemy_car()`: `lane` is the lane `random.randint(0, 1)` picked
        (0 picks R). The enemy's centre goes to that lane, at height -200. */
    method ResetEnemyCar(lane: Lane)
      modifies car2
      ensures car2.rect == WithCenter(old(car2.rect), LaneCentre(lane), ResetY)
    {
      if lane == R {
        car2.SetInitialPosition(RightLaneX, ResetY);
      } else {
        car2.SetInitialPosition(LeftLaneX, ResetY);
      }
    }

    /** `level_up()`. */
    method LevelUp()
      modifies this
      ensures speed == old(speed) + SpeedStep && level == old(level) + 1
      ensures counter == old(counter) && state == old(state) && score == old(score)
      ensures carLane == old(carLane) && anchor == old(anchor) && frames == old(frames)
    {
      speed := speed + SpeedStep;
      level := level + 1;
    }

    /** `move_enemy_car()`. */
    method MoveEnemyCar()
      modifies car2
      ensures car2.rect == old(car2.rect).(y := Trunc(old(car2.rect).y as real + speed * SpeedFactor))
    {
      car2.rect := car2.rect.(y := Trunc(car2.rect.y as real + speed * SpeedFactor));
    }

    /** `handle_collision()`: the crash sound is not modelled. */
    method HandleCollision()
      modifies this
      ensures state == GameOver
      ensures speed == old(speed) && counter == old(counter) && score == old(score) && level == old(level)
      ensures carLane == old(carLane) && anchor == old(anchor) && frames == old(frames)
    {
      state := GameOver;
    }

    /** `update_main_game_state()`: level-up on a multiple of 5000 (score 0
        included), enemy advance, enemy reset, collision. */
    method UpdateMainGameState(resetLane: Lane)
      requires car != car2
      modifies this, car2
      ensures level == old(level) + (if old(score) % LevelInterval == 0 then 1 else 0)
      ensures speed == old(speed) + (if old(score) % LevelInterval == 0 then SpeedStep else 0.0)
      ensures car2.rect == EnemyAfter(old(car2.rect), speed, resetLane)
      ensures state == if Colliderect(car2.rect, car.rect) then GameOver else old(state)
      ensures counter == old(counter) && score == old(score)
      ensures carLane == old(carLane) && anchor == old(anchor) && frames == old(frames)
    {
      if score % LevelInterval == 0 {
        LevelUp();
      }
      MoveEnemyCar();
      if car2.rect.y > ScreenHeight {
        ResetEnemyCar(resetLane);
      }
      if Colliderect(car2.rect, car.rect) {
        HandleCollision();
      }
    }

    /** `update_game_state()`: the main-game update, only in MAIN GAME. */
    method UpdateGameState(resetLane: Lane)
      requires car != car2
      modifies this, car2
      ensures old(state) == GameOver ==> unchanged(this, car2)
      ensures old(state) == MainGame ==>
                && level == old(level) + (if old(score) % LevelInterval == 0 then 1 else 0)
                && speed == old(speed) + (if old(score) % LevelInterval == 0 then SpeedStep else 0.0)
                && car2.rect == EnemyAfter(old(car2.rect), speed, resetLane)
                && state == (if Colliderect(car2.rect, car.rect) then GameOver else MainGame)
                && counter == old(counter) && score == old(score)
                && carLane == old(carLane) && anchor == old(anchor) && frames == old(frames)
    {
      if state == MainGame {
        UpdateMainGameState(resetLane);
      }
    }

    /** `restart_game()` as written: the parameters are reset, then reading
        `self.road.right_lane` raises, which ends the process. */
    method RestartAsWritten() returns (outcome: Outcome)
      modifies this
      ensures outcome == Crashed(RestartAttributeError)
      ensures speed == BaseSpeed && counter == 0 && state == MainGame && score == 0 && level == 0
      ensures carLane == old(carLane)
    {
      InitializeGameParameters();
      outcome := Crashed(RestartAttributeError);
    }

    /** `restart_game()` with the player put in the right lane, the lane
        `car_lane = "R"` names: parameters reset, player centred on the right
        lane's x at its starting height, enemy reset into lane `enemyLane`. */
    method Restart(enemyLane: Lane)
      requires Valid()
      modifies this, car, car2
      ensures Valid()
      ensures speed == BaseSpeed && counter == 0 && state == MainGame && score == 0 && level == 0
      ensures frames == 0 && carLane == R
      ensures car.rect == WithCenter(old(car.rect), RightLaneX,
                                     ScreenHeight as real - old(car.rect).h as real * 0.5)
      ensures car2.rect == WithCenter(old(car2.rect), LaneCentre(enemyLane), ResetY)
    {
      InitializeGameParameters();
      car.SetInitialPosition(RightLaneX, ScreenHeight as real - car.rect.h as real * 0.5);
      ResetEnemyCar(enemyLane);
      carLane := R;
      anchor := car.rect.x - LaneShift;
    }

    /** `event_loop()`: the queued events in order, then the held-space
        check, which restarts a finished game. A quit event ends the process
        at once; a resize event raises in `handle_resize_event`. */
    method EventLoop(events: seq<Event>, spaceHeld: bool, enemyLane: Lane) returns (outcome: Outcome)
      requires Valid()
      modifies this, car, car2
      ensures Valid()
      ensures outcome == EventsOutcome(events)
      ensures var keys := AfterKeys(events, old(carLane), old(car.rect));
        if Restarts(events, spaceHeld, old(state)) then
          && speed == BaseSpeed && counter == 0 && state == MainGame && score == 0 && level == 0
          && frames == 0 && carLane == R
          && car.rect == WithCenter(keys.1, RightLaneX, ScreenHeight as real - keys.1.h as real * 0.5)
          && car2.rect == WithCenter(old(car2.rect), LaneCentre(enemyLane), ResetY)
        else
          && carLane == keys.0 && car.rect == keys.1 && anchor == old(anchor)
          && speed == old(speed) && counter == old(counter) && state == old(state)
          && score == old(score) && level == old(level) && frames == old(frames)
          && car2.rect == old(car2.rect)
    {
      for i := 0 to |events|
        invariant Valid()
        invariant AfterKeys(events[i..], carLane, car.rect) == AfterKeys(events, old(carLane), old(car.rect))
        invariant EventsOutcome(events[i..]) == EventsOutcome(events)
        invariant anchor == old(anchor)
        invariant speed == old(speed) && counter == old(counter) && state == old(state)
        invariant score == old(score) && level == old(level) && frames == old(frames)
        invariant car2.rect == old(car2.rect)
      {
        assert events[i..][1..] == events[i + 1..];
        match events[i]
        case QuitEvent =>
          return Exit;
        case KeyDown(k) =>
          HandleKeyEvent(k);
        case VideoResize(_, _) =>
          return Crashed(ResizeTypeError);
        case OtherEvent =>
      }
      assert events[|events|..] == [];
      if spaceHeld && state == GameOver {
        Restart(enemyLane);
      }
      outcome := Running;
    }

    /** The score-table part of `game_over_draw()`: `display_high_scores()`
        fetches the table first, which records 0 when nothing was recorded,
        so the guarded `update_high_scores(self.score)` after it never runs. */
    method GameOverDraw() returns (outcome: Outcome)
      requires Valid()
      modifies scoreManager
      ensures Valid()
      ensures outcome == Running || outcome == Crashed(BadScoreFile)
      ensures outcome == Running ==> scoreManager.hasUpdateScores && scoreManager.recorded == [0]
      ensures old(scoreManager.hasUpdateScores) ==> outcome == Running && unchanged(scoreManager)
      ensures !old(scoreManager.hasUpdateScores) ==>
                (outcome == Running <==> Parse(old(scoreManager.file)).Some?)
      ensures !old(scoreManager.hasUpdateScores) && outcome == Running ==>
                scoreManager.scores == TopScores(Parse(old(scoreManager.file)).value + [0])
      ensures outcome != Running ==> unchanged(scoreManager)
      ensures old(scoreManager.recorded) <= scoreManager.recorded
    {
      var table, ok := scoreManager.GetHighScores();
      if !ok {
        return Crashed(BadScoreFile);
      }
      if !scoreManager.hasUpdateScores {
        // update_high_scores(self.score) is unreachable here
        assert false;
      }
      outcome := Running;
    }

    /** The frame counter of `main_loop`: one more each pass, back to 0 once
        it exceeds the screen height. */
    method AdvanceCounter()
      requires Valid()
      modifies this
      ensures Valid()
      ensures counter == (old(counter) + 1) % (ScreenHeight + 1) && frames == old(frames) + 1
      ensures speed == old(speed) && state == old(state) && score == old(score) && level == old(level)
      ensures carLane == old(carLane) && anchor == old(anchor)
    {
      counter := counter + 1;
      if counter > ScreenHeight {
        counter := 0;
      }
      frames := frames + 1;
    }

    /** The main-game half of a pass of `main_loop`: the state update, then
        the score goes up by one, on the collision frame too. */
    method MainGamePass(resetLane: Lane)
      requires Valid() && state == MainGame
      modifies this, car2
      ensures Valid()
      ensures score == old(score) + 1
      ensures level == old(level) + (if old(score) % LevelInterval == 0 then 1 else 0)
      ensures car2.rect == EnemyAfter(old(car2.rect), speed, resetLane)
      ensures state == if Colliderect(car2.rect, car.rect) then GameOver else MainGame
      ensures counter == old(counter) && carLane == old(carLane) && frames == old(frames)
    {
      UpdateGameState(resetLane);
      score := score + 1;
    }

    /** What `main_loop` does after `event_loop()`: the counter, then the
        game-over screen, or the main-game update and the score increment. */
    method Frame(resetLane: Lane) returns (outcome: Outcome)
      requires Valid()
      modifies this, car2, scoreManager
      ensures Valid()
      ensures counter == (old(counter) + 1) % (ScreenHeight + 1)
      ensures carLane == old(carLane) && anchor == old(anchor)
      ensures old(scoreManager.recorded) <= scoreManager.recorded
      ensures old(scoreManager.hasUpdateScores) ==> scoreManager.hasUpdateScores
      ensures old(state) == MainGame ==>
                && outcome == Running
                && score == old(score) + 1
                && level == old(level) + (if old(score) % LevelInterval == 0 then 1 else 0)
                && car2.rect == EnemyAfter(old(car2.rect), speed, resetLane)
                && state == (if Colliderect(car2.rect, car.rect) then GameOver else MainGame)
                && unchanged(scoreManager)
      ensures old(state) == GameOver ==>
                && (outcome == Running <==>
                      old(scoreManager.hasUpdateScores) || Parse(old(scoreManager.file)).Some?)
                && (outcome != Running ==> outcome == Crashed(BadScoreFile))
                && state == GameOver && score == old(score) && level == old(level)
                && speed == old(speed) && car2.rect == old(car2.rect)
      ensures old(state) == GameOver && outcome == Running ==>
                scoreManager.hasUpdateScores && scoreManager.recorded == [0]
      ensures old(state) == GameOver && !old(scoreManager.hasUpdateScores) && outcome == Running ==>
                && Parse(old(scoreManager.file)).Some?
                && scoreManager.scores == TopScores(Parse(old(scoreManager.file)).value + [0])
    {
      AdvanceCounter();
      if state == GameOver {
        outcome := GameOverDraw();
        return;
      }
      MainGamePass(resetLane);
      outcome := Running;
    }

    /** One pass of `main_loop`: `event_loop()`, then the rest of the pass.
        `restartLane` and `resetLane` are the two enemy-lane draws the pass
        may make. */
    method Step(events: seq<Event>, spaceHeld: bool, restartLane: Lane, resetLane: Lane)
      returns (outcome: Outcome)
      requires Valid()
      modifies this, car, car2, scoreManager
      ensures Valid()
      // how the pass ends: the event queue first, then the score file
      ensures EventsOutcome(events) != Running ==> outcome == EventsOutcome(events)
      ensures EventsOutcome(events) == Running && (old(state) == MainGame || spaceHeld) ==>
                outcome == Running
      ensures EventsOutcome(events) == Running && old(state) == GameOver && !spaceHeld ==>
                && (outcome == Running <==>
                      old(scoreManager.hasUpdateScores) || Parse(old(scoreManager.file)).Some?)
                && (outcome != Running ==> outcome == Crashed(BadScoreFile))
      // the player's car: the key events, or the restart after them
      ensures var keys := AfterKeys(events, old(carLane), old(car.rect));
        if Restarts(events, spaceHeld, old(state)) then
          carLane == R
          && car.rect == WithCenter(keys.1, RightLaneX, ScreenHeight as real - keys.1.h as real * 0.5)
        else carLane == keys.0 && car.rect == keys.1 && anchor == old(anchor)
      // the counter counts every pass, in both states, modulo 661
      ensures outcome == Running && !Restarts(events, spaceHeld, old(state)) ==>
                counter == (old(counter) + 1) % (ScreenHeight + 1)
      // a main-game frame
      ensures outcome == Running && old(state) == MainGame ==>
                && score == old(score) + 1
                && level == old(level) + (if old(score) % LevelInterval == 0 then 1 else 0)
                && car2.rect == EnemyAfter(old(car2.rect), speed, resetLane)
                && state == (if Colliderect(car2.rect, car.rect) then GameOver else MainGame)
      // a game-over frame without restart: only the table may change
      ensures outcome == Running && old(state) == GameOver && !spaceHeld ==>
                && state == GameOver && score == old(score) && level == old(level)
                && speed == old(speed) && car2.rect == old(car2.rect)
                && scoreManager.hasUpdateScores && scoreManager.recorded == [0]
      // a restart, followed by the first frame of the new game
      ensures Restarts(events, spaceHeld, old(state)) ==>
                && score == 1 && level == 1 && speed == SpeedAt(1) && counter == 1
                && car2.rect == EnemyAfter(WithCenter(old(car2.rect), LaneCentre(restartLane), ResetY),
                                           SpeedAt(1), resetLane)
                && state == (if Colliderect(car2.rect, car.rect) then GameOver else MainGame)
      // the table is recorded at most once: the history only grows, the flag
      // is never cleared, and only a game-over pass without restart touches it
      ensures old(scoreManager.recorded) <= scoreManager.recorded
      ensures old(scoreManager.hasUpdateScores) ==> scoreManager.hasUpdateScores
      ensures old(state) == MainGame || spaceHeld ==> unchanged(scoreManager)
      // the state machine
      ensures old(state) == MainGame && state == GameOver ==> Colliderect(car2.rect, car.rect)
      ensures old(state) == GameOver && state == MainGame ==> Restarts(events, spaceHeld, old(state))
    {
      var restarting := spaceHeld && state == GameOver;
      outcome := EventLoop(events, spaceHeld, restartLane);
      if outcome != Running {
        return;
      }
      if restarting {
        assert state == MainGame && score == 0 && counter == 0 && carLane == R;
        outcome := Frame(resetLane);
        assert score == 1 && level == 1;
      } else {
        assert state == old(state) && counter == old(counter) && car2.rect == old(car2.rect);
        assert score == old(score) && level == old(level) && speed == old(speed);
        outcome := Frame(resetLane);
      }
    }
  }
}
