/** The game-rule layer of the play scene: its fields, and the handlers that
    update them, with the engine (physics, rendering, input and timers)
    replaced by the calls and parameters it would supply. */
module Scene {
  import opened Common
  import opened Difficulty
  import opened Pipes
  import opened BestScore
  import opened Pause

  /** The bird: the top of its bounds and its displayed height. */
  datatype Bird = Bird(y: int, height: nat)

  /** checkGameStatus's condition: the bird's bottom reached the floor or its
      top reached the ceiling. */
  predicate OutOfBounds(b: Bird)
    ensures !OutOfBounds(b) <==> 0 < b.y && b.y + b.height < HEIGHT
  {
    b.y + b.height >= HEIGHT || b.y <= 0
  }

  class PlayScene {
    var score: nat
    var currentDifficulty: Tier
    var isPaused: bool
    var initialTime: int
    var timerRunning: bool
    /** Vertical velocity of the bird's body. */
    var birdVelocityY: int
    /** localStorage['bestScore'], which outlives the scene. */
    var bestScore: Option<int>
    /** The pipe group's children, in getChildren() order; null until create. */
    var pipes: array?<Pipe>

    /** The scene's invariant: the tier is the one intended for the score, and
        a scheduled countdown has between one and three seconds left. */
    ghost predicate Valid()
      reads this
    {
      && currentDifficulty == TierForScore(score)
      && (timerRunning ==> 1 <= initialTime <= COUNTDOWN_SECONDS)
    }

    /** createPipes has run: the pool of pipe sprites exists. */
    predicate Created()
      reads this
    {
      pipes != null && pipes.Length == PIPE_SPRITES
    }

    /** The fields the pause and countdown handlers work on. */
    ghost function PauseView(): PauseState
      reads this
    {
      PauseState(isPaused, initialTime, timerRunning)
    }

    /** The class constructor; `stored` is what local storage holds. */
    constructor (stored: Option<int>)
      ensures Valid() && !Created() && pipes == null
      ensures score == 0 && currentDifficulty == Easy
      ensures !isPaused && !timerRunning && birdVelocityY == 0 && bestScore == stored
    {
      score := 0;
      currentDifficulty := Easy;
      isPaused := false;
      initialTime := 0;
      timerRunning := false;
      birdVelocityY := 0;
      bestScore := stored;
      pipes := null;
    }

    /** create: back to the easy tier, a new bird at rest, a fresh pipe pool
        laid out from `draws`, score 0 and not paused. */
    method Create(pipeWidth: nat, draws: seq<Draw>)
      requires Valid()
      requires |draws| == PIPES_TO_RENDER && AllFit(draws, Easy)
      modifies this
      ensures Valid() && Created() && fresh(pipes)
      ensures pipes[..] == Layout(pipeWidth, draws, Easy, |draws|)
      ensures score == 0 && currentDifficulty == Easy && !isPaused && birdVelocityY == 0
      ensures bestScore == old(bestScore)
      ensures initialTime == old(initialTime) && timerRunning == old(timerRunning)
    {
      currentDifficulty := Easy;
      birdVelocityY := 0;
      CreatePipes(pipeWidth, draws);
      score := 0;
      isPaused := false;
    }

    /** createPipes: a new pool of PIPE_SPRITES sprites of width `pipeWidth`,
        each pair placed in turn with the next draw. */
    method CreatePipes(pipeWidth: nat, draws: seq<Draw>)
      requires |draws| == PIPES_TO_RENDER && AllFit(draws, currentDifficulty)
      modifies this`pipes
      ensures Created() && fresh(pipes)
      ensures pipes[..] == Layout(pipeWidth, draws, currentDifficulty, |draws|)
    {
      pipes := new Pipe[PIPE_SPRITES](_ => Pipe(0, 0, pipeWidth));
      assert pipes[..] == Unplaced(pipeWidth);
      for i := 0 to |draws|
        invariant Created() && fresh(pipes)
        invariant pipes[..] == Layout(pipeWidth, draws, currentDifficulty, i)
      {
        assert DrawFits(draws[i], SettingsOf(currentDifficulty));
        PlacePipe(2 * i, 2 * i + 1, draws[i]);
      }
    }

    /** getRightMostPipe: the largest `x` of all pipes, and at least 0. */
    method GetRightMostPipe() returns (rightMostX: int)
      requires Created()
      ensures rightMostX == RightMostX(pipes[..])
      ensures rightMostX >= 0
      ensures forall i :: 0 <= i < pipes.Length ==> pipes[i].x <= rightMostX
      ensures rightMostX == 0 || exists i :: 0 <= i < pipes.Length && pipes[i].x == rightMostX
    {
      rightMostX := 0;
      for i := 0 to pipes.Length
        invariant rightMostX == RightMostX(pipes[..i])
      {
        assert pipes[..i + 1][..i] == pipes[..i];
        rightMostX := Max(pipes[i].x, rightMostX);
      }
      assert pipes[..pipes.Length] == pipes[..];
    }

    /** placePipe(pipes[u], pipes[l]) with the draw `d` made from the current
        tier's ranges. */
    method PlacePipe(u: nat, l: nat, d: Draw)
      requires Created() && u < pipes.Length && l < pipes.Length && u != l
      requires DrawFits(d, SettingsOf(currentDifficulty))
      modifies pipes
      ensures pipes[..] == Placed(old(pipes[..]), u, l, currentDifficulty, d)
    {
      var rightMostX := GetRightMostPipe();
      pipes[u] := Pipe(rightMostX + d.horizontalDistance, d.verticalPosition, pipes[u].width);
      pipes[l] := Pipe(pipes[u].x, pipes[u].y + d.verticalDistance, pipes[l].width);
    }

    /** recyclePipes: walk the pipes in order, collecting those off screen;
        when the second one is found, place the two as a new pair with `d`,
        score a point, save the best score and update the tier. At most one
        pair moves per call. */
    method RecyclePipes(d: Draw)
      requires Valid() && Created()
      requires DrawFits(d, SettingsOf(currentDifficulty))
      modifies pipes, this`score, this`currentDifficulty, this`bestScore
      ensures Valid()
      ensures var idx := OffscreenIndices(old(pipes[..]));
        if |idx| >= 2 then
          && pipes[..] == Placed(old(pipes[..]), idx[0], idx[1], old(currentDifficulty), d)
          && score == old(score) + 1
          && bestScore == SavedBest(old(bestScore), score)
          && currentDifficulty == NextTier(old(currentDifficulty), score)
        else
          && pipes[..] == old(pipes[..])
          && score == old(score)
          && bestScore == old(bestScore)
          && currentDifficulty == old(currentDifficulty)
    {
      ghost var s0, score0, tier0, best0 := pipes[..], score, currentDifficulty, bestScore;
      var tempPipes: seq<nat> := [];
      for i := 0 to pipes.Length
        invariant Valid()
        invariant tempPipes == OffscreenIndices(s0[..i])
        invariant |tempPipes| < 2 ==>
          pipes[..] == s0 && score == score0 && currentDifficulty == tier0 && bestScore == best0
        invariant |tempPipes| >= 2 ==>
          && pipes[..] == Placed(s0, tempPipes[0], tempPipes[1], tier0, d)
          && score == score0 + 1
          && bestScore == SavedBest(best0, score)
          && currentDifficulty == NextTier(tier0, score)
      {
        OffscreenIndicesStep(s0, i);
        assert pipes[i] == s0[i];
        if RightEdge(pipes[i]) <= 0 {
          tempPipes := tempPipes + [i];
          if |tempPipes| == 2 {
            RecyclePair(tempPipes[0], tempPipes[1], d);
          }
        }
      }
      assert s0[..pipes.Length] == s0;
    }

    /** The body recyclePipes runs on its second off-screen pipe: place the
        pair, score a point, save the best score and update the tier. */
    method RecyclePair(u: nat, l: nat, d: Draw)
      requires Valid() && Created() && u < pipes.Length && l < pipes.Length && u != l
      requires DrawFits(d, SettingsOf(currentDifficulty))
      modifies pipes, this`score, this`currentDifficulty, this`bestScore
      ensures Valid()
      ensures pipes[..] == Placed(old(pipes[..]), u, l, old(currentDifficulty), d)
      ensures score == old(score) + 1
      ensures bestScore == SavedBest(old(bestScore), score)
      ensures currentDifficulty == NextTier(old(currentDifficulty), score)
    {
      PlacePipe(u, l, d);
      IncreaseScore();
      SaveBestScore();
      IncreaseDifficulty();
      TierStep(old(score));
    }

    /** increaseScore. */
    method IncreaseScore()
      modifies this`score
      ensures score == old(score) + 1
    {
      score := score + 1;
    }

    /** increaseDifficulty: normal on reaching one point, hard on reaching
        three. */
    method IncreaseDifficulty()
      modifies this`currentDifficulty
      ensures currentDifficulty == NextTier(old(currentDifficulty), score)
    {
      if score == 1 {
        currentDifficulty := Normal;
      }
      if score == 3 {
        currentDifficulty := Hard;
      }
    }

    /** saveBestScore: overwrite a missing or zero best, and any best lower
        than the score. */
    method SaveBestScore()
      modifies this`bestScore
      ensures bestScore == SavedBest(old(bestScore), score)
    {
      if bestScore.None? || bestScore.value == 0 || score > bestScore.value {
        bestScore := Some(score);
      }
    }

    /** gameOver, without the engine part (pausing physics, tinting the bird,
        scheduling the restart): the best score is saved. */
    method GameOver()
      modifies this`bestScore
      ensures bestScore == SavedBest(old(bestScore), score)
    {
      SaveBestScore();
    }

    /** checkGameStatus: game over exactly when the bird is out of bounds. */
    method CheckGameStatus(bird: Bird) returns (over: bool)
      modifies this`bestScore
      ensures over == OutOfBounds(bird)
      ensures bestScore == if over then SavedBest(old(bestScore), score) else old(bestScore)
    {
      over := false;
      if bird.y + bird.height >= HEIGHT || bird.y <= 0 {
        GameOver();
        over := true;
      }
    }

    /** update, once per frame: the game-over test, then recycling. */
    method Update(bird: Bird, d: Draw)
      requires Valid() && Created()
      requires DrawFits(d, SettingsOf(currentDifficulty))
      modifies pipes, this`score, this`currentDifficulty, this`bestScore
      ensures Valid()
      ensures var saved := if OutOfBounds(bird) then SavedBest(old(bestScore), old(score)) else old(bestScore);
        var idx := OffscreenIndices(old(pipes[..]));
        if |idx| >= 2 then
          && pipes[..] == Placed(old(pipes[..]), idx[0], idx[1], old(currentDifficulty), d)
          && score == old(score) + 1
          && bestScore == SavedBest(saved, score)
          && currentDifficulty == NextTier(old(currentDifficulty), score)
        else
          && pipes[..] == old(pipes[..])
          && score == old(score)
          && bestScore == saved
          && currentDifficulty == old(currentDifficulty)
    {
      var _ := CheckGameStatus(bird);
      RecyclePipes(d);
    }

    /** The pause button's handler, without pausing the engine or launching
        the pause scene. */
    method Pause()
      requires Valid()
      modifies this`isPaused
      ensures Valid() && isPaused
      ensures PauseView() == Paused(old(PauseView()))
    {
      isPaused := true;
    }

    /** The 'resume' handler, without the countdown text; the timer it adds is
        the `timerRunning` flag. */
    method Resume()
      requires Valid()
      modifies this`initialTime, this`timerRunning
      ensures Valid() && initialTime == COUNTDOWN_SECONDS && timerRunning
      ensures PauseView() == Resumed(old(PauseView()))
    {
      initialTime := COUNTDOWN_SECONDS;
      timerRunning := true;
    }

    /** countDown, called by the timer once a second. */
    method CountDown()
      requires Valid()
      modifies this`initialTime, this`isPaused, this`timerRunning
      ensures Valid()
      ensures initialTime == old(initialTime) - 1
      ensures initialTime <= 0 ==> !isPaused && !timerRunning
      ensures initialTime > 0 ==> isPaused == old(isPaused) && timerRunning == old(timerRunning)
      ensures PauseView() == Ticked(old(PauseView()))
    {
      initialTime := initialTime - 1;
      if initialTime <= 0 {
        isPaused := false;
        timerRunning := false;
      }
    }

    /** flap: ignored while paused, otherwise the bird's vertical velocity is
        set (not added to) to FLAP_VELOCITY upwards. */
    method Flap()
      modifies this`birdVelocityY
      ensures birdVelocityY == if isPaused then old(birdVelocityY) else -FLAP_VELOCITY
    {
      if isPaused {
        return;
      }
      birdVelocityY := -FLAP_VELOCITY;
    }
  }
}
