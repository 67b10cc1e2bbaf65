/** The match as a sequence of browser events: key presses, key releases and
    animation frames. States the invariant every reachable state keeps and
    what the terminal state freezes. */
module Match {
  import opened GameState
  import opened Engine

  /** What the browser delivers: a frame at time `now` with one coin flip for a
      possible serve, a key press with its key code, or a key release. */
  datatype Event = Frame(now: int, coin: bool) | KeyPress(keyCode: int) | KeyRelease

  /** The three phases of a match, read off the game's own fields. */
  datatype Phase = Serving | InPlay | GameOver

  function PhaseOf(s: State): Phase {
    if s.gameOver then GameOver else if s.targetForBall.Some? then Serving else InPlay
  }

  function Apply(s: State, e: Event): State {
    match e
    case Frame(now, coin) => Tick(s, now, coin)
    case KeyPress(code) => KeyDown(s, code)
    case KeyRelease => KeyUp(s)
  }

  function Run(s: State, events: seq<Event>): State
    decreases |events|
  {
    if events == [] then s else Run(Apply(s, events[0]), events[1..])
  }

  /** Sizes, columns and speeds are those the game sets up. */
  predicate Shaped(s: State) {
    s.player.width == PaddleWidth && s.player.height == PaddleHeight
    && s.player.x == PaddleInset && s.player.speed == PaddleSpeed
    && s.aiPlayer.width == PaddleWidth && s.aiPlayer.height == PaddleHeight
    && s.aiPlayer.x == BoardWidth - PaddleInset && s.aiPlayer.speed == AISpeed
    && s.ball.width == BallSize && s.ball.height == BallSize
  }

  /** What holds between any two events of a match. */
  predicate Inv(s: State) {
    Shaped(s)
    && InBounds(s.player) && InBounds(s.aiPlayer)
    // scores stop at the winning score, the match is over exactly when one
    // side has it, and never both
    && s.player.score <= WinningScore && s.aiPlayer.score <= WinningScore
    && (s.gameOver <==> s.player.score == WinningScore || s.aiPlayer.score == WinningScore)
    && !(s.player.score == WinningScore && s.aiPlayer.score == WinningScore)
    // the ball gains SpeedIncrement per point scored
    && s.ball.speed == InitialBallSpeed + SpeedIncrement * Points(s) as real
    // while a serve is pending the ball waits at rest in the middle
    && (s.targetForBall.Some? ==> s.ball == NewBall(s.ball.speed))
    // in play the ball always moves along both axes
    && (s.targetForBall.None? ==> s.ball.moveX in {Left, Right} && s.ball.moveY in {Up, Down})
  }

  /** The match as set up: nothing scored, serving to the player, loop not started. */
  lemma InitialMatch(now: int)
    ensures Inv(Initial(now))
    ensures PhaseOf(Initial(now)) == Serving && Initial(now).targetForBall == Some(Player)
    ensures Points(Initial(now)) == 0 && !Initial(now).running && Initial(now).delayAmount == now
  {
  }

  /** A waiting ball is not touched by steps 1, 2, 5 and 7 of a frame. */
  lemma WaitingBallStays(s: State, now: int, coin: bool)
    requires Inv(s) && !s.gameOver && s.targetForBall.Some?
    requires !AddADelay(s.delayAmount, now)
    ensures Update(s, now, coin).ball == s.ball
    ensures Update(s, now, coin).targetForBall == s.targetForBall
    ensures Update(s, now, coin).delayAmount == s.delayAmount
  {
  }

  /** A frame keeps the invariant. */
  lemma TickKeepsInv(s: State, now: int, coin: bool)
    requires Inv(s)
    ensures Inv(Tick(s, now, coin))
  {
    if s.gameOver {
    } else {
      var u := Update(s, now, coin);
      assert Shaped(u);
      if s.targetForBall.Some? && !AddADelay(s.delayAmount, now) {
        WaitingBallStays(s, now, coin);
      } else {
        PhaseAfterFrame(s, now, coin);
      }
    }
  }

  /** The ball after a frame that does not start with a serve pending and not
      yet due: either no point was scored and the ball keeps moving along both
      axes, or a point was scored and the new ball waits at rest in the middle. */
  lemma PhaseAfterFrame(s: State, now: int, coin: bool)
    requires Inv(s) && !s.gameOver
    requires s.targetForBall.Some? ==> AddADelay(s.delayAmount, now)
    ensures var u := Update(s, now, coin);
            (u.targetForBall.Some? ==> u.ball == NewBall(u.ball.speed))
            && (u.targetForBall.None? ==> u.ball.moveX in {Left, Right} && u.ball.moveY in {Up, Down})
            && u.ball.width == BallSize && u.ball.height == BallSize
  {
  }

  lemma {:induction false} RunKeepsInv(s: State, events: seq<Event>)
    requires Inv(s)
    ensures Inv(Run(s, events))
    decreases |events|
  {
    if events != [] {
      var e := events[0];
      if e.Frame? {
        TickKeepsInv(s, e.now, e.coin);
      }
      RunKeepsInv(Apply(s, e), events[1..]);
    }
  }

  /** Every state the game can reach from its setup keeps the invariant: both
      paddles on the board, at most one winner, and a ball whose speed is the
      initial speed plus SpeedIncrement per point. */
  lemma ReachableInv(now: int, events: seq<Event>)
    ensures Inv(Run(Initial(now), events))
  {
    InitialMatch(now);
    RunKeepsInv(Initial(now), events);
  }

  /** Phase changes of one frame: a serve can only start play, play can only go
      back to serving or end the match, and the end is final. */
  lemma PhaseTransitions(s: State, now: int, coin: bool)
    requires Inv(s)
    ensures var next := PhaseOf(Tick(s, now, coin));
            (PhaseOf(s) == Serving ==> next in {Serving, InPlay})
            && (PhaseOf(s) == GameOver ==> next == GameOver)
  {
  }

  /** Once the match is over, frames change nothing at all. */
  lemma {:induction false} FramesAfterGameOver(s: State, events: seq<Event>)
    requires s.gameOver
    requires forall i :: 0 <= i < |events| ==> events[i].Frame?
    ensures Run(s, events) == s
    decreases |events|
  {
    if events != [] {
      FramesAfterGameOver(Apply(s, events[0]), events[1..]);
    }
  }

  /** Once the match is over, only the player's intent and the loop flag can
      still change, through key events. */
  lemma {:induction false} GameOverIsFinal(s: State, events: seq<Event>)
    requires s.gameOver
    ensures var r := Run(s, events);
            r.gameOver && r.ball == s.ball && r.aiPlayer == s.aiPlayer
            && r.player == s.player.(move := r.player.move)
            && r.targetForBall == s.targetForBall && r.delayAmount == s.delayAmount
    decreases |events|
  {
    if events != [] {
      GameOverIsFinal(Apply(s, events[0]), events[1..]);
    }
  }

  /** Scores and the ball's speed never go down over any run of events. */
  lemma {:induction false} ScoresNeverDecrease(s: State, events: seq<Event>)
    ensures var r := Run(s, events);
            s.player.score <= r.player.score && s.aiPlayer.score <= r.aiPlayer.score
            && s.ball.speed <= r.ball.speed
    decreases |events|
  {
    if events != [] {
      ScoresNeverDecrease(Apply(s, events[0]), events[1..]);
    }
  }

  /** A frame that starts with the ball past the left edge (or, symmetrically,
      the right edge): the other side scores once, and the frame ends with
      the new, faster ball waiting in the middle for a serve to the paddle
      that conceded. */
  lemma ScoringFrame(s: State, now: int, coin: bool)
    requires Shaped(s) && !s.gameOver
    requires s.ball.x <= 0.0 || s.ball.x >= BoardWidth - s.ball.width
    ensures var u := Update(s, now, coin);
            var winner := if s.ball.x <= 0.0 then AI else Player;
            PaddleOf(u, winner).score == PaddleOf(s, winner).score + 1
            && PaddleOf(u, Other(winner)).score == PaddleOf(s, Other(winner)).score
            && u.ball == NewBall(s.ball.speed + SpeedIncrement)
            && u.targetForBall == Some(Other(winner)) && u.delayAmount == now
  {
  }

  /** A serve that is due launches the ball from the middle toward the paddle
      that conceded, up or down by the coin, and it moves in the same frame. */
  lemma ServeFrame(s: State, now: int, coin: bool)
    requires Inv(s) && !s.gameOver && s.targetForBall.Some?
    requires AddADelay(s.delayAmount, now)
    ensures var u := Update(s, now, coin);
            u.targetForBall == None && Points(u) == Points(s)
            && u.ball.moveX == (if s.targetForBall == Some(Player) then Left else Right)
            && u.ball.moveY == (if coin then Down else Up)
            && u.ball.y == BoardHeight / 2.0 + VerticalStep(u.ball.moveY) * u.ball.speed
            && u.ball.x == BoardWidth / 2.0 + HorizontalStep(u.ball.moveX) * u.ball.speed
  {
  }

  /** A ball in play with neither direction set does not move. The game never
      reaches such a state (Inv rules it out: in play the ball always moves
      along both axes); this is the scenario of a stationary ball in play. */
  lemma StoppedBallStays(s: State, now: int, coin: bool)
    requires Shaped(s) && !s.gameOver && s.targetForBall.None?
    requires s.ball == NewBall(s.ball.speed)
    ensures Update(s, now, coin).ball == s.ball
  {
  }

  /** With the game's geometry a frame beeps at most once. */
  lemma AtMostOneBeep(s: State, now: int, coin: bool)
    requires Shaped(s)
    ensures |TickSounds(s, now, coin)| <= 2
    ensures |UpdateSounds(s, now, coin)| <= 1
  {
  }
}
