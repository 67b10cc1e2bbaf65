/** The entities of one Pong match: directions, paddles, the ball and the
    match record that replaces the module-level globals of the game. */
module GameState {

  /** The shared DIRECTION lookup; paddles use the vertical values and the
      ball uses all of them, one per axis. */
  datatype Direction = Stopped | Up | Down | Left | Right

  /** A paddle of the match: the human player on the left, the AI on the right. */
  datatype Side = Player | AI

  datatype Option<T> = None | Some(value: T)

  /** Sounds the game asks the browser to play. */
  datatype Sound = Beep | Cheer

  // Board and game constants, as the game sets them up.
  const BoardWidth: real := 1400.0
  const BoardHeight: real := 700.0
  const PaddleWidth: real := 15.0
  const PaddleHeight: real := 65.0
  const PaddleInset: real := 150.0
  const PaddleSpeed: real := 11.0
  const AISpeed: real := 6.5
  const BallSize: real := 15.0
  const InitialBallSpeed: real := 7.0
  const SpeedIncrement: real := 0.2
  const ServeDelay: int := 1000
  const WinningScore: nat := 2

  /** x and y are the top-left corner. */
  datatype Paddle = Paddle(width: real, height: real, x: real, y: real,
                           score: nat, move: Direction, speed: real)

  datatype Ball = Ball(width: real, height: real, x: real, y: real,
                       moveX: Direction, moveY: Direction, speed: real)

  /** Everything the game keeps between frames. `targetForBall` is the paddle
      the next serve goes to; `delayAmount` is the time of the last score. */
  datatype State = State(player: Paddle, aiPlayer: Paddle, ball: Ball,
                         targetForBall: Option<Side>, delayAmount: int,
                         gameOver: bool, running: bool)

  /** The paddle stays on the board vertically. */
  predicate InBounds(p: Paddle) {
    0.0 <= p.y <= BoardHeight - p.height
  }

  function PaddleOf(s: State, side: Side): Paddle {
    if side == Player then s.player else s.aiPlayer
  }

  /** Total points scored so far by both sides. */
  function Points(s: State): nat {
    s.player.score + s.aiPlayer.score
  }

  /** The Paddle constructor: a fresh, stationary paddle with its top-left
      corner at mid-height, PaddleInset away from its own edge of the board. */
  function NewPaddle(side: Side): (p: Paddle)
    ensures p.y == BoardHeight / 2.0 && InBounds(p) && p.score == 0 && p.move == Stopped
    ensures p.width == PaddleWidth && p.height == PaddleHeight && p.speed == PaddleSpeed
    ensures 0.0 <= p.x && p.x + p.width <= BoardWidth
    ensures side == Player ==> p.x == PaddleInset && p.x < BoardWidth / 2.0
    ensures side == AI ==> BoardWidth - p.x == PaddleInset && p.x > BoardWidth / 2.0
  {
    Paddle(PaddleWidth, PaddleHeight,
           if side == Player then PaddleInset else BoardWidth - PaddleInset,
           BoardHeight / 2.0, 0, Stopped, PaddleSpeed)
  }

  /** The Ball constructor: a ball at rest with its top-left corner at the
      middle of the board. */
  function NewBall(speed: real): (b: Ball)
    ensures b.x == BoardWidth / 2.0 && b.y == BoardHeight / 2.0
    ensures 0.0 < b.x < BoardWidth - b.width && 0.0 < b.y < BoardHeight - b.height
    ensures b.moveX == Stopped && b.moveY == Stopped && b.speed == speed
    ensures b.width == BallSize && b.height == BallSize
  {
    Ball(BallSize, BallSize, BoardWidth / 2.0, BoardHeight / 2.0, Stopped, Stopped, speed)
  }

  /** The state the page sets up before the first key press; `now` is the
      page-load time, from which the first serve is delayed. */
  function Initial(now: int): State {
    State(NewPaddle(Player), NewPaddle(AI).(speed := AISpeed), NewBall(InitialBallSpeed),
          Some(Player), now, false, false)
  }
}
