/** The per-frame update of the match as pure functions on State: each step
    of Update in its own order, the scoring transition, the serve delay, the
    win check and the key-to-intent mapping. */
module Engine {
  import opened GameState

  function Other(side: Side): Side {
    if side == Player then AI else Player
  }

  /** Vertical displacement, in units of speed, that a direction asks for. */
  function VerticalStep(d: Direction): real {
    match d
    case Up => -1.0
    case Down => 1.0
    case _ => 0.0
  }

  /** Horizontal displacement, in units of speed, that a direction asks for. */
  function HorizontalStep(d: Direction): real {
    match d
    case Left => -1.0
    case Right => 1.0
    case _ => 0.0
  }

  function Min(a: real, b: real): real { if a <= b then a else b }
  function Max(a: real, b: real): real { if a <= b then b else a }

  /** AddADelay: at least ServeDelay milliseconds have passed since the last
      score was recorded at `delayAmount`. What it guarantees is stated by
      NoServeAtScoreTime and ServeStaysDue below. */
  predicate AddADelay(delayAmount: int, now: int) {
    now - delayAmount >= ServeDelay
  }

  /** A point scored at `now` restarts the delay at `now`, so the serve it
      schedules is never due in the same frame. */
  lemma NoServeAtScoreTime(now: int)
    ensures !AddADelay(now, now)
  {
  }

  /** Once due, a serve stays due at every later time, and it becomes due
      exactly ServeDelay milliseconds after the score. */
  lemma ServeStaysDue(delayAmount: int, now: int, later: int)
    ensures AddADelay(delayAmount, now) && now <= later ==> AddADelay(delayAmount, later)
    ensures AddADelay(delayAmount, delayAmount + ServeDelay)
    ensures !AddADelay(delayAmount, delayAmount + ServeDelay - 1)
  {
  }

  /** ResetBall: credit `winner` with a point, put a new, faster ball at rest in
      the middle, aim the next serve at the other paddle and restart the delay. */
  function ResetBall(s: State, winner: Side, now: int): (r: State)
    ensures PaddleOf(r, winner) == PaddleOf(s, winner).(score := PaddleOf(s, winner).score + 1)
    ensures PaddleOf(r, Other(winner)) == PaddleOf(s, Other(winner))
    ensures Points(r) == Points(s) + 1
    ensures r.ball.x == BoardWidth / 2.0 && r.ball.y == BoardHeight / 2.0
    ensures r.ball.moveX == Stopped && r.ball.moveY == Stopped
    ensures r.ball.speed == s.ball.speed + SpeedIncrement
    ensures r.ball.width == BallSize && r.ball.height == BallSize
    ensures r.targetForBall == Some(Other(winner)) && r.delayAmount == now
    ensures r.gameOver == s.gameOver && r.running == s.running
  {
    var scored := if winner == Player
      then s.(player := s.player.(score := s.player.score + 1))
      else s.(aiPlayer := s.aiPlayer.(score := s.aiPlayer.score + 1));
    scored.(ball := NewBall(s.ball.speed + SpeedIncrement),
            targetForBall := Some(Other(winner)),
            delayAmount := now)
  }

  /** Step 1: the ball past the left edge is a point for the AI, past the right
      edge a point for the player; the second test sees the reset ball. */
  function ScoringChecks(s: State, now: int): (r: State)
    ensures s.ball.x <= 0.0 ==> r == ResetBall(s, AI, now)
    ensures 0.0 < s.ball.x && s.ball.x >= BoardWidth - s.ball.width ==> r == ResetBall(s, Player, now)
    ensures 0.0 < s.ball.x < BoardWidth - s.ball.width ==> r == s
    ensures Points(r) <= Points(s) + 1
  {
    var afterLeft := if s.ball.x <= 0.0 then ResetBall(s, AI, now) else s;
    if afterLeft.ball.x >= BoardWidth - afterLeft.ball.width
    then ResetBall(afterLeft, Player, now)
    else afterLeft
  }

  /** Step 2: the ball touching the top wall heads down, touching the bottom
      wall heads up; the bottom test is made last and wins. */
  function WallBounce(b: Ball): (r: Ball)
    ensures r == b.(moveY := r.moveY)
    ensures b.y >= BoardHeight - b.height ==> r.moveY == Up
    ensures b.y <= 0.0 && b.y < BoardHeight - b.height ==> r.moveY == Down
    ensures 0.0 < b.y < BoardHeight - b.height ==> r == b
  {
    var top := if b.y <= 0.0 then b.(moveY := Down) else b;
    if top.y >= BoardHeight - top.height then top.(moveY := Up) else top
  }

  /** Step 3, first half: move the player's paddle by its intent. */
  function Steer(p: Paddle): (r: Paddle)
    ensures r == p.(y := p.y + VerticalStep(p.move) * p.speed)
  {
    if p.move == Down then p.(y := p.y + p.speed)
    else if p.move == Up then p.(y := p.y - p.speed)
    else p
  }

  /** Steps 3 and 6, second half: keep a paddle on the board. */
  function Clamp(p: Paddle): (r: Paddle)
    ensures r == p.(y := r.y)
    ensures p.height <= BoardHeight ==>
              InBounds(r) && r.y == Max(0.0, Min(p.y, BoardHeight - p.height))
  {
    if p.y < 0.0 then p.(y := 0.0)
    else if p.y >= BoardHeight - p.height then p.(y := BoardHeight - p.height)
    else p
  }

  /** Step 4: once the delay has elapsed and a target is set, launch the ball
      toward the target from mid-height, up or down by the coin (the index
      Math.round(Math.random()) into [UP, DOWN]: true is 1, DOWN). */
  function Serve(s: State, now: int, coin: bool): (r: State)
    ensures AddADelay(s.delayAmount, now) && s.targetForBall.Some? ==>
              r == s.(ball := r.ball, targetForBall := None)
              && r.ball == s.ball.(moveX := r.ball.moveX, moveY := r.ball.moveY, y := r.ball.y)
              && (r.ball.moveX == Left <==> s.targetForBall == Some(Player))
              && r.ball.moveX in {Left, Right}
              && (r.ball.moveY == Down <==> coin) && r.ball.moveY in {Up, Down}
              && r.ball.y == BoardHeight / 2.0
    ensures !(AddADelay(s.delayAmount, now) && s.targetForBall.Some?) ==> r == s
  {
    if AddADelay(s.delayAmount, now) && s.targetForBall.Some? then
      var aimed := s.ball.(moveX := if s.targetForBall == Some(Player) then Left else Right);
      var launched := aimed.(moveY := [Up, Down][if coin then 1 else 0]);
      s.(ball := launched.(y := BoardHeight / 2.0), targetForBall := None)
    else s
  }

  /** Step 5: move the ball by its speed along each axis independently. */
  function Translate(b: Ball): (r: Ball)
    ensures r == b.(x := b.x + HorizontalStep(b.moveX) * b.speed,
                    y := b.y + VerticalStep(b.moveY) * b.speed)
  {
    var vertical := if b.moveY == Up then b.(y := b.y - b.speed)
                    else if b.moveY == Down then b.(y := b.y + b.speed)
                    else b;
    if vertical.moveX == Left then vertical.(x := vertical.x - vertical.speed)
    else if vertical.moveX == Right then vertical.(x := vertical.x + vertical.speed)
    else vertical
  }

  /** Step 6, first half: the AI moves its top edge toward half a paddle above
      the ball. The second test reads the already moved y, so an upward step
      that overshoots the target is undone; the branch on the ball's
      horizontal direction takes the same action both ways. */
  function TrackAI(ai: Paddle, ballY: real, ballMoveX: Direction): (r: Paddle)
    ensures r == ai.(y := r.y)
    ensures var target := ballY - ai.height / 2.0;
            (ai.y < target ==> r.y == ai.y + ai.speed)
            && (ai.y > target && ai.y - ai.speed >= target ==> r.y == ai.y - ai.speed)
            && (ai.y > target && ai.y - ai.speed < target ==> r.y == ai.y)
            && (ai.y == target ==> r.y == ai.y)
  {
    var target := ballY - ai.height / 2.0;
    var up := if ai.y > target then
                if ballMoveX == Right then ai.(y := ai.y - ai.speed) else ai.(y := ai.y - ai.speed)
              else ai;
    if up.y < target then
      if ballMoveX == Right then up.(y := up.y + up.speed) else up.(y := up.y + up.speed)
    else up
  }

  /** The bounding-box test of the ball against a paddle. */
  predicate Hits(b: Ball, p: Paddle) {
    b.x - b.width <= p.x && b.x >= p.x - p.width
    && b.y <= p.y + p.height && b.y + b.height >= p.y
  }

  /** The ball after the player-paddle snap. */
  function PlayerSnap(s: State): Ball {
    if Hits(s.ball, s.player) then s.ball.(x := s.player.x + s.ball.width, moveX := Right) else s.ball
  }

  /** Step 7: snap the ball off the player's paddle, then test the moved ball
      against the AI paddle. */
  function Collide(s: State): (r: State)
    ensures r == s.(ball := r.ball)
    ensures r.ball == s.ball.(x := r.ball.x, moveX := r.ball.moveX)
    ensures s.player.x + s.ball.width < s.aiPlayer.x - s.aiPlayer.width ==>
              (Hits(s.ball, s.player) ==>
                 r.ball.x == s.player.x + s.ball.width && r.ball.moveX == Right)
              && (Hits(s.ball, s.aiPlayer) ==>
                    r.ball.x == s.aiPlayer.x - s.ball.width && r.ball.moveX == Left)
              && (!Hits(s.ball, s.player) && !Hits(s.ball, s.aiPlayer) ==> r == s)
  {
    var b := PlayerSnap(s);
    if Hits(b, s.aiPlayer)
    then s.(ball := b.(x := s.aiPlayer.x - b.width, moveX := Left))
    else s.(ball := b)
  }

  /** One Beep per paddle that the ball hits in step 7. */
  function CollideSounds(s: State): (sounds: seq<Sound>)
    ensures forall i :: 0 <= i < |sounds| ==> sounds[i] == Beep
    ensures s.player.x + s.ball.width < s.aiPlayer.x - s.aiPlayer.width ==>
              |sounds| == (if Hits(s.ball, s.player) || Hits(s.ball, s.aiPlayer) then 1 else 0)
  {
    (if Hits(s.ball, s.player) then [Beep] else [])
    + (if Hits(PlayerSnap(s), s.aiPlayer) then [Beep] else [])
  }

  /** Steps 1 to 6 of a frame on a match that is not over. */
  function BeforeCollisions(s: State, now: int, coin: bool): State {
    var scored := ScoringChecks(s, now);
    var bounced := scored.(ball := WallBounce(scored.ball));
    var steered := bounced.(player := Clamp(Steer(bounced.player)));
    var served := Serve(steered, now, coin);
    var moved := served.(ball := Translate(served.ball));
    moved.(aiPlayer := Clamp(TrackAI(moved.aiPlayer, moved.ball.y, moved.ball.moveX)))
  }

  /** A paddle that kept its size, its column and its speed. */
  predicate SameFrame(p: Paddle, q: Paddle) {
    p.width == q.width && p.height == q.height && p.x == q.x && p.speed == q.speed
  }

  /** Update: one frame of the game. */
  function Update(s: State, now: int, coin: bool): (r: State)
    ensures s.gameOver ==> r == s
    ensures !s.gameOver && s.player.height <= BoardHeight ==> InBounds(r.player)
    ensures !s.gameOver && s.aiPlayer.height <= BoardHeight ==> InBounds(r.aiPlayer)
    ensures s.player.score <= r.player.score && s.aiPlayer.score <= r.aiPlayer.score
    ensures Points(r) <= Points(s) + 1
    ensures r.ball.speed == s.ball.speed + SpeedIncrement * (Points(r) - Points(s)) as real
    ensures r.gameOver == s.gameOver && r.running == s.running
    ensures SameFrame(r.player, s.player) && r.player.move == s.player.move
    ensures SameFrame(r.aiPlayer, s.aiPlayer) && r.aiPlayer.move == s.aiPlayer.move
  {
    if s.gameOver then s else Collide(BeforeCollisions(s, now, coin))
  }

  /** The sounds a frame plays: the collision beeps. */
  function UpdateSounds(s: State, now: int, coin: bool): (sounds: seq<Sound>)
    ensures s.gameOver ==> sounds == []
    ensures forall i :: 0 <= i < |sounds| ==> sounds[i] == Beep
  {
    if s.gameOver then [] else CollideSounds(BeforeCollisions(s, now, coin))
  }

  /** The win check of the drawing routine: a side with WinningScore points
      ends the match; the flag is never cleared. */
  function CheckWin(s: State): (r: State)
    ensures r == s.(gameOver := r.gameOver)
    ensures r.gameOver <==> s.gameOver || s.player.score == WinningScore || s.aiPlayer.score == WinningScore
  {
    var afterPlayer := if s.player.score == WinningScore then s.(gameOver := true) else s;
    if afterPlayer.aiPlayer.score == WinningScore then afterPlayer.(gameOver := true) else afterPlayer
  }

  /** The drawing routine cheers whenever the player has won; an AI win is silent. */
  function CheckWinSounds(s: State): (sounds: seq<Sound>)
    ensures sounds == [Cheer] <==> s.player.score == WinningScore
    ensures sounds == [] <==> s.player.score != WinningScore
  {
    if s.player.score == WinningScore then [Cheer] else []
  }

  /** One animation frame: Update, then the win check. */
  function Tick(s: State, now: int, coin: bool): (r: State)
    ensures s.gameOver ==> r == s
    ensures r.gameOver <==> s.gameOver || r.player.score == WinningScore || r.aiPlayer.score == WinningScore
  {
    CheckWin(Update(s, now, coin))
  }

  function TickSounds(s: State, now: int, coin: bool): seq<Sound> {
    UpdateSounds(s, now, coin) + CheckWinSounds(Update(s, now, coin))
  }

  /** The movement intent a key press gives: arrow up, W and numpad 8 mean up;
      arrow down, S and numpad 5 mean down; any other key keeps the intent. */
  function KeyIntent(move: Direction, keyCode: int): (r: Direction)
    ensures keyCode in {38, 87, 104} ==> r == Up
    ensures keyCode in {40, 83, 101} ==> r == Down
    ensures keyCode !in {38, 87, 104, 40, 83, 101} ==> r == move
  {
    var afterUp := if keyCode == 38 || keyCode == 87 || keyCode == 104 then Up else move;
    if keyCode == 40 || keyCode == 83 || keyCode == 101 then Down else afterUp
  }

  /** A key press: the first one starts the game loop, every one may set the intent. */
  function KeyDown(s: State, keyCode: int): (r: State)
    ensures r.running
    ensures r == s.(running := r.running, player := s.player.(move := KeyIntent(s.player.move, keyCode)))
  {
    var started := if !s.running then s.(running := true) else s;
    started.(player := started.player.(move := KeyIntent(started.player.move, keyCode)))
  }

  /** A key release stops the player's paddle. */
  function KeyUp(s: State): (r: State)
    ensures r.player.move == Stopped
    ensures r == s.(player := r.player) && r.player == s.player.(move := r.player.move)
  {
    s.(player := s.player.(move := Stopped))
  }
}
