/** The game as the page runs it: one object whose fields are the globals of
    the game, changed in place by the frame update, the scoring transition,
    the win check and the keyboard handlers. Each method is proved to do what
    the matching Engine function says. */
module Pong {
  import opened GameState
  import Engine
  import Match

  class Game {
    var player: Paddle
    var aiPlayer: Paddle
    var ball: Ball
    var targetForBall: Option<Side>
    var delayAmount: int
    var gameOver: bool
    var running: bool

    /** The fields of the game as one value. */
    function Snapshot(): State
      reads this
    {
      State(player, aiPlayer, ball, targetForBall, delayAmount, gameOver, running)
    }

    /** SetupCanvas without the page: paddles and ball as constructed, the AI
        slowed down, the first serve aimed at the player and delayed from `now`. */
    constructor (now: int)
      ensures Snapshot() == Initial(now)
      ensures Match.Inv(Snapshot()) && Match.PhaseOf(Snapshot()) == Match.Serving
    {
      player := NewPaddle(Player);
      aiPlayer := NewPaddle(AI);
      ball := NewBall(InitialBallSpeed);
      targetForBall := Some(Player);
      delayAmount := now;
      gameOver := false;
      running := false;
      new;
      aiPlayer := aiPlayer.(speed := AISpeed);
      Match.InitialMatch(now);
    }

    /** The scoring transition. */
    method ResetBall(winner: Side, now: int)
      modifies this
      ensures Snapshot() == Engine.ResetBall(old(Snapshot()), winner, now)
      ensures Points(Snapshot()) == Points(old(Snapshot())) + 1
      ensures ball.speed == old(ball.speed) + SpeedIncrement
      ensures targetForBall == Some(Engine.Other(winner)) && delayAmount == now
    {
      if winner == Player {
        player := player.(score := player.score + 1);
      } else {
        aiPlayer := aiPlayer.(score := aiPlayer.score + 1);
      }
      var newBallSpeed := ball.speed + SpeedIncrement;
      ball := NewBall(newBallSpeed);
      targetForBall := Some(Engine.Other(winner));
      delayAmount := now;
    }

    /** One frame of the game, step by step; `sounds` are the paddle beeps. */
    method Update(now: int, coin: bool) returns (sounds: seq<Sound>)
      modifies this
      ensures Snapshot() == Engine.Update(old(Snapshot()), now, coin)
      ensures sounds == Engine.UpdateSounds(old(Snapshot()), now, coin)
      ensures !old(gameOver) && old(player.height) <= BoardHeight ==> InBounds(player)
      ensures !old(gameOver) && old(aiPlayer.height) <= BoardHeight ==> InBounds(aiPlayer)
      ensures old(gameOver) ==> Snapshot() == old(Snapshot())
    {
      sounds := [];
      if !gameOver {
        ScoringChecks(now);
        BounceOffWalls();
        MovePlayer();
        ServeIfDue(now, coin);
        MoveBall();
        MoveAI();
        assert Snapshot() == Engine.BeforeCollisions(old(Snapshot()), now, coin);
        sounds := Collide();
      }
    }

    /** Step 1 of a frame: the ball past the left edge scores for the AI, past
        the right edge for the player. */
    method ScoringChecks(now: int)
      modifies this
      ensures Snapshot() == Engine.ScoringChecks(old(Snapshot()), now)
    {
      if ball.x <= 0.0 {
        ResetBall(AI, now);
      }
      if ball.x >= BoardWidth - ball.width {
        ResetBall(Player, now);
      }
    }

    /** Step 2: the top and bottom walls. */
    method BounceOffWalls()
      modifies this
      ensures Snapshot() == old(Snapshot()).(ball := Engine.WallBounce(old(ball)))
    {
      if ball.y <= 0.0 {
        ball := ball.(moveY := Down);
      }
      if ball.y >= BoardHeight - ball.height {
        ball := ball.(moveY := Up);
      }
    }

    /** Step 3: the player's paddle by its intent, kept on the board. */
    method MovePlayer()
      modifies this
      ensures Snapshot() == old(Snapshot()).(player := Engine.Clamp(Engine.Steer(old(player))))
    {
      if player.move == Down {
        player := player.(y := player.y + player.speed);
      } else if player.move == Up {
        player := player.(y := player.y - player.speed);
      }
      if player.y < 0.0 {
        player := player.(y := 0.0);
      } else if player.y >= BoardHeight - player.height {
        player := player.(y := BoardHeight - player.height);
      }
    }

    /** Step 4: the timed serve. */
    method ServeIfDue(now: int, coin: bool)
      modifies this
      ensures Snapshot() == Engine.Serve(old(Snapshot()), now, coin)
    {
      if Engine.AddADelay(delayAmount, now) && targetForBall.Some? {
        ball := ball.(moveX := if targetForBall == Some(Player) then Left else Right);
        ball := ball.(moveY := [Up, Down][if coin then 1 else 0]);
        ball := ball.(y := BoardHeight / 2.0);
        targetForBall := None;
      }
    }

    /** Step 5: the ball along each axis. */
    method MoveBall()
      modifies this
      ensures Snapshot() == old(Snapshot()).(ball := Engine.Translate(old(ball)))
    {
      if ball.moveY == Up {
        ball := ball.(y := ball.y - ball.speed);
      } else if ball.moveY == Down {
        ball := ball.(y := ball.y + ball.speed);
      }
      if ball.moveX == Left {
        ball := ball.(x := ball.x - ball.speed);
      } else if ball.moveX == Right {
        ball := ball.(x := ball.x + ball.speed);
      }
    }

    /** Step 6: the AI's paddle follows the ball, kept on the board. */
    method MoveAI()
      modifies this
      ensures Snapshot() == old(Snapshot()).(aiPlayer :=
                Engine.Clamp(Engine.TrackAI(old(aiPlayer), old(ball.y), old(ball.moveX))))
    {
      var target := ball.y - aiPlayer.height / 2.0;
      if aiPlayer.y > target {
        if ball.moveX == Right {
          aiPlayer := aiPlayer.(y := aiPlayer.y - aiPlayer.speed);
        } else {
          aiPlayer := aiPlayer.(y := aiPlayer.y - aiPlayer.speed);
        }
      }
      if aiPlayer.y < target {
        if ball.moveX == Right {
          aiPlayer := aiPlayer.(y := aiPlayer.y + aiPlayer.speed);
        } else {
          aiPlayer := aiPlayer.(y := aiPlayer.y + aiPlayer.speed);
        }
      }
      if aiPlayer.y < 0.0 {
        aiPlayer := aiPlayer.(y := 0.0);
      } else if aiPlayer.y >= BoardHeight - aiPlayer.height {
        aiPlayer := aiPlayer.(y := BoardHeight - aiPlayer.height);
      }
    }

    /** Step 7: the two paddle collisions, each with its beep. */
    method Collide() returns (sounds: seq<Sound>)
      modifies this
      ensures Snapshot() == Engine.Collide(old(Snapshot()))
      ensures sounds == Engine.CollideSounds(old(Snapshot()))
    {
      sounds := [];
      if Engine.Hits(ball, player) {
        ball := ball.(x := player.x + ball.width, moveX := Right);
        sounds := sounds + [Beep];
      }
      if Engine.Hits(ball, aiPlayer) {
        ball := ball.(x := aiPlayer.x - ball.width, moveX := Left);
        sounds := sounds + [Beep];
      }
    }

    /** The win check of the drawing routine; `sounds` is the cheer for a player win. */
    method CheckWin() returns (sounds: seq<Sound>)
      modifies this
      ensures Snapshot() == Engine.CheckWin(old(Snapshot()))
      ensures sounds == Engine.CheckWinSounds(old(Snapshot()))
      ensures gameOver <==> old(gameOver) || player.score == WinningScore || aiPlayer.score == WinningScore
    {
      sounds := [];
      if player.score == WinningScore {
        sounds := [Cheer];
        gameOver := true;
      }
      if aiPlayer.score == WinningScore {
        gameOver := true;
      }
    }

    /** One animation frame: update, then the win check of the drawing; the
        loop asks for another frame exactly while the match is not over. */
    method GameLoop(now: int, coin: bool) returns (sounds: seq<Sound>, scheduleNext: bool)
      modifies this
      ensures Snapshot() == Engine.Tick(old(Snapshot()), now, coin)
      ensures sounds == Engine.TickSounds(old(Snapshot()), now, coin)
      ensures scheduleNext <==> !gameOver
      ensures old(Match.Inv(Snapshot())) ==> Match.Inv(Snapshot())
    {
      ghost var s := Snapshot();
      if Match.Inv(s) {
        Match.TickKeepsInv(s, now, coin);
      }
      var beeps := Update(now, coin);
      var cheer := CheckWin();
      sounds := beeps + cheer;
      scheduleNext := !gameOver;
    }

    /** The key-press handler; `startLoop` is whether it starts the game loop. */
    method MovePlayerPaddle(keyCode: int) returns (startLoop: bool)
      modifies this
      ensures Snapshot() == Engine.KeyDown(old(Snapshot()), keyCode)
      ensures startLoop <==> !old(running)
      ensures running
    {
      startLoop := false;
      if !running {
        running := true;
        startLoop := true;
      }
      if keyCode == 38 || keyCode == 87 || keyCode == 104 {
        player := player.(move := Up);
      }
      if keyCode == 40 || keyCode == 83 || keyCode == 101 {
        player := player.(move := Down);
      }
    }

    /** The key-release handler: any released key stops the player's paddle. */
    method StopPlayerPaddle()
      modifies this
      ensures Snapshot() == Engine.KeyUp(old(Snapshot()))
      ensures player.move == Stopped
    {
      player := player.(move := Stopped);
    }
  }
}
