# Pong match engine in Dafny

A model of the one piece of logic in the browser Pong game `pong.js`: the
per-frame update of a two-paddle match (the human player on the left, an AI
paddle on the right), the scoring transition that re-serves a faster ball,
the timed serve, the win check that ends the match at two points, and the
keyboard handlers that set the player's movement intent.

- `game_state.dfy` (module `GameState`): the `DIRECTION` lookup as the
  datatype `Direction`, the `Paddle` and `Ball` records, the board constants
  (1400 × 700), the two constructors and the match record `State`, which
  gathers the globals `player`, `aiPlayer`, `ball`, `targetForBall`,
  `delayAmount`, `gameOver` and `running`.
- `engine.dfy` (module `Engine`): one frame as pure functions, one per step
  of `Update` in its order (scoring, wall bounce, player motion and clamp,
  serve, ball translation, AI tracking and clamp, the two collision snaps),
  plus `ResetBall`, `AddADelay`, the win check, and the key mapping. Their
  `ensures` clauses state what each step does.
- `match.dfy` (module `Match`): a match as a run of browser events (frames,
  key presses, key releases), the invariant every reachable state keeps, the
  phases (serving, in play, game over) read off the game's fields, and the
  lemmas over whole runs.
- `pong.dfy` (module `Pong`): class `Game` whose fields are the globals. Its
  methods change them in place, step by step, as the game does. Each is
  proved equal to the matching `Engine` function.

Impure inputs are parameters. The wall clock (`new Date().getTime()`) is
`now: int`, one value per frame, used both by the scoring reset and by the
serve test of that frame. `Math.round(Math.random())` is `coin: bool`: `true`
is index 1 of `[UP, DOWN]`, so DOWN. A sound played by the page is returned
as an event: `Beep` per paddle hit, `Cheer` when the drawing routine sees a
player win.

Points where the code behaves differently from what one might expect, which
the model keeps:
- The win check is not part of the scoring transition. It runs in the drawing
  routine after `Update`, so the frame that scores the winning point runs to
  its end. `Tick` is `Update` followed by `CheckWin`, as `GameLoop` does.
- There is no phase field. The phase is derived. The match is over when
  `gameOver` is set. A serve is pending when `targetForBall` is set.
  Otherwise the ball is in play.
- The AI test for moving down re-reads the y that the up-test may already
  have changed. An upward step that would pass the target is undone in the
  same frame, so the paddle holds instead of moving up. It does not oscillate
  around the target (in exact arithmetic).
- The serve delay compares against the time of the last score
  (`now - delayAmount >= 1000`), not against a stored deadline.

## Model

| member | source | states |
|---|---|---|
| GameState.NewPaddle | pong.js:17-33 | a new paddle has its top-left corner at mid-height (y = 350), on the board and stationary with no score; it is 15 × 65 with speed 11; the player's paddle stands 150 from the left edge and the AI's 150 from the right edge |
| GameState.NewBall | pong.js:36-50 | a new 15 × 15 ball is at rest with its top-left corner at the middle of the board (700, 350) with the given speed, strictly between both scoring lines and both walls |
| Match.InitialMatch | pong.js:75-90 | the setup state keeps the match invariant, serves to the player first, has no points, has not started the loop, and delays the serve from the load time |
| Engine.NoServeAtScoreTime | pong.js:303-305 | states what Engine.AddADelay guarantees: a delay restarted at `now` is not yet elapsed at `now`, so a point is never served in the frame that scores it |
| Engine.ServeStaysDue | pong.js:303-305 | states what Engine.AddADelay guarantees: once the serve delay has elapsed it stays elapsed at every later time; it elapses exactly 1000 ms after the score and not one millisecond earlier |
| Engine.ResetBall | pong.js:295-301 | the winner gains exactly one point and the loser's paddle is unchanged; the ball is recentred and stopped on both axes with speed raised by 0.2; the serve is aimed at the loser; the delay restarts at `now`; the flags are untouched |
| Engine.ScoringChecks | pong.js:150-157 | ball at or past the left edge means the AI scores; at or past the right scoring line the player scores; between them nothing changes; at most one point per frame |
| Engine.WallBounce | pong.js:160-165 | only moveY changes; touching the bottom wall gives UP, which takes precedence; touching only the top wall gives DOWN; away from both nothing changes |
| Engine.Steer | pong.js:169-173 | the paddle moves by exactly its speed in the direction of its intent; any other intent leaves it in place |
| Engine.Clamp | pong.js:176-180 | only y changes; a paddle no taller than the board ends inside [0, 700 − height] at the point of that range nearest its old y |
| Engine.Serve | pong.js:185-196 | when the delay has elapsed and a target is set: moveX is LEFT exactly when the target is the player; moveY is DOWN exactly when the coin is 1; the ball is at mid-height; the target is cleared; nothing else changes; otherwise the state is unchanged |
| Engine.Translate | pong.js:199-208 | the ball moves by exactly ± speed on each axis independently as its directions ask; a stopped (or foreign) direction leaves that axis alone |
| Engine.TrackAI | pong.js:211-225 | with target = ball.y − height/2: below the target the AI moves down by speed; above it by at least speed it moves up by speed; above it by less than speed, or on it, it stays; the ball's horizontal direction has no effect |
| Engine.Collide | pong.js:240-258 | only the ball's x and moveX change; with the paddles apart, a player hit snaps the ball to player.x + width heading RIGHT, an AI hit snaps it to aiPlayer.x − width heading LEFT, and no hit leaves the state unchanged |
| Engine.CollideSounds | pong.js:243-257 | one beep per paddle hit, and with the paddles apart exactly one beep when the ball touches a paddle |
| Engine.Update | pong.js:147-261 | a finished match is left unchanged; otherwise both paddles end on the board, no score decreases, at most one point is scored, and the ball's speed grows by exactly 0.2 per point scored and otherwise stays; flags, paddle sizes, columns, speeds and intents are untouched |
| Engine.UpdateSounds | pong.js:147-261 | a finished match plays nothing; a frame plays only beeps |
| Engine.CheckWin | pong.js:131-141 | only gameOver changes; it is set exactly when either side has 2 points, and it is never cleared |
| Engine.CheckWinSounds | pong.js:132-134 | the drawing cheers exactly when the player has 2 points; an AI win is silent |
| Engine.Tick | pong.js:287-292 | a finished match stays unchanged; after the frame the match is over exactly when it already was or a side now has 2 points |
| Engine.KeyIntent | pong.js:271-275 | key codes 38, 87 and 104 give UP; 40, 83 and 101 give DOWN; any other key keeps the intent |
| Engine.KeyDown | pong.js:265-276 | a key press sets running and the intent by the key; nothing else changes |
| Engine.KeyUp | pong.js:280-282 | a key release stops the player's paddle and changes nothing else |
| Match.WaitingBallStays | pong.js:185-196 | while a serve is pending and not yet due, the ball, the target and the delay survive the frame unchanged |
| Match.PhaseAfterFrame | pong.js:147-261 | after a frame that does not start with a serve pending and not yet due, a pending serve means a stopped ball in the middle, and play means the ball moves on both axes |
| Match.TickKeepsInv | pong.js:287-292 | a frame of the game loop keeps the match invariant |
| Match.RunKeepsInv | pong.js:287-292 | any run of frames and key events keeps the match invariant |
| Match.ReachableInv | pong.js:147-261 | in every reachable state: both paddles are on the board; scores stop at 2; the match is over exactly when one side has 2, never both; ball speed is 7 + 0.2 × points scored; a pending serve means a stopped ball in the middle |
| Match.PhaseTransitions | pong.js:182-196 | a frame takes a pending serve only to serving or to play, never straight to game over, and a finished match stays finished |
| Match.FramesAfterGameOver | pong.js:148 | once the match is over, any number of frames change no field at all |
| Match.GameOverIsFinal | pong.js:147-148 | once the match is over, under any events only the player's intent and the loop flag can change; scores, ball, AI, target and delay are frozen |
| Match.ScoresNeverDecrease | pong.js:295-298 | over any run of events no score and no ball speed decreases |
| Match.ScoringFrame | pong.js:150-157 | a frame starting with the ball at or past the left edge gives the AI one point (right scoring line: the player). The frame ends with a new ball waiting in the middle, its speed raised by 0.2, the serve aimed at the paddle that conceded, and the delay started at `now` |
| Match.ServeFrame | pong.js:185-208 | a due serve launches the ball toward the paddle that conceded, vertically by the coin, from the centre, and moves it one step in the same frame; no point is scored |
| Match.StoppedBallStays | pong.js:199-208 | a centred ball in play with both directions stopped does not move in a frame (a scenario the game itself never reaches) |
| Match.AtMostOneBeep | pong.js:240-258 | with the game's geometry a frame plays at most one beep |
| Pong.Game.constructor | pong.js:69-90 | the setup state: constructed paddles and ball, the AI slowed to 6.5, the serve aimed at the player, the delay from `now`; it keeps the match invariant |
| Pong.Game.ResetBall | pong.js:295-301 | the in-place scoring transition equals Engine.ResetBall: one point for the winner, ball speed +0.2, target is the loser, delay restarts |
| Pong.Game.Update | pong.js:147-261 | the in-place frame equals Engine.Update, with the beeps of Engine.UpdateSounds; a finished match is untouched; the paddles end on the board |
| Pong.Game.ScoringChecks | pong.js:150-157 | the in-place scoring checks equal Engine.ScoringChecks |
| Pong.Game.BounceOffWalls | pong.js:160-165 | the in-place wall bounce equals Engine.WallBounce on the ball |
| Pong.Game.MovePlayer | pong.js:169-180 | the in-place player motion equals Engine.Steer then Engine.Clamp |
| Pong.Game.ServeIfDue | pong.js:185-196 | the in-place serve equals Engine.Serve |
| Pong.Game.MoveBall | pong.js:199-208 | the in-place translation equals Engine.Translate |
| Pong.Game.MoveAI | pong.js:211-232 | the in-place AI tracking equals Engine.TrackAI then Engine.Clamp |
| Pong.Game.Collide | pong.js:240-258 | the in-place collision snaps equal Engine.Collide, with one beep per hit |
| Pong.Game.CheckWin | pong.js:131-141 | the in-place win check equals Engine.CheckWin and cheers on a player win |
| Pong.Game.GameLoop | pong.js:287-292 | a frame is Update then the win check; another frame is requested exactly while the match is not over; the match invariant is kept |
| Pong.Game.MovePlayerPaddle | pong.js:265-276 | the key-press handler equals Engine.KeyDown and starts the loop exactly on the first press |
| Pong.Game.StopPlayerPaddle | pong.js:280-282 | the key-release handler equals Engine.KeyUp: the intent becomes STOPPED |

## Left out

- Canvas drawing (board, paddles, ball, score text, win banner): presentation
  only. Only the win check of the drawing routine is modelled.
- Playing sounds: foreign browser calls. They are returned as `Sound` events.
- Page bootstrap (element lookup, asset wiring, listener registration): only
  the initial values it sets are modelled, in `Initial` and the `Game`
  constructor.
- `requestAnimationFrame` scheduling: the browser's event loop. A frame is an
  explicit call, and `GameLoop` and `MovePlayerPaddle` return whether they
  would request one. `Match.Run` accepts frames in any order with the key
  events. That includes orders the browser never produces, so the
  lemmas over runs cover more than the real schedules.
- The wall clock and `Math.random`: replaced by the parameters `now` and
  `coin`. One `now` serves the whole frame. In the page, the scoring reset and
  the serve test read the clock separately, microseconds apart.
- IEEE-754 rounding: positions and speeds are `real`. In particular, an AI step
  up then down returns exactly to the old y, and the speed after n points is
  exactly 7 + 0.2·n.
- The call to `AddADelay()` inside the drawing routine: its result is
  discarded, so it has no effect.
- Object identity: paddles and the ball are values held in the fields of
  `Game`. The aliases of the game — `targetForBall` pointing at a paddle,
  and the `winner` and `loser` parameters of `ResetBall`, through which
  `winner.score++` updates a global paddle — are each the `Side` they point at.
