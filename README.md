# Flappy Bird game state, verified

This project models the game logic of a small Swing Flappy Bird game. A bird
falls under gravity. The player makes it jump with Space or Up. Pairs of pipes
appear at the right edge and drift left. A collision with a pipe, or a fall
below the bottom edge, ends the game. R then starts a new game.

The model has three modules:

- `Entities` (`entities.dfy`) holds the board, bird and pipe constants from
  the top of `FlappyBird`. It also holds the `Bird` and `Pipe` records as
  datatypes and the rectangle-overlap test `Collision`.
- `Rules` (`rules.dfy`) holds the controller's state as one value,
  `Session`. It has one function per event: `Tick` (`move`), `Reset`
  (`resetGame`), `Spawn` (`placePipes`), `OnKey` (`keyPressed`) and
  `OnAction` (`actionPerformed`). It also has the state invariant `Inv`, the
  timer/game-over state machine `TimersInStep`, and the lemmas about all of
  these.
- `Game` (`game.dfy`) holds the class `FlappyBird`. Its fields mirror the
  controller: `bird`, `velocityY`, `pipes`, `gameOver`, `result`, and
  `running` in place of the two Swing timers. Each method is proved to change
  the fields exactly as the matching `Rules` function says, and to keep
  `Inv`. `Move` shifts the pipes in place with a loop, as the source does.

The two timers are always started and stopped together, so one `running`
flag stands for both. The pipe-spawn timer calls `placePipes`; in the model
that is `PlacePipes(off)`. The game-loop timer calls `actionPerformed`; in
the model that is `ActionPerformed()`.

The random offset of the top pipe is the parameter `off` of `PlacePipes`.
The source computes it as `(int)(0 - 512/4 - Math.random() * 512/2)` in
double arithmetic. In exact arithmetic that gives the range -383 to -128
after the cast truncates toward zero. `Math.random()` is documented to
return any double in [0, 1). For its largest such value, 1 - 2^-53, the
double sum is -384 + 2^-45. That sum is a rounding tie, and it rounds to
-384.0 exactly, so the cast would return -384. OpenJDK's generator never
returns 1 - 2^-53, so the running program only produces -383 to -128. The
model admits `MinPipeY` = -384 to `MaxPipeY` = -128, the range the documented
contract of `Math.random()` allows. That is one value wider than what the
program yields, and every lemma holds over the wider range.

## Model

| member | source | states |
|---|---|---|
| `Entities.Collision` | src/FlappyBird.java:179-184 | The bird and the pipe collide exactly when they are not separated along either axis. Rectangles that only share an edge do not collide. |
| `Entities.CollisionIffSharedCell` | src/FlappyBird.java:179-184 | For rectangles of positive size, the strict-inequality test holds exactly when some grid cell lies inside both rectangles. |
| `Rules.Shifted` | src/FlappyBird.java:149-151 | The shifted list has the same length. Pipe `i` is the old pipe `i` with `x` moved by `VelocityX` (-4) and every other field unchanged. |
| `Rules.TickScoreAndSpeed` | src/FlappyBird.java:141-144 | A tick raises the score by exactly 1 and `velocityY` by exactly 1 (`gravity`), whatever the pipes do. It leaves the timers alone. |
| `Rules.TickMovesBird` | src/FlappyBird.java:144-146 | After a tick, `bird.y == max(old bird.y + new velocityY, 0)`, so `bird.y >= 0`. The bird's `x`, width and height are unchanged. |
| `Rules.TickShiftsPipes` | src/FlappyBird.java:148-151 | A tick keeps the pipe count and order. Each pipe's `x` drops by exactly 4. Its `y`, width, height, image and `passed` flag are unchanged. |
| `Rules.TickGameOver` | src/FlappyBird.java:153-162 | After a tick, `gameOver` holds exactly when it held before, or the moved bird collides with some pipe at its shifted position, or `bird.y > 640`. |
| `Rules.ShiftedPaired` | src/FlappyBird.java:149-151 | Shifting keeps the pipe list a sequence of top/bottom pairs: both pipes of a pair drift together. |
| `Rules.TickKeepsInv` | src/FlappyBird.java:139-163 | A tick keeps the invariant: bird in its column with its size and `y >= 0`, score non-negative, pipes a list of well-formed pairs. |
| `Rules.TicksScoreAndSpeed` | src/FlappyBird.java:141-144 | After `n` ticks, the score and `velocityY` have each risen by exactly `n`. A game that was over is still over. |
| `Rules.FreeFall` | src/FlappyBird.java:143-146 | A bird at `y >= 0` with speed `v >= 0` and no jump has, after `n` ticks, speed `v + n` and `y` increased by `n*v + n*(n+1)/2`. |
| `Rules.FreeFallEndsGame` | src/FlappyBird.java:159-162 | A bird at `y >= 0` that is not rising, with no jump, ends the game within 36 ticks. The game stays over at every later tick. |
| `Rules.PipePairIsPair` | src/FlappyBird.java:186-197 | A spawned pair is two pipes at `x == 360`: a top pipe with `y == off` and a bottom pipe with `y == off + 512 + 160`. Both have size 64×512 and are not passed. |
| `Rules.PairedAppend` | src/FlappyBird.java:190-196 | Appending a spawned pair keeps the pipe list a sequence of well-formed pairs. |
| `Rules.SpawnAppendsPair` | src/FlappyBird.java:186-197 | Spawning appends exactly two pipes. The earlier pipes and all other state are unchanged, and the invariant is kept. |
| `Rules.JumpSetsSpeed` | src/FlappyBird.java:202-204 | Space or Up sets `velocityY` to exactly -12, whatever it was, and changes nothing else. |
| `Rules.RestartIsNewGame` | src/FlappyBird.java:205-209 | R on a finished game gives the initial state: score 0, not over, no pipes, speed 0, bird at (45, 320), timers running. |
| `Rules.OtherKeysIgnored` | src/FlappyBird.java:200-210 | R while the game is not over, and any key other than Space, Up and R, change nothing. |
| `Rules.OnActionIsTickThenStop` | src/FlappyBird.java:213-219 | The game-loop event is one tick, then the timers stop if the game is over. If it is not over, the timers are left as they were. |
| `Rules.CollisionStopsTimers` | src/FlappyBird.java:149-156 | A pipe that overlaps the bird after this tick's moves ends the game on this tick and stops both timers. |
| `Rules.EventsKeepInv` | src/FlappyBird.java:200-219 | The initial state satisfies the invariant, and the game-loop event, any key press and any in-range spawn keep it. |
| `Rules.EventsKeepTimersInStep` | src/FlappyBird.java:200-219 | The timers run exactly while the game is not over. This holds initially and every event keeps it. |
| `Game.FlappyBird.constructor` | src/FlappyBird.java:73-101 | A new controller is in the initial state: bird at (45, 320), speed 0, no pipes, score 0, not over, timers running. |
| `Game.FlappyBird.Move` | src/FlappyBird.java:139-164 | The new fields are `Tick` of the old ones. The loop shifts each pipe in place and flags a collision with it. The invariant is kept. |
| `Game.FlappyBird.ResetGame` | src/FlappyBird.java:166-177 | The new fields are `Reset` of the old ones: fresh bird, speed 0, no pipes, score 0, not over. The timers are untouched. |
| `Game.FlappyBird.PlacePipes` | src/FlappyBird.java:186-198 | The new fields are `Spawn` of the old ones: a top/bottom pair is appended. The invariant is kept. |
| `Game.FlappyBird.KeyPressed` | src/FlappyBird.java:200-210 | The new fields are `OnKey` of the old ones: a jump, or a restart of a finished game with the timers started. |
| `Game.FlappyBird.ActionPerformed` | src/FlappyBird.java:212-220 | The new fields are `OnAction` of the old ones: one tick, then the timers stop if the game is over. |

## Left out

- Rendering (`paintComponent`, `draw`, fonts, colours, `repaint`) only reads the state. It is not modelled.
- Image loading in the constructor is resource I/O. The bird's image is dropped. A pipe's image is kept only as the tag `TopPipeImg` or `BottomPipeImg`.
- Swing timer scheduling and event delivery are left out. The two timers are one `running` flag, which `ActionPerformed` clears and `KeyPressed` sets. The host toolkit serialises all callbacks, so each method runs as one step. The model does not tie event delivery to the timers: `ActionPerformed` and `PlacePipes` may run whatever `running` is, so the freeze of a finished game until R is not expressed. Every lemma holds in every state, stopped or not.
- `Math.random()` and the double arithmetic of `placePipes` are left out. The truncated offset is the parameter `off`, limited to -384 to -128. That is the range the expression gives for any value in `Math.random()`'s documented range [0, 1). It is one value wider than the -383 to -128 that OpenJDK's generator actually yields.
- Game.FlappyBird.Move: `result`, `velocityY` and each pipe's `x` are unbounded integers, so Java's 32-bit wrap-around after very long sessions is not modelled. The same holds for `Rules.Tick`, `Rules.Shifted` and the lemmas about them.
- Rules.Shifted: the first value to wrap in Java is a pipe's `x`. Pipes are never removed, and each tick subtracts 4 from every one. After about 5.4×10^8 ticks the oldest pipe's `x` passes -2^31 and wraps to about +2^31, then drifts left again. About 5.4×10^8 ticks later it can reach the bird's column, and `Collision` can end the game on it. In the model that pipe stays far to the left and never collides again. `result` needs about four times as many ticks to wrap. `velocityY` cannot wrap while the timers run: a bird that is not rising leaves the board within 36 ticks (`Rules.FreeFallEndsGame`), and the timers then stop.
- `Bird` and `Pipe` are Java objects updated in place. Here they are values inside the controller's fields. Only the controller refers to them, so no aliasing is lost.
- The board and sprite sizes are instance fields in the source that are never reassigned. Here they are module constants.
- The no-op handlers `keyTyped` and `keyReleased` are not modelled.
