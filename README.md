# Dice game turn engine

A Dafny model of the turn engine inside the `DiceGame` React component (`src/App.tsx`). The game
is for 1 to 4 players. Each Roll Dice press draws a face 1..6. The face value is added to the
current player's score and recorded in a roll history: newest first, at most five entries. The
first player whose score reaches the target wins. Otherwise the turn passes to the next seat,
wrapping after the last one. End Game and Play Again go back to the setup screen.

Layout:

- `game_state.dfy` (module `GameState`): the state as a value (`Game`) and the phases
  `Setup | Playing | Won`. It also holds the invariant `WellFormed` that every reachable state keeps:
  - a winner exists exactly when the phase is `Won`, and the winner is the seat whose turn it is;
  - while playing, there is one score per player and no score has reached the target;
  - the setup screen holds four score slots;
  - the history has at most five entries.
- `roll_history.dfy` (module `RollHistory`): the prepend-and-slice history update and what a run
  of rolls leaves in it.
- `turn_engine.dfy` (module `TurnEngine`): the handlers as functions on `Game`. `Initial`, `Start`
  and `Reset` model the handlers of the same names. The roll is split in two: `Begin` is the guard
  and the `rolling` latch, and `Resolve` is the end of the animation. `Turn`/`Turns` model presses of
  Roll Dice. This module also proves what runs of rolls do.
- `dice_game.dfy` (module `DiceGameComponent`): class `DiceGame`, with the component's state
  fields and one method per handler. Each game handler (`StartGame`, `ResetGame`, `BeginRoll`,
  `CompleteRoll`) is proved to move `State()` exactly as the matching `TurnEngine` function does;
  each setup-screen setter (`SelectPlayers`, `EditName`, `SelectTarget`) changes its own field and
  nothing else.
- `dice_faces.dfy` (module `DiceFaces`): the pip-position table used to draw the die faces.

The die value drawn with `Math.random` is a parameter (`result`, 1..6) of the completing step.
The roll is modelled as atomic on the current state; see "Left out" for the one interleaving
where this differs from the source.

Three behaviours of the code that a reader might not expect, which the model keeps:

- `startGame` itself sets nothing about the `rolling` latch.
- A blank player name is kept as typed. "Player N" is only the placeholder of the input box.
- `resetGame` always installs four zero scores, whatever the number of players.

## Model

| member | source | states |
|---|---|---|
| `TurnEngine.Initial` | src/App.tsx:12-21 | the initial state is the setup screen: 2 players, names "Player 1".."Player 4", target 50, four zero scores, no roll, no winner, latch clear; it is well formed |
| `DiceGameComponent.DiceGame.constructor` | src/App.tsx:12-21 | the component's fields start as `Initial` |
| `TurnEngine.Start` | src/App.tsx:290-299 | from any well-formed state: playing, seat 0, one zero score per configured player, empty history, no last roll, no winner; configuration and latch unchanged; the result is well formed |
| `DiceGameComponent.DiceGame.StartGame` | src/App.tsx:290-299 | the fields move as `Start` says |
| `TurnEngine.Reset` | src/App.tsx:301-310 | from any phase: setup screen, seat 0, scores `[0,0,0,0]` whatever the player count, empty history, no last roll, no winner; names, player count and target untouched |
| `DiceGameComponent.DiceGame.ResetGame` | src/App.tsx:301-310 | the fields move as `Reset` says |
| `TurnEngine.Begin` | src/App.tsx:215-218 | a roll during a roll or outside a game changes nothing; otherwise only the latch is set |
| `DiceGameComponent.DiceGame.BeginRoll` | src/App.tsx:215-218 | reports whether the roll was accepted (latch clear and phase playing) and moves the fields as `Begin` |
| `TurnEngine.Resolve` | src/App.tsx:256-284 | last roll := result and latch cleared; the roller's score grows by result and every other score is unchanged; the history gets (roller's name, result) in front; if the new score reaches the target, the phase becomes won with the roller as winner and the turn stays put; otherwise phase and winner are unchanged and the turn passes to the next seat; the invariant is kept |
| `DiceGameComponent.DiceGame.CompleteRoll` | src/App.tsx:256-284 | updates the roller's score slot and the history and moves the fields as `Resolve` says |
| `TurnEngine.NextPlayerIsModular` | src/App.tsx:283 | the next seat lies in `[0, numPlayers)` and equals `(currentPlayer + 1) % numPlayers` |
| `TurnEngine.ResolveAddsRoll` | src/App.tsx:260-262 | the score total grows by exactly the value rolled |
| `TurnEngine.FirstToTargetWins` | src/App.tsx:267-269 | the roll that brings the roller to the target wins for the roller at once, the turn does not advance, and no other player has reached the target |
| `TurnEngine.Turn` | src/App.tsx:215-288 | one press of Roll Dice keeps the invariant, and a blocked press changes nothing |
| `DiceGameComponent.PressRoll` | src/App.tsx:215-288 | a press followed by the end of its animation moves the component's fields as `Turn` says |
| `TurnEngine.Turns` | src/App.tsx:215-288 | every run of presses keeps the invariant (in particular winner present exactly when won) |
| `TurnEngine.WonIsFinal` | src/App.tsx:216 | once won, no further press changes anything |
| `TurnEngine.PlayingTurn` | src/App.tsx:270-283 | a roll that does not win keeps the game on with the latch clear and the configuration unchanged; it passes the turn, adds its value to the total and grows the history by one up to five |
| `TurnEngine.TurnsWhilePlaying` | src/App.tsx:283 | while nobody has won, the turn after k rolls is the seat k steps on from the start (`Advance`), the latch is clear and the configuration unchanged |
| `TurnEngine.AdvanceIsModular` | src/App.tsx:283 | k steps on from seat c is seat `(c + k) % numPlayers`, so turns cycle 0, 1, ..., n-1, 0, ... |
| `TurnEngine.TotalWhilePlaying` | src/App.tsx:260-265 | while nobody has won, the score total grows by the sum of the rolls and the history by one entry per roll, up to five |
| `TurnEngine.StartedTotal` | src/App.tsx:256-299 | from Start Game and before any win, the score total is the sum of all rolls and the turn has moved one seat per roll from seat 0 |
| `TurnEngine.TwoPlayerScenario` | src/App.tsx:256-284 | players A and B, target 10, rolls 4, 3, 6, 2: A wins with 10 on the third roll, B has 3, the turn stays on A and the fourth roll is ignored |
| `TurnEngine.SinglePlayerScenario` | src/App.tsx:267-269 | one player aiming at 1 wins on the first roll, whatever it shows |
| `RollHistory.Push` | src/App.tsx:264 | the new history has `min(old length + 1, 5)` entries, the new entry first, then the old history minus its oldest entry when it was full |
| `RollHistory.ReplayKeepsNewest` | src/App.tsx:264 | after any run of `Push` the history is the newest entries, newest first, cut to five: the oldest are evicted first |
| `RollHistory.SixRollsEvictOldest` | src/App.tsx:264 | six `Push`es into an empty history leave the last five, newest first, and drop the first |
| `TurnEngine.Entries` | src/App.tsx:264 | a run of presses records at most one history entry per roll |
| `TurnEngine.BlockedRun` | src/App.tsx:215-218 | from a state where Roll Dice is ignored (latch set or no game on), any run of presses changes nothing |
| `TurnEngine.TurnsHistory` | src/App.tsx:215-288 | the history after any run of presses is the old history with `Push` applied once per recorded entry, in order |
| `TurnEngine.TurnsKeepNewest` | src/App.tsx:264 | after any run of presses the history is the newest recorded entries, newest first, followed by the old history, cut to five |
| `GameState.SumAddAt` | src/App.tsx:260-261 | adding d to one score slot adds d to the total |
| `GameState.Zeros` | src/App.tsx:291 | `Array(n).fill(0)`: n scores, all zero |
| `DiceFaces.Pips` | src/App.tsx:79-88 | face n in 1..6 has exactly n pips and any other number none; all pips lie on the 32/64/96 grid, no two coincide, and each face is unchanged by a half turn |
| `DiceGameComponent.DiceGame.SelectPlayers` | src/App.tsx:324-328 | on the setup screen, sets the player count (1 to 4) and nothing else |
| `DiceGameComponent.DiceGame.EditName` | src/App.tsx:344-353 | on the setup screen, replaces the name of one shown player and nothing else |
| `DiceGameComponent.DiceGame.SelectTarget` | src/App.tsx:363-367 | on the setup screen, sets the target score and nothing else |

## Left out

- `DiceGameComponent.DiceGame.CompleteRoll` and `TurnEngine.Resolve`: the roll is atomic on the
  current state. In the source, the end of the animation writes scores, history and turn computed
  from the values captured when the roll began. The two differ only if End Game is pressed during
  the 0.8 s animation (the End Game button stays enabled while rolling; Play Again is only on the
  win screen, where no roll is in flight). The source then writes results
  based on the old game while the setup screen shows, and it can even switch to the win screen. The
  model instead applies the late roll to the freshly reset state. Modelling the captured values
  would need JavaScript's out-of-range array semantics (`undefined + n`), which the model does not
  have, for a reset and a restart with more players inside one animation.
- `DiceGameComponent.DiceGame.SelectTarget`: generalised from the four offered targets
  (30, 50, 75, 100) to any positive target.
- `DiceGameComponent.DiceGame.EditName`: only names of the shown players (index below the player
  count) can be edited, as only those input boxes are rendered.
- The die draw `Math.floor(Math.random() * 6) + 1` (src/App.tsx:223): randomness; the face is a
  parameter in 1..6.
- The roll animation: easing, `rotationMap` angles, `Date.now`, `requestAnimationFrame`
  (src/App.tsx:221-254). It is floating point and timing; only its end, with the face value, is
  modelled.
- The Three.js scene, camera, lights, renderer, resize handling and dice textures
  (src/App.tsx:38-136), and the order in which the faces are put on the cube. These are foreign
  library calls and DOM; only the pip table is modelled.
- Sound and speech (src/App.tsx:138-200): the Web Audio and SpeechSynthesis browser APIs. The
  sound on/off toggle (`soundEnabled`) is left out with them.
- The spoken and displayed messages (`voiceMessage`), including the 2-second "six" message
  (src/App.tsx:271-281) and the congratulation message. These are presentation side effects that
  do not change the engine state.
- The win celebration and the falling flowers (src/App.tsx:27-36, 202-213): presentation and
  random floats.
- All JSX rendering (src/App.tsx:312-547): UI. From it the model takes only the domains of the
  setup inputs and the fact that they are shown only on the setup screen.
