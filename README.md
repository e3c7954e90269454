# CrazyComet tower and game controller — Dafny model

This project models the decision logic of the CrazyComet arcade game's
controller:

- **Tower stepper control** (`src/controls/stepper.py`, class `TowerControl`).
  The rocking arm (stepper 1) reverses direction when its encoder angle
  reaches ±20°. The rotating wheel (stepper 2) gets a step interval that
  shrinks from 0.05 s to 0.01 s as a simulated score counts up to
  `score_goal` (50). That counter wraps back to 0. The pure rules
  (`stepper1_algo`, `score_map`, the score-to-interval mapping of
  `stepper2_algo`) are Dafny functions. The parts that change the object
  (`get_score`, the start-direction block and one iteration of the
  control loop of `game_run`) are methods of the class
  `Stepper.TowerControl`.
- **Passive game state machine** (`game_sdk/passive/game.py`, class `Game`).
  A status message overwrites the game phase and dispatches one lifecycle
  hook. A score message updates a seat's score only on the `"score"` topic
  while the phase is RUN, and it schedules one `on_score`. The `players`
  property is guarded by the `_is_running` flag that `_run` sets. The class
  `Game.Game` handles one loop iteration per method call. The functions
  `Game.ApplyScore`, `Game.ApplyStatus` and `Game.Replay` describe the same
  steps on values, so that lemmas can relate sequences of messages.

Modelling conventions:

- Encoder angles and intervals are Python floats. Here they are exact
  `real`s, so `0.05` and `0.01` are exact.
- The encoder reading is a parameter. So are the `random.uniform(0.01, 0.05)`
  draw (constrained to that range), the `random.randint(0, 1)` draw and the
  outcome of the MQTT `connect()`.
- Hooks are recorded by appending to a trace. `on_score` is appended when
  its task is scheduled.
- `Players.set_score` is modelled as overwriting the seat's entry in a
  `map<int, int>`, with no seat-range check.

Behaviour of the code worth knowing:

- `stepper1_algo` returns `None` in its inconsistent branch, where the arm
  is at or past a bound while already heading back inside (see Findings).
- Status messages are accepted in any phase. There is no transition gating,
  so END followed by START is taken as it comes.
- Seat-range checking would belong to `Players`, which is not part of this
  model.

## Model

| member | source | states |
|---|---|---|
| Stepper.Stepper1Algo | src/controls/stepper.py:103-125 | The returned interval is the drawn one, in [0.01, 0.05]. FORWARD at angle ≥ 20 gives BACKWARD. BACKWARD at angle ≤ -20 gives FORWARD. Strictly inside (-20, 20) the direction is kept. No tuple is returned exactly when the arm is at or past a bound while already heading back inside. Every returned direction steers the arm into the sector. |
| Stepper.StalledTickAfterReversalFails | src/controls/stepper.py:109-115 | Two ticks at the same angle ≥ 20: the first turns FORWARD into BACKWARD, the second returns no tuple. |
| Stepper.Stepper1AlgoHeld | src/controls/stepper.py:109-123 | Corrected policy: it always returns a command with the drawn interval, whose direction heads inward. It keeps the old direction whenever that already heads inward. It agrees with the as-written policy wherever that policy returns a tuple. |
| Stepper.HeldTickIsStable | src/controls/stepper.py:109-125 | Under the corrected policy, a repeated tick at an unchanged angle keeps the direction the first tick chose. |
| Stepper.ScoreMap | src/controls/stepper.py:149-154 | Linear interpolation maps in_min to out_min and in_max to out_max. An empty input range is excluded, because Python raises ZeroDivisionError there. |
| Stepper.ScoreMapMonotone | src/controls/stepper.py:154 | For in_min < in_max, the map is non-decreasing when out_min ≤ out_max and non-increasing when out_max ≤ out_min. |
| Stepper.ScoreMapBetween | src/controls/stepper.py:154 | An input inside [in_min, in_max] maps between out_min and out_max. |
| Stepper.Stepper2Command | src/controls/stepper.py:142-147 | The direction is returned unchanged. Score 0 gives interval 0.05 and score 50 gives 0.01. Every score in [0, 50] gives an interval in [0.01, 0.05]. |
| Stepper.WheelIntervalNonIncreasing | src/controls/stepper.py:142-147 | A higher score never gives a longer wheel interval. |
| Stepper.WheelIntervalAtHalfGoal | src/controls/stepper.py:145 | Score 25 gives interval 0.03. |
| Stepper.NextScore | src/controls/stepper.py:64-69 | The counter either increments by exactly 1 or resets to 0. It increments exactly when it is below the goal, and it stays within [0, goal] if it starts there. |
| Stepper.ScoreAfter | src/controls/stepper.py:64-69 | Repeated `get_score` calls from the constructor's 0 (stepper.py:40) keep the counter within [0, goal]. |
| Stepper.ScoreAfterCountsUp | src/controls/stepper.py:40-65 | Starting from the constructor's 0, call k (k ≤ goal) returns k. |
| Stepper.ScoreAfterPeriodic | src/controls/stepper.py:64-69 | The counter's sequence of values repeats with period goal + 1: it wraps to 0 right after reaching the goal. |
| Stepper.TowerControl.constructor | src/controls/stepper.py:33-42 | `total_score` starts at 0. The stepper directions and intervals are those of the hardware objects. |
| Stepper.TowerControl.GetScore | src/controls/stepper.py:51-69 | `total_score` becomes the next counter value, which is returned. The range [0, 50] is preserved. |
| Stepper.TowerControl.SetStartDirection | src/controls/stepper.py:80-84 | Whichever value the random draw takes, stepper 1's direction is FORWARD afterwards. |
| Stepper.TowerControl.Stepper2Algo | src/controls/stepper.py:134-147 | The counter advances once, and the command is the mapped interval with stepper 2's current direction. |
| Stepper.TowerControl.ControlTick | src/controls/stepper.py:89-92 | One loop iteration. If the arm policy returns no tuple, the unpacking fails and nothing changes. Otherwise the arm gets the policy's command, the counter advances, the wheel gets the mapped command, and both intervals lie in [0.01, 0.05]. |
| Game.PhaseHook | game_sdk/passive/game.py:65-70 | Exactly one hook for START, RUN and END, and none for any other phase. It is never on_init or on_score. Each hook maps back to the phase that dispatched it. |
| Game.PhaseHookInjective | game_sdk/passive/game.py:65-70 | A hook announces a phase exactly when that phase dispatches it. |
| Game.ApplyScore | game_sdk/passive/game.py:46-51 | A score message never changes the phase. It changes the session only on the "score" topic while RUN. Then the seat holds exactly the sent score, the other seats keep theirs, and one on_score is appended after the update. |
| Game.ApplyStatus | game_sdk/passive/game.py:61-70 | The phase becomes the received one whatever it was, and the scores are untouched. The earlier trace is kept. Exactly one hook is appended for every phase but Idle, and that hook announces the received phase. |
| Game.Replay | game_sdk/passive/game.py:46-70 | Handling messages only appends hooks. The earlier trace is kept as a prefix. |
| Game.ReplayAppend | game_sdk/passive/game.py:46-70 | Handling two runs of messages one after the other equals handling their concatenation. |
| Game.ReplayStateIsLastStatus | game_sdk/passive/game.py:61-63 | The phase after a run of messages is the last status received, whatever the earlier phase was. |
| Game.ReplayKeepsStateWithoutStatus | game_sdk/passive/game.py:46-51 | Score messages never change the phase. |
| Game.ScoresFrozenOutsideRun | game_sdk/passive/game.py:49-51 | Outside RUN, and while no RUN status arrives, the scores are unchanged and no on_score is scheduled. |
| Game.ScoresIgnoredAfterEnd | game_sdk/passive/game.py:49-69 | Score messages after an END status, with no RUN status following, leave the scores as they were before END. |
| Game.ScoresIgnoredBeforeRun | game_sdk/passive/game.py:49-68 | Score messages before the RUN status are dropped. Handling resumes from RUN with the original scores and the trace extended by on_start. |
| Game.ScoreOverwrites | game_sdk/passive/game.py:50 | Two scores for one seat while running leave the second, not their sum. |
| Game.FullRoundScenario | game_sdk/passive/game.py:46-70 | START, RUN, two scores, END fire on_pregame, on_start, on_score, on_score, on_end in that order, and both scores are recorded. |
| Game.Game.Players | game_sdk/passive/game.py:19-27 | Returns the players exactly when the game is running, and a NotRunning error otherwise. |
| Game.Game.HandleScoreMessage | game_sdk/passive/game.py:46-51 | The message is applied if and only if its topic is "score" and the phase is RUN. Then the seat's entry is overwritten and one on_score is appended. Otherwise the players and the trace are unchanged. |
| Game.Game.HandleStatus | game_sdk/passive/game.py:61-70 | The phase becomes the received one unconditionally, and the dispatched hook, if any, is appended. |
| Game.Game.Run | game_sdk/passive/game.py:76-99 | The players are set before connecting. If connect fails, on_init is not called and the running flag is untouched. On success, on_init is invoked and then the game is marked running. The invariant "running implies on_init has been invoked" is kept. |

## Left out

- MQTT transport (`GameIO`, `connect`, `subscribe`, `subscribe_to_status`, error logging): network I/O. Messages are method arguments and the connect outcome is a boolean.
- Configuration loading (`toml.load`, `Players(self.config['seats'])`): file I/O, and `Players` is not part of this model. `Run` takes the players map as a parameter.
- Malformed score payloads (missing `seat`/`score` keys): payloads are modelled as already-decoded integers.
- asyncio concurrency (`gather`, `create_task`, `async for`, every `sleep`): each loop iteration is one call, so the cross-stream interleavings are the orders of an event sequence given to `Game.Replay`. Whether the loops can start before `_is_running` is set, while `on_init` is suspended, is not modelled.
- Game.Game.HandleScoreMessage: `on_score` is recorded when its task is scheduled, not when it runs. Its concurrent execution and its exceptions are not modelled.
- Hook bodies: hooks are overridable no-ops here and cannot change the game's fields.
- Hardware layer (`EncoderStepperHAL`, `StepperHAL`, `rotate`, `set_position`, `angle_calc`, `set_start_position`, `on_exit`): foreign code. The encoder angle is a parameter. The motors are reduced to their `direction` and `interval` attributes.
- `random`: the draws are parameters with their ranges as preconditions.
- Logging, the module-level `Tower1` instance and `main`.
- The first `score_map` definition (integer-truncating): the later definition in the class body replaces it.
- `sdk/game_sdk/controller/inputs/input.py`: an abstract base with no-op hooks and no behaviour to model.
- `GameState` and the game template's initial field values are not part of this model. The phase before any status message is `Idle`, and `_is_running` starts false.

## Findings

| source | as written | input that shows it | evidently intended | confidence | as-written member | corrected member |
|---|---|---|---|---|---|---|
| src/controls/stepper.py:109-115 | At angle ≥ 20 with direction BACKWARD, `stepper1_algo` logs an error and returns `None`. The tuple unpacking in `game_run` (line 90) then raises, which ends the control loop. | The arm is reversed at angle ≥ 20 by a tick. The next `stepper1_algo` call still reads angle ≥ 20 with direction BACKWARD, so it returns `None`. This happens whenever the arm has not got back inside the bound between two ticks. Ticks are usually more than 2 s apart, because `stepper2_algo` awaits `get_score`, which sleeps 2 s on every increment (lines 64-66, 143). Over such a gap the arm can overshoot far past 20 going FORWARD with a short interval, then step back too few steps with a long interval after the reversal. On the tick where `total_score` wraps from 50 to 0 there is no sleep, so the next tick follows after about 10 ms, often before the arm has taken a single backward step. The same holds at -20 with FORWARD. | Hold the previous direction and keep going. | medium (depends on motor timing; not executed) | Stepper.StalledTickAfterReversalFails | Stepper.Stepper1AlgoHeld |

`Stepper.TowerControl.ControlTick` models the loop as written, so its failing path stays visible.
