# Echoes of Code: a Dafny model of the time-loop puzzle engine

Echoes of Code is a single-file pygame puzzle game. The player has a fixed number
of ten-second loops to reach a level's exit. Each move and each interaction is
recorded in an action log. As the game is designed, at the end of a loop the
log becomes an *echo*, an actor that replays it, and switches, terminals and
pressure plates open gates, so that a puzzle is solved by the live player
working together with their own echoes. The code as written falls short of
that design in several places, listed below.

This project models the game's engine (everything except drawing, sound and the
event loop) and proves what it does:

- `geometry.dfy` (module `Geometry`): the screen constants and the rectangle
  overlap test that every collision, plate, interaction and exit check uses.
- `objects.dfy` (module `Objects`): walls, switches, pressure plates, gates,
  terminals and the exit, as values.
  - A switch, a plate and a terminal share the `Trigger` shape.
  - A `GameObject` sum type stands for the mixed lists a level hands out.
  - It holds the collision check, the plate and gate updates (as
    value-returning methods with loops) and the interaction over a list.
- `actors.dfy` (module `Actors`): the `Player` class (move, record) and the
  `Echo` class (frozen log, cursor, one replay step per update).
  - Pure functions specify each of them: `TryMove`, `EchoStep`, `Replay`,
    `LiveLog`.
  - The replay lemmas relate the live run to its echo.
- `timing.dfy` (module `Timing`): the `TimerManager` class (elapsed time net of
  pauses, loop time, remaining time, loop counter, pause and unpause). The wall
  clock is an explicit parameter `now`, in milliseconds.
- `levels.dfy` (module `Levels`): the `Level` class and the `LevelManager` class.
  - `Level` has its object lists, the builders, the two object views and the
    per-tick update: plates, then gates, then the exit.
  - `LevelManager` holds the list of levels, the current index and `NextLevel`.
- `session.dfy` (module `Session`): the `Game` class. It covers restart, the
  interaction key, the per-tick update in the game's own order, the end-of-loop
  reset and the key-driven state machine. Its loops are split into small
  module-level methods, each proved against a pure specification.

The model follows the code as written. Where the source's own comments state
a different intent, the code wins. Three such comments matter: the comment at
`echoes_of_code.py:451` says a terminal controls gate 2; the one at
`echoes_of_code.py:594` announces a loop reset when the loop time runs out;
the docstring at `echoes_of_code.py:317` names the time within the current
loop, the time base an echo replaying each loop would need, yet actions are
stamped with the total elapsed time. What the code does instead:

- An echo replays at most one action per call to its update, even when several
  are due; it does not catch up.
- The interact key activates every switch and terminal that the player
  overlaps, not only the first one. It records one interact action per
  activation.
- Action timestamps are the total elapsed time, not the time within the loop.
- Gates are driven by switches and plates only. Terminals never open a gate.
- An echo's replayed interaction is handed the level's walls and gates. Those
  are never switches or terminals, so a replayed interaction activates nothing
  (`Objects.InteractingWithSolidsIsNoOp`).
- The end-of-loop test compares the loop time, which is already reduced modulo
  the loop length, with that length. It therefore never succeeds
  (`Timing.TimerManager.ShouldResetLoop`).
  - In `Session.Game.Update` the branch that would reset the loop is proved
    unreachable.
  - As a result, the game never spawns an echo by itself. `Session.Game.ResetLoop`
    is still modelled and proved, as the reset the code defines.
- A level's `completed` flag is set once and never cleared, not even by a
  restart.

Rectangles overlap strictly: two boxes that only share an edge do not collide.
That is the behaviour assumed of pygame's `Rect.colliderect`.

## Model

| member | source | states |
|---|---|---|
| Geometry.OverlapsSymmetric | echoes_of_code.py:285-288 | the overlap test gives the same answer whichever box is asked first (the exit and the plates ask it the other way round from the player) |
| Geometry.SharedEdgeIsNoOverlap | echoes_of_code.py:87-100 | a box that starts exactly where another ends, beside it or below it, sharing only an edge, does not collide with it |
| Geometry.Clamp | echoes_of_code.py:80-81 | `max(lo, min(v, hi))` lies in `[lo, hi]`; it is `v` when `v` is in range, `lo` below it and `hi` above it |
| Objects.SolidList | echoes_of_code.py:375-376 | the walls come first and then the gates, element by element, with no other objects |
| Objects.InteractiveList | echoes_of_code.py:378-379 | the switches come first, then the plates, then the terminals, element by element |
| Objects.Collides | echoes_of_code.py:87-100 | a collision happens iff the box overlaps a wall or a closed gate of the list |
| Objects.CollidesAppend | echoes_of_code.py:87-100 | a box collides with a concatenated list iff it collides with either part |
| Objects.OnlyBlockersCollide | echoes_of_code.py:87-100 | only walls and closed gates count for collision: dropping every other object leaves the answer unchanged |
| Objects.BlockersKeepsEveryBlocker | echoes_of_code.py:91-98 | the objects a collision check can hit are exactly the walls and closed gates of the list |
| Objects.UpdatePlate | echoes_of_code.py:198-207 | a plate ends active iff some actor's box overlaps it, whatever its previous flag; its other fields are unchanged |
| Objects.UpdateGate | echoes_of_code.py:230-238 | a gate ends open iff some trigger in the list is active and targets its id; with no such trigger it is closed; its other fields are unchanged |
| Objects.AnyDrivesAppend | echoes_of_code.py:386-387 | a gate driven by the list `switches + plates` is driven by one of the two lists, and conversely |
| Objects.Activated | echoes_of_code.py:174-176 | activating a switch or terminal sets its flag and keeps its kind and every other field |
| Objects.ActivationIsOverlap | echoes_of_code.py:545-549 | after an interaction sweep a trigger is active iff it was active before or the box overlaps it; only the flag changes |
| Objects.ActivatedStep | echoes_of_code.py:545-549 | examining one more trigger activates it exactly when the box overlaps it and leaves the others as they were |
| Objects.ActivationCount | echoes_of_code.py:545-551 | at most one interact action is recorded per object examined |
| Objects.ActivationCountZero | echoes_of_code.py:545-551 | no interact action is recorded iff no switch or terminal in the list overlaps the box |
| Objects.InteractingWithSolidsIsNoOp | echoes_of_code.py:141-148 | an interaction over walls and gates, which is what an echo is handed, changes nothing |
| Objects.InteractedLevelLists | echoes_of_code.py:141-148 | an interaction over a level's interactive list activates exactly the overlapped switches and terminals, list by list, and leaves plates alone |
| Actors.TryMove | echoes_of_code.py:63-85 | a move fails iff the shifted box hits a wall or a closed gate; a successful move faces the direction, stays on screen, and lands on the shifted position when that is on screen |
| Actors.OpenGatesNeverBlock | echoes_of_code.py:95-98 | the outcome of a move is the same with only the walls and closed gates in the list |
| Actors.MoveIsOneStep | echoes_of_code.py:63-85 | from an on-screen position a successful move changes one coordinate by at most one step of 5 pixels |
| Actors.Player.constructor | echoes_of_code.py:51-61 | the player starts at the given position with no direction and an empty log |
| Actors.Player.Move | echoes_of_code.py:63-85 | returns whether the move succeeded; on failure the position and facing are unchanged; on success the pose is the `TryMove` result; the log is untouched |
| Actors.Player.RecordAction | echoes_of_code.py:102-103 | appends exactly one action holding the current position, facing and the given timestamp; earlier entries and the pose are unchanged |
| Actors.EchoStep | echoes_of_code.py:125-139 | the cursor advances by exactly one iff an action remains and is due, otherwise nothing changes; a move teleports to the recorded pose, an interact stays put; the log never changes and the cursor never passes its end |
| Actors.Replay | echoes_of_code.py:125-139 | over k updates the cursor advances by at most k, and the log is unchanged |
| Actors.ReplayConsumesOnePerStep | echoes_of_code.py:125-139 | even when every action is overdue, k updates consume exactly `min(k, remaining)` actions |
| Actors.EchoTraceIsReplay | echoes_of_code.py:125-139 | the pose after the k-th update is the pose of the replay over the first k+1 timer readings |
| Actors.OverdueReplay | echoes_of_code.py:125-139 | under the game's timing, with every stamp already due, update k puts the echo at the pose of its k-th remaining action when that is a move, and otherwise (an interact, or the log used up) leaves it where it was after update k-1 |
| Actors.LiveLogLaterThan | echoes_of_code.py:576-578 | no move action recorded during a run of ticks is stamped earlier than a bound every tick's timer reading exceeds |
| Actors.LiveLogStamps | echoes_of_code.py:576-578 | every move action recorded during a run of ticks is stamped with one of those ticks' timer readings |
| Actors.LiveTraceStep | echoes_of_code.py:575-578 | each pose of the player's trace is one tick's step (a move when a direction is held and not blocked) from the pose before it |
| Actors.StillUntilMoved | echoes_of_code.py:575-578 | until its first successful move the player stays at its starting pose |
| Actors.ReplayReproducesLiveRun | echoes_of_code.py:125-139 | an echo replaying a recorded log against the same strictly increasing timer readings stands, after every tick, where the player stood, from the player's first move on |
| Actors.EchoOfLoopWalksLoop | echoes_of_code.py:607 | under two conditions the game does not meet, a move-only log and replay against the recording loop's own timer readings, the echo made from a loop's player walks the player's path from the first move on; the game's own timing is covered by `Actors.OverdueReplay` |
| Actors.Echo.constructor | echoes_of_code.py:117-123 | the echo starts at the player's current position with no facing, its own copy of the player's log and the cursor at 0 |
| Actors.Echo.Update | echoes_of_code.py:125-139 | the echo's state after one update is `EchoStep` of its state before; the list comes back interacted-with only when a due interact is consumed |
| Actors.Echo.InteractWithObjects | echoes_of_code.py:141-148 | every switch and terminal of the list that the echo overlaps is activated, and nothing else |
| Timing.TimerManager.constructor | echoes_of_code.py:302-309 | the timer starts at `now`, in loop 1, running, with no pause recorded |
| Timing.TimerManager.GetElapsedTime | echoes_of_code.py:311-314 | elapsed time is the time since the start less all time spent paused: the finished pauses and, while paused, the pause still in progress |
| Timing.TimerManager.ElapsedFrozenWhilePaused | echoes_of_code.py:311-314 | while paused, elapsed time does not depend on the clock |
| Timing.TimerManager.ElapsedFollowsClock | echoes_of_code.py:311-314 | while running, elapsed time advances exactly as the clock does |
| Timing.TimerManager.GetLoopTime | echoes_of_code.py:316-318 | loop time lies in `[0, loopDuration)` and equals elapsed time during the first loop length |
| Timing.TimerManager.GetTimeRemaining | echoes_of_code.py:320-322 | remaining time lies in `(0, loopDuration]` and is the full length exactly at a multiple of it |
| Timing.TimerManager.ShouldResetLoop | echoes_of_code.py:324-325 | the end-of-loop test is never true for a positive loop length |
| Timing.TimerManager.GameOverAfterMaxResets | echoes_of_code.py:327-331 | counting from loop 1, the game is over after `maxLoops` resets and not one reset earlier |
| Timing.TimerManager.ResetLoop | echoes_of_code.py:327-331 | the loop counter rises by exactly one and elapsed time is unaffected; afterwards the game is over iff the old counter had reached the maximum |
| Timing.TimerManager.Pause | echoes_of_code.py:333-336 | a no-op when already paused; otherwise it freezes elapsed time at its value at `now` |
| Timing.TimerManager.Unpause | echoes_of_code.py:338-341 | a no-op when not paused; otherwise it adds the pause length to the total, so elapsed time resumes from its frozen value |
| Levels.PlatesHaveNoMemory | echoes_of_code.py:198-207 | plate lists that differ only in their flags update to the same result |
| Levels.GatesIdempotent | echoes_of_code.py:230-238 | recomputing the gates again from the same triggers changes nothing |
| Levels.GateOpenIffSwitchOrPlate | echoes_of_code.py:385-387 | after a level update a gate is open iff an active switch or an active plate targets it; terminals play no part |
| Levels.Level.constructor | echoes_of_code.py:345-355 | a new level has its number, start and loop limit, empty object lists, no exit, and is not completed |
| Levels.Level.AddWall | echoes_of_code.py:357-358 | appends one wall and changes nothing else |
| Levels.Level.AddSwitch | echoes_of_code.py:360-361 | appends one inactive switch |
| Levels.Level.AddPressurePlate | echoes_of_code.py:363-364 | appends one inactive plate |
| Levels.Level.AddGate | echoes_of_code.py:366-367 | appends one closed gate |
| Levels.Level.AddTerminal | echoes_of_code.py:369-370 | appends one inactive terminal |
| Levels.Level.SetExit | echoes_of_code.py:372-373 | the exit is set to the given tile |
| Levels.Level.ActivateSwitch | echoes_of_code.py:174-176 | sets one switch's flag; every other switch and field is unchanged |
| Levels.Level.DeactivateSwitch | echoes_of_code.py:177-178 | clears one switch's flag; every other switch and field is unchanged |
| Levels.Level.ActivateTerminal | echoes_of_code.py:259-261 | sets one terminal's flag; every other terminal and field is unchanged |
| Levels.Level.DeactivateTerminal | echoes_of_code.py:262-263 | clears one terminal's flag; every other terminal and field is unchanged |
| Levels.Level.GetAllObjects | echoes_of_code.py:375-376 | the walls and then the gates; none of them can be interacted with |
| Levels.Level.GetInteractiveObjects | echoes_of_code.py:378-379 | the switches, then the plates, then the terminals; none of them blocks movement |
| Levels.Level.Update | echoes_of_code.py:381-396 | plates are recomputed from the actors' boxes, then gates from the switches and the new plates; it returns true iff there is an exit, the level was not completed, and the first actor's box overlaps the exit tile (the exit's own test, lines 285-288); `completed` is set then and never cleared |
| Levels.LevelManager.constructor | echoes_of_code.py:400-403 | the manager holds the given levels with the first one current |
| Levels.LevelManager.GetCurrentLevel | echoes_of_code.py:462-463 | the current level is one of the manager's levels |
| Levels.LevelManager.NextLevel | echoes_of_code.py:465-469 | advances the index by one and returns true iff a next level exists; otherwise it returns false and changes nothing; the index stays in range |
| Session.ActivateTouched | echoes_of_code.py:542-554 | switches and terminals end as the interaction sweep over the player's box makes them; the log gains one interact action at the player's pose per activation; the pose is unchanged |
| Session.InteractWith | echoes_of_code.py:546-551 | one object of the sweep is activated, and one action recorded, iff it is a switch or terminal the box overlaps |
| Session.DeactivateAll | echoes_of_code.py:617-619 | every switch and terminal ends inactive, with nothing else changed; plates are untouched |
| Session.StepPlayer | echoes_of_code.py:575-578 | the player's new pose is its pose after the tick, and the log gains the move action iff a move happened |
| Session.StepEcho | echoes_of_code.py:581-582 | one echo takes its replay step and the other echoes are unchanged |
| Session.StepEchoes | echoes_of_code.py:581-582 | every echo takes exactly one replay step at the same timer reading; the result is their boxes afterwards |
| Session.StepActors | echoes_of_code.py:575-585 | the player's move and record, then every echo's replay step; the result is the actor list handed to the level |
| Session.Game.constructor | echoes_of_code.py:473-488 | a new game is on the first level, playing, with the player at its start, no echoes and a new timer |
| Session.Game.ResetGame | echoes_of_code.py:506-510 | restart: a fresh player at the level start with an empty log, no echoes, a new timer in loop 1; the level, its `completed` flag included, is untouched |
| Session.Game.InteractWithObjects | echoes_of_code.py:538-554 | nothing happens unless playing; otherwise every overlapped switch and terminal is activated, plates are untouched, and one interact action stamped with the elapsed time is logged per activation |
| Session.Game.ResetLoop | echoes_of_code.py:603-622 | exactly one new echo is appended, holding the player's old position and log, with existing echoes untouched; the player is back at the start with an empty log; switches and terminals are all off and plates unchanged; the loop counter rises by one and the pause state, hence elapsed time, is kept |
| Session.Game.Update | echoes_of_code.py:556-601 | nothing happens unless playing; otherwise the player moves and logs, every echo takes one replay step at the same elapsed time, the plates, gates and `completed` flag follow the level update over all actors, and the state becomes GameOver, else LevelComplete on reaching the exit, else stays Playing |
| Session.Game.HandleEvent | echoes_of_code.py:512-536 | quit and escape stop the game and change nothing; R restarts the level; space when not playing advances a level, completes the game (player, echoes and timer untouched) or starts over from the first level; E interacts, keeping the echoes and timer; no key but E touches any level's switches or terminals; other keys change nothing |

## Left out

- Drawing, colours, transparency, fonts, the display, sound loading and
  playback, `Game.run` and `main`. These are rendering and process plumbing.
  An echo's colour, picked from the echo count, is not modelled.
- Key polling and the pygame event queue. `Session.Game.Update` receives the
  direction held. `Session.Game.HandleEvent` handles one abstract event at a
  time, where the source drains a list of events and stops at the first quit
  or escape.
- The wall clock is an explicit parameter `now`, an integer number of
  milliseconds. The source uses floating-point seconds and reads the clock
  again for each actor of a tick, and again for each activation within one
  interact sweep (`echoes_of_code.py:551`). The model reads it once per tick,
  so two interact actions recorded from one key press carry the same stamp in
  `Session.Game.InteractWithObjects` and may carry different stamps in the
  source.
- The `transition_timer` bookkeeping. It is cosmetic and never read by the engine.
- The hard-coded level layouts of `LevelManager.create_levels`. They are static
  data, so the levels are a constructor parameter (a non-empty list).
- `Action.__str__`, which is debug formatting.
- pygame's `Rect.colliderect` itself. It is a foreign library, modelled as
  strict overlap on integer boxes.
- Switches, plates and terminals are values in the level's lists rather than
  shared objects. The interaction and reset sweeps are modelled as in-place
  updates of those lists at the object's position. Aliasing of one trigger
  object between two lists is not modelled.
- Actors.Echo.InteractWithObjects: returns the activated list rather than
  mutating shared objects. The game only ever hands it walls and gates, where
  this is a no-op.
- The timer's pause and unpause are modelled. The game never calls them.
- Actors.EchoOfLoopWalksLoop: stated only for a move-only log replayed against
  the recording loop's own timer readings. The game replays with later total
  elapsed times, where every stamp is due. `Actors.OverdueReplay` states that
  case for logs with interact actions too.
