/** The game session: the live player, the echoes, the current level and the
    timer, driven one tick at a time, plus the key-driven state transitions.
    Drawing, sound and key mapping are outside the model: a tick receives the
    direction held and the clock reading `now`, an event is an abstract key. */
module Session {
  import opened Geometry
  import opened Objects
  import opened Actors
  import opened Timing
  import opened Levels

  datatype GameState = Playing | LevelComplete | GameOver | GameComplete

  /** The keys the game reacts to, and any other key. */
  datatype Key = KeyEscape | KeyR | KeySpace | KeyE | OtherKey

  datatype Event = QuitEvent | KeyDown(key: Key)

  /** n copies of one action. */
  function Repeat(a: Action, n: nat): (r: seq<Action>)
    ensures |r| == n
  {
    seq(n, _ => a)
  }

  lemma RepeatOneMore(a: Action, n: nat)
    ensures Repeat(a, n) + [a] == Repeat(a, n + 1)
  {
  }


  /** The replay states of a list of echoes, in order. */
  ghost function EchoViews(echoes: seq<Echo>): (r: seq<EchoView>)
    reads echoes
    ensures |r| == |echoes|
  {
    seq(|echoes|, k requires 0 <= k < |echoes| reads echoes => echoes[k].View())
  }

  /** Every echo takes one replay step at `time`. */
  function StepViews(views: seq<EchoView>, time: int): (r: seq<EchoView>)
    ensures |r| == |views|
  {
    seq(|views|, k requires 0 <= k < |views| => EchoStep(views[k], time))
  }

  /** The boxes of echoes in the given replay states. */
  function ViewBoxes(views: seq<EchoView>): (r: seq<Rect>)
    ensures |r| == |views|
  {
    seq(|views|, k requires 0 <= k < |views| => ActorBox(views[k].pose.x, views[k].pose.y))
  }

  /** The boxes of every actor after a tick, computed from the poses and
      replay states before it: the live player first, then the echoes in order. */
  function TickBoxes(p: Pose, views: seq<EchoView>, tick: Tick): seq<Rect>
  {
    [ActorBox(PoseAfter(p, tick).x, PoseAfter(p, tick).y)] + ViewBoxes(StepViews(views, tick.time))
  }

  /** The interaction loop of a live player over a level's interactive
      objects, in list order: every switch and terminal the player's box
      overlaps is activated, and for each activation the player records one
      interact action stamped `elapsed`. Plates are skipped. */
  method ActivateTouched(player: Player, level: Level, elapsed: int)
    modifies player, level`switches, level`terminals
    ensures player.CurrentPose() == old(player.CurrentPose())
    ensures level.switches == ActivatedUpTo(old(level.switches), old(player.Box()), |level.switches|)
    ensures level.terminals == ActivatedUpTo(old(level.terminals), old(player.Box()), |level.terminals|)
    ensures var objects := old(level.GetInteractiveObjects());
      var a := Action(Interact, old(player.x), old(player.y), elapsed, old(player.currentDirection));
      player.actions == old(player.actions) + Repeat(a, ActivationCount(old(player.Box()), objects, |objects|))
  {
    var playerRect := player.Box();
    var objects := level.GetInteractiveObjects();
    ghost var switches0, terminals0 := level.switches, level.terminals;
    ghost var actions0 := player.actions;
    var nS, nP := |level.switches|, |level.pressurePlates|;
    ghost var a := Action(Interact, player.x, player.y, elapsed, player.currentDirection);
    ghost var n := 0;
    var i := 0;
    while i < |objects|
      invariant 0 <= i <= |objects|
      invariant level.switches == ActivatedUpTo(switches0, playerRect, i)
      invariant level.terminals == ActivatedUpTo(terminals0, playerRect, i - nS - nP)
      invariant n == ActivationCount(playerRect, objects, i)
      invariant player.x == old(player.x) && player.y == old(player.y)
      invariant player.currentDirection == old(player.currentDirection)
      invariant player.actions == actions0 + Repeat(a, n)
    {
      var obj := objects[i];
      var hit := InteractWith(player, level, playerRect, obj, i, elapsed, switches0, terminals0);
      if hit {
        RepeatOneMore(a, n);
        n := n + 1;
      }
      i := i + 1;
    }
  }

  /** One object of the interaction loop, at position i of the level's
      interactive list: a switch or terminal that the box overlaps is
      activated and one interact action, stamped `elapsed`, is recorded. */
  method InteractWith(player: Player, level: Level, playerRect: Rect, obj: GameObject, i: int, elapsed: int,
                      ghost switches0: seq<Trigger>, ghost terminals0: seq<Trigger>)
      returns (hit: bool)
    requires 0 <= i < |switches0| + |level.pressurePlates| + |terminals0|
    requires obj == InteractiveList(switches0, level.pressurePlates, terminals0)[i]
    requires level.switches == ActivatedUpTo(switches0, playerRect, i)
    requires level.terminals == ActivatedUpTo(terminals0, playerRect, i - |switches0| - |level.pressurePlates|)
    modifies player, level`switches, level`terminals
    ensures hit == (Interactable(obj) && Overlaps(playerRect, ObjectBox(obj)))
    ensures level.switches == ActivatedUpTo(switches0, playerRect, i + 1)
    ensures level.terminals == ActivatedUpTo(terminals0, playerRect, i + 1 - |switches0| - |level.pressurePlates|)
    ensures player.x == old(player.x) && player.y == old(player.y) && player.currentDirection == old(player.currentDirection)
    ensures player.actions == old(player.actions)
      + if hit then [Action(Interact, player.x, player.y, elapsed, player.currentDirection)] else []
  {
    var nS, nP := |level.switches|, |level.pressurePlates|;
    ActivatedStep(switches0, playerRect, i);
    ActivatedStep(terminals0, playerRect, i - nS - nP);
    hit := false;
    if Overlaps(playerRect, ObjectBox(obj)) {
      if obj.SwitchObject? || obj.TerminalObject? {
        if obj.SwitchObject? {
          level.ActivateSwitch(i);
        } else {
          level.ActivateTerminal(i - nS - nP);
        }
        player.RecordAction(Interact, elapsed);
        hit := true;
      }
    }
  }

  /** The loop-end sweep over a level's interactive objects: every switch
      and terminal is switched off; plates are skipped. */
  method DeactivateAll(level: Level)
    modifies level`switches, level`terminals
    ensures level.switches == DeactivatedUpTo(old(level.switches), |level.switches|)
    ensures level.terminals == DeactivatedUpTo(old(level.terminals), |level.terminals|)
  {
    var objects := level.GetInteractiveObjects();
    ghost var switches0, terminals0 := level.switches, level.terminals;
    var nS, nP := |level.switches|, |level.pressurePlates|;
    var i := 0;
    while i < |objects|
      invariant 0 <= i <= |objects|
      invariant |level.switches| == |switches0| && |level.terminals| == |terminals0|
      invariant forall k :: 0 <= k < |switches0| ==>
        level.switches[k] == if k < i then switches0[k].(isActive := false) else switches0[k]
      invariant forall k :: 0 <= k < |terminals0| ==>
        level.terminals[k] == if k < i - nS - nP then terminals0[k].(isActive := false) else terminals0[k]
    {
      var obj := objects[i];
      if obj.SwitchObject? {
        level.DeactivateSwitch(i);
      } else if obj.TerminalObject? {
        level.DeactivateTerminal(i - nS - nP);
      }
      i := i + 1;
    }
  }

  /** The live player's part of a tick: move in the direction held, if
      any, against the level's walls and gates; a move that happens is
      recorded, stamped `elapsed`. */
  method StepPlayer(player: Player, direction: Direction, elapsed: int, level: Level)
    modifies player
    ensures var tick := Tick(direction, elapsed, level.GetAllObjects());
      && player.CurrentPose() == PoseAfter(old(player.CurrentPose()), tick)
      && player.actions == old(player.actions) + LiveLog(old(player.CurrentPose()), [tick])
  {
    if direction != NoDirection {
      var moved := player.Move(direction, level.GetAllObjects());
      if moved {
        player.RecordAction(Move, elapsed);
      }
    }
  }

  /** One step of the echo loop: echo `i` replays its next due action (its
      interaction touches only solids, so it activates nothing), the echoes
      before it have already stepped and the ones after it have not. */
  method StepEcho(echoes: seq<Echo>, i: int, currentTime: int, level: Level, ghost views: seq<EchoView>, boxes: seq<Rect>)
      returns (boxes': seq<Rect>)
    requires forall a, b :: 0 <= a < b < |echoes| ==> echoes[a] != echoes[b]
    requires 0 <= i < |echoes| == |views|
    requires forall k :: 0 <= k < i ==> echoes[k].View() == EchoStep(views[k], currentTime)
    requires forall k :: i <= k < |echoes| ==> echoes[k].View() == views[k]
    requires boxes == ViewBoxes(StepViews(views, currentTime))[..i]
    modifies echoes[i]
    ensures forall k :: 0 <= k < i + 1 ==> echoes[k].View() == EchoStep(views[k], currentTime)
    ensures forall k :: i + 1 <= k < |echoes| ==> echoes[k].View() == views[k]
    ensures boxes' == ViewBoxes(StepViews(views, currentTime))[..i + 1]
  {
    var echo := echoes[i];
    assert forall k :: 0 <= k < |echoes| && k != i ==> echoes[k] != echo;
    var objects := level.GetAllObjects();
    InteractingWithSolidsIsNoOp(echo.Box(), level.walls, level.gates);
    var touched := echo.Update(currentTime, objects);
    assert touched == objects;
    boxes' := boxes + [echo.Box()];
  }

  /** One replay step for every echo, in order, at the same time reading;
      the result is their boxes afterwards. */
  method StepEchoes(echoes: seq<Echo>, currentTime: int, level: Level) returns (boxes: seq<Rect>)
    requires forall i, j :: 0 <= i < j < |echoes| ==> echoes[i] != echoes[j]
    modifies echoes
    ensures EchoViews(echoes) == StepViews(old(EchoViews(echoes)), currentTime)
    ensures boxes == ViewBoxes(EchoViews(echoes))
  {
    ghost var views := EchoViews(echoes);
    boxes := [];
    var i := 0;
    while i < |echoes|
      invariant 0 <= i <= |echoes|
      invariant forall k :: 0 <= k < i ==> echoes[k].View() == EchoStep(views[k], currentTime)
      invariant forall k :: i <= k < |echoes| ==> echoes[k].View() == views[k]
      invariant boxes == ViewBoxes(StepViews(views, currentTime))[..i]
    {
      boxes := StepEcho(echoes, i, currentTime, level, views, boxes);
      i := i + 1;
    }
  }

  /** The actors' part of a tick: the live player moves, then every echo
      takes one replay step; the result is every actor's box afterwards. */
  method StepActors(player: Player, echoes: seq<Echo>, direction: Direction, elapsed: int, level: Level)
      returns (boxes: seq<Rect>)
    requires forall i, j :: 0 <= i < j < |echoes| ==> echoes[i] != echoes[j]
    modifies player, echoes
    ensures var tick := Tick(direction, elapsed, level.GetAllObjects());
      && player.CurrentPose() == PoseAfter(old(player.CurrentPose()), tick)
      && player.actions == old(player.actions) + LiveLog(old(player.CurrentPose()), [tick])
      && EchoViews(echoes) == StepViews(old(EchoViews(echoes)), elapsed)
      && boxes == TickBoxes(old(player.CurrentPose()), old(EchoViews(echoes)), tick)
  {
    StepPlayer(player, direction, elapsed, level);
    var echoBoxes := StepEchoes(echoes, elapsed, level);
    boxes := [player.Box()] + echoBoxes;
  }

  class Game {
    const levelManager: LevelManager
    var player: Player
    var echoes: seq<Echo>
    var timer: TimerManager
    var gameState: GameState

    ghost predicate Valid()
      reads this`echoes, this`timer, levelManager
    {
      && levelManager.Valid()
      && timer.loopDuration > 0
      && forall i, j :: 0 <= i < j < |echoes| ==> echoes[i] != echoes[j]
    }

    function CurrentLevel(): Level
      reads levelManager
      requires levelManager.Valid()
    {
      levelManager.GetCurrentLevel()
    }

    /** The state right after a (re)start of the current level at `now`: the
        player alone at the level's start with an empty log, a new timer in
        loop 1. Level objects are not part of it. */
    ghost predicate FreshSession(now: int)
      reads this, levelManager, player, timer
      requires levelManager.Valid()
    {
      var level := CurrentLevel();
      && player.x == level.playerStart.0 && player.y == level.playerStart.1
      && player.currentDirection == NoDirection && player.actions == []
      && echoes == []
      && timer.loopDuration == LOOP_DURATION && timer.maxLoops == level.maxLoops
      && timer.startTime == now && timer.currentLoop == 1
      && !timer.paused && timer.pauseTime == 0 && timer.totalPauseTime == 0
    }

    /** The levels are the caller's; the session starts on the first one. */
    constructor (levels: seq<Level>, now: int)
      requires |levels| > 0
      ensures Valid() && FreshSession(now) && gameState == Playing
      ensures levelManager.levels == levels && levelManager.currentLevelIndex == 0
    {
      levelManager := new LevelManager(levels);
      var level := levels[0];
      player := new Player(level.playerStart.0, level.playerStart.1);
      echoes := [];
      timer := new TimerManager(LOOP_DURATION, level.maxLoops, now);
      gameState := Playing;
    }

    /** Restart the current level: new player, no echoes, new timer. The
        level's objects, its switches and its `completed` flag included, are
        left as they are. */
    method ResetGame(now: int)
      requires Valid()
      modifies this`player, this`echoes, this`timer
      ensures Valid() && FreshSession(now) && fresh(player) && fresh(timer)
      ensures unchanged(CurrentLevel())
    {
      var level := levelManager.GetCurrentLevel();
      player := new Player(level.playerStart.0, level.playerStart.1);
      echoes := [];
      timer := new TimerManager(LOOP_DURATION, level.maxLoops, now);
    }

    /** The effect of one interaction request: nothing unless playing;
        otherwise every switch and terminal the player's box overlaps is
        activated, plates are left alone, and one interact action per
        activation is appended to the log, stamped with the total elapsed time. */
    twostate predicate InteractionEffect(now: int)
      reads this, player, timer, levelManager, levelManager.levels
      requires levelManager.Valid()
    {
      var level := CurrentLevel();
      var box := old(player.Box());
      && player.CurrentPose() == old(player.CurrentPose())
      && level.pressurePlates == old(level.pressurePlates)
      && if old(gameState) != Playing then
           && player.actions == old(player.actions)
           && level.switches == old(level.switches) && level.terminals == old(level.terminals)
         else
           var objects := old(level.GetInteractiveObjects());
           var n := ActivationCount(box, objects, |objects|);
           var a := Action(Interact, box.x, box.y, timer.GetElapsedTime(now), player.currentDirection);
           && level.switches == ActivatedUpTo(old(level.switches), box, |level.switches|)
           && level.terminals == ActivatedUpTo(old(level.terminals), box, |level.terminals|)
           && player.actions == old(player.actions) + Repeat(a, n)
    }

    method InteractWithObjects(now: int)
      requires Valid()
      modifies player, CurrentLevel()`switches, CurrentLevel()`terminals
      ensures Valid()
      ensures InteractionEffect(now)
    {
      if gameState != Playing {
        return;
      }
      ActivateTouched(player, levelManager.GetCurrentLevel(), timer.GetElapsedTime(now));
    }

    /** End the current loop: the player's log and position become a new
        echo, the player goes back to the start with an empty log, every
        switch and terminal is switched off, and the loop counter advances. */
    method ResetLoop()
      requires Valid()
      modifies this`echoes, player, CurrentLevel()`switches, CurrentLevel()`terminals, timer
      ensures Valid()
      ensures |echoes| == |old(echoes)| + 1 && echoes[..|old(echoes)|] == old(echoes)
      ensures forall k :: 0 <= k < |old(echoes)| ==> echoes[k].View() == old(echoes[k].View())
      ensures fresh(echoes[|echoes| - 1])
      ensures echoes[|echoes| - 1].View() == EchoView(Pose(old(player.x), old(player.y), NoDirection), old(player.actions), 0)
      ensures echoes[|echoes| - 1].loopNumber == old(timer.currentLoop)
      ensures player.x == CurrentLevel().playerStart.0 && player.y == CurrentLevel().playerStart.1
      ensures player.actions == [] && player.currentDirection == old(player.currentDirection)
      ensures CurrentLevel().switches == DeactivatedUpTo(old(CurrentLevel().switches), |CurrentLevel().switches|)
      ensures CurrentLevel().terminals == DeactivatedUpTo(old(CurrentLevel().terminals), |CurrentLevel().terminals|)
      ensures CurrentLevel().pressurePlates == old(CurrentLevel().pressurePlates)
      ensures timer.currentLoop == old(timer.currentLoop) + 1
      ensures timer.paused == old(timer.paused) && timer.pauseTime == old(timer.pauseTime)
      ensures timer.totalPauseTime == old(timer.totalPauseTime)
    {
      var echo := new Echo(player, timer.currentLoop);
      echoes := echoes + [echo];
      var level := levelManager.GetCurrentLevel();
      player.x, player.y := level.playerStart.0, level.playerStart.1;
      player.actions := [];
      DeactivateAll(level);
      timer.ResetLoop();
    }

    /** One tick, in the order the game runs it: the live player's move (and
        its record, stamped with the total elapsed time), one replay step for
        every echo at that same reading, the level update over all actors,
        then the loop and game-over checks. Nothing happens unless playing. */
    method Update(direction: Direction, now: int)
      requires Valid()
      modifies this`gameState, player, echoes, CurrentLevel()`pressurePlates, CurrentLevel()`gates, CurrentLevel()`completed
      ensures Valid()
      ensures old(gameState) != Playing ==>
        gameState == old(gameState) && unchanged(player) && unchanged(echoes) && unchanged(CurrentLevel())
      ensures old(gameState) == Playing ==>
        var tick := Tick(direction, old(timer.GetElapsedTime(now)), old(CurrentLevel().GetAllObjects()));
        && player.CurrentPose() == PoseAfter(old(player.CurrentPose()), tick)
        && player.actions == old(player.actions) + LiveLog(old(player.CurrentPose()), [tick])
      ensures old(gameState) == Playing ==>
        EchoViews(echoes) == StepViews(old(EchoViews(echoes)), old(timer.GetElapsedTime(now)))
      ensures old(gameState) == Playing ==>
        var tick := Tick(direction, old(timer.GetElapsedTime(now)), old(CurrentLevel().GetAllObjects()));
        var boxes := TickBoxes(old(player.CurrentPose()), old(EchoViews(echoes)), tick);
        var level := CurrentLevel();
        var reached := level.exit.Some? && !old(level.completed) && Overlaps(ExitBox(level.exit.value), boxes[0]);
        && level.pressurePlates == PlatesAfter(old(level.pressurePlates), boxes)
        && level.gates == GatesAfter(old(level.gates), level.switches + level.pressurePlates)
        && level.completed == (old(level.completed) || reached)
        && gameState == if timer.IsGameOver() then GameOver else if reached then LevelComplete else Playing
    {
      if gameState != Playing {
        return;
      }
      var level := levelManager.GetCurrentLevel();
      var elapsed := timer.GetElapsedTime(now);
      var boxes := StepActors(player, echoes, direction, elapsed, level);
      var completedNow := level.Update(boxes);
      if completedNow {
        gameState := LevelComplete;
      }
      if timer.ShouldResetLoop(now) {
        // The loop-end test never holds (see TimerManager.ShouldResetLoop),
        // so the loop reset that would follow here is unreachable.
        assert false;
      }
      if timer.IsGameOver() {
        gameState := GameOver;
      }
    }

    /** React to one input event. Quit and Escape end the run; R restarts the
        current level; Space, when not playing, advances to the next level
        (or to the end of the game) or starts over from the first level;
        E interacts. */
    method HandleEvent(event: Event, now: int) returns (running: bool)
      requires Valid()
      modifies this`gameState, this`player, this`echoes, this`timer, levelManager, player,
        CurrentLevel()`switches, CurrentLevel()`terminals
      ensures Valid()
      ensures running <==> !(event == QuitEvent || event == KeyDown(KeyEscape))
      ensures event in {QuitEvent, KeyDown(KeyEscape), KeyDown(OtherKey)} ==>
        && unchanged(this, levelManager, old(player))
        && CurrentLevel().switches == old(CurrentLevel().switches)
        && CurrentLevel().terminals == old(CurrentLevel().terminals)
      ensures event == KeyDown(KeyR) ==>
        FreshSession(now) && gameState == old(gameState) && levelManager.currentLevelIndex == old(levelManager.currentLevelIndex)
      ensures event == KeyDown(KeySpace) && old(gameState) == Playing ==>
        && unchanged(this, levelManager, old(player))
        && CurrentLevel().switches == old(CurrentLevel().switches)
        && CurrentLevel().terminals == old(CurrentLevel().terminals)
      ensures event == KeyDown(KeySpace) && old(gameState) == LevelComplete ==>
        if old(levelManager.currentLevelIndex) < |levelManager.levels| - 1 then
          levelManager.currentLevelIndex == old(levelManager.currentLevelIndex) + 1 && FreshSession(now) && gameState == Playing
        else
          levelManager.currentLevelIndex == old(levelManager.currentLevelIndex) && gameState == GameComplete
          && player == old(player) && unchanged(player) && echoes == old(echoes) && timer == old(timer)
      ensures event == KeyDown(KeySpace) && old(gameState) in {GameOver, GameComplete} ==>
        levelManager.currentLevelIndex == 0 && FreshSession(now) && gameState == Playing
      ensures event == KeyDown(KeyE) ==>
        levelManager.currentLevelIndex == old(levelManager.currentLevelIndex) && gameState == old(gameState)
        && player == old(player) && echoes == old(echoes) && timer == old(timer) && InteractionEffect(now)
      ensures event != KeyDown(KeyE) ==>
        forall k :: 0 <= k < |levelManager.levels| ==>
          levelManager.levels[k].switches == old(levelManager.levels[k].switches)
          && levelManager.levels[k].terminals == old(levelManager.levels[k].terminals)
    {
      running := true;
      match event {
        case QuitEvent =>
          running := false;
        case KeyDown(key) =>
          match key {
            case KeyEscape =>
              running := false;
            case KeyR =>
              ResetGame(now);
            case KeySpace =>
              if gameState != Playing {
                if gameState == LevelComplete {
                  var advanced := levelManager.NextLevel();
                  if advanced {
                    ResetGame(now);
                    gameState := Playing;
                  } else {
                    gameState := GameComplete;
                  }
                } else {
                  levelManager.currentLevelIndex := 0;
                  ResetGame(now);
                  gameState := Playing;
                }
              }
            case KeyE =>
              InteractWithObjects(now);
            case OtherKey =>
          }
      }
    }
  }
}
