/** A level's object set and its per-tick update (pressure plates, then gates,
    then the exit), and the manager that walks through the levels. */
module Levels {
  import opened Geometry
  import opened Objects

  /** Every plate recomputed from scratch: active exactly when some actor is on it. */
  function PlatesAfter(plates: seq<Trigger>, players: seq<Rect>): (r: seq<Trigger>)
    ensures |r| == |plates|
  {
    seq(|plates|, k requires 0 <= k < |plates| => plates[k].(isActive := Occupied(plates[k], players)))
  }

  /** Every gate recomputed from scratch: open exactly when some trigger of the list drives it. */
  function GatesAfter(gates: seq<Gate>, triggers: seq<Trigger>): (r: seq<Gate>)
    ensures |r| == |gates|
  {
    seq(|gates|, k requires 0 <= k < |gates| => gates[k].(isOpen := AnyDrives(triggers, gates[k].gateId)))
  }

  /** Plates have no memory: two plate lists that differ only in their flags
      come out of an update identical. */
  lemma PlatesHaveNoMemory(plates: seq<Trigger>, others: seq<Trigger>, players: seq<Rect>)
    requires |plates| == |others|
    requires forall k :: 0 <= k < |plates| ==> plates[k].(isActive := others[k].isActive) == others[k]
    ensures PlatesAfter(plates, players) == PlatesAfter(others, players)
  {
    forall k | 0 <= k < |plates|
      ensures PlatesAfter(plates, players)[k] == PlatesAfter(others, players)[k]
    {
      assert TriggerBox(plates[k]) == TriggerBox(others[k]);
    }
  }

  /** Gates have no hysteresis: recomputing them again from the same triggers changes nothing. */
  lemma GatesIdempotent(gates: seq<Gate>, triggers: seq<Trigger>)
    ensures GatesAfter(GatesAfter(gates, triggers), triggers) == GatesAfter(gates, triggers)
  {
  }

  /** With the switches and plates as a level passes them, a gate is open
      exactly when an active switch or an active plate targets it; terminals
      play no part. */
  lemma GateOpenIffSwitchOrPlate(gates: seq<Gate>, switches: seq<Trigger>, plates: seq<Trigger>, k: int)
    requires 0 <= k < |gates|
    ensures GatesAfter(gates, switches + plates)[k].isOpen
        <==> AnyDrives(switches, gates[k].gateId) || AnyDrives(plates, gates[k].gateId)
  {
    AnyDrivesAppend(switches, plates, gates[k].gateId);
  }

  class Level {
    const levelNumber: int
    const playerStart: (int, int)
    const maxLoops: int
    var walls: seq<Wall>
    var switches: seq<Trigger>
    var pressurePlates: seq<Trigger>
    var gates: seq<Gate>
    var terminals: seq<Trigger>
    var exit: Option<Exit>
    var completed: bool

    constructor (levelNumber: int, playerStart: (int, int), maxLoops: int)
      ensures this.levelNumber == levelNumber && this.playerStart == playerStart && this.maxLoops == maxLoops
      ensures walls == [] && switches == [] && pressurePlates == [] && gates == [] && terminals == []
      ensures exit == None && !completed
    {
      this.levelNumber := levelNumber;
      this.playerStart := playerStart;
      this.maxLoops := maxLoops;
      walls, switches, pressurePlates, gates, terminals := [], [], [], [], [];
      exit := None;
      completed := false;
    }

    method AddWall(x: int, y: int, width: int, height: int)
      modifies this`walls
      ensures walls == old(walls) + [Wall(x, y, width, height)]
    {
      walls := walls + [Wall(x, y, width, height)];
    }

    /** Switches, plates and terminals start inactive. */
    method AddSwitch(x: int, y: int, targetId: int)
      modifies this`switches
      ensures switches == old(switches) + [Trigger(x, y, targetId, false)]
    {
      switches := switches + [Trigger(x, y, targetId, false)];
    }

    method AddPressurePlate(x: int, y: int, targetId: int)
      modifies this`pressurePlates
      ensures pressurePlates == old(pressurePlates) + [Trigger(x, y, targetId, false)]
    {
      pressurePlates := pressurePlates + [Trigger(x, y, targetId, false)];
    }

    /** Gates start closed. */
    method AddGate(x: int, y: int, width: int, height: int, gateId: int)
      modifies this`gates
      ensures gates == old(gates) + [Gate(x, y, width, height, gateId, false)]
    {
      gates := gates + [Gate(x, y, width, height, gateId, false)];
    }

    method AddTerminal(x: int, y: int, targetId: int)
      modifies this`terminals
      ensures terminals == old(terminals) + [Trigger(x, y, targetId, false)]
    {
      terminals := terminals + [Trigger(x, y, targetId, false)];
    }

    method SetExit(x: int, y: int)
      modifies this`exit
      ensures exit == Some(Exit(x, y))
    {
      exit := Some(Exit(x, y));
    }

    /** A switch or terminal turned on or off in place; nothing else changes. */
    method ActivateSwitch(k: int)
      requires 0 <= k < |switches|
      modifies this`switches
      ensures switches == old(switches)[k := old(switches)[k].(isActive := true)]
    {
      switches := switches[k := switches[k].(isActive := true)];
    }

    method DeactivateSwitch(k: int)
      requires 0 <= k < |switches|
      modifies this`switches
      ensures switches == old(switches)[k := old(switches)[k].(isActive := false)]
    {
      switches := switches[k := switches[k].(isActive := false)];
    }

    method ActivateTerminal(k: int)
      requires 0 <= k < |terminals|
      modifies this`terminals
      ensures terminals == old(terminals)[k := old(terminals)[k].(isActive := true)]
    {
      terminals := terminals[k := terminals[k].(isActive := true)];
    }

    method DeactivateTerminal(k: int)
      requires 0 <= k < |terminals|
      modifies this`terminals
      ensures terminals == old(terminals)[k := old(terminals)[k].(isActive := false)]
    {
      terminals := terminals[k := terminals[k].(isActive := false)];
    }

    /** What movement collides with: the walls, then the gates. No switch,
        plate or terminal is in it. */
    function GetAllObjects(): (r: seq<GameObject>)
      reads this
      ensures r == SolidList(walls, gates)
      ensures forall k :: 0 <= k < |r| ==> !Interactable(r[k])
    {
      SolidList(walls, gates)
    }

    /** What a player can interact with: the switches, the plates, then the terminals. */
    function GetInteractiveObjects(): (r: seq<GameObject>)
      reads this
      ensures r == InteractiveList(switches, pressurePlates, terminals)
      ensures forall k :: 0 <= k < |r| ==> !IsBlocker(r[k])
    {
      InteractiveList(switches, pressurePlates, terminals)
    }

    /** The per-tick update. Plates are recomputed from the actors' boxes,
        then gates from the switches and plates only, then the first actor
        (the live player) is tested against the exit. Returns true only on
        the tick that sets `completed`, which is never cleared here. */
    method Update(players: seq<Rect>) returns (reached: bool)
      modifies this`pressurePlates, this`gates, this`completed
      ensures pressurePlates == PlatesAfter(old(pressurePlates), players)
      ensures gates == GatesAfter(old(gates), switches + pressurePlates)
      ensures reached == (exit.Some? && |players| > 0 && !old(completed) && Overlaps(ExitBox(exit.value), players[0]))
      ensures completed == (old(completed) || reached)
    {
      var i := 0;
      while i < |pressurePlates|
        invariant 0 <= i <= |pressurePlates| == |old(pressurePlates)|
        invariant forall k :: 0 <= k < i ==> pressurePlates[k] == PlatesAfter(old(pressurePlates), players)[k]
        invariant forall k :: i <= k < |pressurePlates| ==> pressurePlates[k] == old(pressurePlates)[k]
        invariant gates == old(gates) && completed == old(completed)
      {
        var plate := UpdatePlate(pressurePlates[i], players);
        pressurePlates := pressurePlates[i := plate];
        i := i + 1;
      }
      var triggers := switches + pressurePlates;
      i := 0;
      while i < |gates|
        invariant 0 <= i <= |gates| == |old(gates)|
        invariant forall k :: 0 <= k < i ==> gates[k] == GatesAfter(old(gates), triggers)[k]
        invariant forall k :: i <= k < |gates| ==> gates[k] == old(gates)[k]
        invariant pressurePlates == PlatesAfter(old(pressurePlates), players) && completed == old(completed)
      {
        var gate := UpdateGate(gates[i], triggers);
        gates := gates[i := gate];
        i := i + 1;
      }
      reached := false;
      if exit.Some? && |players| > 0 && !completed {
        if Overlaps(ExitBox(exit.value), players[0]) {
          completed := true;
          reached := true;
        }
      }
    }
  }

  class LevelManager {
    const levels: seq<Level>
    var currentLevelIndex: int

    ghost predicate Valid()
      reads this
    {
      0 <= currentLevelIndex < |levels|
    }

    /** The level list is the caller's; the first level is current. */
    constructor (levels: seq<Level>)
      requires |levels| > 0
      ensures Valid() && this.levels == levels && currentLevelIndex == 0
    {
      this.levels := levels;
      currentLevelIndex := 0;
    }

    function GetCurrentLevel(): (level: Level)
      reads this
      requires Valid()
      ensures level in levels
    {
      levels[currentLevelIndex]
    }

    /** Move to the following level if there is one; otherwise report false
        and change nothing. */
    method NextLevel() returns (advanced: bool)
      requires Valid()
      modifies this
      ensures Valid()
      ensures advanced <==> old(currentLevelIndex) < |levels| - 1
      ensures currentLevelIndex == if advanced then old(currentLevelIndex) + 1 else old(currentLevelIndex)
    {
      if currentLevelIndex < |levels| - 1 {
        currentLevelIndex := currentLevelIndex + 1;
        return true;
      }
      return false;
    }
  }
}
