/** The puzzle objects of a level (walls, switches, pressure plates, gates,
    terminals and the exit), the blocking rule for movement, and the per-object
    update rules of the puzzle graph. */
module Objects {
  import opened Geometry

  datatype Option<T> = None | Some(value: T)

  datatype Wall = Wall(x: int, y: int, width: int, height: int)

  /** A switch, a pressure plate and a terminal hold the same state: a
      tile-sized square, the id of the gate it targets, and whether it is
      active. Which of the three it is follows from the level list holding it. */
  datatype Trigger = Trigger(x: int, y: int, targetId: int, isActive: bool)

  datatype Gate = Gate(x: int, y: int, width: int, height: int, gateId: int, isOpen: bool)

  /** The exit is a tile-sized square with no state of its own. */
  datatype Exit = Exit(x: int, y: int)

  function WallBox(w: Wall): Rect { Rect(w.x, w.y, w.width, w.height) }
  function TriggerBox(t: Trigger): Rect { Rect(t.x, t.y, TILE_SIZE, TILE_SIZE) }
  function GateBox(g: Gate): Rect { Rect(g.x, g.y, g.width, g.height) }
  function ExitBox(e: Exit): Rect { Rect(e.x, e.y, TILE_SIZE, TILE_SIZE) }

  /** A level object as it appears in the mixed lists a level hands out
      (walls + gates for movement, switches + plates + terminals for interaction). */
  datatype GameObject =
    | WallObject(wall: Wall)
    | SwitchObject(trigger: Trigger)
    | PlateObject(trigger: Trigger)
    | GateObject(gate: Gate)
    | TerminalObject(trigger: Trigger)

  function ObjectBox(o: GameObject): Rect
  {
    match o
    case WallObject(w) => WallBox(w)
    case GateObject(g) => GateBox(g)
    case SwitchObject(t) => TriggerBox(t)
    case PlateObject(t) => TriggerBox(t)
    case TerminalObject(t) => TriggerBox(t)
  }

  /** The list of walls followed by the list of gates, in that order. */
  function SolidList(walls: seq<Wall>, gates: seq<Gate>): (r: seq<GameObject>)
    ensures |r| == |walls| + |gates|
    ensures forall k :: 0 <= k < |r| ==>
      r[k] == if k < |walls| then WallObject(walls[k]) else GateObject(gates[k - |walls|])
  {
    seq(|walls|, k requires 0 <= k < |walls| => WallObject(walls[k]))
      + seq(|gates|, k requires 0 <= k < |gates| => GateObject(gates[k]))
  }

  /** The switches, then the pressure plates, then the terminals. */
  function InteractiveList(switches: seq<Trigger>, plates: seq<Trigger>, terminals: seq<Trigger>): (r: seq<GameObject>)
    ensures |r| == |switches| + |plates| + |terminals|
    ensures forall k :: 0 <= k < |r| ==>
      r[k] == if k < |switches| then SwitchObject(switches[k])
              else if k < |switches| + |plates| then PlateObject(plates[k - |switches|])
              else TerminalObject(terminals[k - |switches| - |plates|])
  {
    seq(|switches|, k requires 0 <= k < |switches| => SwitchObject(switches[k]))
      + seq(|plates|, k requires 0 <= k < |plates| => PlateObject(plates[k]))
      + seq(|terminals|, k requires 0 <= k < |terminals| => TerminalObject(terminals[k]))
  }

  // ---------------------------------------------------------------------------
  // Blocking

  /** A wall blocks any box it overlaps; a gate blocks only while closed;
      nothing else ever blocks. */
  predicate Blocks(o: GameObject, box: Rect)
  {
    match o
    case WallObject(w) => Overlaps(box, WallBox(w))
    case GateObject(g) => !g.isOpen && Overlaps(box, GateBox(g))
    case _ => false
  }

  /** The player's collision check: some object of the list blocks the box,
      that is, the box overlaps a wall or a closed gate of the list. */
  predicate Collides(box: Rect, objects: seq<GameObject>): (b: bool)
    ensures b <==> exists i :: 0 <= i < |objects| && IsBlocker(objects[i]) && Overlaps(box, ObjectBox(objects[i]))
  {
    exists i :: 0 <= i < |objects| && Blocks(objects[i], box)
  }

  predicate IsBlocker(o: GameObject)
  {
    o.WallObject? || (o.GateObject? && !o.gate.isOpen)
  }

  /** The walls and closed gates of a list, in order. */
  function Blockers(objects: seq<GameObject>): (r: seq<GameObject>)
    ensures forall k :: 0 <= k < |r| ==> IsBlocker(r[k])
    ensures |r| <= |objects|
  {
    if objects == [] then []
    else (if IsBlocker(objects[0]) then [objects[0]] else []) + Blockers(objects[1..])
  }

  /** Nothing but walls and closed gates survives the filter, and every one
      of them does. */
  lemma {:induction false} BlockersKeepsEveryBlocker(objects: seq<GameObject>)
    ensures forall o :: o in Blockers(objects) <==> o in objects && IsBlocker(o)
  {
    if objects != [] {
      BlockersKeepsEveryBlocker(objects[1..]);
      assert objects == [objects[0]] + objects[1..];
    }
  }

  lemma CollidesAppend(box: Rect, a: seq<GameObject>, b: seq<GameObject>)
    ensures Collides(box, a + b) <==> Collides(box, a) || Collides(box, b)
  {
    if Collides(box, a + b) {
      var i :| 0 <= i < |a + b| && Blocks((a + b)[i], box);
      if i >= |a| {
        assert b[i - |a|] == (a + b)[i];
      }
    }
    if Collides(box, a) {
      var i :| 0 <= i < |a| && Blocks(a[i], box);
      assert (a + b)[i] == a[i];
    }
    if Collides(box, b) {
      var i :| 0 <= i < |b| && Blocks(b[i], box);
      assert (a + b)[|a| + i] == b[i];
    }
  }

  /** Only walls and closed gates matter for collisions: dropping every open
      gate and every trigger from the list never changes the answer. */
  lemma {:induction false} OnlyBlockersCollide(box: Rect, objects: seq<GameObject>)
    ensures Collides(box, objects) <==> Collides(box, Blockers(objects))
  {
    if objects != [] {
      var head := if IsBlocker(objects[0]) then [objects[0]] else [];
      assert objects == [objects[0]] + objects[1..];
      CollidesAppend(box, [objects[0]], objects[1..]);
      CollidesAppend(box, head, Blockers(objects[1..]));
      OnlyBlockersCollide(box, objects[1..]);
      assert Collides(box, [objects[0]]) <==> Blocks(objects[0], box);
      assert Collides(box, head) <==> Blocks(objects[0], box);
    }
  }

  // ---------------------------------------------------------------------------
  // Pressure plates and gates

  /** Some actor's box overlaps the plate. */
  predicate Occupied(plate: Trigger, players: seq<Rect>)
  {
    exists j :: 0 <= j < |players| && Overlaps(TriggerBox(plate), players[j])
  }

  /** A pressure plate's update: clear the flag, then set it on the first
      actor found standing on the plate. The plate keeps no memory of its
      previous state. */
  method UpdatePlate(plate: Trigger, players: seq<Rect>) returns (updated: Trigger)
    ensures updated.isActive <==> Occupied(plate, players)
    ensures updated.(isActive := plate.isActive) == plate
  {
    updated := plate.(isActive := false);
    var plateRect := TriggerBox(plate);
    var j := 0;
    while j < |players|
      invariant 0 <= j <= |players|
      invariant updated == plate.(isActive := false)
      invariant forall k :: 0 <= k < j ==> !Overlaps(plateRect, players[k])
    {
      if Overlaps(plateRect, players[j]) {
        updated := updated.(isActive := true);
        return;
      }
      j := j + 1;
    }
  }

  /** The trigger is active and targets the gate with this id. */
  predicate Drives(t: Trigger, gateId: int)
  {
    t.targetId == gateId && t.isActive
  }

  predicate AnyDrives(triggers: seq<Trigger>, gateId: int)
  {
    exists j :: 0 <= j < |triggers| && Drives(triggers[j], gateId)
  }

  /** A gate's update: open on the first active trigger aimed at it, closed
      when there is none (so a gate nothing targets stays closed). */
  method UpdateGate(gate: Gate, triggers: seq<Trigger>) returns (updated: Gate)
    ensures updated.isOpen <==> AnyDrives(triggers, gate.gateId)
    ensures updated.(isOpen := gate.isOpen) == gate
  {
    var j := 0;
    while j < |triggers|
      invariant 0 <= j <= |triggers|
      invariant forall k :: 0 <= k < j ==> !Drives(triggers[k], gate.gateId)
    {
      if triggers[j].targetId == gate.gateId && triggers[j].isActive {
        return gate.(isOpen := true);
      }
      j := j + 1;
    }
    return gate.(isOpen := false);
  }

  /** An active trigger drives a gate whether it sits in the first list or the second. */
  lemma AnyDrivesAppend(a: seq<Trigger>, b: seq<Trigger>, gateId: int)
    ensures AnyDrives(a + b, gateId) <==> AnyDrives(a, gateId) || AnyDrives(b, gateId)
  {
    if AnyDrives(a + b, gateId) {
      var j :| 0 <= j < |a + b| && Drives((a + b)[j], gateId);
      if j >= |a| {
        assert b[j - |a|] == (a + b)[j];
      }
    }
    if AnyDrives(a, gateId) {
      var j :| 0 <= j < |a| && Drives(a[j], gateId);
      assert (a + b)[j] == a[j];
    }
    if AnyDrives(b, gateId) {
      var j :| 0 <= j < |b| && Drives(b[j], gateId);
      assert (a + b)[|a| + j] == b[j];
    }
  }

  // ---------------------------------------------------------------------------
  // Interaction with switches and terminals

  predicate Touches(box: Rect, t: Trigger)
  {
    Overlaps(box, TriggerBox(t))
  }

  /** The triggers after an interaction that has examined the first n of them:
      each examined trigger the box overlaps is active, everything else is as it was. */
  function ActivatedUpTo(ts: seq<Trigger>, box: Rect, n: int): (r: seq<Trigger>)
    ensures |r| == |ts|
  {
    seq(|ts|, k requires 0 <= k < |ts| =>
      if k < n && Touches(box, ts[k]) then ts[k].(isActive := true) else ts[k])
  }

  /** After an interaction over the whole list, a trigger is active exactly
      when it was active before or the box overlaps it; position and target
      never change. */
  lemma ActivationIsOverlap(ts: seq<Trigger>, box: Rect, k: int)
    requires 0 <= k < |ts|
    ensures ActivatedUpTo(ts, box, |ts|)[k].isActive <==> ts[k].isActive || Touches(box, ts[k])
    ensures ActivatedUpTo(ts, box, |ts|)[k].(isActive := ts[k].isActive) == ts[k]
  {
  }

  /** Examining one more trigger activates it when the box overlaps it;
      outside the list nothing changes. */
  lemma ActivatedStep(ts: seq<Trigger>, box: Rect, n: int)
    ensures ActivatedUpTo(ts, box, n + 1)
         == if 0 <= n < |ts| && Touches(box, ts[n]) then ActivatedUpTo(ts, box, n)[n := ts[n].(isActive := true)]
            else ActivatedUpTo(ts, box, n)
  {
  }

  /** The triggers with the first n of them switched off. */
  function DeactivatedUpTo(ts: seq<Trigger>, n: int): (r: seq<Trigger>)
    ensures |r| == |ts|
  {
    seq(|ts|, k requires 0 <= k < |ts| => if k < n then ts[k].(isActive := false) else ts[k])
  }

  predicate Interactable(o: GameObject)
  {
    o.SwitchObject? || o.TerminalObject?
  }

  /** A switch or terminal with its flag set. */
  function Activated(o: GameObject): (r: GameObject)
    requires Interactable(o)
    ensures Interactable(r) && r.trigger == o.trigger.(isActive := true)
    ensures r.SwitchObject? <==> o.SwitchObject?
  {
    match o
    case SwitchObject(t) => SwitchObject(t.(isActive := true))
    case TerminalObject(t) => TerminalObject(t.(isActive := true))
  }

  /** A list of objects after an actor with this box interacts with it:
      every switch and terminal the box overlaps is activated. */
  function Interacted(box: Rect, objects: seq<GameObject>): (r: seq<GameObject>)
    ensures |r| == |objects|
  {
    seq(|objects|, k requires 0 <= k < |objects| =>
      if Interactable(objects[k]) && Overlaps(box, ObjectBox(objects[k])) then Activated(objects[k]) else objects[k])
  }

  /** How many of the first n objects an actor with this box activates:
      the switches and terminals among them that it overlaps. */
  function ActivationCount(box: Rect, objects: seq<GameObject>, n: nat): (r: nat)
    requires n <= |objects|
    ensures r <= n
  {
    if n == 0 then 0
    else
      ActivationCount(box, objects, n - 1)
        + (if Interactable(objects[n - 1]) && Overlaps(box, ObjectBox(objects[n - 1])) then 1 else 0)
  }

  /** The count is zero exactly when none of the first n objects is a switch
      or terminal that the box overlaps. */
  lemma {:induction false} ActivationCountZero(box: Rect, objects: seq<GameObject>, n: nat)
    requires n <= |objects|
    ensures ActivationCount(box, objects, n) == 0
        <==> forall k :: 0 <= k < n ==> !(Interactable(objects[k]) && Overlaps(box, ObjectBox(objects[k])))
  {
    if n > 0 {
      ActivationCountZero(box, objects, n - 1);
    }
  }

  /** Interacting with a list of walls and gates changes nothing. */
  lemma InteractingWithSolidsIsNoOp(box: Rect, walls: seq<Wall>, gates: seq<Gate>)
    ensures Interacted(box, SolidList(walls, gates)) == SolidList(walls, gates)
  {
    var objects := SolidList(walls, gates);
    var r := Interacted(box, objects);
    forall k | 0 <= k < |objects|
      ensures r[k] == objects[k]
    {
      assert !Interactable(objects[k]);
    }
  }

  /** Interacting with the interactive list of a level is the same as
      activating, in the switch list and in the terminal list, every trigger
      the box overlaps; pressure plates are left alone. */
  lemma InteractedLevelLists(box: Rect, switches: seq<Trigger>, plates: seq<Trigger>, terminals: seq<Trigger>)
    ensures Interacted(box, InteractiveList(switches, plates, terminals))
         == InteractiveList(ActivatedUpTo(switches, box, |switches|), plates, ActivatedUpTo(terminals, box, |terminals|))
  {
    var lhs := Interacted(box, InteractiveList(switches, plates, terminals));
    var rhs := InteractiveList(ActivatedUpTo(switches, box, |switches|), plates, ActivatedUpTo(terminals, box, |terminals|));
    var s, p := |switches|, |plates|;
    forall k | 0 <= k < |lhs|
      ensures lhs[k] == rhs[k]
    {
      if k < s {
      } else if k < s + p {
        assert lhs[s + (k - s)] == rhs[s + (k - s)];
      } else {
        assert lhs[s + p + (k - s - p)] == rhs[s + p + (k - s - p)];
      }
    }
  }
}
