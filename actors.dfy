/** The live player and its echoes: movement against walls and gates, the
    action log, and the replay of a frozen log by an echo. */
module Actors {
  import opened Geometry
  import opened Objects

  datatype Direction = NoDirection | Up | Down | Left | Right

  /** The kinds of recorded action the game produces: "move" and "interact". */
  datatype ActionKind = Move | Interact

  /** One log entry: what was done, the actor's position and facing at that
      moment, and the timer reading (total elapsed time) when it was recorded. */
  datatype Action = Action(kind: ActionKind, x: int, y: int, timeStamp: int, direction: Direction)

  /** Where an actor stands and which way it faces. */
  datatype Pose = Pose(x: int, y: int, direction: Direction)

  /** An actor's box is one tile less ten pixels on each side. */
  const PLAYER_SIZE: int := TILE_SIZE - 10
  /** Pixels per successful move. */
  const SPEED: int := 5

  function ActorBox(x: int, y: int): Rect { Rect(x, y, PLAYER_SIZE, PLAYER_SIZE) }

  predicate OnScreen(x: int, y: int)
  {
    0 <= x <= SCREEN_WIDTH - PLAYER_SIZE && 0 <= y <= SCREEN_HEIGHT - PLAYER_SIZE
  }

  /** The position one step away in the given direction (no step for NoDirection). */
  function Shifted(p: Pose, d: Direction): (int, int)
  {
    match d
    case Up => (p.x, p.y - SPEED)
    case Down => (p.x, p.y + SPEED)
    case Left => (p.x - SPEED, p.y)
    case Right => (p.x + SPEED, p.y)
    case NoDirection => (p.x, p.y)
  }

  /** The outcome of one movement attempt: None when the shifted box is
      blocked (the pose stays as it was), otherwise the shifted position
      clamped to the screen, facing the requested direction. */
  function TryMove(p: Pose, d: Direction, objects: seq<GameObject>): (r: Option<Pose>)
    ensures r.None? <==> Collides(ActorBox(Shifted(p, d).0, Shifted(p, d).1), objects)
    ensures r.Some? ==> OnScreen(r.value.x, r.value.y) && r.value.direction == d
    ensures r.Some? && OnScreen(Shifted(p, d).0, Shifted(p, d).1) ==> r.value.x == Shifted(p, d).0 && r.value.y == Shifted(p, d).1
  {
    var (nx, ny) := Shifted(p, d);
    if Collides(ActorBox(nx, ny), objects) then None
    else Some(Pose(Clamp(nx, 0, SCREEN_WIDTH - PLAYER_SIZE), Clamp(ny, 0, SCREEN_HEIGHT - PLAYER_SIZE), d))
  }

  /** Open gates, switches, plates and terminals never stop a move: the
      outcome is the same with only the walls and closed gates in the list. */
  lemma OpenGatesNeverBlock(p: Pose, d: Direction, objects: seq<GameObject>)
    ensures TryMove(p, d, objects) == TryMove(p, d, Blockers(objects))
  {
    var (nx, ny) := Shifted(p, d);
    OnlyBlockersCollide(ActorBox(nx, ny), objects);
  }

  /** From a position on screen, a successful move changes one coordinate by
      at most one step and leaves the other alone. */
  lemma MoveIsOneStep(p: Pose, d: Direction, objects: seq<GameObject>)
    requires OnScreen(p.x, p.y)
    requires TryMove(p, d, objects).Some?
    ensures var q := TryMove(p, d, objects).value;
      (q.x == p.x && p.y - SPEED <= q.y <= p.y + SPEED) || (q.y == p.y && p.x - SPEED <= q.x <= p.x + SPEED)
  {
  }

  /** The live player. Width, height and speed never change. */
  class Player {
    var x: int
    var y: int
    const width: int := PLAYER_SIZE
    const height: int := PLAYER_SIZE
    const speed: int := SPEED
    var actions: seq<Action>
    var currentDirection: Direction

    constructor (x: int, y: int)
      ensures this.x == x && this.y == y && currentDirection == NoDirection && actions == []
    {
      this.x := x;
      this.y := y;
      actions := [];
      currentDirection := NoDirection;
    }

    function CurrentPose(): Pose reads this { Pose(x, y, currentDirection) }
    function Box(): Rect reads this { Rect(x, y, width, height) }

    /** Try one step: undo it if the new box hits a wall or a closed gate,
        otherwise clamp to the screen and face the direction. */
    method Move(direction: Direction, objects: seq<GameObject>) returns (moved: bool)
      modifies this
      ensures moved == TryMove(old(CurrentPose()), direction, objects).Some?
      ensures CurrentPose() == if moved then TryMove(old(CurrentPose()), direction, objects).value else old(CurrentPose())
      ensures actions == old(actions)
    {
      var oldX, oldY := x, y;
      match direction {
        case Up => y := y - speed;
        case Down => y := y + speed;
        case Left => x := x - speed;
        case Right => x := x + speed;
        case NoDirection =>
      }
      if Collides(Box(), objects) {
        x, y := oldX, oldY;
        return false;
      }
      x := Clamp(x, 0, SCREEN_WIDTH - width);
      y := Clamp(y, 0, SCREEN_HEIGHT - height);
      currentDirection := direction;
      return true;
    }

    /** Append one action taken at the current pose; earlier entries stay. */
    method RecordAction(kind: ActionKind, timeStamp: int)
      modifies this
      ensures actions == old(actions) + [Action(kind, x, y, timeStamp, currentDirection)]
      ensures CurrentPose() == old(CurrentPose())
    {
      actions := actions + [Action(kind, x, y, timeStamp, currentDirection)];
    }
  }

  // ---------------------------------------------------------------------------
  // Replay

  /** What an echo's replay depends on: its pose, its frozen log and its cursor. */
  datatype EchoView = EchoView(pose: Pose, actions: seq<Action>, index: nat)

  /** The action under the cursor is due at this clock reading. */
  predicate Due(v: EchoView, t: int)
  {
    v.index < |v.actions| && t >= v.actions[v.index].timeStamp
  }

  function ActionPose(a: Action): Pose { Pose(a.x, a.y, a.direction) }

  /** One replay step: consume at most one due action; a move puts the echo
      where the action was recorded, an interact leaves it in place. */
  function EchoStep(v: EchoView, t: int): (r: EchoView)
    ensures r.actions == v.actions
    ensures r.index == if Due(v, t) then v.index + 1 else v.index
    ensures !Due(v, t) ==> r == v
    ensures Due(v, t) && v.actions[v.index].kind == Move ==> r.pose == ActionPose(v.actions[v.index])
    ensures Due(v, t) && v.actions[v.index].kind == Interact ==> r.pose == v.pose
    ensures v.index <= |v.actions| ==> r.index <= |r.actions|
  {
    if Due(v, t) then
      var a := v.actions[v.index];
      match a.kind
      case Move => EchoView(ActionPose(a), v.actions, v.index + 1)
      case Interact => v.(index := v.index + 1)
    else v
  }

  /** The echo after one replay step per clock reading. */
  function Replay(v: EchoView, times: seq<int>): (r: EchoView)
    ensures r.actions == v.actions
    ensures v.index <= r.index <= v.index + |times|
    ensures v.index <= |v.actions| ==> r.index <= |r.actions|
    decreases |times|
  {
    if times == [] then v else Replay(EchoStep(v, times[0]), times[1..])
  }

  /** Even when the clock is already past every recorded action, an echo
      catches up by only one action per step: after k steps it has consumed
      min(k, remaining) actions. */
  lemma {:induction false} ReplayConsumesOnePerStep(v: EchoView, times: seq<int>)
    requires v.index <= |v.actions|
    requires forall i, j :: 0 <= i < |times| && 0 <= j < |v.actions| ==> times[i] >= v.actions[j].timeStamp
    ensures Replay(v, times).index == if v.index + |times| <= |v.actions| then v.index + |times| else |v.actions|
    decreases |times|
  {
    if times != [] {
      ReplayConsumesOnePerStep(EchoStep(v, times[0]), times[1..]);
    }
  }

  /** The echo's pose after each replay step. */
  function EchoTrace(v: EchoView, times: seq<int>): (r: seq<Pose>)
    ensures |r| == |times|
    decreases |times|
  {
    if times == [] then []
    else
      var w := EchoStep(v, times[0]);
      [w.pose] + EchoTrace(w, times[1..])
  }

  /** The trace records, after each update, the pose the replay has reached. */
  lemma {:induction false} EchoTraceIsReplay(v: EchoView, times: seq<int>, k: nat)
    requires k < |times|
    ensures EchoTrace(v, times)[k] == Replay(v, times[..k + 1]).pose
    decreases k
  {
    var w := EchoStep(v, times[0]);
    assert times[..k + 1][1..] == times[1..][..k];
    if k > 0 {
      EchoTraceIsReplay(w, times[1..], k - 1);
    }
  }

  /** Replay as the game runs it in later loops, where the total elapsed time
      is already past every recorded stamp: the echo takes its recorded
      actions one per update, in order. After update k it stands at the pose
      of the k-th remaining action when that is a move; after an interact,
      or once the log is used up, it stays where it was. */
  lemma {:induction false} OverdueReplay(v: EchoView, times: seq<int>, k: nat)
    requires v.index <= |v.actions|
    requires forall i, j :: 0 <= i < |times| && 0 <= j < |v.actions| ==> times[i] >= v.actions[j].timeStamp
    requires k < |times|
    ensures EchoTrace(v, times)[k] ==
      if v.index + k < |v.actions| && v.actions[v.index + k].kind == Move then ActionPose(v.actions[v.index + k])
      else if k == 0 then v.pose
      else EchoTrace(v, times)[k - 1]
    decreases k
  {
    var w := EchoStep(v, times[0]);
    var rest := times[1..];
    assert EchoTrace(v, times) == [w.pose] + EchoTrace(w, rest);
    if v.index < |v.actions| {
      assert times[0] >= v.actions[v.index].timeStamp;
      assert Due(v, times[0]);
    }
    if k > 0 {
      OverdueReplay(w, rest, k - 1);
      assert EchoTrace(v, times)[k - 1] == if k == 1 then w.pose else EchoTrace(w, rest)[k - 2];
      if v.index == |v.actions| {
        assert w == v;
      }
    }
  }

  // ---------------------------------------------------------------------------
  // A live run recorded with move actions only, as the game's tick drives it

  /** One tick of input: the direction held, the timer reading, and the walls
      and gates in place during that tick. */
  datatype Tick = Tick(direction: Direction, time: int, objects: seq<GameObject>)

  /** A tick moves the player only when a direction is held and the move succeeds. */
  function LiveStep(p: Pose, tick: Tick): Option<Pose>
  {
    if tick.direction == NoDirection then None else TryMove(p, tick.direction, tick.objects)
  }

  function PoseAfter(p: Pose, tick: Tick): Pose
  {
    match LiveStep(p, tick)
    case Some(q) => q
    case None => p
  }

  /** The player's pose after each tick. */
  function LiveTrace(p: Pose, ticks: seq<Tick>): (r: seq<Pose>)
    ensures |r| == |ticks|
    decreases |ticks|
  {
    if ticks == [] then [] else [PoseAfter(p, ticks[0])] + LiveTrace(PoseAfter(p, ticks[0]), ticks[1..])
  }

  /** Each pose of the trace is one tick's step from the one before it. */
  lemma {:induction false} LiveTraceStep(p: Pose, ticks: seq<Tick>, k: nat)
    requires k < |ticks|
    ensures LiveTrace(p, ticks)[k] == PoseAfter(if k == 0 then p else LiveTrace(p, ticks)[k - 1], ticks[k])
    decreases k
  {
    if k > 0 {
      LiveTraceStep(PoseAfter(p, ticks[0]), ticks[1..], k - 1);
    }
  }

  /** The move actions recorded during the ticks: one per successful move,
      stamped with that tick's timer reading. */
  function LiveLog(p: Pose, ticks: seq<Tick>): seq<Action>
    decreases |ticks|
  {
    if ticks == [] then []
    else match LiveStep(p, ticks[0])
      case Some(q) => [Action(Move, q.x, q.y, ticks[0].time, q.direction)] + LiveLog(q, ticks[1..])
      case None => LiveLog(p, ticks[1..])
  }

  /** Some move succeeded during ticks 0..k. */
  predicate MovedBy(p: Pose, ticks: seq<Tick>, k: nat)
    requires k < |ticks|
  {
    LiveStep(p, ticks[0]).Some? || (k > 0 && MovedBy(PoseAfter(p, ticks[0]), ticks[1..], k - 1))
  }

  function Times(ticks: seq<Tick>): (r: seq<int>)
    ensures |r| == |ticks|
  {
    seq(|ticks|, i requires 0 <= i < |ticks| => ticks[i].time)
  }

  predicate StrictlyIncreasing(ts: seq<int>)
  {
    forall i, j :: 0 <= i < j < |ts| ==> ts[i] < ts[j]
  }

  /** Every action logged during the ticks is stamped with the timer reading
      of one of them. */
  lemma {:induction false} LiveLogStamps(p: Pose, ticks: seq<Tick>)
    ensures forall a :: a in LiveLog(p, ticks) ==> a.timeStamp in Times(ticks)
    decreases |ticks|
  {
    if ticks != [] {
      var rest := ticks[1..];
      LiveLogStamps(PoseAfter(p, ticks[0]), rest);
      assert Times(ticks) == [ticks[0].time] + Times(rest);
    }
  }

  /** Hence no logged action is earlier than a bound all the ticks exceed. */
  lemma LiveLogLaterThan(p: Pose, ticks: seq<Tick>, bound: int)
    requires forall i :: 0 <= i < |ticks| ==> ticks[i].time > bound
    ensures forall a :: a in LiveLog(p, ticks) ==> a.timeStamp > bound
  {
    LiveLogStamps(p, ticks);
  }

  /** Until its first successful move the player stays where it started. */
  lemma {:induction false} StillUntilMoved(p: Pose, ticks: seq<Tick>, k: nat)
    requires k < |ticks| && !MovedBy(p, ticks, k)
    ensures LiveTrace(p, ticks)[k] == p
  {
    if k > 0 {
      StillUntilMoved(PoseAfter(p, ticks[0]), ticks[1..], k - 1);
    }
  }

  /** Replay determinism. An echo whose remaining log is what the player
      recorded over a run of ticks, replayed against the same strictly
      increasing timer readings, stands after every tick where the player
      stood, from the player's first successful move on; before that it keeps
      its own starting pose. */
  lemma {:induction false} ReplayReproducesLiveRun(v: EchoView, p: Pose, ticks: seq<Tick>)
    requires v.index <= |v.actions| && v.actions[v.index..] == LiveLog(p, ticks)
    requires StrictlyIncreasing(Times(ticks))
    ensures forall k :: 0 <= k < |ticks| ==>
      EchoTrace(v, Times(ticks))[k] == if MovedBy(p, ticks, k) then LiveTrace(p, ticks)[k] else v.pose
    decreases |ticks|
  {
    if ticks != [] {
      var t0, rest := ticks[0], ticks[1..];
      assert Times(ticks)[1..] == Times(rest);
      assert StrictlyIncreasing(Times(rest));
      var w := EchoStep(v, t0.time);
      var q := PoseAfter(p, t0);
      forall i | 0 <= i < |rest|
        ensures rest[i].time > t0.time
      {
        assert Times(ticks)[0] < Times(ticks)[i + 1];
      }
      LiveLogLaterThan(q, rest, t0.time);
      match LiveStep(p, t0)
      case Some(q') =>
        assert v.actions[v.index] == Action(Move, q.x, q.y, t0.time, q.direction);
        assert w.pose == q;
        assert w.actions[w.index..] == v.actions[v.index..][1..];
        ReplayReproducesLiveRun(w, q, rest);
        forall k | 0 <= k < |ticks|
          ensures EchoTrace(v, Times(ticks))[k] == LiveTrace(p, ticks)[k]
        {
          if k > 0 && !MovedBy(q, rest, k - 1) {
            StillUntilMoved(q, rest, k - 1);
          }
        }
      case None =>
        if v.index < |v.actions| {
          assert v.actions[v.index] in LiveLog(q, rest);
        }
        assert w == v;
        ReplayReproducesLiveRun(v, p, rest);
    }
  }

  /** The echo an end-of-loop reset makes from a player who recorded only
      moves during the loop: it starts where the player ended, and, replayed
      against the loop's own timer readings, walks the player's path from
      the player's first successful move on. */
  lemma EchoOfLoopWalksLoop(start: Pose, ticks: seq<Tick>, k: nat)
    requires StrictlyIncreasing(Times(ticks))
    requires k < |ticks| && MovedBy(start, ticks, k)
    ensures var finalPose := if ticks == [] then start else LiveTrace(start, ticks)[|ticks| - 1];
      EchoTrace(EchoView(Pose(finalPose.x, finalPose.y, NoDirection), LiveLog(start, ticks), 0), Times(ticks))[k]
        == LiveTrace(start, ticks)[k]
  {
    var finalPose := LiveTrace(start, ticks)[|ticks| - 1];
    var v := EchoView(Pose(finalPose.x, finalPose.y, NoDirection), LiveLog(start, ticks), 0);
    assert v.actions[v.index..] == LiveLog(start, ticks);
    ReplayReproducesLiveRun(v, start, ticks);
  }

  /** An actor that replays the log a player recorded in an earlier loop. */
  class Echo {
    var x: int
    var y: int
    const width: int := PLAYER_SIZE
    const height: int := PLAYER_SIZE
    var currentDirection: Direction
    /** The frozen copy of the player's log: never changed after construction. */
    const actions: seq<Action>
    var currentActionIndex: nat
    const loopNumber: int

    /** Starts at the player's current position, facing nowhere, with its own
        copy of the player's log and the cursor at its first entry. */
    constructor (player: Player, loopNumber: int)
      ensures View() == EchoView(Pose(player.x, player.y, NoDirection), player.actions, 0)
      ensures this.loopNumber == loopNumber
    {
      x := player.x;
      y := player.y;
      currentDirection := NoDirection;
      actions := player.actions;
      currentActionIndex := 0;
      this.loopNumber := loopNumber;
    }

    function View(): EchoView reads this
    {
      EchoView(Pose(x, y, currentDirection), actions, currentActionIndex)
    }

    function Box(): Rect reads this { Rect(x, y, width, height) }

    /** Consume at most one due action. The list handed in comes back with
        the effect of a replayed interact on it. */
    method Update(currentTime: int, objects: seq<GameObject>) returns (result: seq<GameObject>)
      modifies this
      ensures View() == EchoStep(old(View()), currentTime)
      ensures result == if Due(old(View()), currentTime) && actions[old(currentActionIndex)].kind == Interact
                        then Interacted(old(Box()), objects) else objects
    {
      result := objects;
      if currentActionIndex < |actions| {
        var nextAction := actions[currentActionIndex];
        if currentTime >= nextAction.timeStamp {
          match nextAction.kind {
            case Move =>
              x, y := nextAction.x, nextAction.y;
              currentDirection := nextAction.direction;
            case Interact =>
              result := InteractWithObjects(objects);
          }
          currentActionIndex := currentActionIndex + 1;
        }
      }
    }

    /** Activate every switch and terminal of the list that the echo's box overlaps. */
    method InteractWithObjects(objects: seq<GameObject>) returns (result: seq<GameObject>)
      ensures result == Interacted(Box(), objects)
    {
      var box := Box();
      result := objects;
      var i := 0;
      while i < |objects|
        invariant 0 <= i <= |objects| && |result| == |objects|
        invariant forall k :: 0 <= k < i ==> result[k] == Interacted(box, objects)[k]
        invariant forall k :: i <= k < |objects| ==> result[k] == objects[k]
      {
        var obj := objects[i];
        if Interactable(obj) {
          if Overlaps(box, ObjectBox(obj)) {
            result := result[i := Activated(obj)];
          }
        }
        i := i + 1;
      }
    }
  }
}
