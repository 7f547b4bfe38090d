/** The level container and the level loader of src/map.rs. */
module Levels {
  import opened Common
  import opened Constants
  import opened Objects
  import opened Screen

  /** A drawn circle: the goal, checkpoint markers and the end markers of moving platforms. */
  datatype Circle = Circle(center: Vector2, radius: real, color: Rgb)

  // Colours the level loader uses that src/constants.rs does not define; their values are
  // not part of this model.
  const CHECKPOINT_COLOR: Rgb
  const GOAL_COLOR: Rgb
  const MOVING_PLATFORM_INDICATOR_COLOR: Rgb

  /** A body of the player's size at rest. */
  predicate IsPlayerBody(b: BodyState) {
    b.width == PLAYER_WIDTH && b.height == PLAYER_HEIGHT && b.velocity == ZERO
  }

  /** A point the player can respawn from, with the circle that marks it. */
  datatype Checkpoint = Checkpoint(indicator: Circle, respawn: BodyState)

  /** `Checkpoint::new`: the marker as given and a resting player body centred on `playerCenter`. */
  function NewCheckpoint(indicator: Circle, playerCenter: Vector2): (c: Checkpoint)
    ensures c.indicator == indicator
    ensures IsPlayerBody(c.respawn) && c.respawn.center == playerCenter
  {
    Checkpoint(indicator, BodyState(playerCenter, PLAYER_WIDTH, PLAYER_HEIGHT, Vector2(0.0, 0.0)))
  }

  /** The marker drawn at one end of a moving platform's path. */
  function IndicatorAt(p: Vector2): Circle {
    Circle(p, MOVING_PLATFORM_INDICATOR_RADIUS, MOVING_PLATFORM_INDICATOR_COLOR)
  }

  /** The markers of a list of moving platforms: the start and then the end of each platform,
      in platform order. */
  function Indicators(ms: seq<MovingObject>): (cs: seq<Circle>)
    ensures |cs| == 2 * |ms|
    ensures forall i :: 0 <= i < |ms|
              ==> cs[2 * i] == IndicatorAt(ms[i].startPos) && cs[2 * i + 1] == IndicatorAt(ms[i].endPos)
  {
    if ms == [] then []
    else Indicators(ms[..|ms| - 1]) + [IndicatorAt(ms[|ms| - 1].startPos), IndicatorAt(ms[|ms| - 1].endPos)]
  }

  /** A body stands on top of a block: its bottom edge lies on the block's top edge, with its
      centre above the block. */
  predicate RestsOn(b: BodyState, s: StaticObject) {
    var body := Bounds(Rect(b.center, b.width, b.height));
    var block := Bounds(s.Shape());
    body.bottom == block.top && block.left <= b.center.x <= block.right
  }

  /** A checkpoint whose respawn body rests on one of the level's blocks. */
  predicate CheckpointOnBlock(c: Checkpoint, blocks: seq<StaticObject>) {
    exists j :: 0 <= j < |blocks| && RestsOn(c.respawn, blocks[j])
  }

  /** A platform as a level creates it: on its path at its start point, leaving, not yet
      moved. */
  ghost predicate PlatformAtStart(m: MovingObject)
    reads m
  {
    m.Valid() && m.center == m.startPos && m.amountTraveled == 0.0 && m.direction == Leaving
    && m.prevMove == ZERO
  }

  /** Every checkpoint's respawn body is a player body resting on one of the blocks. */
  predicate CheckpointsRest(checks: seq<Checkpoint>, blocks: seq<StaticObject>) {
    forall k :: 0 <= k < |checks| ==> IsPlayerBody(checks[k].respawn) && CheckpointOnBlock(checks[k], blocks)
  }

  // ---------------------------------------------------------------------------------------
  // The level tables
  // ---------------------------------------------------------------------------------------

  /** The arguments of one `MovingObject::new` call of a level table. */
  datatype PlatformRow = PlatformRow(startPos: Vector2, endPos: Vector2, width: real, height: real, moveTime: real)

  /** What one arm of the `match` in `load_map` writes into the map: the blocks, the moving
      platforms, the checkpoints, the goal, the respawn body and the lowest point. */
  datatype LevelData = LevelData(
    blocks: seq<StaticObject>,
    platforms: seq<PlatformRow>,
    checkpoints: seq<Checkpoint>,
    goal: Circle,
    respawn: BodyState,
    lowestPoint: real)

  /** The respawn body the tables write: player-sized and at rest, centred on `center`. */
  function RespawnAt(center: Vector2): BodyState {
    BodyState(center, PLAYER_WIDTH, PLAYER_HEIGHT, Vector2(0.0, 0.0))
  }

  function Level1(): LevelData {
    LevelData(
      [StaticObject(Vector2(180.0, -520.0), 440.0, 1000.0),
       StaticObject(Vector2(650.0, -520.0), 300.0, 1100.0)],
      [],
      [],
      Circle(Vector2(700.0, 100.0), 20.0, GOAL_COLOR),
      RespawnAt(Vector2(0.0, 0.0)),
      -200.0)
  }

  function Level2(): LevelData {
    LevelData(
      [StaticObject(Vector2(180.0, -520.0), 440.0, 1000.0),
       StaticObject(Vector2(1125.0, -500.0), 440.0, 1000.0)],
      [PlatformRow(Vector2(500.0, -32.5), Vector2(740.0, 20.0), 100.0, 26.0, 170.0)],
      [],
      Circle(Vector2(1250.0, 100.0), 20.0, GOAL_COLOR),
      RespawnAt(Vector2(0.0, 0.0)),
      -160.0)
  }

  function Level3(): LevelData {
    LevelData(
      [StaticObject(Vector2(200.0, -500.0), 400.0, 1000.0),
       StaticObject(Vector2(325.0, 340.0), 150.0, 100.0),
       StaticObject(Vector2(50.0, 370.0), 150.0, 100.0),
       StaticObject(Vector2(-225.0, 400.0), 150.0, 100.0)],
      [PlatformRow(Vector2(550.0, -50.0), Vector2(550.0, 300.0), 100.0, 30.0, 150.0)],
      [],
      Circle(Vector2(-480.0, 530.0), 20.0, GOAL_COLOR),
      RespawnAt(Vector2(100.0, 0.0)),
      -150.0)
  }

  function Level4(): LevelData {
    LevelData(
      [StaticObject(Vector2(100.0, -500.0), 400.0, 1000.0),
       StaticObject(Vector2(480.0, 10.0), 100.0, 100.0),
       StaticObject(Vector2(100.0, 250.0), 200.0, 90.0),
       StaticObject(Vector2(-150.0, 300.0), 110.0, 110.0)],
      [PlatformRow(Vector2(365.0, 100.0), Vector2(365.0, 210.0), 120.0, 30.0, 140.0),
       PlatformRow(Vector2(-30.0, 420.0), Vector2(300.0, 470.0), 100.0, 30.0, 200.0)],
      [],
      Circle(Vector2(300.0, 520.0), 20.0, GOAL_COLOR),
      RespawnAt(Vector2(0.0, 0.0)),
      -120.0)
  }

  function Level5(): LevelData {
    LevelData(
      [StaticObject(Vector2(0.0, -800.0), 600.0, 1600.0),
       StaticObject(Vector2(500.0, 300.0), 60.0, 600.0),
       StaticObject(Vector2(700.0, 300.0), 60.0, 600.0),
       StaticObject(Vector2(900.0, 300.0), 60.0, 600.0),
       StaticObject(Vector2(1100.0, 35.0), 70.0, 70.0),
       StaticObject(Vector2(1300.0, 60.0), 100.0, 80.0)],
      [PlatformRow(Vector2(900.0, -100.0), Vector2(900.0, -12.5), 1000.0, 25.0, 100.0)],
      [],
      Circle(Vector2(1480.0, 200.0), 20.0, GOAL_COLOR),
      RespawnAt(Vector2(0.0, 0.0)),
      -500.0)
  }

  function Level6(): LevelData {
    LevelData(
      [StaticObject(Vector2(100.0, -520.0), 400.0, 1000.0),
       StaticObject(Vector2(80.0, 310.0), 120.0, 100.0),
       StaticObject(Vector2(-200.0, 270.0), 120.0, 100.0),
       StaticObject(Vector2(0.0, 590.0), 100.0, 70.0),
       StaticObject(Vector2(270.0, 610.0), 120.0, 100.0)],
      [PlatformRow(Vector2(480.0, -50.0), Vector2(340.0, 300.0), 100.0, 30.0, 180.0),
       PlatformRow(Vector2(-400.0, 340.0), Vector2(-320.0, 600.0), 100.0, 30.0, 100.0)],
      [NewCheckpoint(Circle(Vector2(80.0, 400.0), 15.0, CHECKPOINT_COLOR),
                     Vector2(80.0, 360.0 + PLAYER_HEIGHT / 2.0))],
      Circle(Vector2(440.0, 765.0), 20.0, GOAL_COLOR),
      RespawnAt(Vector2(0.0, 0.0)),
      -250.0)
  }

  function Level7(): LevelData {
    LevelData(
      [StaticObject(Vector2(150.0, -520.0), 450.0, 1000.0),
       StaticObject(Vector2(540.0, -10.0), 100.0, 80.0),
       StaticObject(Vector2(1150.0, 50.0), 140.0, 100.0),
       StaticObject(Vector2(1400.0, 80.0), 100.0, 80.0),
       StaticObject(Vector2(1950.0, 330.0), 120.0, 80.0),
       StaticObject(Vector2(2250.0, 200.0), 100.0, 75.0),
       StaticObject(Vector2(2950.0, 350.0), 150.0, 80.0),
       StaticObject(Vector2(3250.0, 380.0), 150.0, 80.0),
       StaticObject(Vector2(3850.0, 450.0), 150.0, 80.0),
       StaticObject(Vector2(4120.0, 480.0), 120.0, 80.0),
       StaticObject(Vector2(4420.0, 500.0), 70.0, 50.0),
       StaticObject(Vector2(4700.0, 470.0), 70.0, 50.0),
       StaticObject(Vector2(4970.0, 470.0), 70.0, 50.0)],
      [PlatformRow(Vector2(730.0, 40.0), Vector2(800.0, 300.0), 100.0, 30.0, 125.0),
       PlatformRow(Vector2(1600.0, 130.0), Vector2(1650.0, 330.0), 80.0, 22.0, 100.0),
       PlatformRow(Vector2(2420.0, 230.0), Vector2(2620.0, 430.0), 100.0, 25.0, 100.0),
       PlatformRow(Vector2(3500.0, 400.0), Vector2(3550.0, 550.0), 110.0, 30.0, 80.0)],
      [NewCheckpoint(Circle(Vector2(1950.0, 410.0), 15.0, CHECKPOINT_COLOR),
                     Vector2(1950.0, 370.0 + PLAYER_HEIGHT / 2.0)),
       NewCheckpoint(Circle(Vector2(4120.0, 560.0), 15.0, CHECKPOINT_COLOR),
                     Vector2(4120.0, 520.0 + PLAYER_HEIGHT / 2.0))],
      Circle(Vector2(5195.0, 630.0), 20.0, GOAL_COLOR),
      RespawnAt(Vector2(0.0, 0.0)),
      -150.0)
  }

  /** The table `load_map` loads for `level`; there is none outside 1 to 7. */
  function LevelTable(level: nat): (t: Option<LevelData>)
    ensures t.Some? <==> 1 <= level <= 7
  {
    if level == 1 then Some(Level1())
    else if level == 2 then Some(Level2())
    else if level == 3 then Some(Level3())
    else if level == 4 then Some(Level4())
    else if level == 5 then Some(Level5())
    else if level == 6 then Some(Level6())
    else if level == 7 then Some(Level7())
    else None
  }

  /** The design rules every table keeps: the respawn body has the player's size and no
      velocity, every platform takes a positive time to travel, every checkpoint's respawn
      body is a player body resting on a block, the goal has radius 20 and the goal colour,
      and the lowest point is below zero. */
  predicate WellFormed(t: LevelData) {
    && IsPlayerBody(t.respawn)
    && (forall i :: 0 <= i < |t.platforms| ==> t.platforms[i].moveTime > 0.0)
    && CheckpointsRest(t.checkpoints, t.blocks)
    && t.goal.radius == 20.0 && t.goal.color == GOAL_COLOR
    && t.lowestPoint < 0.0
  }

  /** Every one of the seven tables keeps the design rules. */
  lemma LevelTableWellFormed(level: nat)
    requires 1 <= level <= 7
    ensures WellFormed(LevelTable(level).value)
  {
    if level == 6 {
      Level6WellFormed();
    } else if level == 7 {
      Level7WellFormed();
    }
  }

  /** The checkpoint of level 6 rests on its second block. */
  lemma Level6WellFormed()
    ensures WellFormed(Level6())
  {
    var t := Level6();
    assert RestsOn(t.checkpoints[0].respawn, t.blocks[1]);
  }

  /** The checkpoints of level 7 rest on its fifth and tenth blocks. */
  lemma Level7WellFormed()
    ensures WellFormed(Level7())
  {
    var t := Level7();
    assert RestsOn(t.checkpoints[0].respawn, t.blocks[4]);
    assert RestsOn(t.checkpoints[1].respawn, t.blocks[9]);
  }

  /** How many blocks, platforms and checkpoints each level has; only levels 6 and 7 have
      checkpoints and only level 1 has no platforms. */
  lemma LevelTableCounts(level: nat)
    requires 1 <= level <= 7
    ensures var t := LevelTable(level).value;
            && |t.blocks| == [2, 2, 4, 4, 6, 5, 13][level - 1]
            && |t.platforms| == [0, 1, 1, 2, 1, 2, 4][level - 1]
            && |t.checkpoints| == [0, 0, 0, 0, 0, 1, 2][level - 1]
  {
  }

  /** Platform `m` is the one `MovingObject::new` builds from `row`, untouched since. */
  ghost predicate Builds(m: MovingObject, row: PlatformRow)
    reads m
  {
    && m.startPos == row.startPos && m.endPos == row.endPos
    && m.width == row.width && m.height == row.height && m.moveTime == row.moveTime
    && PlatformAtStart(m)
  }

  /** The `vec![MovingObject::new(..), ..]` of a table: one new platform per row, in row
      order, each a separate object. */
  method NewPlatforms(rows: seq<PlatformRow>) returns (platforms: seq<MovingObject>)
    ensures |platforms| == |rows|
    ensures forall i :: 0 <= i < |rows| ==> fresh(platforms[i]) && Builds(platforms[i], rows[i])
    ensures forall i, j :: 0 <= i < j < |rows| ==> platforms[i] != platforms[j]
  {
    platforms := [];
    for i := 0 to |rows|
      invariant |platforms| == i
      invariant forall k :: 0 <= k < i ==> fresh(platforms[k]) && Builds(platforms[k], rows[k])
      invariant forall k, l :: 0 <= k < l < i ==> platforms[k] != platforms[l]
    {
      var row := rows[i];
      var m := new MovingObject.New(row.startPos, row.endPos, row.width, row.height, row.moveTime);
      platforms := platforms + [m];
    }
  }

  // ---------------------------------------------------------------------------------------
  // Map
  // ---------------------------------------------------------------------------------------

  class Map {
    var staticObjects: seq<StaticObject>
    var movingObjects: seq<MovingObject>
    var movingObjectIndicators: seq<Circle>
    var checkpoints: seq<Checkpoint>
    var goal: Circle
    /** the state a respawn resets the player to */
    var playerRespawn: RigidBody
    var player: RigidBody
    /** a player whose centre falls below this height is put back at the respawn body */
    var lowestPoint: real

    /** The state `Map::new()` produces: no objects, a zero-sized black goal at the origin and
        two default bodies. */
    ghost predicate IsNew()
      reads this, playerRespawn, player
    {
      && staticObjects == [] && movingObjects == [] && movingObjectIndicators == [] && checkpoints == []
      && goal == Circle(Vector2(0.0, 0.0), 0.0, NewRgb(0, 0, 0))
      && playerRespawn.State() == DEFAULT_BODY && player.State() == DEFAULT_BODY
      && playerRespawn != player
      && lowestPoint == 0.0
    }

    constructor New()
      ensures IsNew()
      ensures fresh(playerRespawn) && fresh(player)
    {
      staticObjects := [];
      movingObjects := [];
      movingObjectIndicators := [];
      checkpoints := [];
      goal := Circle(Vector2(0.0, 0.0), 0.0, NewRgb(0, 0, 0));
      playerRespawn := new RigidBody.FromState(DEFAULT_BODY);
      player := new RigidBody.FromState(DEFAULT_BODY);
      lowestPoint := 0.0;
    }

    /** `*self = Map::new()`: every field is replaced, so nothing of the previous level is kept. */
    method Reset()
      modifies this
      ensures IsNew()
      ensures fresh(playerRespawn) && fresh(player)
    {
      staticObjects := [];
      movingObjects := [];
      movingObjectIndicators := [];
      checkpoints := [];
      goal := Circle(Vector2(0.0, 0.0), 0.0, NewRgb(0, 0, 0));
      playerRespawn := new RigidBody.FromState(DEFAULT_BODY);
      player := new RigidBody.FromState(DEFAULT_BODY);
      lowestPoint := 0.0;
    }

    /** The map holds table `t`: its blocks, checkpoints, goal, respawn body and lowest point
        are the table's, and its platforms are separate objects built from the table's rows,
        in order. */
    ghost predicate Holds(t: LevelData)
      reads this`staticObjects, this`movingObjects, this`checkpoints, this`goal, this`playerRespawn
      reads this`lowestPoint, playerRespawn, set m | m in movingObjects
    {
      && staticObjects == t.blocks
      && |movingObjects| == |t.platforms|
      && (forall i :: 0 <= i < |movingObjects| ==> Builds(movingObjects[i], t.platforms[i]))
      && (forall i, j :: 0 <= i < j < |movingObjects| ==> movingObjects[i] != movingObjects[j])
      && checkpoints == t.checkpoints
      && goal == t.goal
      && playerRespawn.State() == t.respawn
      && lowestPoint == t.lowestPoint
    }

    /** The design rules of a loaded level, on the map itself: the respawn body has the player's
        size and no velocity; every platform is at its start, leaving, and has a positive move
        time; every checkpoint's respawn body is a player body resting on a block; the goal
        has radius 20 and the goal colour; and the lowest point is below zero. */
    ghost predicate LevelInvariant()
      reads this`staticObjects, this`movingObjects, this`checkpoints, this`goal, this`playerRespawn
      reads this`lowestPoint, playerRespawn, set m | m in movingObjects
    {
      && IsPlayerBody(playerRespawn.State())
      && (forall m :: m in movingObjects ==> PlatformAtStart(m) && m.moveTime > 0.0)
      && CheckpointsRest(checkpoints, staticObjects)
      && goal.radius == 20.0 && goal.color == GOAL_COLOR
      && lowestPoint < 0.0
    }

    /** `load_map`: resets the map, loads the table of `level` and panics for a level outside
        1 to 7. After a load every field is determined by the level alone: the map holds
        `LevelTable(level)`, the player is a separate copy of the respawn body, and the markers
        are the two ends of every platform, start then end, in platform order. Nothing of what
        the map held before survives. */
    method LoadMap(level: nat) returns (outcome: Outcome<()>)
      modifies this
      ensures outcome.Panic? <==> !(1 <= level <= 7)
      ensures outcome.Pass? ==>
        && Holds(LevelTable(level).value)
        && fresh(player) && fresh(playerRespawn) && player != playerRespawn
        && player.State() == playerRespawn.State()
        && (forall m :: m in movingObjects ==> fresh(m))
        && movingObjectIndicators == Indicators(movingObjects)
        && LevelInvariant()
    {
      Reset();
      // the `match` on the level
      var table := LevelTable(level);
      if table.None? {
        // an unknown level panics
        return Panic;
      }
      LevelTableWellFormed(level);
      LoadTable(table.value);
      StartLevel(table.value);
      outcome := Pass(());
    }

    /** What `load_map` does after the `match`, on the loaded table `t`: the player starts as
        a copy of the respawn body, and every platform gets its two end markers. */
    method StartLevel(ghost t: LevelData)
      requires Holds(t) && LevelInvariant()
      modifies this`player, this`movingObjectIndicators
      ensures Holds(t) && LevelInvariant()
      ensures fresh(player) && player.State() == playerRespawn.State()
      ensures movingObjectIndicators == Indicators(movingObjects)
    {
      player := new RigidBody.FromState(playerRespawn.State());
      movingObjectIndicators := MarkPlatformEnds(movingObjects);
    }

    /** The loop at the end of `load_map`: two markers per platform, start then end. */
    static method MarkPlatformEnds(platforms: seq<MovingObject>) returns (markers: seq<Circle>)
      ensures markers == Indicators(platforms)
    {
      markers := [];
      var i := 0;
      while i < |platforms|
        invariant 0 <= i <= |platforms|
        invariant markers == Indicators(platforms[..i])
      {
        var platform := platforms[i];
        markers := markers + [IndicatorAt(platform.startPos)];
        markers := markers + [IndicatorAt(platform.endPos)];
        assert platforms[..i + 1][..i] == platforms[..i];
        i := i + 1;
      }
      assert platforms[..i] == platforms;
    }

    /** One arm of the `match`: writes table `t` into the map. */
    method LoadTable(t: LevelData)
      requires WellFormed(t)
      modifies this
      ensures Holds(t) && LevelInvariant()
      ensures fresh(playerRespawn) && forall m :: m in movingObjects ==> fresh(m)
      ensures player == old(player) && movingObjectIndicators == old(movingObjectIndicators)
    {
      staticObjects := t.blocks;
      movingObjects := NewPlatforms(t.platforms);
      playerRespawn := new RigidBody.FromState(t.respawn);
      checkpoints := t.checkpoints;
      goal := t.goal;
      lowestPoint := t.lowestPoint;
    }
  }
}
