/** The fixed terrain built once at start-up: 24 stone blocks, twenty laid
    as a floor by a loop and then slots 10 and up (re)written one by one,
    slot 15 twice. Only the last write to a slot is visible afterwards. */
module Terrain {
  import opened Entities

  datatype Option<T> = None | Some(value: T)

  const NUMBER_OF_BLOCKS := 24
  /** The floor loop covers every slot but the last four. */
  const FLOOR_BLOCKS := NUMBER_OF_BLOCKS - 4
  const FLOOR_START_X: real := -4.5
  const FLOOR_Y: real := -3.25
  /** Slots of the floor that no later write replaces. */
  const KEPT_FLOOR_BLOCKS := 10
  /** The block whose collision is a landing. */
  const GOAL_BLOCK := 8
  const UNIT_SCALE := Vec3(1.0, 1.0, 0.0)

  /** No block exists before initialisation. */
  function NoBlocks(): (s: seq<Option<Entity>>)
    ensures |s| == NUMBER_OF_BLOCKS && forall k :: 0 <= k < |s| ==> s[k] == None
  {
    seq(NUMBER_OF_BLOCKS, k => None)
  }

  /** A default-constructed entity made into a unit stone block at (x, y). */
  function StoneBlock(blank: Entity, x: real, y: real): (b: Entity)
    ensures b.position == Vec3(x, y, 0.0) && b.scale == UNIT_SCALE && b.texture == StoneFloor
    ensures b.movement == blank.movement && b.rotate == blank.rotate
    ensures b.velocity == blank.velocity && b.acceleration == blank.acceleration
  {
    blank.SetTexture(StoneFloor).SetPosition(Vec3(x, y, 0.0)).SetScale(UNIT_SCALE)
  }

  /** The floor loops from iteration `i` on, `nextX` being the running
      x coordinate that each iteration post-increments. */
  function FloorLoop(slots: seq<Option<Entity>>, blank: Entity, i: nat, nextX: real): (r: seq<Option<Entity>>)
    requires |slots| == NUMBER_OF_BLOCKS && i <= FLOOR_BLOCKS
    ensures |r| == NUMBER_OF_BLOCKS
    decreases FLOOR_BLOCKS - i
  {
    if i == FLOOR_BLOCKS then slots
    else FloorLoop(slots[i := Some(StoneBlock(blank, nextX, FLOOR_Y))], blank, i + 1, nextX + 1.0)
  }

  /** Closed form of the floor loop: iteration k of the remaining ones puts
      a block at x = nextX + k, and the slots it does not reach keep their
      contents. */
  lemma {:induction false} FloorLoopClosedForm(slots: seq<Option<Entity>>, blank: Entity, i: nat, nextX: real)
    requires |slots| == NUMBER_OF_BLOCKS && i <= FLOOR_BLOCKS
    ensures forall k :: 0 <= k < NUMBER_OF_BLOCKS ==>
      FloorLoop(slots, blank, i, nextX)[k] ==
        if i <= k < FLOOR_BLOCKS then Some(StoneBlock(blank, nextX + (k - i) as real, FLOOR_Y)) else slots[k]
    decreases FLOOR_BLOCKS - i
  {
    if i < FLOOR_BLOCKS {
      var next := slots[i := Some(StoneBlock(blank, nextX, FLOOR_Y))];
      FloorLoopClosedForm(next, blank, i + 1, nextX + 1.0);
    }
  }

  /** Every slot as initialisation leaves it, in the order of its writes. */
  function Slots(blank: Entity): (s: seq<Option<Entity>>)
    ensures |s| == NUMBER_OF_BLOCKS
    ensures forall k :: 0 <= k < NUMBER_OF_BLOCKS ==> s[k].Some?
  {
    FloorLoopClosedForm(NoBlocks(), blank, 0, FLOOR_START_X);
    FloorLoop(NoBlocks(), blank, 0, FLOOR_START_X)
      [10 := Some(StoneBlock(blank, -2.5, -2.25))]
      [11 := Some(StoneBlock(blank, -2.5, -2.25))]
      [12 := Some(StoneBlock(blank, -2.5, -1.25))]
      [13 := Some(StoneBlock(blank, -1.5, -2.25))]
      [14 := Some(StoneBlock(blank, 1.5, -2.25))]
      [15 := Some(StoneBlock(blank, 4.5, -2.25))]
      [15 := Some(StoneBlock(blank, 0.5, -2.25))]
      [16 := Some(StoneBlock(blank, -1.5, -1.25))]
      [17 := Some(StoneBlock(blank, -1.5, -0.25))]
      [18 := Some(StoneBlock(blank, 0.5, -1.25))]
      [19 := Some(StoneBlock(blank, -0.5, -2.25))]
      [20 := Some(StoneBlock(blank, 4.5, -2.25))]
      [21 := Some(StoneBlock(blank, -4.5, -2.25))]
      [22 := Some(StoneBlock(blank, -3.5, -2.25))]
      [23 := Some(StoneBlock(blank, -4.5, -1.25))]
  }

  /** The terrain blocks the game loop works on. */
  function Blocks(blank: Entity): (bs: seq<Entity>)
    ensures |bs| == NUMBER_OF_BLOCKS
  {
    var s := Slots(blank);
    seq(NUMBER_OF_BLOCKS, k requires 0 <= k < NUMBER_OF_BLOCKS => s[k].value)
  }

  /** The final layout as a table: the ten floor blocks left standing, then
      the platform blocks of slots 10 to 23. */
  const PLATFORM: seq<(real, real)> := [
    (-2.5, -2.25), (-2.5, -2.25), (-2.5, -1.25), (-1.5, -2.25), (1.5, -2.25),
    (0.5, -2.25), (-1.5, -1.25), (-1.5, -0.25), (0.5, -1.25), (-0.5, -2.25),
    (4.5, -2.25), (-4.5, -2.25), (-3.5, -2.25), (-4.5, -1.25)]

  function FinalPosition(k: nat): (real, real)
    requires k < NUMBER_OF_BLOCKS
  {
    if k < KEPT_FLOOR_BLOCKS then (FLOOR_START_X + k as real, FLOOR_Y) else PLATFORM[k - KEPT_FLOOR_BLOCKS]
  }

  /** The write sequence of initialisation produces exactly the table. */
  lemma LayoutMatchesTable(blank: Entity)
    ensures forall k :: 0 <= k < NUMBER_OF_BLOCKS ==>
      Blocks(blank)[k] == StoneBlock(blank, FinalPosition(k).0, FinalPosition(k).1)
  {
    FloorLoopClosedForm(NoBlocks(), blank, 0, FLOOR_START_X);
  }

  /** Every block is a unit stone block lying in the z = 0 plane. */
  lemma AllBlocksAreUnitStone(blank: Entity)
    ensures forall k :: 0 <= k < NUMBER_OF_BLOCKS ==>
      Blocks(blank)[k].scale == UNIT_SCALE && Blocks(blank)[k].texture == StoneFloor &&
      Blocks(blank)[k].position.z == 0.0
  {
    LayoutMatchesTable(blank);
  }

  /** Blocks 0 to 9 keep the floor loop's placement (-4.5 + i, -3.25). */
  lemma FloorBlocksKept(blank: Entity)
    ensures forall k :: 0 <= k < KEPT_FLOOR_BLOCKS ==>
      Blocks(blank)[k].position == Vec3(FLOOR_START_X + k as real, FLOOR_Y, 0.0)
  {
    LayoutMatchesTable(blank);
  }

  /** Every block the floor loop placed in slots 10 to 19 is replaced by one
      standing higher up, so none of those floor positions survive. */
  lemma FloorBlocksOverwritten(blank: Entity)
    ensures forall k :: KEPT_FLOOR_BLOCKS <= k < FLOOR_BLOCKS ==>
      Blocks(blank)[k].position.y > FLOOR_Y &&
      Blocks(blank)[k].position != Vec3(FLOOR_START_X + k as real, FLOOR_Y, 0.0)
  {
    LayoutMatchesTable(blank);
  }

  /** Slot 15 is written twice; only the second placement is kept, and the
      lost first one is the place of block 20 anyway. */
  lemma Slot15SecondWriteKept(blank: Entity)
    ensures Blocks(blank)[15].position == Vec3(0.5, -2.25, 0.0)
    ensures Blocks(blank)[20].position == Vec3(4.5, -2.25, 0.0)
    ensures forall k :: 0 <= k < NUMBER_OF_BLOCKS && k != 20 ==>
      Blocks(blank)[k].position != Vec3(4.5, -2.25, 0.0)
  {
    LayoutMatchesTable(blank);
  }

  /** Slots 10 and 11 hold two blocks at the same place. */
  lemma Slots10And11Coincide(blank: Entity)
    ensures Blocks(blank)[10] == Blocks(blank)[11]
    ensures Blocks(blank)[10].position == Vec3(-2.5, -2.25, 0.0)
  {
    LayoutMatchesTable(blank);
  }

  /** The goal block lies on the floor at (3.5, -3.25). */
  lemma GoalBlockOnFloor(blank: Entity)
    ensures Blocks(blank)[GOAL_BLOCK].position == Vec3(3.5, -3.25, 0.0)
  {
    LayoutMatchesTable(blank);
  }
}
