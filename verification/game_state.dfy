/** The whole game state: the entities of the level together with the fuel
    counter and the running flag, and the state initialisation builds. */
module GameState {
  import opened Entities
  import Terrain

  const FULL_TANK := 5000
  const FUEL_USAGE := 1
  const GRAVITY: real := -0.2
  /** The fuel gauge starts 1.5 wide and loses this much per unit burned. */
  const FULL_GAUGE: real := 1.5
  const GAUGE_STEP: real := 0.0003

  datatype World = World(
    player: Entity,
    blocks: seq<Entity>,
    text: Entity,
    indicator: Entity,
    flame: Entity,
    gauge: Entity,
    fuel: int,
    running: bool)

  /** The gauge's width is the fuel fraction of its full width. */
  predicate GaugeMatchesFuel(w: World)
  {
    w.gauge.scale.x == FULL_GAUGE - GAUGE_STEP * (FULL_TANK - w.fuel) as real
  }

  /** What every frame keeps: fuel within the tank, the gauge in step with
      it, and the level's 24 blocks. */
  predicate Invariant(w: World)
  {
    0 <= w.fuel <= FULL_TANK && GaugeMatchesFuel(w) && |w.blocks| == Terrain.NUMBER_OF_BLOCKS
  }

  /** While the game runs, the banner still holds the failure picture that
      initialisation loaded; only a landing replaces it. */
  predicate BannerReady(w: World)
  {
    w.running ==> w.text.texture == Failed
  }

  /** The state before the first frame; `blank` is what a newly
      constructed entity holds. */
  function Initialise(blank: Entity): (w: World)
    ensures Invariant(w) && w.running && w.fuel == FULL_TANK
    ensures w.player.position == Vec3(-3.75, 3.0, 0.0) && w.player.movement == ZERO
    ensures w.player.acceleration == Vec3(0.0, GRAVITY, 0.0)
    ensures w.gauge.scale.x == FULL_GAUGE
    ensures w.blocks == Terrain.Blocks(blank)
    // the banner waits, with the failure picture, until an outcome gives it a size
    ensures w.text.texture == Failed && w.text.position == Vec3(0.0, 1.0, 0.0)
    ensures BannerReady(w)
    ensures w.flame.texture == Fire && w.flame.scale == Vec3(1.0, 1.0, 0.0)
    ensures w.flame.position == Vec3(0.0, 1.0, 0.0) && w.flame.rotate == 0.0
    ensures w.indicator.texture == LandIndicator && w.indicator.scale == Vec3(1.0, 1.0, 0.0)
    ensures w.indicator.position == Vec3(3.5, -2.25, 0.0)
  {
    World(
      player := blank.SetPosition(Vec3(-3.75, 3.0, 0.0)).SetMovement(ZERO)
                     .SetScale(Vec3(1.0, 1.0, 0.0)).SetAcceleration(Vec3(0.0, GRAVITY, 0.0))
                     .SetTexture(SpaceShip),
      blocks := Terrain.Blocks(blank),
      indicator := blank.SetTexture(LandIndicator).SetScale(Vec3(1.0, 1.0, 0.0))
                        .SetPosition(Vec3(3.5, -2.25, 0.0)),
      text := blank.SetTexture(Failed).SetPosition(Vec3(0.0, 1.0, 0.0)),
      flame := blank.SetTexture(Fire).SetScale(Vec3(1.0, 1.0, 0.0))
                    .SetPosition(Vec3(0.0, 1.0, 0.0)).SetRotate(0.0),
      gauge := blank.SetTexture(Fuel).SetScale(Vec3(1.5, 0.25, 0.0)).SetPosition(Vec3(4.0, 3.5, 0.0)),
      fuel := FULL_TANK,
      running := true)
  }

  /** Under the gauge relation the gauge is empty exactly when the tank is,
      and stays within its full width while the fuel is within the tank. */
  lemma GaugeEmptyIffTankEmpty(w: World)
    requires GaugeMatchesFuel(w)
    ensures w.gauge.scale.x == 0.0 <==> w.fuel == 0
    ensures 0 <= w.fuel <= FULL_TANK ==> 0.0 <= w.gauge.scale.x <= FULL_GAUGE
  {
  }

  /** The landing indicator hangs one unit above the goal block. */
  lemma GoalUnderIndicator(blank: Entity)
    ensures var w := Initialise(blank);
      w.blocks[Terrain.GOAL_BLOCK].position.x == w.indicator.position.x &&
      w.blocks[Terrain.GOAL_BLOCK].position.y + 1.0 == w.indicator.position.y
  {
    Terrain.GoalBlockOnFloor(blank);
  }
}
