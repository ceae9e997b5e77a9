/** The thrust and fuel rules run once per frame before integration: held
    keys become acceleration, flame placement, fuel use and gauge width. */
module Input {
  import opened Entities
  import opened GameState

  /** The keys held this frame, and whether a quit was requested. */
  datatype Keys = Keys(left: bool, right: bool, up: bool, quit: bool)

  const THRUST_ROTATION: real := 1.6
  const FLAME_OFFSET: real := 0.5
  const FLAME_SCALE := Vec3(1.0, 1.0, 0.0)

  /** One of the horizontal thrusters fires. */
  predicate HorizontalBurn(w: World, keys: Keys)
  {
    (keys.left || keys.right) && w.fuel != 0
  }

  /** The upward thruster fires: Up is held and fuel is left after the
      horizontal thruster had its turn. */
  predicate UpBurn(w: World, keys: Keys)
  {
    keys.up && w.fuel - (if HorizontalBurn(w, keys) then FUEL_USAGE else 0) != 0
  }

  /** One unit of fuel used, and the gauge shortened by one step. */
  function Burn(w: World): (r: World)
    ensures r.fuel == w.fuel - FUEL_USAGE
    ensures r.gauge.scale == Vec3(w.gauge.scale.x - GAUGE_STEP, w.gauge.scale.y, w.gauge.scale.z)
    ensures GaugeMatchesFuel(w) ==> GaugeMatchesFuel(r)
    ensures r == w.(fuel := r.fuel, gauge := r.gauge)
    ensures r.gauge == w.gauge.(scale := r.gauge.scale)
  {
    var s := w.gauge.GetScale();
    w.(fuel := w.fuel - FUEL_USAGE, gauge := w.gauge.SetScale(Vec3(s.x - GAUGE_STEP, s.y, s.z)))
  }

  /** Left thrust, else right thrust, else both thrusters off. */
  function Horizontal(w: World, keys: Keys): World
  {
    var p := w.player.GetPosition();
    if keys.left && w.fuel != 0 then
      Burn(w.(player := w.player.MoveLeft().SetRotate(THRUST_ROTATION),
              flame := w.flame.SetPosition(Vec3(p.x + FLAME_OFFSET, p.y, p.z))
                              .SetRotate(THRUST_ROTATION).SetScale(FLAME_SCALE)))
    else if keys.right && w.fuel != 0 then
      Burn(w.(player := w.player.MoveRight().SetRotate(-THRUST_ROTATION),
              flame := w.flame.SetPosition(Vec3(p.x - FLAME_OFFSET, p.y, p.z))
                              .SetRotate(-THRUST_ROTATION).SetScale(FLAME_SCALE)))
    else
      w.(player := w.player.SetRotate(0.0),
         flame := w.flame.SetScale(ZERO).SetRotate(0.0))
  }

  /** Upward thrust, with the flame moved under the ship when no horizontal
      flame is showing; otherwise gravity is restored on the y axis. */
  function Vertical(w: World, keys: Keys): World
  {
    var p := w.player.GetPosition();
    if keys.up && w.fuel != 0 then
      var flame := if w.flame.GetRotate() == 0.0
                   then w.flame.SetPosition(Vec3(p.x, p.y - FLAME_OFFSET, p.z))
                   else w.flame;
      Burn(w.(player := w.player.MoveUp(), flame := flame.SetScale(FLAME_SCALE)))
    else
      var a := w.player.GetAcceleration();
      w.(player := w.player.SetAcceleration(Vec3(a.x, GRAVITY, 0.0)))
  }

  /** The whole input step of one frame. */
  function InputStep(w: World, keys: Keys): (r: World)
    // the quit request lowers the running flag; nothing raises it
    ensures r.running == (w.running && !keys.quit)
    // fuel: never below zero from a non-negative tank, at most two units a frame,
    // and used exactly when a thruster fires
    ensures w.fuel >= 0 ==> r.fuel >= 0
    ensures w.fuel - 2 * FUEL_USAGE <= r.fuel <= w.fuel
    ensures r.fuel == w.fuel
      - (if HorizontalBurn(w, keys) then FUEL_USAGE else 0)
      - (if UpBurn(w, keys) then FUEL_USAGE else 0)
    ensures r.fuel == w.fuel <==> !HorizontalBurn(w, keys) && !UpBurn(w, keys)
    ensures GaugeMatchesFuel(w) ==> GaugeMatchesFuel(r)
    // horizontal thrust: Left wins over Right
    ensures keys.left && w.fuel != 0 ==>
      r.player.acceleration.x == LEFT_THRUST && r.player.rotate == THRUST_ROTATION &&
      r.flame.rotate == THRUST_ROTATION &&
      r.flame.position == Vec3(w.player.position.x + FLAME_OFFSET, w.player.position.y, w.player.position.z)
    ensures !keys.left && keys.right && w.fuel != 0 ==>
      r.player.acceleration.x == RIGHT_THRUST && r.player.rotate == -THRUST_ROTATION &&
      r.flame.rotate == -THRUST_ROTATION &&
      r.flame.position == Vec3(w.player.position.x - FLAME_OFFSET, w.player.position.y, w.player.position.z)
    ensures !HorizontalBurn(w, keys) ==>
      r.player.acceleration.x == w.player.acceleration.x &&
      r.player.rotate == 0.0 && r.flame.rotate == 0.0
    // vertical thrust, or gravity back on the y axis
    ensures UpBurn(w, keys) ==>
      r.player.acceleration.y == UP_THRUST && r.player.acceleration.z == w.player.acceleration.z
    ensures !UpBurn(w, keys) ==>
      r.player.acceleration.y == GRAVITY && r.player.acceleration.z == 0.0
    ensures UpBurn(w, keys) && !HorizontalBurn(w, keys) ==>
      r.flame.position == Vec3(w.player.position.x, w.player.position.y - FLAME_OFFSET, w.player.position.z)
    ensures !UpBurn(w, keys) && !HorizontalBurn(w, keys) ==> r.flame.position == w.flame.position
    // the flame shows exactly while some thruster fires
    ensures r.flame.scale == if HorizontalBurn(w, keys) || UpBurn(w, keys) then FLAME_SCALE else ZERO
    // the ship is not moved: its per-frame movement is cleared, so it never needs normalising
    ensures r.player.movement == ZERO
    ensures r.player.position == w.player.position && r.player.velocity == w.player.velocity
    ensures r.player.scale == w.player.scale && r.player.texture == w.player.texture
    ensures r.flame.velocity == w.flame.velocity && r.flame.texture == w.flame.texture
    // the gauge only changes width; the rest of the level is untouched
    ensures r.gauge == w.gauge.(scale := r.gauge.scale)
    ensures r.gauge.scale.y == w.gauge.scale.y && r.gauge.scale.z == w.gauge.scale.z
    ensures r.blocks == w.blocks && r.text == w.text && r.indicator == w.indicator
  {
    var cleared := w.(player := w.player.SetMovement(ZERO), running := w.running && !keys.quit);
    Vertical(Horizontal(cleared, keys), keys)
  }

  /** With both horizontal keys held, Left is the one that fires. */
  lemma LeftBeatsRight(w: World, up: bool, quit: bool)
    requires w.fuel > 0
    ensures var r := InputStep(w, Keys(true, true, up, quit));
      r.player.acceleration.x == LEFT_THRUST && r.player.rotate == THRUST_ROTATION &&
      r.flame.rotate == THRUST_ROTATION
    ensures InputStep(w, Keys(true, true, up, quit)) == InputStep(w, Keys(true, false, up, quit))
  {
  }

  /** With an empty tank every key is ignored: the x acceleration persists,
      gravity acts on y, the flame is hidden and the fuel stays at zero. */
  lemma EmptyTankIgnoresThrust(w: World, keys: Keys)
    requires w.fuel == 0
    ensures var r := InputStep(w, keys);
      r.fuel == 0 && r.gauge == w.gauge &&
      r.player.acceleration == Vec3(w.player.acceleration.x, GRAVITY, 0.0) &&
      r.player.rotate == 0.0 && r.flame.scale == ZERO
  {
  }

  /** The last unit of fuel is spent by the horizontal thruster, so holding
      Left and Up at fuel 1 empties the tank without going below zero, and
      gravity stays on. */
  lemma LastUnitGoesToHorizontalThrust(w: World, quit: bool)
    requires w.fuel == 1
    ensures var r := InputStep(w, Keys(true, false, true, quit));
      r.fuel == 0 && r.player.acceleration.x == LEFT_THRUST && r.player.acceleration.y == GRAVITY
  {
  }

  /** Without any key the frame burns nothing and only resets rotation,
      flame and vertical acceleration. */
  lemma IdleFrame(w: World, quit: bool)
    ensures var r := InputStep(w, Keys(false, false, false, quit));
      r.fuel == w.fuel && r.gauge == w.gauge && r.flame.scale == ZERO &&
      r.player.acceleration == Vec3(w.player.acceleration.x, GRAVITY, 0.0)
  {
  }
}
