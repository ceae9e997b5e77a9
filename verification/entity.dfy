/** The `Entity` record of the lander game: one body's transform and physics
    state, with the thrust helpers, getters and setters the game rules use.
    Floats are exact reals; the model matrix, the animation bookkeeping and
    the integration step are not part of this model. */
module Entities {

  /** A glm::vec3 with exact real components. */
  datatype Vec3 = Vec3(x: real, y: real, z: real)

  const ZERO := Vec3(0.0, 0.0, 0.0)

  /** A texture handle, identified by the image file it was loaded from. */
  datatype Asset = SpaceShip | StoneFloor | Failed | Passed | LandIndicator | Fire | Fuel

  /** Horizontal and vertical thrust written into the acceleration. */
  const LEFT_THRUST: real := -0.75
  const RIGHT_THRUST: real := 0.75
  const UP_THRUST: real := 0.5

  datatype Entity = Entity(
    movement: Vec3,
    position: Vec3,
    scale: Vec3,
    rotate: real,
    velocity: Vec3,
    acceleration: Vec3,
    texture: Asset)
  {
    /** Left thrust: only the x acceleration changes. */
    function MoveLeft(): (e: Entity)
      ensures e.acceleration == Vec3(LEFT_THRUST, acceleration.y, acceleration.z)
      ensures e.movement == movement && e.position == position && e.scale == scale
      ensures e.rotate == rotate && e.velocity == velocity && e.texture == texture
    {
      this.(acceleration := acceleration.(x := LEFT_THRUST))
    }

    /** Right thrust: only the x acceleration changes. */
    function MoveRight(): (e: Entity)
      ensures e.acceleration == Vec3(RIGHT_THRUST, acceleration.y, acceleration.z)
      ensures e.movement == movement && e.position == position && e.scale == scale
      ensures e.rotate == rotate && e.velocity == velocity && e.texture == texture
    {
      this.(acceleration := acceleration.(x := RIGHT_THRUST))
    }

    /** Upward thrust: only the y acceleration changes. */
    function MoveUp(): (e: Entity)
      ensures e.acceleration == Vec3(acceleration.x, UP_THRUST, acceleration.z)
      ensures e.movement == movement && e.position == position && e.scale == scale
      ensures e.rotate == rotate && e.velocity == velocity && e.texture == texture
    {
      this.(acceleration := acceleration.(y := UP_THRUST))
    }

    // Getters

    function GetPosition(): Vec3 { position }
    function GetScale(): Vec3 { scale }
    function GetMovement(): Vec3 { movement }
    function GetTexture(): Asset { texture }
    function GetAcceleration(): Vec3 { acceleration }
    function GetRotate(): real { rotate }

    // Setters: each replaces its own field and keeps every other one.

    function SetPosition(p: Vec3): (e: Entity)
      ensures e.GetPosition() == p
      ensures e.movement == movement && e.scale == scale && e.rotate == rotate
      ensures e.velocity == velocity && e.acceleration == acceleration && e.texture == texture
    {
      this.(position := p)
    }

    function SetScale(s: Vec3): (e: Entity)
      ensures e.GetScale() == s
      ensures e.movement == movement && e.position == position && e.rotate == rotate
      ensures e.velocity == velocity && e.acceleration == acceleration && e.texture == texture
    {
      this.(scale := s)
    }

    function SetMovement(m: Vec3): (e: Entity)
      ensures e.GetMovement() == m
      ensures e.position == position && e.scale == scale && e.rotate == rotate
      ensures e.velocity == velocity && e.acceleration == acceleration && e.texture == texture
    {
      this.(movement := m)
    }

    function SetTexture(t: Asset): (e: Entity)
      ensures e.GetTexture() == t
      ensures e.movement == movement && e.position == position && e.scale == scale
      ensures e.rotate == rotate && e.velocity == velocity && e.acceleration == acceleration
    {
      this.(texture := t)
    }

    function SetAcceleration(a: Vec3): (e: Entity)
      ensures e.GetAcceleration() == a
      ensures e.movement == movement && e.position == position && e.scale == scale
      ensures e.rotate == rotate && e.velocity == velocity && e.texture == texture
    {
      this.(acceleration := a)
    }

    function SetRotate(r: real): (e: Entity)
      ensures e.GetRotate() == r
      ensures e.movement == movement && e.position == position && e.scale == scale
      ensures e.velocity == velocity && e.acceleration == acceleration && e.texture == texture
    {
      this.(rotate := r)
    }
  }

  /** Writing a field twice keeps only the second value, and writing back
      what a getter returned changes nothing. */
  lemma SetterLastWriteWins(e: Entity, p: Vec3, q: Vec3, a: real, b: real, t: Asset, u: Asset)
    ensures e.SetPosition(p).SetPosition(q) == e.SetPosition(q)
    ensures e.SetScale(p).SetScale(q) == e.SetScale(q)
    ensures e.SetMovement(p).SetMovement(q) == e.SetMovement(q)
    ensures e.SetAcceleration(p).SetAcceleration(q) == e.SetAcceleration(q)
    ensures e.SetRotate(a).SetRotate(b) == e.SetRotate(b)
    ensures e.SetTexture(t).SetTexture(u) == e.SetTexture(u)
    ensures e.SetPosition(e.GetPosition()) == e && e.SetScale(e.GetScale()) == e
    ensures e.SetMovement(e.GetMovement()) == e && e.SetTexture(e.GetTexture()) == e
    ensures e.SetAcceleration(e.GetAcceleration()) == e && e.SetRotate(e.GetRotate()) == e
  {
  }

  /** The thrust helpers are setters of one acceleration component. */
  lemma MovesAreAccelerationSetters(e: Entity)
    ensures e.MoveLeft() == e.SetAcceleration(e.GetAcceleration().(x := LEFT_THRUST))
    ensures e.MoveRight() == e.SetAcceleration(e.GetAcceleration().(x := RIGHT_THRUST))
    ensures e.MoveUp() == e.SetAcceleration(e.GetAcceleration().(y := UP_THRUST))
    ensures e.MoveUp().MoveLeft() == e.MoveLeft().MoveUp()
  {
  }
}
