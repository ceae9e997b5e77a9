/** The rule part of the per-frame update: the horizontal bounds check and
    the scan of the 24 blocks' collision results, which set the banner and
    lower the running flag. The collision test itself is an input. */
module Outcome {
  import opened Entities
  import opened GameState
  import Terrain

  const BOUND: real := 5.5
  const FAILED_SCALE := Vec3(9.0, 2.0, 0.0)
  const PASSED_SCALE := Vec3(10.0, 2.0, 0.0)

  /** One collision result per block, in block order. */
  type Collisions = s: seq<bool> | |s| == Terrain.NUMBER_OF_BLOCKS
    witness seq(Terrain.NUMBER_OF_BLOCKS, _ => false)

  predicate OutOfBounds(player: Entity)
  {
    player.position.x < -BOUND || player.position.x > BOUND
  }

  /** The largest index below `n` whose block collided, or -1 when none
      did. */
  function LastHitBelow(hits: seq<bool>, n: nat): (k: int)
    requires n <= |hits|
    ensures -1 <= k < n
    ensures k >= 0 ==> hits[k]
    ensures forall j :: k < j < n ==> !hits[j]
    decreases n
  {
    if n == 0 then -1
    else if hits[n - 1] then n - 1
    else LastHitBelow(hits, n - 1)
  }

  /** The largest index whose block collided, or -1 when none did. */
  function LastHit(hits: seq<bool>): int
  {
    LastHitBelow(hits, |hits|)
  }

  /** A collision with block `i`: the goal shows the victory banner,
      any other block the failure one, and the game stops either way. */
  function Collide(w: World, i: nat): World
  {
    if i == Terrain.GOAL_BLOCK then
      w.(text := w.text.SetTexture(Passed).SetScale(PASSED_SCALE), running := false)
    else
      w.(text := w.text.SetScale(FAILED_SCALE), running := false)
  }

  /** The block loop over its first `n` iterations. It does not break, so
      the last colliding block sets the banner's scale, while the victory
      texture, once set, stays. */
  function Scan(w: World, hits: Collisions, n: nat): (r: World)
    requires n <= |hits|
    ensures r.running == (w.running && LastHitBelow(hits, n) == -1)
    ensures r.text.scale ==
      if LastHitBelow(hits, n) == -1 then w.text.scale
      else if LastHitBelow(hits, n) == Terrain.GOAL_BLOCK then PASSED_SCALE
      else FAILED_SCALE
    ensures r.text.texture ==
      if Terrain.GOAL_BLOCK < n && hits[Terrain.GOAL_BLOCK] then Passed else w.text.texture
    ensures r.text == w.text.(texture := r.text.texture, scale := r.text.scale)
    ensures r == w.(text := r.text, running := r.running)
    decreases n
  {
    if n == 0 then w
    else
      var v := Scan(w, hits, n - 1);
      if hits[n - 1] then Collide(v, n - 1) else v
  }

  /** The bounds check followed by the block loop. */
  function OutcomeStep(w: World, hits: Collisions): (r: World)
    ensures r.running == (w.running && !OutOfBounds(w.player) && LastHit(hits) == -1)
    ensures r.text.scale ==
      if LastHit(hits) == Terrain.GOAL_BLOCK then PASSED_SCALE
      else if LastHit(hits) >= 0 || OutOfBounds(w.player) then FAILED_SCALE
      else w.text.scale
    ensures r.text.texture == if hits[Terrain.GOAL_BLOCK] then Passed else w.text.texture
    ensures r.text == w.text.(texture := r.text.texture, scale := r.text.scale)
    ensures r == w.(text := r.text, running := r.running)
  {
    var checked :=
      if OutOfBounds(w.player) then w.(text := w.text.SetScale(FAILED_SCALE), running := false) else w;
    Scan(checked, hits, |hits|)
  }

  /** The running flag is never raised again. */
  lemma StoppedStaysStopped(w: World, hits: Collisions)
    requires !w.running
    ensures !OutcomeStep(w, hits).running
    ensures OutcomeStep(w, hits).blocks == w.blocks
  {
  }

  /** The game goes on exactly when the ship is within bounds and touches
      no block. */
  lemma StopsIffBoundsOrCollision(w: World, hits: Collisions)
    requires w.running
    ensures !OutcomeStep(w, hits).running <==>
      OutOfBounds(w.player) || exists j :: 0 <= j < |hits| && hits[j]
  {
    if exists j :: 0 <= j < |hits| && hits[j] {
      var j :| 0 <= j < |hits| && hits[j];
      assert LastHit(hits) >= j;
    }
  }

  /** From the failure banner, the victory banner (texture and scale) shows
      exactly when the goal is the last block hit. */
  lemma VictoryIffGoalIsLastHit(w: World, hits: Collisions)
    requires w.text.texture == Failed
    ensures var r := OutcomeStep(w, hits);
      (r.text.texture == Passed && r.text.scale == PASSED_SCALE) <==> LastHit(hits) == Terrain.GOAL_BLOCK
  {
  }

  /** Touching only the goal block is a landing. */
  lemma GoalAloneWins(w: World, hits: Collisions)
    requires forall j :: 0 <= j < |hits| ==> (hits[j] <==> j == Terrain.GOAL_BLOCK)
    ensures var r := OutcomeStep(w, hits);
      !r.running && r.text.texture == Passed && r.text.scale == PASSED_SCALE
  {
    var k := LastHit(hits);
    assert hits[Terrain.GOAL_BLOCK];
    assert k >= 0 && hits[k];
  }

  /** A block hit after the goal in loop order overrides the banner's scale
      but not its texture: the victory picture is shown at failure size. */
  lemma LaterHitOverridesScale(w: World, hits: Collisions, j: nat)
    requires hits[Terrain.GOAL_BLOCK] && Terrain.GOAL_BLOCK < j < |hits| && hits[j]
    ensures var r := OutcomeStep(w, hits);
      !r.running && r.text.texture == Passed && r.text.scale == FAILED_SCALE
  {
    assert LastHit(hits) >= j;
  }

  /** A block hit before the goal in loop order does not prevent the
      landing: the last collision decides, not the first. */
  lemma EarlierHitDoesNotPreventLanding(w: World, hits: Collisions, j: nat)
    requires j < Terrain.GOAL_BLOCK && hits[j] && hits[Terrain.GOAL_BLOCK]
    requires forall k :: Terrain.GOAL_BLOCK < k < |hits| ==> !hits[k]
    ensures var r := OutcomeStep(w, hits);
      !r.running && r.text.texture == Passed && r.text.scale == PASSED_SCALE
  {
    assert LastHit(hits) == Terrain.GOAL_BLOCK;
  }

  /** Leaving the field sideways without touching a block shows the failure
      banner. */
  lemma OutOfBoundsLoses(w: World, hits: Collisions)
    requires OutOfBounds(w.player)
    requires forall j :: 0 <= j < |hits| ==> !hits[j]
    ensures var r := OutcomeStep(w, hits);
      !r.running && r.text.scale == FAILED_SCALE && r.text.texture == w.text.texture
  {
  }
}
