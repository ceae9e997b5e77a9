/** The driver loop: while the game runs, each frame reads the keys, lets
    the ship move, and applies the outcome rules. The ship's motion and the
    collision tests come in with each frame. */
module MainLoop {
  import opened Entities
  import opened GameState
  import Terrain
  import Input
  import Outcome

  /** What the platform and the integration step deliver for one frame:
      the held keys, the ship's position and velocity after integration,
      and one collision result per block. */
  datatype Frame = Frame(keys: Input.Keys, position: Vec3, velocity: Vec3, hits: Outcome.Collisions)

  /** The ship after integration; nothing else moves. */
  function Integrate(w: World, position: Vec3, velocity: Vec3): (r: World)
    ensures r.player.position == position && r.player.velocity == velocity
    ensures r.player == w.player.(position := position, velocity := velocity)
    ensures r == w.(player := r.player)
  {
    w.(player := w.player.SetPosition(position).(velocity := velocity))
  }

  /** One pass of the loop body. */
  function Tick(w: World, f: Frame): (r: World)
    ensures Invariant(w) ==> Invariant(r)
    ensures w.fuel - 2 * FUEL_USAGE <= r.fuel <= w.fuel
    ensures r.running ==> w.running
    ensures r.blocks == w.blocks && r.indicator == w.indicator
    ensures r.running ==> r.text == w.text
    ensures BannerReady(w) ==> BannerReady(r)
  {
    var afterInput := Input.InputStep(w, f.keys);
    Outcome.OutcomeStep(Integrate(afterInput, f.position, f.velocity), f.hits)
  }

  /** The loop run over the given frames, stopping at the first frame that
      finds the running flag lowered. The landing indicator never moves and
      the fuel never rises. */
  function Play(w: World, frames: seq<Frame>): (r: World)
    ensures r.indicator == w.indicator
    ensures r.fuel <= w.fuel
    decreases |frames|
  {
    if !w.running || |frames| == 0 then w
    else Play(Tick(w, frames[0]), frames[1..])
  }

  /** Fuel stays within the tank and the gauge in step with it, however
      many frames are played. */
  lemma {:induction false} PlayKeepsInvariant(w: World, frames: seq<Frame>)
    requires Invariant(w)
    ensures Invariant(Play(w, frames))
    decreases |frames|
  {
    if w.running && |frames| > 0 {
      PlayKeepsInvariant(Tick(w, frames[0]), frames[1..]);
    }
  }

  /** Fuel never rises, and falls by at most two units (two burns of one
      unit each) per frame played. */
  lemma {:induction false} PlayFuelBounds(w: World, frames: seq<Frame>)
    ensures w.fuel - 2 * |frames| <= Play(w, frames).fuel <= w.fuel
    decreases |frames|
  {
    if w.running && |frames| > 0 {
      var next := Tick(w, frames[0]);
      PlayFuelBounds(next, frames[1..]);
      assert next.fuel - 2 * (|frames| - 1) <= Play(w, frames).fuel <= next.fuel;
    }
  }

  /** A game whose running flag is lowered is over: no frame changes it. */
  lemma StoppedGameIsFrozen(w: World, frames: seq<Frame>)
    requires !w.running
    ensures Play(w, frames) == w
  {
  }

  /** The running flag only goes from true to false: a game still running
      at the end was running at every earlier frame. */
  lemma {:induction false} RunningOnlyLowers(w: World, frames: seq<Frame>)
    ensures Play(w, frames).running ==> w.running
    ensures Play(w, frames).running ==> forall i :: 0 <= i <= |frames| ==> Play(w, frames[..i]).running
    decreases |frames|
  {
    if w.running && |frames| > 0 {
      var next := Tick(w, frames[0]);
      RunningOnlyLowers(next, frames[1..]);
      forall i | 0 < i <= |frames|
        ensures Play(w, frames).running ==> Play(w, frames[..i]).running
      {
        assert frames[..i][0] == frames[0];
        assert frames[..i][1..] == frames[1..][..i - 1];
      }
    }
  }

  /** While the game runs, the banner keeps the failure picture, however
      many frames are played. */
  lemma {:induction false} PlayKeepsBannerReady(w: World, frames: seq<Frame>)
    requires BannerReady(w)
    ensures BannerReady(Play(w, frames))
    decreases |frames|
  {
    if w.running && |frames| > 0 {
      PlayKeepsBannerReady(Tick(w, frames[0]), frames[1..]);
    }
  }

  /** The ship is outside the field after the frame's integration. */
  predicate LeavesField(f: Frame)
  {
    f.position.x < -Outcome.BOUND || f.position.x > Outcome.BOUND
  }

  /** Every state reached from initialisation, however many frames were
      played, has the banner ready. */
  lemma ReachedStatesAreBannerReady(blank: Entity, frames: seq<Frame>)
    ensures BannerReady(Play(Initialise(blank), frames))
  {
    PlayKeepsBannerReady(Initialise(blank), frames);
  }

  /** The next frame of a running game whose banner is ready, as every
      state reached from initialisation is, ends it with the victory banner
      (texture and size) exactly when block 8 is the last block hit. It
      stops with the failure picture still loaded exactly when block 8 is
      not touched and a quit is requested, the ship leaves the field or
      some block is touched; in the last two cases the failure banner is
      given its size. */
  lemma NextFrameOutcome(w: World, f: Frame)
    requires w.running && BannerReady(w)
    ensures var r := Tick(w, f);
      (r.text.texture == Passed && r.text.scale == Outcome.PASSED_SCALE) <==>
        Outcome.LastHit(f.hits) == Terrain.GOAL_BLOCK
    ensures var r := Tick(w, f);
      (!r.running && r.text.texture == Failed) <==>
        !f.hits[Terrain.GOAL_BLOCK] && (f.keys.quit || LeavesField(f) || exists j :: 0 <= j < |f.hits| && f.hits[j])
    ensures var r := Tick(w, f);
      !f.hits[Terrain.GOAL_BLOCK] && (LeavesField(f) || exists j :: 0 <= j < |f.hits| && f.hits[j]) ==>
        !r.running && r.text.texture == Failed && r.text.scale == Outcome.FAILED_SCALE
  {
    var moved := Integrate(Input.InputStep(w, f.keys), f.position, f.velocity);
    Outcome.VictoryIffGoalIsLastHit(moved, f.hits);
    if exists j :: 0 <= j < |f.hits| && f.hits[j] {
      var j :| 0 <= j < |f.hits| && f.hits[j];
      assert Outcome.LastHit(f.hits) >= j;
    }
  }

  /** The terrain is never changed by play. */
  lemma {:induction false} PlayKeepsTerrain(w: World, frames: seq<Frame>)
    ensures Play(w, frames).blocks == w.blocks
    decreases |frames|
  {
    if w.running && |frames| > 0 {
      PlayKeepsTerrain(Tick(w, frames[0]), frames[1..]);
    }
  }

  /** From a full 5000-unit tank and a full gauge, as initialisation leaves
      them, no sequence of frames drives the fuel below zero or the gauge
      below zero width, and the gauge is empty exactly when the tank is. */
  lemma FuelNeverNegative(w: World, frames: seq<Frame>)
    requires w.fuel == FULL_TANK && w.gauge.scale.x == FULL_GAUGE
    requires |w.blocks| == Terrain.NUMBER_OF_BLOCKS
    ensures 0 <= Play(w, frames).fuel <= FULL_TANK
    ensures 0.0 <= Play(w, frames).gauge.scale.x
    ensures Play(w, frames).gauge.scale.x == 0.0 <==> Play(w, frames).fuel == 0
  {
    PlayKeepsInvariant(w, frames);
    GaugeEmptyIffTankEmpty(Play(w, frames));
  }
}
