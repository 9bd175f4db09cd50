/** A thrown spear: its bounded trail of recent positions and what happens
    when it hits a combatant or the terrain. Its flight is integrated by the
    physics engine; the position is a field the engine updates.
 */
module Projectile {
  import opened Grid
  import opened Combatant
  import opened TerrainField
  import opened Clamp

  /** The trail keeps at most this many positions. */
  const TrailLength := 5

  /** Damage dealt by a spear that hits a combatant. */
  const SpearDamage := 25

  /** Radius of the crater a spear carves where it hits the ground. */
  const CraterRadius := 40

  /** The spear appears this far above the thrower's position. */
  const LaunchHeight := 20.0

  datatype Point = Point(x: real, y: real)

  /** Appends `p` to the trail and drops the oldest point once the trail is
      longer than TrailLength. */
  function PushTrail(trail: seq<Point>, p: Point): (r: seq<Point>)
    ensures |trail| <= TrailLength ==> |r| <= TrailLength
    ensures 0 < |r| <= |trail| + 1 && r[|r| - 1] == p
    ensures r == (trail + [p])[|trail| + 1 - |r|..]
  {
    var t := trail + [p];
    if |t| > TrailLength then t[1..] else t
  }

  /** The trail after the positions `ps` were pushed, in order, onto an empty trail. */
  function TrailOf(ps: seq<Point>): seq<Point>
  {
    if ps == [] then [] else PushTrail(TrailOf(ps[..|ps| - 1]), ps[|ps| - 1])
  }

  /** The trail holds the TrailLength most recent positions, oldest first. */
  lemma {:induction false} TrailKeepsLatest(ps: seq<Point>)
    ensures TrailOf(ps) == ps[|ps| - Min(|ps|, TrailLength)..]
  {
    if ps != [] {
      var n := |ps|;
      var k := Min(n - 1, TrailLength);
      TrailKeepsLatest(ps[..n - 1]);
      SuffixStep(ps, n - 1 - k);
    }
  }

  /** Dropping the last element of `ps` and then taking the suffix from `i`
      is taking the suffix from `i` without its last element. */
  lemma SuffixStep(ps: seq<Point>, i: nat)
    requires i < |ps|
    ensures ps[..|ps| - 1][i..] + [ps[|ps| - 1]] == ps[i..]
    ensures (ps[..|ps| - 1][i..] + [ps[|ps| - 1]])[1..] == ps[i + 1..]
  {
    assert ps[..|ps| - 1][i..] + [ps[|ps| - 1]] == ps[i..];
  }

  class Weapon {
    const owner: Player
    const angle: int
    const power: int
    /** Whether the sprite is drawn facing left. */
    const flipX: bool

    /** The spear position, moved by the physics engine. */
    var x: real
    var y: real
    /** Whether the sprite still exists; destroying the spear clears it. */
    var active: bool
    var trailPoints: seq<Point>
    /** Whether the repeating trail and collision timers are still scheduled. */
    var trailTimerLive: bool
    var collisionTimerLive: bool

    ghost predicate Valid()
      reads this
    {
      |trailPoints| <= TrailLength
    }

    /** A spear thrown from (x, y) by `owner`, with the given launch angle and power. */
    constructor (x: real, y: real, angle: int, power: int, owner: Player)
      ensures Valid()
      ensures this.x == x && this.y == y - LaunchHeight
      ensures this.angle == angle && this.power == power && this.owner == owner
      ensures flipX <==> owner.playerNumber == 2
      ensures active && trailPoints == [] && trailTimerLive && collisionTimerLive
    {
      this.owner, this.angle, this.power := owner, angle, power;
      flipX := owner.playerNumber == 2;
      this.x, this.y := x, y - LaunchHeight;
      active := true;
      trailPoints := [];
      trailTimerLive, collisionTimerLive := true, true;
    }

    /** Trail timer tick: a live spear records its position; a destroyed one
        stops the trail. */
    method UpdateTrail()
      requires Valid()
      modifies this`trailPoints, this`trailTimerLive
      ensures Valid()
      ensures old(active) ==> trailPoints == PushTrail(old(trailPoints), Point(x, y)) && trailTimerLive == old(trailTimerLive)
      ensures !old(active) ==> trailPoints == old(trailPoints) && !trailTimerLive
    {
      if active {
        trailPoints := trailPoints + [Point(x, y)];
        if |trailPoints| > TrailLength {
          trailPoints := trailPoints[1..];
        }
      } else {
        CleanupTrail();
      }
    }

    method CleanupTrail()
      modifies this`trailTimerLive
      ensures !trailTimerLive
    {
      trailTimerLive := false;
    }

    /** Stops both timers and destroys the sprite if it still exists; a second
        call changes nothing more. */
    method Destroy()
      modifies this`trailTimerLive, this`collisionTimerLive, this`active
      ensures !trailTimerLive && !collisionTimerLive && !active
    {
      CleanupTrail();
      collisionTimerLive := false;
      if active {
        active := false;
      }
    }

    /** The spear hits `target`: SpearDamage goes through the damage rule
        once, the spear is destroyed, and the defeat flag is passed on. */
    method HandlePlayerHit(target: Player) returns (wasDefeated: bool)
      requires target.Valid()
      modifies target`health, target`shieldCooldown, this`trailTimerLive, this`collisionTimerLive, this`active
      ensures target.Valid()
      ensures HitResult(target.health, target.shieldCooldown, wasDefeated) ==
        Hit(old(target.health), target.shieldUp, old(target.shieldCooldown), SpearDamage)
      ensures !active && !trailTimerLive && !collisionTimerLive
    {
      wasDefeated := target.TakeDamage(SpearDamage);
      Destroy();
    }

    /** The spear hits the ground: a crater of CraterRadius is carved at its
        position (when there is terrain), then the spear is destroyed. */
    method HandleTerrainHit(terrain: Terrain?, p1: Player, p2: Player)
      requires terrain != null ==> terrain.Valid()
      modifies if terrain != null then {terrain.data} else {}, p1`velocityY, p2`velocityY
      modifies this`trailTimerLive, this`collisionTimerLive, this`active
      ensures terrain != null ==>
        terrain.Cells() == Carve(old(terrain.Cells()), x.Floor, y.Floor, CraterRadius)
      ensures terrain != null ==>
        p2.velocityY == if terrain.Floating(p2) then FallSpeed else old(p2.velocityY)
      ensures terrain != null ==>
        p1.velocityY == if terrain.Floating(p1) then FallSpeed else old(p1.velocityY)
      ensures terrain == null ==> p1.velocityY == old(p1.velocityY) && p2.velocityY == old(p2.velocityY)
      ensures !active && !trailTimerLive && !collisionTimerLive
    {
      if terrain != null {
        terrain.CreateCrater(x, y, CraterRadius, p1, p2);
      }
      Destroy();
    }

    /** Collision timer tick: only a live spear over solid terrain hits it. */
    method CheckTerrainCollision(terrain: Terrain?, p1: Player, p2: Player)
      requires terrain != null ==> terrain.Valid()
      modifies if terrain != null then {terrain.data} else {}, p1`velocityY, p2`velocityY
      modifies this`trailTimerLive, this`collisionTimerLive, this`active
      ensures var hit := old(active) && terrain != null && old(terrain.CheckCollision(x, y));
        (hit ==> terrain.Cells() == Carve(old(terrain.Cells()), x.Floor, y.Floor, CraterRadius) &&
                 p2.velocityY == (if terrain.Floating(p2) then FallSpeed else old(p2.velocityY)) &&
                 p1.velocityY == (if terrain.Floating(p1) then FallSpeed else old(p1.velocityY)) &&
                 !active && !trailTimerLive && !collisionTimerLive) &&
        (!hit ==> unchanged(this) && (terrain != null ==> unchanged(terrain.data)) &&
                  p1.velocityY == old(p1.velocityY) && p2.velocityY == old(p2.velocityY))
    {
      if active && terrain != null && terrain.CheckCollision(x, y) {
        HandleTerrainHit(terrain, p1, p2);
      }
    }

    /** The engine reports that the spear left the world: treated as a terrain hit. */
    method OnWorldBounds(terrain: Terrain?, p1: Player, p2: Player)
      requires terrain != null ==> terrain.Valid()
      modifies if terrain != null then {terrain.data} else {}, p1`velocityY, p2`velocityY
      modifies this`trailTimerLive, this`collisionTimerLive, this`active
      ensures terrain != null ==>
        terrain.Cells() == Carve(old(terrain.Cells()), x.Floor, y.Floor, CraterRadius)
      ensures terrain != null ==>
        p2.velocityY == if terrain.Floating(p2) then FallSpeed else old(p2.velocityY)
      ensures terrain != null ==>
        p1.velocityY == if terrain.Floating(p1) then FallSpeed else old(p1.velocityY)
      ensures terrain == null ==> p1.velocityY == old(p1.velocityY) && p2.velocityY == old(p2.velocityY)
      ensures !active && !trailTimerLive && !collisionTimerLive
    {
      HandleTerrainHit(terrain, p1, p2);
    }
  }
}
