/** A combatant: health, shield and the movement flags the controller drives.

    Position, velocity and ground contact belong to the physics engine. They are
    fields here that the engine sets between ticks; the core only writes the
    velocities it requests (walking, jumping, falling) and reads the rest.
 */
module Combatant {
  import opened Clamp

  const MaxHealth := 100
  const Speed := 160
  const JumpPower := 330

  /** Ticks (3 seconds at 60 frames a second) during which a shield that has
      just blocked cannot block again. */
  const ShieldCooldown := 180

  /** The result of one hit: the new health, the new shield cooldown and
      whether the hit defeated the combatant. */
  datatype HitResult = HitResult(health: int, cooldown: int, defeated: bool)

  /** Whether a hit is blocked: the shield is raised and not cooling down. */
  predicate Blocks(shieldUp: bool, cooldown: int)
  {
    shieldUp && cooldown <= 0
  }

  /** The damage rule. A blocked hit arms the cooldown and leaves health alone;
      any other hit subtracts `amount`, and a result at or below zero becomes
      zero and reports defeat. */
  function Hit(health: int, shieldUp: bool, cooldown: int, amount: int): (r: HitResult)
    ensures r.defeated <==> !Blocks(shieldUp, cooldown) && health - amount <= 0
    ensures health >= 0 ==> r.health >= 0
  {
    if Blocks(shieldUp, cooldown) then HitResult(health, ShieldCooldown, false)
    else if health - amount <= 0 then HitResult(0, cooldown, true)
    else HitResult(health - amount, cooldown, false)
  }

  /** Health never becomes negative, and a hit reports defeat exactly when it
      was not blocked and left the combatant at zero health. */
  lemma HitOutcome(health: int, shieldUp: bool, cooldown: int, amount: int)
    requires health >= 0
    ensures var r := Hit(health, shieldUp, cooldown, amount);
      r.health >= 0 &&
      (r.defeated <==> !Blocks(shieldUp, cooldown) && r.health == 0) &&
      (Blocks(shieldUp, cooldown) ==> r.health == health && r.cooldown == ShieldCooldown) &&
      (!Blocks(shieldUp, cooldown) ==> r.cooldown == cooldown && r.health == Max(health - amount, 0))
  {
  }

  /** Health after `n` unblocked hits of `amount` each. */
  function AfterHits(health: int, amount: int, n: nat): int
  {
    if n == 0 then health else Hit(AfterHits(health, amount, n - 1), false, 0, amount).health
  }

  /** Unblocked hits take `amount` each until health reaches zero, where it stays. */
  lemma {:induction false} RepeatedHits(health: int, amount: nat, n: nat)
    requires health >= 0
    ensures AfterHits(health, amount, n) == Max(health - n * amount, 0)
  {
    if n > 0 {
      RepeatedHits(health, amount, n - 1);
      assert health - n * amount == health - (n - 1) * amount - amount;
    }
  }

  /** From full health, spear hits of 25 defeat a combatant on the fourth hit
      and not before. */
  lemma FourHitsDefeat()
    ensures AfterHits(MaxHealth, 25, 3) == 25
    ensures Hit(AfterHits(MaxHealth, 25, 3), false, 0, 25).defeated
  {
    RepeatedHits(MaxHealth, 25, 3);
  }

  /** One tick of the shield cooldown. */
  function Tick(cooldown: int): (r: int)
    ensures cooldown >= 0 ==> 0 <= r <= cooldown
    ensures r == cooldown || (cooldown > 0 && r == cooldown - 1)
  {
    if cooldown > 0 then cooldown - 1 else cooldown
  }

  /** The cooldown after `n` ticks. */
  function TickN(cooldown: int, n: nat): int
  {
    if n == 0 then cooldown else Tick(TickN(cooldown, n - 1))
  }

  /** A non-negative cooldown counts down by one a tick and stops at zero. */
  lemma {:induction false} TickNCountsDown(cooldown: nat, n: nat)
    ensures TickN(cooldown, n) == Max(cooldown - n, 0)
  {
    if n > 0 {
      TickNCountsDown(cooldown, n - 1);
    }
  }

  /** After a block the shield can block again after exactly 180 ticks: a
      raised shield blocks the next hit iff at least that many ticks have passed. */
  lemma ShieldRecharge(n: nat)
    ensures Blocks(true, TickN(ShieldCooldown, n)) <==> n >= ShieldCooldown
  {
    TickNCountsDown(ShieldCooldown, n);
  }

  /** The movement part of a combatant's state that the controller drives. */
  datatype Motion = Motion(velocityX: int, isMoving: bool, flipX: bool, velocityY: int, isJumping: bool)

  class Player {
    const playerNumber: int
    const maxHealth: int
    const speed: int
    const jumpPower: int

    var health: int
    var shieldUp: bool
    var shieldCooldown: int
    var isMoving: bool
    var isJumping: bool
    var isThrowing: bool
    /** Whether the sprite faces left. */
    var flipX: bool

    // The physics body, integrated by the engine.
    var x: real
    var y: real
    var velocityX: int
    var velocityY: int
    var touchingDown: bool
    var active: bool

    ghost predicate Valid()
      reads this`health, this`shieldCooldown
    {
      maxHealth == MaxHealth && speed == Speed && jumpPower == JumpPower &&
      health >= 0 && 0 <= shieldCooldown <= ShieldCooldown
    }

    function CurrentMotion(): Motion
      reads this`velocityX, this`isMoving, this`flipX, this`velocityY, this`isJumping
    {
      Motion(velocityX, isMoving, flipX, velocityY, isJumping)
    }

    constructor (playerNumber: int, x: real, y: real)
      ensures Valid()
      ensures this.playerNumber == playerNumber && this.x == x && this.y == y
      ensures health == MaxHealth && !shieldUp && shieldCooldown == 0
      ensures !isMoving && !isJumping && !isThrowing && active
      ensures flipX <==> playerNumber == 2
    {
      this.playerNumber := playerNumber;
      maxHealth, speed, jumpPower := MaxHealth, Speed, JumpPower;
      health := MaxHealth;
      shieldUp, shieldCooldown := false, 0;
      isMoving, isJumping, isThrowing := false, false, false;
      flipX := playerNumber == 2;
      this.x, this.y := x, y;
      velocityX, velocityY := 0, 0;
      touchingDown := false;
      active := true;
    }

    /** Per-tick update: the shield cooldown ticks down, and a jump ends once
        the body touches the ground again. */
    method Update()
      requires Valid()
      modifies this`shieldCooldown, this`isJumping
      ensures Valid()
      ensures shieldCooldown == Tick(old(shieldCooldown))
      ensures isJumping == (old(isJumping) && !touchingDown)
    {
      if shieldCooldown > 0 {
        shieldCooldown := shieldCooldown - 1;
      }
      if isJumping && touchingDown {
        isJumping := false;
      }
    }

    method MoveLeft()
      modifies this`velocityX, this`isMoving, this`flipX
      ensures velocityX == -speed && isMoving && flipX
    {
      velocityX := -speed;
      isMoving := true;
      flipX := true;
    }

    method MoveRight()
      modifies this`velocityX, this`isMoving, this`flipX
      ensures velocityX == speed && isMoving && !flipX
    {
      velocityX := speed;
      isMoving := true;
      flipX := false;
    }

    method StopMoving()
      modifies this`velocityX, this`isMoving
      ensures velocityX == 0 && !isMoving
    {
      velocityX := 0;
      isMoving := false;
    }

    /** Jumps only from the ground; in the air it does nothing. */
    method Jump()
      modifies this`velocityY, this`isJumping
      ensures touchingDown ==> velocityY == -jumpPower && isJumping
      ensures !touchingDown ==> velocityY == old(velocityY) && isJumping == old(isJumping)
    {
      if touchingDown {
        velocityY := -jumpPower;
        isJumping := true;
      }
    }

    /** The shield goes up only when it is not cooling down. */
    method RaiseShield()
      modifies this`shieldUp
      ensures shieldUp == (old(shieldUp) || shieldCooldown <= 0)
    {
      if shieldCooldown <= 0 {
        shieldUp := true;
      }
    }

    method LowerShield()
      modifies this`shieldUp
      ensures !shieldUp
    {
      shieldUp := false;
    }

    /** Applies a hit and reports whether it defeated this combatant. */
    method TakeDamage(amount: int) returns (defeated: bool)
      requires Valid()
      modifies this`health, this`shieldCooldown
      ensures Valid()
      ensures HitResult(health, shieldCooldown, defeated) == Hit(old(health), shieldUp, old(shieldCooldown), amount)
      ensures Blocks(shieldUp, old(shieldCooldown)) ==> health == old(health) && shieldCooldown == ShieldCooldown && !defeated
      ensures !Blocks(shieldUp, old(shieldCooldown)) ==>
        shieldCooldown == old(shieldCooldown) &&
        (defeated <==> old(health) - amount <= 0) &&
        health == (if defeated then 0 else old(health) - amount)
    {
      if shieldUp && shieldCooldown <= 0 {
        shieldCooldown := ShieldCooldown;
        return false;
      } else {
        health := health - amount;
        if health <= 0 {
          health := 0;
          return true;
        }
        return false;
      }
    }

    /** Back to the start of a round: full health, shield down and ready,
        standing still, facing the opponent. */
    method Reset()
      requires Valid()
      modifies this`health, this`shieldUp, this`shieldCooldown, this`isMoving, this`flipX
      ensures Valid()
      ensures health == maxHealth && !shieldUp && shieldCooldown == 0 && !isMoving
      ensures flipX <==> playerNumber != 1
    {
      health := maxHealth;
      shieldUp := false;
      shieldCooldown := 0;
      isMoving := false;
      flipX := playerNumber != 1;
    }

    method SetPosition(x: real, y: real)
      modifies this`x, this`y
      ensures this.x == x && this.y == y
    {
      this.x, this.y := x, y;
    }

    /** Starts the throw animation; its end is reported by the animation layer. */
    method ThrowSpear()
      modifies this`isThrowing
      ensures isThrowing
    {
      isThrowing := true;
    }

    predicate IsDead()
      reads this
    {
      health <= 0
    }

    /** A valid combatant is dead exactly when its health has reached zero. */
    lemma DeadIffZeroHealth()
      requires Valid()
      ensures IsDead() <==> health == 0
    {
    }
  }
}
