/** The turn controller: whose turn it is, aiming and charging a throw, the
    list of spears in flight, turn switching, game over and restart.

    Keyboard polling becomes an `Input` value per tick. The delayed turn switch
    is the `SwitchTurn` event, and the overlap callback the physics engine runs
    when a spear touches its target is the `OnWeaponOverlap` event; the
    overlap registrations themselves are kept in `overlaps`.
 */
module TurnController {
  import opened Grid
  import opened Combatant
  import opened TerrainField
  import opened Projectile
  import opened Clamp

  const MinAim := 10
  const MaxAim := 170
  const AimDelta := 2
  const StartAim := 45
  const PowerDelta := 8
  const MaxPower := 600

  /** Where the combatants stand at the start of a round. */
  const Player1Start := Point(150.0, 600.0)
  const Player2Start := Point((1280 - 150) as real, 600.0)

  /** The intents of one tick: arrow keys, shield key and restart key held or
      pressed, and the throw key pressed this tick, held, or released this tick. */
  datatype Input = Input(
    left: bool, right: bool, up: bool, down: bool,
    shield: bool,
    throwPressed: bool, throwHeld: bool, throwReleased: bool,
    restartPressed: bool)

  /** A registered overlap check between a spear and the combatant it can hit. */
  datatype Overlap = Overlap(weapon: Weapon, target: Player)

  /** The state the steering part of a tick starts from: the current
      combatant's movement and shield, the charge flag and the aim. */
  datatype SteerState = SteerState(motion: Motion, shieldUp: bool, charging: bool, aim: int)

  /** The state a throw-key tick starts from. */
  datatype ThrowState = ThrowState(
    canThrow: bool, charging: bool, power: int,
    weapons: seq<Weapon>, overlaps: seq<Overlap>,
    isThrowing: bool, x: real, y: real)

  /** The part of a combatant that a frame of play leaves alone. */
  datatype Body = Body(health: int, x: real, y: real, active: bool, touchingDown: bool)

  /** The part of a combatant that a restart leaves alone. */
  datatype Pose = Pose(isJumping: bool, isThrowing: bool, velocityX: int, velocityY: int, active: bool, touchingDown: bool)

  /** What a frame of play leaves alone of the combatant whose turn it is not. */
  datatype Stance = Stance(velocityX: int, isMoving: bool, flipX: bool, velocityY: int, shieldUp: bool, isThrowing: bool)

  /** One aiming step: up raises the angle by AimDelta, down lowers it, and
      the angle stops at the bounds [MinAim, MaxAim]. */
  function StepAim(angle: int, up: bool, down: bool): (r: int)
    ensures MinAim <= angle <= MaxAim ==> MinAim <= r <= MaxAim
    ensures !up && !down ==> r == angle
    ensures up && angle <= MaxAim ==> angle <= r <= angle + AimDelta && (r < angle + AimDelta ==> r == MaxAim)
    ensures !up && down && angle >= MinAim ==> angle - AimDelta <= r <= angle && (r > angle - AimDelta ==> r == MinAim)
  {
    if up then Min(angle + AimDelta, MaxAim)
    else if down then Max(angle - AimDelta, MinAim)
    else angle
  }

  /** The movement one tick of input asks for. While a throw is charged the
      combatant stands still; otherwise left wins over right, no direction
      stops it, the sprite faces the way it walks, and up jumps only from the
      ground. */
  function Steer(m: Motion, charging: bool, input: Input, touchingDown: bool, speed: int, jumpPower: int): Motion
  {
    if charging then
      m.(velocityX := 0, isMoving := false)
    else
      var walked :=
        if input.left then m.(velocityX := -speed, isMoving := true, flipX := true)
        else if input.right then m.(velocityX := speed, isMoving := true, flipX := false)
        else m.(velocityX := 0, isMoving := false);
      if input.up && touchingDown then walked.(velocityY := -jumpPower, isJumping := true) else walked
  }

  /** What Steer does, case by case. */
  lemma SteerOutcome(m: Motion, charging: bool, input: Input, touchingDown: bool, speed: int, jumpPower: int)
    ensures var r := Steer(m, charging, input, touchingDown, speed, jumpPower);
      (charging ==> r == m.(velocityX := 0, isMoving := false)) &&
      (!charging ==> (r.isMoving <==> input.left || input.right)) &&
      (!charging && input.left ==> r.velocityX == -speed && r.flipX) &&
      (!charging && !input.left && input.right ==> r.velocityX == speed && !r.flipX) &&
      (!charging && !input.left && !input.right ==> r.velocityX == 0 && r.flipX == m.flipX) &&
      (!charging && input.up && touchingDown ==> r.velocityY == -jumpPower && r.isJumping) &&
      (!(!charging && input.up && touchingDown) ==> r.velocityY == m.velocityY && r.isJumping == m.isJumping)
  {
  }

  /** The charge state after one tick of the throw key. */
  datatype Charge = Charge(charging: bool, power: int, release: bool)

  /** One tick of the throw key while throwing is allowed: pressing starts a
      charge from zero, holding adds PowerDelta up to `maxPower`, and releasing
      during a charge throws. */
  function ChargeTick(charging: bool, power: int, maxPower: int, input: Input): (c: Charge)
    requires 0 <= power <= maxPower
    ensures 0 <= c.power <= maxPower
    ensures c.charging <==> charging || input.throwPressed
    ensures c.release <==> c.charging && input.throwReleased
    ensures !c.charging ==> c.power == power
    ensures input.throwPressed ==> c.power <= PowerDelta
    ensures c.charging && input.throwHeld && power <= maxPower - PowerDelta && !input.throwPressed ==> c.power == power + PowerDelta
    ensures c.charging && !input.throwHeld ==> c.power == if input.throwPressed then 0 else power
    ensures var start := if input.throwPressed then 0 else power;
      c.charging && input.throwHeld ==>
        start <= c.power <= start + PowerDelta && (c.power < start + PowerDelta ==> c.power == maxPower)
  {
    var charging' := charging || input.throwPressed;
    var start := if input.throwPressed then 0 else power;
    var power' := if charging' && input.throwHeld then Min(start + PowerDelta, maxPower) else start;
    Charge(charging', power', charging' && input.throwReleased)
  }

  /** The launch angle: player 2 throws mirrored, towards the left. */
  function LaunchAngle(aim: int, playerNumber: int): (a: int)
    ensures MinAim <= aim <= MaxAim ==> MinAim <= a <= MaxAim
    ensures playerNumber == 2 ==> a + aim == 180
    ensures playerNumber != 2 ==> a == aim
  {
    if playerNumber == 2 then 180 - aim else aim
  }

  // ---------------------------------------------------------------------------
  // The list of spears in flight

  /** The index of the first occurrence of `x` in `s`, or -1. */
  function IndexOf<T(==)>(s: seq<T>, x: T): (i: int)
    ensures -1 <= i < |s|
    ensures i < 0 <==> x !in s
    ensures 0 <= i ==> s[i] == x && x !in s[..i]
  {
    if s == [] then -1
    else if s[0] == x then 0
    else
      var k := IndexOf(s[1..], x);
      assert s[1..][..k + 1] == s[1..k + 2];
      if k < 0 then -1 else k + 1
  }

  /** `s` without its first occurrence of `x`. */
  function Without<T(==)>(s: seq<T>, x: T): (r: seq<T>)
    ensures x !in s ==> r == s
    ensures x in s ==> |r| == |s| - 1 && multiset(r) == multiset(s) - multiset{x}
    ensures x in s ==> exists i :: 0 <= i < |s| && s[i] == x && x !in s[..i] && r == s[..i] + s[i + 1..]
  {
    var i := IndexOf(s, x);
    if i < 0 then s
    else
      assert s == s[..i] + [s[i]] + s[i + 1..];
      s[..i] + s[i + 1..]
  }

  /** The spears of `ws` that are still live, in their original order. */
  function ActiveOnly(ws: seq<Weapon>): (r: seq<Weapon>)
    reads set w | w in ws
    ensures forall w :: w in r ==> w in ws
    ensures forall w :: w in ws ==> (w in r <==> w.active)
    ensures |r| <= |ws|
  {
    if ws == [] then []
    else (if ws[0].active then [ws[0]] else []) + ActiveOnly(ws[1..])
  }

  /** Filtering keeps order: the live spears of a concatenation are the live
      spears of each part, one after the other. */
  lemma {:induction false} ActiveOnlyAppend(a: seq<Weapon>, b: seq<Weapon>)
    ensures ActiveOnly(a + b) == ActiveOnly(a) + ActiveOnly(b)
  {
    if a == [] {
      assert a + b == b;
    } else {
      var head := if a[0].active then [a[0]] else [];
      assert (a + b)[0] == a[0];
      assert (a + b)[1..] == a[1..] + b;
      ActiveOnlyAppend(a[1..], b);
      calc {
        ActiveOnly(a + b);
        head + ActiveOnly(a[1..] + b);
        head + (ActiveOnly(a[1..]) + ActiveOnly(b));
        (head + ActiveOnly(a[1..])) + ActiveOnly(b);
        ActiveOnly(a) + ActiveOnly(b);
      }
    }
  }

  /** Cleaning up a list that was just cleaned up changes nothing. */
  lemma {:induction false} ActiveOnlyIdempotent(ws: seq<Weapon>)
    ensures ActiveOnly(ActiveOnly(ws)) == ActiveOnly(ws)
  {
    if ws != [] {
      var rest := ActiveOnly(ws[1..]);
      ActiveOnlyIdempotent(ws[1..]);
      if ws[0].active {
        assert ActiveOnly(ws) == [ws[0]] + rest;
        ActiveOnlyAppend([ws[0]], rest);
        assert [ws[0]][1..] == [];
        assert ActiveOnly([ws[0]]) == [ws[0]];
      } else {
        assert ActiveOnly(ws) == rest;
      }
    }
  }

  class GameManager {
    const player1: Player
    const player2: Player
    const terrain: Terrain?
    const maxPower: int

    var currentPlayer: Player
    var gameOver: bool
    var canThrow: bool
    var aimAngle: int
    var throwPower: int
    var chargingPower: bool
    var activeWeapons: seq<Weapon>
    var overlaps: seq<Overlap>

    ghost predicate Valid()
      reads this`currentPlayer, this`aimAngle, this`throwPower, this`overlaps
      reads player1`health, player1`shieldCooldown, player2`health, player2`shieldCooldown
    {
      player1 != player2 &&
      player1.playerNumber == 1 && player2.playerNumber == 2 &&
      (currentPlayer == player1 || currentPlayer == player2) &&
      player1.Valid() && player2.Valid() &&
      (terrain != null ==> terrain.Valid()) &&
      maxPower == MaxPower &&
      MinAim <= aimAngle <= MaxAim &&
      0 <= throwPower <= maxPower &&
      (forall o :: o in overlaps ==> o.target == player1 || o.target == player2)
    }

    /** The combatant whose turn it is not. */
    function Opponent(): (p: Player)
      reads this`currentPlayer
      ensures currentPlayer == player1 || currentPlayer == player2 ==> p == player1 || p == player2
      ensures currentPlayer == player1 || currentPlayer == player2 ==> (p == currentPlayer <==> player1 == player2)
    {
      if currentPlayer == player1 then player2 else player1
    }

    /** The state at the start of a round. */
    ghost predicate RoundStart()
      reads this, player1, player2, if terrain != null then {terrain.data} else {}
    {
      !gameOver && currentPlayer == player1 && canThrow && !chargingPower && throwPower == 0 &&
      activeWeapons == [] &&
      player1.health == MaxHealth && !player1.shieldUp && player1.shieldCooldown == 0 && !player1.isMoving &&
      player2.health == MaxHealth && !player2.shieldUp && player2.shieldCooldown == 0 && !player2.isMoving &&
      (player1.flipX <==> player1.playerNumber != 1) && (player2.flipX <==> player2.playerNumber != 1) &&
      Point(player1.x, player1.y) == Player1Start && Point(player2.x, player2.y) == Player2Start &&
      (terrain != null ==> terrain.Cells() == Generate(terrain.width, terrain.height, terrain.hill))
    }

    /** Health, position, liveness and ground contact of both combatants. */
    function Bodies(): (Body, Body)
      reads player1`health, player1`x, player1`y, player1`active, player1`touchingDown
      reads player2`health, player2`x, player2`y, player2`active, player2`touchingDown
    {
      (Body(player1.health, player1.x, player1.y, player1.active, player1.touchingDown),
       Body(player2.health, player2.x, player2.y, player2.active, player2.touchingDown))
    }

    /** Jump, throw, velocity, liveness and ground contact of both combatants. */
    function Poses(): (Pose, Pose)
      reads player1`isJumping, player1`isThrowing, player1`velocityX, player1`velocityY, player1`active, player1`touchingDown
      reads player2`isJumping, player2`isThrowing, player2`velocityX, player2`velocityY, player2`active, player2`touchingDown
    {
      (Pose(player1.isJumping, player1.isThrowing, player1.velocityX, player1.velocityY, player1.active, player1.touchingDown),
       Pose(player2.isJumping, player2.isThrowing, player2.velocityX, player2.velocityY, player2.active, player2.touchingDown))
    }

    /** The movement, shield and throw flag of the combatant whose turn it is not. */
    function Aside(): Stance
      reads this`currentPlayer
      reads player1`velocityX, player1`isMoving, player1`flipX, player1`velocityY, player1`shieldUp, player1`isThrowing
      reads player2`velocityX, player2`isMoving, player2`flipX, player2`velocityY, player2`shieldUp, player2`isThrowing
    {
      var o := Opponent();
      Stance(o.velocityX, o.isMoving, o.flipX, o.velocityY, o.shieldUp, o.isThrowing)
    }

    /** What the steering part of a tick works from. */
    function SteerView(): SteerState
      reads this`currentPlayer, this`chargingPower, this`aimAngle
      reads currentPlayer`velocityX, currentPlayer`isMoving, currentPlayer`flipX
      reads currentPlayer`velocityY, currentPlayer`isJumping, currentPlayer`shieldUp
    {
      SteerState(currentPlayer.CurrentMotion(), currentPlayer.shieldUp, chargingPower, aimAngle)
    }

    /** The steering part of a tick, from `was`: the movement Steer asks for,
        one aiming step while charging, and the shield up exactly while its
        key is held and it was up already or is not cooling down. */
    ghost predicate Steered(input: Input, was: SteerState)
      reads this`currentPlayer, this`aimAngle
      reads currentPlayer`velocityX, currentPlayer`isMoving, currentPlayer`flipX
      reads currentPlayer`velocityY, currentPlayer`isJumping, currentPlayer`shieldUp
      reads currentPlayer`touchingDown, currentPlayer`shieldCooldown
    {
      currentPlayer.CurrentMotion() ==
        Steer(was.motion, was.charging, input, currentPlayer.touchingDown, currentPlayer.speed, currentPlayer.jumpPower) &&
      aimAngle == (if was.charging then StepAim(was.aim, input.up, input.down) else was.aim) &&
      currentPlayer.shieldUp == (input.shield && (was.shieldUp || currentPlayer.shieldCooldown <= 0))
    }

    /** What the throw key works from: the turn's throw state and the
        current combatant's throw flag and position. */
    function ThrowView(): ThrowState
      reads this`canThrow, this`chargingPower, this`throwPower, this`activeWeapons, this`overlaps
      reads this`currentPlayer, currentPlayer`isThrowing, currentPlayer`x, currentPlayer`y
    {
      ThrowState(canThrow, chargingPower, throwPower, activeWeapons, overlaps,
        currentPlayer.isThrowing, currentPlayer.x, currentPlayer.y)
    }

    /** A throw happened since `was`: the turn state is reset and exactly one
        new live spear with the given power, launched at the player's angle
        from the player's position, was appended, with an overlap check
        against the opponent. */
    ghost predicate Threw(was: ThrowState, power: int)
      reads this, currentPlayer, set w | w in activeWeapons
    {
      !canThrow && !chargingPower && throwPower == 0 &&
      |activeWeapons| == |was.weapons| + 1 &&
      activeWeapons[..|was.weapons|] == was.weapons &&
      var w := activeWeapons[|was.weapons|];
      w !in was.weapons && w.active && w.trailPoints == [] &&
      w.owner == currentPlayer && w.power == power &&
      w.angle == LaunchAngle(aimAngle, currentPlayer.playerNumber) &&
      w.x == was.x && w.y == was.y - LaunchHeight &&
      overlaps == was.overlaps + [Overlap(w, Opponent())] &&
      currentPlayer.isThrowing
    }

    /** A manager for a new game between `player1` and `player2` on `terrain`. */
    constructor (player1: Player, player2: Player, terrain: Terrain?)
      requires player1 != player2 && player1.Valid() && player2.Valid()
      requires player1.playerNumber == 1 && player2.playerNumber == 2
      requires terrain != null ==> terrain.Valid()
      ensures Valid()
      ensures this.player1 == player1 && this.player2 == player2 && this.terrain == terrain
      ensures currentPlayer == player1 && !gameOver && canThrow
      ensures aimAngle == StartAim && throwPower == 0 && !chargingPower
      ensures activeWeapons == [] && overlaps == []
    {
      this.player1, this.player2, this.terrain := player1, player2, terrain;
      maxPower := MaxPower;
      currentPlayer := player1;
      gameOver, canThrow := false, true;
      aimAngle, throwPower, chargingPower := StartAim, 0, false;
      activeWeapons, overlaps := [], [];
    }

    /** One frame. After a game over only the restart intent is looked at;
        otherwise input is handled, the combatants tick and dead spears are
        dropped from the list. */
    method Update(input: Input)
      requires Valid()
      modifies this, set w | w in activeWeapons
      modifies if terrain != null then {terrain.data} else {}
      modifies player1`health, player1`shieldUp, player1`shieldCooldown, player1`isMoving, player1`flipX
      modifies player1`x, player1`y, player1`velocityX, player1`velocityY, player1`isJumping, player1`isThrowing
      modifies player2`health, player2`shieldUp, player2`shieldCooldown, player2`isMoving, player2`flipX
      modifies player2`x, player2`y, player2`velocityX, player2`velocityY, player2`isJumping, player2`isThrowing
      ensures Valid()
      ensures old(gameOver) && input.restartPressed ==>
        RoundStart() && aimAngle == old(aimAngle) && overlaps == old(overlaps) &&
        (forall w :: w in old(activeWeapons) ==> !w.active) && Poses() == old(Poses())
      ensures old(gameOver) && !input.restartPressed ==>
        unchanged(this) && unchanged(player1) && unchanged(player2) &&
        unchanged(set w | w in old(activeWeapons)) && (terrain != null ==> unchanged(terrain.data))
      ensures !old(gameOver) ==> !gameOver && currentPlayer == old(currentPlayer)
      ensures !old(gameOver) ==>
        unchanged(set w | w in old(activeWeapons)) && (terrain != null ==> unchanged(terrain.data))
      ensures !old(gameOver) ==>
        Bodies() == old(Bodies())
      ensures !old(gameOver) ==>
        aimAngle == if old(chargingPower) then StepAim(old(aimAngle), input.up, input.down) else old(aimAngle)
      ensures !old(gameOver) ==> forall w :: w in activeWeapons ==> w.active
      ensures !old(gameOver) ==> forall w :: w in old(activeWeapons) && old(w.active) ==> w in activeWeapons
      ensures !old(gameOver) ==>
        !old(canThrow) ==> !canThrow && chargingPower == old(chargingPower) && throwPower == old(throwPower)
      ensures !old(gameOver) ==>
        player1.shieldCooldown == Tick(old(player1.shieldCooldown)) &&
        player2.shieldCooldown == Tick(old(player2.shieldCooldown))
      ensures !old(gameOver) ==>
        Aside() == old(Aside()) && Opponent().isJumping == (old(Opponent().isJumping) && !Opponent().touchingDown)
    {
      if gameOver {
        if input.restartPressed {
          RestartGame();
        }
        return;
      }
      PlayTick(input);
    }

    /** A frame of a game in progress: input, then the combatants' tick, then
        the removal of destroyed spears. */
    method PlayTick(input: Input)
      requires Valid()
      modifies this`aimAngle, this`chargingPower, this`throwPower, this`canThrow
      modifies this`activeWeapons, this`overlaps
      modifies currentPlayer`velocityX, currentPlayer`isMoving, currentPlayer`flipX
      modifies currentPlayer`velocityY, currentPlayer`shieldUp, currentPlayer`isThrowing
      modifies player1`shieldCooldown, player1`isJumping, player2`shieldCooldown, player2`isJumping
      ensures Valid()
      ensures aimAngle == if old(chargingPower) then StepAim(old(aimAngle), input.up, input.down) else old(aimAngle)
      ensures forall w :: w in activeWeapons ==> w.active
      ensures forall w :: w in old(activeWeapons) && old(w.active) ==> w in activeWeapons
      ensures !old(canThrow) ==> !canThrow && chargingPower == old(chargingPower) && throwPower == old(throwPower)
      ensures player1.shieldCooldown == Tick(old(player1.shieldCooldown))
      ensures player2.shieldCooldown == Tick(old(player2.shieldCooldown))
      ensures Bodies() == old(Bodies())
      ensures Aside() == old(Aside())
      ensures Opponent().isJumping == (old(Opponent().isJumping) && !Opponent().touchingDown)
    {
      HandleInput(input);
      label steered:
      FinishTick();
      assert aimAngle == old@steered(aimAngle);
    }

    /** The end of a frame of play: the combatants' tick, then the removal
        of destroyed spears. */
    method FinishTick()
      requires Valid()
      modifies this`activeWeapons, player1`shieldCooldown, player1`isJumping, player2`shieldCooldown, player2`isJumping
      ensures Valid()
      ensures activeWeapons == ActiveOnly(old(activeWeapons))
      ensures forall w :: w in activeWeapons ==> w.active
      ensures forall w :: w in old(activeWeapons) && w.active ==> w in activeWeapons
      ensures player1.shieldCooldown == Tick(old(player1.shieldCooldown))
      ensures player2.shieldCooldown == Tick(old(player2.shieldCooldown))
      ensures player1.isJumping == (old(player1.isJumping) && !player1.touchingDown)
      ensures player2.isJumping == (old(player2.isJumping) && !player2.touchingDown)
      ensures Bodies() == old(Bodies())
      ensures Aside() == old(Aside())
    {
      UpdatePlayers();
      CleanupWeapons();
    }

    /** The current combatant's intents: walking and jumping unless a throw
        is being charged (then it stands still), aiming while charging, the
        shield, and the throw key. */
    method HandleInput(input: Input)
      requires Valid()
      modifies this`aimAngle, this`chargingPower, this`throwPower, this`canThrow
      modifies this`activeWeapons, this`overlaps
      modifies currentPlayer`velocityX, currentPlayer`isMoving, currentPlayer`flipX
      modifies currentPlayer`velocityY, currentPlayer`isJumping, currentPlayer`shieldUp, currentPlayer`isThrowing
      ensures Valid()
      ensures Steered(input, old(SteerView()))
      ensures SpearThrowStep(input, old(ThrowView()))
      ensures |activeWeapons| > |old(activeWeapons)| ==> fresh(activeWeapons[|activeWeapons| - 1])
      ensures forall w :: w in old(activeWeapons) ==> w in activeWeapons
      ensures Bodies() == old(Bodies())
      ensures Aside() == old(Aside())
      ensures !old(canThrow) ==> !canThrow && chargingPower == old(chargingPower) && throwPower == old(throwPower)
      ensures player1.shieldCooldown == old(player1.shieldCooldown) && player2.shieldCooldown == old(player2.shieldCooldown)
    {
      SteerCurrentPlayer(input);
      HandleSpearThrow(input);
    }

    /** Everything but the throw key: movement, aiming while charging, and the shield. */
    method SteerCurrentPlayer(input: Input)
      requires Valid()
      modifies this`aimAngle
      modifies currentPlayer`velocityX, currentPlayer`isMoving, currentPlayer`flipX
      modifies currentPlayer`velocityY, currentPlayer`isJumping, currentPlayer`shieldUp
      ensures Valid()
      ensures Steered(input, old(SteerView()))
      ensures ThrowView() == old(ThrowView())
      ensures Bodies() == old(Bodies())
      ensures Aside() == old(Aside())
      ensures player1.shieldCooldown == old(player1.shieldCooldown) && player2.shieldCooldown == old(player2.shieldCooldown)
    {
      MoveAndAim(input);
      HandleShield(input);
    }

    /** Movement, then aiming while charging. */
    method MoveAndAim(input: Input)
      requires Valid()
      modifies this`aimAngle
      modifies currentPlayer`velocityX, currentPlayer`isMoving, currentPlayer`flipX
      modifies currentPlayer`velocityY, currentPlayer`isJumping
      ensures Valid()
      ensures currentPlayer.CurrentMotion() == Steer(old(currentPlayer.CurrentMotion()), chargingPower, input,
        currentPlayer.touchingDown, currentPlayer.speed, currentPlayer.jumpPower)
      ensures aimAngle == if chargingPower then StepAim(old(aimAngle), input.up, input.down) else old(aimAngle)
      ensures currentPlayer.shieldUp == old(currentPlayer.shieldUp)
      ensures ThrowView() == old(ThrowView())
      ensures Bodies() == old(Bodies())
      ensures Aside() == old(Aside())
      ensures player1.shieldCooldown == old(player1.shieldCooldown) && player2.shieldCooldown == old(player2.shieldCooldown)
    {
      HandleMovement(input);
      HandleAim(input);
    }

    /** While a throw is charged, up and down move the aim by one step. */
    method HandleAim(input: Input)
      requires Valid()
      modifies this`aimAngle
      ensures Valid()
      ensures aimAngle == if chargingPower then StepAim(old(aimAngle), input.up, input.down) else old(aimAngle)
      ensures currentPlayer.CurrentMotion() == old(currentPlayer.CurrentMotion())
      ensures ThrowView() == old(ThrowView())
      ensures Bodies() == old(Bodies())
      ensures Aside() == old(Aside())
    {
      if chargingPower {
        aimAngle := StepAim(aimAngle, input.up, input.down);
      }
    }

    /** Walking and jumping, or standing still while a throw is charged. */
    method HandleMovement(input: Input)
      requires Valid()
      modifies currentPlayer`velocityX, currentPlayer`isMoving, currentPlayer`flipX
      modifies currentPlayer`velocityY, currentPlayer`isJumping
      ensures currentPlayer.CurrentMotion() == Steer(old(currentPlayer.CurrentMotion()), chargingPower, input,
        currentPlayer.touchingDown, currentPlayer.speed, currentPlayer.jumpPower)
      ensures Valid()
      ensures ThrowView() == old(ThrowView())
      ensures Bodies() == old(Bodies())
      ensures Aside() == old(Aside())
    {
      var p := currentPlayer;
      if !chargingPower {
        if input.left {
          p.MoveLeft();
        } else if input.right {
          p.MoveRight();
        } else {
          p.StopMoving();
        }
        if input.up && p.touchingDown {
          p.Jump();
        }
      } else {
        p.StopMoving();
      }
    }

    /** The shield is held up while the shield key is down and otherwise lowered. */
    method HandleShield(input: Input)
      requires Valid()
      modifies currentPlayer`shieldUp
      ensures Valid()
      ensures currentPlayer.shieldUp == (input.shield && (old(currentPlayer.shieldUp) || currentPlayer.shieldCooldown <= 0))
      ensures currentPlayer.CurrentMotion() == old(currentPlayer.CurrentMotion())
      ensures ThrowView() == old(ThrowView())
      ensures Bodies() == old(Bodies())
      ensures Aside() == old(Aside())
    {
      if input.shield {
        currentPlayer.RaiseShield();
      } else {
        currentPlayer.LowerShield();
      }
    }

    /** What the throw key did in one tick, from `was`: nothing when throwing
        is not allowed; otherwise the charge advanced by ChargeTick, and a
        release threw the spear at the charged power. */
    ghost predicate SpearThrowStep(input: Input, was: ThrowState)
      reads this, currentPlayer, set w | w in activeWeapons
      requires 0 <= was.power <= maxPower
    {
      var c := ChargeTick(was.charging, was.power, maxPower, input);
      if !was.canThrow || !c.release then
        canThrow == was.canThrow &&
        chargingPower == (if was.canThrow then c.charging else was.charging) &&
        throwPower == (if was.canThrow then c.power else was.power) &&
        activeWeapons == was.weapons && overlaps == was.overlaps &&
        currentPlayer.isThrowing == was.isThrowing
      else
        Threw(was, c.power)
    }

    method HandleSpearThrow(input: Input)
      requires Valid()
      modifies this`chargingPower, this`throwPower, this`canThrow, this`activeWeapons, this`overlaps
      modifies currentPlayer`isThrowing
      ensures Valid()
      ensures |old(activeWeapons)| <= |activeWeapons| && activeWeapons[..|old(activeWeapons)|] == old(activeWeapons)
      ensures forall w :: w in activeWeapons && w !in old(activeWeapons) ==> w.active
      ensures SpearThrowStep(input, old(ThrowView()))
      ensures |activeWeapons| > |old(activeWeapons)| ==> fresh(activeWeapons[|activeWeapons| - 1])
      ensures Bodies() == old(Bodies())
      ensures Aside() == old(Aside())
      ensures !old(canThrow) ==> !canThrow && chargingPower == old(chargingPower) && throwPower == old(throwPower)
      ensures player1.shieldCooldown == old(player1.shieldCooldown) && player2.shieldCooldown == old(player2.shieldCooldown)
    {
      if !canThrow {
        return;
      }
      ChargeStep(input);
      if chargingPower && input.throwReleased {
        ThrowSpear();
      }
    }

    /** Pressing the throw key starts a charge from zero; holding it adds
        PowerDelta, up to the maximum power. */
    method ChargeStep(input: Input)
      requires Valid()
      modifies this`chargingPower, this`throwPower
      ensures Valid()
      ensures var c := ChargeTick(old(chargingPower), old(throwPower), maxPower, input);
        chargingPower == c.charging && throwPower == c.power
      ensures ThrowView() == old(ThrowView()).(charging := chargingPower, power := throwPower)
    {
      if input.throwPressed {
        chargingPower := true;
        throwPower := 0;
      }
      if chargingPower && input.throwHeld {
        throwPower := Min(throwPower + PowerDelta, maxPower);
      }
    }

    /** Releases the spear: throwing is locked until the turn switches. */
    method ThrowSpear()
      requires Valid()
      modifies this`chargingPower, this`throwPower, this`canThrow, this`activeWeapons, this`overlaps
      modifies currentPlayer`isThrowing
      ensures Valid()
      ensures Threw(old(ThrowView()), old(throwPower))
      ensures fresh(activeWeapons[|activeWeapons| - 1])
    {
      canThrow := false;
      chargingPower := false;
      currentPlayer.ThrowSpear();
      var throwAngle := aimAngle;
      if currentPlayer.playerNumber == 2 {
        throwAngle := 180 - aimAngle;
      }
      var weapon := new Weapon(currentPlayer.x, currentPlayer.y, throwAngle, throwPower, currentPlayer);
      activeWeapons := activeWeapons + [weapon];
      SetupWeaponCollisions(weapon);
      throwPower := 0;
    }

    /** Registers the overlap check of a new spear against the opponent. */
    method SetupWeaponCollisions(weapon: Weapon)
      requires Valid()
      modifies this`overlaps
      ensures Valid()
      ensures overlaps == old(overlaps) + [Overlap(weapon, Opponent())]
    {
      var target := if currentPlayer == player1 then player2 else player1;
      overlaps := overlaps + [Overlap(weapon, target)];
    }

    /** The overlap callback: the spear hits its registered target, leaves
        the list, and a defeat ends the game. */
    method OnWeaponOverlap(weapon: Weapon, target: Player)
      requires Valid() && Overlap(weapon, target) in overlaps
      modifies this`gameOver, this`activeWeapons, target`health, target`shieldCooldown
      modifies weapon`trailTimerLive, weapon`collisionTimerLive, weapon`active
      ensures Valid()
      ensures var hit := Hit(old(target.health), target.shieldUp, old(target.shieldCooldown), SpearDamage);
        target.health == hit.health && target.shieldCooldown == hit.cooldown &&
        gameOver == (old(gameOver) || hit.defeated)
      ensures activeWeapons == Without(old(activeWeapons), weapon)
      ensures !weapon.active
    {
      var wasDefeated := weapon.HandlePlayerHit(target);
      RemoveWeapon(weapon);
      if wasDefeated {
        gameOver := true;
      }
    }

    method RemoveWeapon(weapon: Weapon)
      modifies this`activeWeapons
      ensures activeWeapons == Without(old(activeWeapons), weapon)
    {
      var index := IndexOf(activeWeapons, weapon);
      if index > -1 {
        activeWeapons := activeWeapons[..index] + activeWeapons[index + 1..];
      }
    }

    method CleanupWeapons()
      modifies this`activeWeapons
      ensures activeWeapons == ActiveOnly(old(activeWeapons))
    {
      activeWeapons := ActiveOnly(activeWeapons);
    }

    method UpdatePlayers()
      requires Valid()
      modifies player1`shieldCooldown, player1`isJumping, player2`shieldCooldown, player2`isJumping
      ensures Valid()
      ensures player1.shieldCooldown == Tick(old(player1.shieldCooldown))
      ensures player2.shieldCooldown == Tick(old(player2.shieldCooldown))
      ensures player1.isJumping == (old(player1.isJumping) && !player1.touchingDown)
      ensures player2.isJumping == (old(player2.isJumping) && !player2.touchingDown)
      ensures Bodies() == old(Bodies())
      ensures Aside() == old(Aside())
    {
      player1.Update();
      player2.Update();
    }

    /** The delayed turn switch: ignored after a game over; otherwise the
        opponent gets the turn and may throw, and both stand facing each other. */
    method SwitchTurn()
      requires Valid()
      modifies this`currentPlayer, this`canThrow, player1`isMoving, player1`flipX, player2`isMoving, player2`flipX
      ensures Valid()
      ensures old(gameOver) ==>
        currentPlayer == old(currentPlayer) && canThrow == old(canThrow) &&
        unchanged(player1) && unchanged(player2)
      ensures !old(gameOver) ==>
        currentPlayer == old(Opponent()) && canThrow &&
        !player1.isMoving && !player2.isMoving && !player1.flipX && player2.flipX
      ensures !old(gameOver) ==>
        (player1.flipX <==> player1.playerNumber != 1) && (player2.flipX <==> player2.playerNumber != 1)
    {
      if gameOver {
        return;
      }
      currentPlayer := if currentPlayer == player1 then player2 else player1;
      canThrow := true;
      player1.isMoving := false;
      player2.isMoving := false;
      player1.flipX := false;
      player2.flipX := true;
    }

    /** Destroys every spear of `ws`, in order. */
    static method DestroyAll(ws: seq<Weapon>)
      modifies set w | w in ws
      ensures forall w :: w in ws ==> !w.active
    {
      for i := 0 to |ws|
        invariant forall j :: 0 <= j < i ==> !ws[j].active
      {
        ws[i].Destroy();
      }
    }

    /** Both combatants back to full health at their start positions. */
    method ResetCombatants()
      requires Valid()
      modifies player1`health, player1`shieldUp, player1`shieldCooldown, player1`isMoving, player1`flipX
      modifies player2`health, player2`shieldUp, player2`shieldCooldown, player2`isMoving, player2`flipX
      modifies player1`x, player1`y, player2`x, player2`y
      ensures Valid()
      ensures player1.health == MaxHealth && !player1.shieldUp && player1.shieldCooldown == 0 && !player1.isMoving
      ensures player2.health == MaxHealth && !player2.shieldUp && player2.shieldCooldown == 0 && !player2.isMoving
      ensures (player1.flipX <==> player1.playerNumber != 1) && (player2.flipX <==> player2.playerNumber != 1)
      ensures Point(player1.x, player1.y) == Player1Start && Point(player2.x, player2.y) == Player2Start
      ensures Poses() == old(Poses())
    {
      player1.Reset();
      player2.Reset();
      player1.SetPosition(Player1Start.x, Player1Start.y);
      player2.SetPosition(Player2Start.x, Player2Start.y);
    }

    /** Starts a new round: combatants reset and back at their start
        positions, turn state reset to player 1, every spear destroyed and the
        terrain regenerated. The aim angle is kept. */
    method RestartGame()
      requires Valid()
      modifies this, set w | w in activeWeapons
      modifies player1`health, player1`shieldUp, player1`shieldCooldown, player1`isMoving, player1`flipX
      modifies player2`health, player2`shieldUp, player2`shieldCooldown, player2`isMoving, player2`flipX
      modifies player1`x, player1`y, player2`x, player2`y
      modifies if terrain != null then {terrain.data} else {}
      ensures Valid() && RoundStart()
      ensures Poses() == old(Poses())
      ensures aimAngle == old(aimAngle) && overlaps == old(overlaps)
      ensures forall w :: w in old(activeWeapons) ==> !w.active
    {
      ResetCombatants();
      gameOver := false;
      currentPlayer := player1;
      canThrow := true;
      chargingPower := false;
      throwPower := 0;
      DestroyAll(activeWeapons);
      activeWeapons := [];
      if terrain != null {
        terrain.Reset();
      }
    }
  }
}
