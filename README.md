# Spartan artillery duel: a verified model of the game-state core

Two Spartan combatants stand on a destructible hilly terrain and take turns
throwing spears at each other. The current combatant walks, jumps and raises
a shield. It charges a throw with the throw key, aims while charging and
releases. A spear that reaches the opponent deals 25 damage unless the shield
blocks it. A spear that hits the ground carves a crater of radius 40, and a
combatant left floating above the ground starts to fall. Four unblocked hits
defeat a combatant, and the round ends until restart.

The project models the four classes that hold this state:

- `grid.dfy` (module `Grid`): the terrain cells as a value, `seq<seq<int>>`,
  column-major like the game's terrain data. It defines generation, crater
  carving and the ground-level scan as functions, with lemmas about them.
- `terrain.dfy` (module `TerrainField`): class `Terrain` over an
  `array2<int>`. The generating loop, the crater-carving loop and the ground
  scan are methods, each proved against the functions of `Grid`.
- `player.dfy` (module `Combatant`): the damage and shield rule as a
  function, and class `Player` with its health, shield and movement fields.
- `weapon.dfy` (module `Projectile`): the bounded trail of a spear and
  class `Weapon` with its hit handlers and guarded destruction.
- `game_manager.dfy` (module `TurnController`): the aim, charge and launch
  rules, the spear list operations, and class `GameManager`, the turn state
  machine.

Keyboard polling becomes one `Input` value per tick. The delayed turn switch
becomes the `SwitchTurn` event. The overlap callback that the physics engine
runs when a spear touches its target becomes the `OnWeaponOverlap` event. The
overlap registrations are kept in the `overlaps` list. Positions,
`touchingDown` and `active` of the bodies are fields that the physics engine
sets between ticks.

A combatant at zero health has no input gate of its own. After a defeat,
`gameOver` stops all input handling (js/classes/GameManager.js:43), and the
model does the same.

## Model

| member | source | states |
|---|---|---|
| Grid.Generate | js/classes/Terrain.js:12-28 | a fresh grid has width columns of height cells, each 0 or 1; a cell is solid exactly when its row is below the hill surface of its column |
| Grid.GeneratedColumnsAreBottomSuffixes | js/classes/Terrain.js:16-26 | in a fresh grid, every cell below a solid cell is solid and every cell above an empty cell is empty |
| Grid.GeneratedGroundLevel | js/classes/Terrain.js:16-26 | the ground level of a fresh column is the first row below the hill surface; no row above it is below the surface |
| Grid.Carve | js/classes/Terrain.js:62-78 | a crater keeps the grid's shape |
| Grid.CarveClearsDisc | js/classes/Terrain.js:67-78 | every cell within the radius of the floored centre (dx²+dy² ≤ r²) is empty after the crater |
| Grid.CarveKeepsOutside | js/classes/Terrain.js:67-78 | cells outside the disc keep their value |
| Grid.CarveIsMonotone | js/classes/Terrain.js:72-74 | a crater never makes a cell solid |
| Grid.CarveWellFormed | js/classes/Terrain.js:67-78 | a crater keeps a grid of 0/1 cells well formed |
| Grid.CarveIdempotent | js/classes/Terrain.js:62-78 | carving the same crater twice equals carving it once |
| Grid.CarveCommutes | js/classes/Terrain.js:62-78 | two craters give the same grid in either order |
| Grid.ColumnTop | js/classes/Terrain.js:107-112 | the scan from a row returns the first solid row at or below it, or the column length; every row it passes is not solid |
| Grid.GroundLevel | js/classes/Terrain.js:102-113 | the ground level is in [0, height], is height outside the grid, has no solid row above it, and is solid when below height |
| Grid.GroundLevelUnique | js/classes/Terrain.js:106-112 | any row that is solid (or height) with no solid row above it is the ground level |
| Grid.CarveLowersGround | js/classes/Terrain.js:83-84 | after a crater the ground of every column is at or below where it was, so a crater can only make a combatant fall |
| TerrainField.Terrain.constructor | js/classes/Terrain.js:2-10 | a new terrain has the given size and holds the generated grid |
| TerrainField.Terrain.GenerateTerrain | js/classes/Terrain.js:12-28 | the nested loops fill the array with exactly the generated grid |
| TerrainField.Terrain.Reset | js/classes/Terrain.js:115-118 | reset regenerates the same grid a fresh terrain holds |
| TerrainField.Terrain.CheckCollision | js/classes/Terrain.js:51-60 | false for floored coordinates outside the grid; otherwise true exactly when that cell is solid |
| TerrainField.Terrain.FindGroundLevel | js/classes/Terrain.js:102-113 | height for a column outside the grid; otherwise the topmost solid row with only empty rows above it, or height; equals GroundLevel |
| TerrainField.Terrain.Floating | js/classes/Terrain.js:92-94 | an active combatant whose y is more than 10 rows above the ground level of its floored column |
| TerrainField.Terrain.SupportPlayer | js/classes/Terrain.js:91-98 | an active combatant more than 10 rows above the ground of its column gets vertical velocity 50; otherwise its velocity is unchanged |
| TerrainField.Terrain.CheckPlayerSupport | js/classes/Terrain.js:87-100 | the floating decision is applied to both combatants |
| TerrainField.Terrain.CreateCrater | js/classes/Terrain.js:62-85 | the array afterwards holds Carve of the grid before, at the floored centre; then both combatants get the floating decision against the new ground |
| Combatant.Hit | js/classes/Player.js:104-130 | the damage rule: defeat is reported exactly when the hit is not blocked and takes health to 0 or below; health never becomes negative |
| Combatant.HitOutcome | js/classes/Player.js:104-130 | health stays ≥ 0; a blocked hit keeps health and arms the 180-tick cooldown; an unblocked hit keeps the cooldown and leaves max(0, health − amount); defeat is reported exactly when the hit was not blocked and health reached 0 |
| Combatant.RepeatedHits | js/classes/Player.js:114-124 | n unblocked hits of amount a leave max(0, health − n·a) |
| Combatant.FourHitsDefeat | js/classes/Weapon.js:104 | from full health, spear hits of 25 leave 25 after three hits and the fourth defeats |
| Combatant.Tick | js/classes/Player.js:46-48 | one cooldown tick: a non-negative cooldown stays in [0, cooldown], and the only change is one down from a positive value |
| Combatant.TickNCountsDown | js/classes/Player.js:46-48 | n cooldown ticks from c ≥ 0 leave max(0, c − n), never negative |
| Combatant.ShieldRecharge | js/classes/Player.js:105-111 | after a block, a raised shield blocks again exactly when at least 180 ticks have passed |
| Combatant.Player.constructor | js/classes/Player.js:2-42 | a new combatant has full health, shield down and ready, no movement flags, and player 2 faces left |
| Combatant.Player.Update | js/classes/Player.js:44-55 | the cooldown goes down by one only when positive; a jump ends when the body touches the ground |
| Combatant.Player.MoveLeft | js/classes/Player.js:57-65 | velocity −speed, moving, facing left |
| Combatant.Player.MoveRight | js/classes/Player.js:67-75 | velocity +speed, moving, facing right |
| Combatant.Player.StopMoving | js/classes/Player.js:77-84 | horizontal velocity 0 and not moving |
| Combatant.Player.Jump | js/classes/Player.js:86-92 | on the ground: velocity −jumpPower and jumping; in the air: nothing changes |
| Combatant.Player.RaiseShield | js/classes/Player.js:94-98 | the shield goes up only when the cooldown is ≤ 0; otherwise it stays as it was |
| Combatant.Player.LowerShield | js/classes/Player.js:100-102 | the shield is down |
| Combatant.Player.TakeDamage | js/classes/Player.js:104-130 | the new health, cooldown and defeat flag are the damage rule Hit applied to the old state, case by case |
| Combatant.Player.Reset | js/classes/Player.js:132-145 | full health, shield down, cooldown 0, not moving; player 1 faces right and player 2 faces left |
| Combatant.Player.SetPosition | js/classes/Player.js:147-149 | the body is at the given position |
| Combatant.Player.ThrowSpear | js/classes/Player.js:188-196 | the combatant is throwing |
| Combatant.Player.IsDead | js/classes/Player.js:291 | dead exactly when health is at most 0; DeadIffZeroHealth states what that means for a valid combatant |
| Combatant.Player.DeadIffZeroHealth | js/classes/Player.js:291 | a valid combatant is dead exactly when its health is 0 |
| Projectile.PushTrail | js/classes/Weapon.js:45-50 | the pushed point is last; the trail keeps at most 5 points; it is a suffix of the old trail plus the point |
| Projectile.TrailKeepsLatest | js/classes/Weapon.js:42-50 | after any sequence of pushes the trail is exactly the 5 most recent positions, oldest first |
| Projectile.Weapon.constructor | js/classes/Weapon.js:2-29 | a new spear starts 20 above the thrower, with the given angle, power and owner, an empty trail and both timers running; player 2's spear faces left |
| Projectile.Weapon.UpdateTrail | js/classes/Weapon.js:42-71 | a live spear pushes its position onto the trail; a destroyed one adds nothing and stops the trail timer |
| Projectile.Weapon.CleanupTrail | js/classes/Weapon.js:73-80 | the trail timer is stopped |
| Projectile.Weapon.Destroy | js/classes/Weapon.js:148-158 | both timers are stopped and the spear is inactive, whatever its state before |
| Projectile.Weapon.HandlePlayerHit | js/classes/Weapon.js:103-114 | the target takes exactly one hit of 25 through the damage rule, its defeat flag is returned unchanged, and the spear is destroyed |
| Projectile.Weapon.HandleTerrainHit | js/classes/Weapon.js:116-128 | with terrain, a crater of radius 40 is carved at the spear position and the combatants get the floating decision; the spear is destroyed |
| Projectile.Weapon.CheckTerrainCollision | js/classes/Weapon.js:84-93 | only a live spear over a solid cell hits the terrain, and a hit carves the crater of radius 40, gives both combatants the floating decision against the new ground, destroys the spear and stops both timers; otherwise nothing changes |
| Projectile.Weapon.OnWorldBounds | js/classes/Weapon.js:96-100 | leaving the world is treated as a terrain hit at the spear position: with terrain the crater is carved and both combatants get the floating decision, without it their velocities are kept; the spear is destroyed and both timers stop |
| TurnController.StepAim | js/classes/GameManager.js:71-77 | an aim step keeps the angle in [10, 170]; up adds 2 and down subtracts 2 unless the bound is reached, and then the angle is that bound; up wins over down |
| TurnController.Steer | js/classes/GameManager.js:52-68 | the motion one tick of input asks for; SteerOutcome states it case by case |
| TurnController.SteerOutcome | js/classes/GameManager.js:52-68 | while charging only the horizontal motion stops; otherwise left wins over right, no direction stops, facing follows the walk, and up jumps only from the ground |
| TurnController.ChargeTick | js/classes/GameManager.js:93-102 | power stays in [0, maxPower]; a press starts a charge from 0; holding adds 8 to the starting power (0 after a press), and a smaller step happens only when it stops at maxPower; without holding the power stays; a release while charging throws |
| TurnController.LaunchAngle | js/classes/GameManager.js:122-126 | player 1 throws at the aim angle, player 2 at 180 minus it; the result stays in [10, 170] |
| TurnController.IndexOf | js/classes/GameManager.js:167 | −1 exactly when the spear is absent; otherwise the position of its first occurrence |
| TurnController.Without | js/classes/GameManager.js:166-171 | an absent spear leaves the list unchanged; otherwise exactly its first occurrence is removed and the order of the rest is kept |
| TurnController.ActiveOnly | js/classes/GameManager.js:173-176 | the result holds exactly the live spears of the list |
| TurnController.ActiveOnlyAppend | js/classes/GameManager.js:175 | the filter keeps the original order: filtering a concatenation concatenates the filtered parts |
| TurnController.ActiveOnlyIdempotent | js/classes/GameManager.js:173-176 | a second cleanup changes nothing |
| TurnController.GameManager.constructor | js/classes/GameManager.js:2-34 | a new game: player 1's turn, throwing allowed, aim 45, no charge, power 0, no spears |
| TurnController.GameManager.Update | js/classes/GameManager.js:36-48 | after a game over only the restart intent is looked at: it restores the round start, destroys every old spear and keeps the aim, the overlap registrations and the combatants' jump, throw, velocity and liveness; without it nothing changes, spears and terrain included; otherwise the turn is kept, the aim steps only while charging, every listed spear is live, no live spear is lost, no old spear and no terrain cell changes, both cooldowns tick once, a turn that may not throw keeps its charge and power and still may not throw, the combatants' health, position and liveness are kept, and the combatant whose turn it is not keeps its movement, shield and throw flag, its jump ending only on landing |
| TurnController.GameManager.PlayTick | js/classes/GameManager.js:43-47 | a tick of a running game steps the aim only while charging, leaves only live spears in the list and keeps every live one, ticks both cooldowns once, leaves the charge and power alone when the turn may not throw, keeps both combatants' health, position and liveness, and leaves the combatant whose turn it is not as it was except that its jump ends on landing |
| TurnController.GameManager.HandleInput | js/classes/GameManager.js:50-88 | the current combatant moves as Steer says, aims while charging and holds the shield as its key says; then the throw key acts as SpearThrowStep says; no listed spear is dropped, no cooldown changes, a turn that may not throw keeps its charge and power, and the other combatant is not touched |
| TurnController.GameManager.SteerCurrentPlayer | js/classes/GameManager.js:51-84 | movement, aim and shield of one tick, relative to the state before it; the throw state, both cooldowns and the other combatant are not touched |
| TurnController.GameManager.MoveAndAim | js/classes/GameManager.js:51-77 | the motion afterwards is Steer of the motion before, the aim takes one StepAim while charging, and the shield and both cooldowns are kept |
| TurnController.GameManager.HandleMovement | js/classes/GameManager.js:51-68 | the current combatant's motion afterwards is Steer of its motion before; while charging, movement intents only stop it |
| TurnController.GameManager.HandleAim | js/classes/GameManager.js:70-77 | while charging the aim takes one StepAim; otherwise it is unchanged |
| TurnController.GameManager.HandleShield | js/classes/GameManager.js:79-84 | the shield is up exactly when its key is held and it was up already or is not cooling down |
| TurnController.GameManager.HandleSpearThrow | js/classes/GameManager.js:90-108 | nothing changes when throwing is not allowed; otherwise the charge follows ChargeTick, and a release throws one spear at the charged power; the old spears stay in front of the list |
| TurnController.GameManager.ChargeStep | js/classes/GameManager.js:93-102 | the charge flag and power afterwards are ChargeTick of the flag and power before |
| TurnController.GameManager.ThrowSpear | js/classes/GameManager.js:110-148 | throwing is locked, the charge ends with power 0; exactly one new live spear is appended, at the launch angle, with the charged power, from the thrower's position, with an overlap check against the opponent |
| TurnController.GameManager.Opponent | js/classes/GameManager.js:151 | the combatant whose turn it is not: one of the two, and different from the current one exactly when the two are distinct |
| TurnController.GameManager.SetupWeaponCollisions | js/classes/GameManager.js:150-164 | the overlap check registered for a new spear targets the combatant whose turn it is not |
| TurnController.GameManager.OnWeaponOverlap | js/classes/GameManager.js:153-163 | the target takes the spear's hit through the damage rule, the spear leaves the list and is inactive, and a defeat ends the game |
| TurnController.GameManager.RemoveWeapon | js/classes/GameManager.js:166-171 | the list afterwards is Without of the list before |
| TurnController.GameManager.CleanupWeapons | js/classes/GameManager.js:173-176 | the list afterwards holds exactly the live spears, in order |
| TurnController.GameManager.UpdatePlayers | js/classes/GameManager.js:178-181 | both combatants' cooldowns tick once and their jumps end on landing |
| TurnController.GameManager.FinishTick | js/classes/GameManager.js:45-46 | both cooldowns tick once, jumps end on landing, and the list afterwards holds exactly the live spears: every listed spear is live and none of the live ones is lost |
| TurnController.GameManager.SwitchTurn | js/classes/GameManager.js:183-196 | after a game over nothing changes; otherwise the opponent gets the turn, throwing is allowed, neither combatant is moving, player 1 faces right and player 2 left, which is the facing of a round start |
| TurnController.GameManager.DestroyAll | js/classes/GameManager.js:213 | every spear of the list is destroyed |
| TurnController.GameManager.ResetCombatants | js/classes/GameManager.js:199-203 | both combatants are reset and stand at their start positions (150, 600) and (1130, 600) |
| TurnController.GameManager.RestartGame | js/classes/GameManager.js:198-223 | the round start: no game over, player 1's turn, throwing allowed, no charge, power 0, no spears, every old spear destroyed, combatants reset and the terrain regenerated; the aim angle and the overlap registrations are kept, and so are the combatants' jump, throw, velocity and liveness |

## Left out

- Ballistic flight: the launch velocity from angle and power, gravity and the
  world-bounds integration are the physics engine's floating-point work. The
  spear position is a field the engine sets.
- The hill sinusoid of the terrain generator is floating-point trigonometry.
  It is the abstract per-column function `hill` of `Terrain`.
- Drawing: the terrain graphics, trail circles, tints, dust and impact
  particles, camera shake, breathing tweens, `currentAnimation` and the
  battle cry have no effect on the game state.
- `UI.js`, `AnimationManager.js` and `main.js` are not part of this model.
  The scene bootstrap is replaced by the constructors, and the players the
  terrain reads from the scene are passed as parameters.
- Keyboard polling is the `Input` value. The timers that drive the trail, the
  collision check and the turn switch are the events `UpdateTrail`,
  `CheckTerrainCollision` and `SwitchTurn`. Real time is not modelled.
- The end of the throw animation, which clears `isThrowing`, is driven by
  the animation layer and is not modelled.
- `handleLandingEffects` only makes dust on landing and is not modelled.
- `handleWalkingAnimation` is never called anywhere in the game, so it is not
  modelled. It would nudge the combatant's `y`, the position that the
  floating decision and the spear launch read.
- The read-only getters of the UI are the fields themselves.
- The default size of the terrain constructor (1280 by 720) is not a
  default here: the constructor takes the size as arguments.
- The model does not prove that the overlap callback and the world-bounds
  event fire at the right moment. These come from the engine, and the events
  are methods that may be called at any time.
- TurnController.GameManager.Update: on a running tick, does not restate the
  current combatant's movement, shield and throw-key facts. They are stated on
  HandleInput. The combatants' tick runs right after and changes `isJumping`
  and the cooldown that those facts read. For the other combatant, `Aside`
  gathers its velocities, walking and facing flags, shield and throw flag,
  which are all kept.
- TurnController.GameManager.PlayTick: the same holds as for Update.
- TurnController.GameManager.RestartGame: the aim angle is not reset. The
  code keeps it across rounds, and so does the model. The overlap
  registrations of destroyed spears stay in `overlaps`, because the engine
  never reports an overlap for a destroyed sprite.
