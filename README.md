# Player movement states

A Dafny model of the player's horizontal movement state machine of a small
2D platformer (`src/game/helper/PlayerMovementStates.ts`). The player is
always in one of three states, idle, moving left or moving right. Building a
state acts on the player sprite at once. It makes one `setVelocityX` call and
one `anims.play` call, whose key is the sprite colour followed by
`-idle-left`, `-idle-right`, `-run-left` or `-run-right`. A state's
`update` reads the keys. "Left held" means the left arrow or A is down;
"right held" means the right arrow or D is down. `update` then returns
either nothing (`null`: no transition, nothing touched) or a freshly built
successor state. The caller that invokes `update` (the game scene) is not
part of this model; see "## Left out". The horizontal speed of the moving
states is the constant `PLAYER_X_VELOCITY = 400` (`PlayerXVelocity`).

Files:

- `Wrappers.dfy`: `Option` (`None` is the `null` of `update`) and `Result`
  (`Err` is an exception thrown by a constructor).
- `PlayerSprite.dfy`: the engine sprite as a class `Player`. Its fields are
  the velocity, the last animation key and flag, the position, the body's
  "touching down" contact, and an `effects` log of every call made on it.
- `PlayerMovementStates.dfy`: the state records, the three constructors and
  the three `update` methods. These are imperative methods that modify the
  player. Beside them are the pure transition table `Decide`, the
  animation-key convention with its inverse `ParseAnimKey`, and lemmas about
  traces of frames.

The source's own doc comments and its checks disagree on one point. The
`velocity_x` parameter is documented as "must be negative" for moving left
(PlayerMovementStates.ts:85) and "must be positive" for moving right (:142).
The checks throw only for `velocity_x > 0` (:91) and `velocity_x < 0` (:148).
So both constructors accept 0, and the model follows the checks
(`MovingLeftRejects`, `MovingRightRejects`).
The moving-right error message says "moving left"; the model keeps that text
as written.

With both keys held, idle goes left, moving-left goes right and moving-right
goes left; this is what the `update` methods do, and the model keeps it.
Assume a caller that calls `update` once per frame, keeps its state on `null`
and replaces it with the result otherwise. Under that caller the player flips
direction on every frame for as long as both keys are held
(`BothHeldFlipsEachFrame`, `BothHeldFromIdle`). The frame-trace lemmas
`SteadyUnderRepeat`, `SettlesAfterOneFrame`, `BothHeldFlipsEachFrame` and
`BothHeldFromIdle` all rest on this assumed caller, which is built into
`NextName` and `Trace`.

## Model

| member | source | states |
|---|---|---|
| PlayerMovementStates.NewIdleState | src/game/helper/PlayerMovementStates.ts:35-49 | records state `idle` with velocity 0, the given position and colour; sets the player's velocity to 0, then plays the idle clip with flag `true`; exactly these two calls, in this order; the clip played is `color-idle-left` iff direction is "left" and `color-idle-right` iff it is not; direction defaults to "right" |
| PlayerMovementStates.NewDefaultIdleState | src/game/helper/PlayerMovementStates.ts:35 | building an idle state without a direction uses the default "right" and plays `color-idle-right` |
| PlayerMovementStates.NewMovingLeftState | src/game/helper/PlayerMovementStates.ts:90-108 | throws (with the source's message) exactly when velocity > 0, so 0 is accepted, and then the player is untouched; otherwise records state `moving_left` and sets the player's velocity to the given value, then plays `color-run-left` with flag equal to `touching.down` |
| PlayerMovementStates.NewMovingRightState | src/game/helper/PlayerMovementStates.ts:147-165 | throws exactly when velocity < 0, player untouched; otherwise records `moving_right`, sets the velocity, plays `color-run-right` with flag equal to `touching.down` |
| PlayerMovementStates.Decide | src/game/helper/PlayerMovementStates.ts:59-184 | the branch choice of the three `update` methods: no transition iff the keys ask for the current state (`Desired`); otherwise the target is the state the keys ask for; with both held the target is MovingRight from MovingLeft and MovingLeft otherwise; the target is never the current state; successors carry 0, -400 or +400 to match their name, so no constructor call throws; the idle successor faces the direction the player was moving |
| PlayerMovementStates.IdleLeftWinsTies | src/game/helper/PlayerMovementStates.ts:62-63 | from idle, left held gives MovingLeft(-400) whether or not right is also held |
| PlayerMovementStates.UpdateIdle | src/game/helper/PlayerMovementStates.ts:59-69 | left held: returns MovingLeft(-400); else right held: MovingRight(+400); else `None` with the player untouched; the successor has the player's current x/y and this colour, and the player's velocity equals its velocity |
| PlayerMovementStates.UpdateMovingLeft | src/game/helper/PlayerMovementStates.ts:117-127 | neither held: Idle facing left; right held, even with left: MovingRight(+400); only left: `None`, player untouched; same successor guarantees |
| PlayerMovementStates.UpdateMovingRight | src/game/helper/PlayerMovementStates.ts:174-184 | neither held: Idle facing right; left held, even with right: MovingLeft(-400); only right: `None`, player untouched; same successor guarantees |
| PlayerMovementStates.Update | src/game/helper/PlayerMovementStates.ts:59-184 | calling `update` on any state does what that state's `update` promises; the resulting current state (kept on `None`, replaced otherwise) is `NextName`, the one step the frame-trace lemmas iterate |
| PlayerMovementStates.UpdateAgain | src/game/helper/PlayerMovementStates.ts:59-184 | once `update` has returned `None`, a second call with the same keys returns `None` too and the player is still untouched |
| PlayerMovementStates.AnimKey | src/game/helper/PlayerMovementStates.ts:45-49 | an animation key begins with the sprite colour and is longer than it |
| PlayerMovementStates.ParseAnimKey | src/game/helper/PlayerMovementStates.ts:12-15 | a key it accepts is exactly the key built from the colour, action and facing it returns |
| PlayerMovementStates.ParseAnimKeyRoundTrip | src/game/helper/PlayerMovementStates.ts:12-15 | parsing the key built from (colour, idle/run, left/right) gives back that triple |
| PlayerMovementStates.AnimKeyInjective | src/game/helper/PlayerMovementStates.ts:12-15 | two keys are equal iff colour, action and facing are all equal, so each colour family has four distinct clips and no two families share a key |
| PlayerMovementStates.StateNameValuesDistinct | src/game/helper/PlayerMovementStates.ts:3-7 | the three `state_name` tags are distinct |
| PlayerMovementStates.SteadyUnderRepeat | src/game/helper/PlayerMovementStates.ts:59-184 | under the assumed once-per-frame caller, a state that `update` leaves in place stays in place for any number of frames with the same keys |
| PlayerMovementStates.SettlesAfterOneFrame | src/game/helper/PlayerMovementStates.ts:59-184 | under the assumed caller, unless both keys are held, one frame reaches the state the keys ask for and later frames with the same keys keep it |
| PlayerMovementStates.BothHeldFlipsEachFrame | src/game/helper/PlayerMovementStates.ts:117-184 | under the assumed caller, with both keys held, a moving state alternates between left and right every frame |
| PlayerMovementStates.BothHeldFromIdle | src/game/helper/PlayerMovementStates.ts:59-69 | under the assumed caller, with both keys held from idle, the first frame goes left and then the direction alternates every frame |
| PlayerSprite.Player.SetVelocityX | src/game/helper/PlayerMovementStates.ts:43 | `setVelocityX(v)` sets the velocity to v and logs one call; nothing else changes |
| PlayerSprite.Player.PlayAnimation | src/game/helper/PlayerMovementStates.ts:46 | `anims.play(key, flag)` records the key and flag and logs one call; nothing else changes |

## Left out

- Phaser's animation playback, arcade physics, collision detection and
  keyboard polling. The body's `touching.down` contact, the sprite's
  position and the four key states are plain inputs. `anims.play` only
  records the key and the flag; the flag has no meaning beyond the boolean
  passed.
- The `scene` parameter is not modelled. The constructors do not use it, and
  `update` reads only its four keys, which are the `Keys` argument.
- Positions are integers as the source's type annotations say. The engine
  keeps them as floating-point numbers.
- `velocity_x` is an untyped field in the source. The model uses an integer,
  since every value the code passes is one.
- The constructor's default `direction = 'right'` is a Dafny default
  parameter of `NewIdleState`. Required parameters follow it, so a caller
  reaches the default only by passing `undefined` for `direction`;
  `NewDefaultIdleState`, which omits the argument through named arguments,
  is that call.
- The caller of `update` is the game scene, which is not part of this model.
  The frame-trace functions `NextName` and `Trace` assume that it calls
  `update` once per frame, keeps its current state on `null` and replaces it
  with the returned state otherwise. `SteadyUnderRepeat`,
  `SettlesAfterOneFrame`, `BothHeldFlipsEachFrame` and `BothHeldFromIdle`
  hold only for such a caller.
- The `player_movement_states` constants are the `StateName` datatype.
  `StateNameValue` gives their strings.
- The platform factory and the game bootstrap are engine configuration with
  no logic of their own. They are not part of this model.
