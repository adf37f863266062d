/**
 * The player's horizontal movement state machine: three states (idle, moving
 * left, moving right). Building a state applies it to the player sprite at
 * once (one velocity call, one animation call); each state's `update` reads
 * the left/right keys and either returns `None` (no transition, nothing
 * touched) or a freshly built successor state.
 */
module PlayerMovementStates {
  import opened Wrappers
  import opened PlayerSprite

  /** The player's horizontal speed in the two moving states. */
  const PlayerXVelocity: int := 400

  /** The facing an idle state gets when the caller does not choose one. */
  const DefaultDirection: string := "right"

  const MovingLeftMessage: string := "Velocity X value must be negative to reflect player moving left"
  const MovingRightMessage: string := "Velocity X value must be positive to reflect player moving left"

  // ---------------------------------------------------------------------------
  // States
  // ---------------------------------------------------------------------------

  datatype StateName = Idle | MovingLeft | MovingRight

  /** The `state_name` tag a state records. */
  function StateNameValue(n: StateName): string
  {
    match n
    case Idle => "idle"
    case MovingLeft => "moving_left"
    case MovingRight => "moving_right"
  }

  lemma StateNameValuesDistinct(a: StateName, b: StateName)
    ensures StateNameValue(a) == StateNameValue(b) <==> a == b
  {
  }

  /**
   * The fields a state object records: the sprite it drives, its name, the
   * velocity it set, the position it was built at and the sprite colour.
   */
  datatype MovementState = MovementState(
    player: Player, name: StateName, velocityX: int, posX: int, posY: int, color: string)

  /** The exception a directional constructor throws. */
  datatype StateError = StateError(message: string)

  /** The moving-left constructor throws exactly for a positive velocity (so 0 is accepted). */
  predicate MovingLeftRejects(velocityX: int) { velocityX > 0 }

  /** The moving-right constructor throws exactly for a negative velocity (so 0 is accepted). */
  predicate MovingRightRejects(velocityX: int) { velocityX < 0 }

  /** The state the player's sprite is in step with: its velocity is the one the state set. */
  predicate InSync(s: MovementState)
    reads s.player
  {
    s.player.velocityX == s.velocityX
  }

  // ---------------------------------------------------------------------------
  // Animation keys: `{color}-{idle|run}-{left|right}`
  // ---------------------------------------------------------------------------

  datatype Action = IdleAnim | RunAnim
  datatype Facing = FaceLeft | FaceRight

  /** What an animation key names: a colour family, an action and a facing. */
  datatype AnimSpec = AnimSpec(color: string, action: Action, facing: Facing)

  function Suffix(a: Action, f: Facing): string
  {
    match (a, f)
    case (IdleAnim, FaceLeft) => "-idle-left"
    case (IdleAnim, FaceRight) => "-idle-right"
    case (RunAnim, FaceLeft) => "-run-left"
    case (RunAnim, FaceRight) => "-run-right"
  }

  /** The animation key the states play: the colour with the clip suffix appended. */
  function AnimKey(color: string, a: Action, f: Facing): (k: string)
    ensures |color| < |k| && k[..|color|] == color
  {
    color + Suffix(a, f)
  }

  predicate EndsWith(k: string, s: string)
  {
    |s| <= |k| && k[|k| - |s|..] == s
  }

  function StripSuffix(k: string, a: Action, f: Facing): (r: Option<AnimSpec>)
    ensures r.Some? ==> r.value.action == a && r.value.facing == f
    ensures r.Some? ==> AnimKey(r.value.color, a, f) == k
  {
    var s := Suffix(a, f);
    if EndsWith(k, s) then
      assert k[..|k| - |s|] + s == k;
      Some(AnimSpec(k[..|k| - |s|], a, f))
    else None
  }

  /** Recovers which clip of which colour family a key names, if it follows the convention. */
  function ParseAnimKey(k: string): (r: Option<AnimSpec>)
    ensures r.Some? ==> AnimKey(r.value.color, r.value.action, r.value.facing) == k
  {
    var a := StripSuffix(k, IdleAnim, FaceLeft);
    if a.Some? then a else
    var b := StripSuffix(k, IdleAnim, FaceRight);
    if b.Some? then b else
    var c := StripSuffix(k, RunAnim, FaceLeft);
    if c.Some? then c else
    StripSuffix(k, RunAnim, FaceRight)
  }

  /** No clip suffix ends with a different clip suffix. */
  lemma SuffixesSeparate(a: Action, f: Facing, a': Action, f': Facing)
    requires (a, f) != (a', f')
    ensures !EndsWith(Suffix(a, f), Suffix(a', f'))
  {
  }

  /** A key that ends with `s'` and was built with suffix `s` has one suffix ending the other. */
  lemma EndsWithAppended(c: string, s: string, s': string)
    requires EndsWith(c + s, s')
    ensures EndsWith(s, s') || EndsWith(s', s)
  {
  }

  lemma StripOtherSuffix(c: string, a: Action, f: Facing, a': Action, f': Facing)
    requires (a, f) != (a', f')
    ensures StripSuffix(AnimKey(c, a, f), a', f') == None
  {
    if EndsWith(AnimKey(c, a, f), Suffix(a', f')) {
      EndsWithAppended(c, Suffix(a, f), Suffix(a', f'));
      SuffixesSeparate(a, f, a', f');
      SuffixesSeparate(a', f', a, f);
      assert false;
    }
  }

  /** Parsing a key recovers the colour, action and facing it was built from. */
  lemma ParseAnimKeyRoundTrip(c: string, a: Action, f: Facing)
    ensures ParseAnimKey(AnimKey(c, a, f)) == Some(AnimSpec(c, a, f))
  {
    var k := AnimKey(c, a, f);
    assert k[|k| - |Suffix(a, f)|..] == Suffix(a, f);
    assert k[..|k| - |Suffix(a, f)|] == c;
    if (a, f) != (IdleAnim, FaceLeft) { StripOtherSuffix(c, a, f, IdleAnim, FaceLeft); }
    if (a, f) != (IdleAnim, FaceRight) { StripOtherSuffix(c, a, f, IdleAnim, FaceRight); }
    if (a, f) != (RunAnim, FaceLeft) { StripOtherSuffix(c, a, f, RunAnim, FaceLeft); }
  }

  /** Distinct (colour, action, facing) triples never share an animation key. */
  lemma AnimKeyInjective(c: string, a: Action, f: Facing, c': string, a': Action, f': Facing)
    ensures AnimKey(c, a, f) == AnimKey(c', a', f') <==> c == c' && a == a' && f == f'
  {
    ParseAnimKeyRoundTrip(c, a, f);
    ParseAnimKeyRoundTrip(c', a', f');
  }

  /** The facing of an idle state: left for the direction "left", right for anything else. */
  function IdleFacing(direction: string): Facing
  {
    if direction == "left" then FaceLeft else FaceRight
  }

  // ---------------------------------------------------------------------------
  // State constructors
  // ---------------------------------------------------------------------------

  /**
   * `player` received exactly two calls since the pre-state, in this order:
   * `setVelocityX(velocity)` and then `anims.play(key, flag)`.
   */
  twostate predicate AppliedOnce(player: Player, velocity: int, key: string, flag: bool)
    reads player
  {
    && player.velocityX == velocity
    && player.animKey == key
    && player.animFlag == flag
    && player.effects == old(player.effects) + [VelocitySet(velocity), AnimationPlayed(key, flag)]
  }

  /**
   * The idle-state constructor: stops the player and plays the idle clip for
   * `direction`, which faces left exactly when `direction` is "left".
   */
  method NewIdleState(player: Player, direction: string := DefaultDirection, posX: int, posY: int, color: string)
      returns (s: MovementState)
    modifies player`velocityX, player`animKey, player`animFlag, player`effects
    ensures s == MovementState(player, Idle, 0, posX, posY, color)
    ensures AppliedOnce(player, 0, AnimKey(color, IdleAnim, IdleFacing(direction)), true)
    ensures player.animKey == AnimKey(color, IdleAnim, FaceLeft) <==> direction == "left"
    ensures player.animKey == AnimKey(color, IdleAnim, FaceRight) <==> direction != "left"
    ensures InSync(s)
  {
    s := MovementState(player, Idle, 0, posX, posY, color);
    player.SetVelocityX(s.velocityX);
    if direction == "left" {
      player.PlayAnimation(color + "-idle-left", true);
    } else {
      player.PlayAnimation(color + "-idle-right", true);
    }
    AnimKeyInjective(color, IdleAnim, IdleFacing(direction), color, IdleAnim, FaceLeft);
    AnimKeyInjective(color, IdleAnim, IdleFacing(direction), color, IdleAnim, FaceRight);
  }

  /** With the direction left out, an idle state faces right. */
  method NewDefaultIdleState(player: Player, posX: int, posY: int, color: string) returns (s: MovementState)
    modifies player`velocityX, player`animKey, player`animFlag, player`effects
    ensures s == MovementState(player, Idle, 0, posX, posY, color)
    ensures AppliedOnce(player, 0, AnimKey(color, IdleAnim, FaceRight), true)
  {
    s := NewIdleState(player, posX := posX, posY := posY, color := color);
  }

  /**
   * The moving-left constructor: throws, touching nothing, for a positive
   * velocity; otherwise sets the velocity and plays the left run clip with
   * the flag equal to the body's "touching down" contact.
   */
  method NewMovingLeftState(player: Player, velocityX: int, posX: int, posY: int, color: string)
      returns (r: Result<MovementState, StateError>)
    modifies player`velocityX, player`animKey, player`animFlag, player`effects
    ensures r.Err? <==> MovingLeftRejects(velocityX)
    ensures r.Err? ==> r.error == StateError(MovingLeftMessage) && unchanged(player)
    ensures r.Ok? ==> r.value == MovementState(player, MovingLeft, velocityX, posX, posY, color)
    ensures r.Ok? ==> AppliedOnce(player, velocityX, AnimKey(color, RunAnim, FaceLeft), player.touchingDown)
    ensures r.Ok? ==> InSync(r.value)
  {
    if velocityX > 0 {
      return Err(StateError(MovingLeftMessage));
    }
    var s := MovementState(player, MovingLeft, velocityX, posX, posY, color);
    player.SetVelocityX(s.velocityX);
    if player.touchingDown {
      player.PlayAnimation(color + "-run-left", true);
    } else {
      player.PlayAnimation(color + "-run-left", false);
    }
    r := Ok(s);
  }

  /**
   * The moving-right constructor: throws, touching nothing, for a negative
   * velocity; otherwise sets the velocity and plays the right run clip with
   * the flag equal to the body's "touching down" contact.
   */
  method NewMovingRightState(player: Player, velocityX: int, posX: int, posY: int, color: string)
      returns (r: Result<MovementState, StateError>)
    modifies player`velocityX, player`animKey, player`animFlag, player`effects
    ensures r.Err? <==> MovingRightRejects(velocityX)
    ensures r.Err? ==> r.error == StateError(MovingRightMessage) && unchanged(player)
    ensures r.Ok? ==> r.value == MovementState(player, MovingRight, velocityX, posX, posY, color)
    ensures r.Ok? ==> AppliedOnce(player, velocityX, AnimKey(color, RunAnim, FaceRight), player.touchingDown)
    ensures r.Ok? ==> InSync(r.value)
  {
    if velocityX < 0 {
      return Err(StateError(MovingRightMessage));
    }
    var s := MovementState(player, MovingRight, velocityX, posX, posY, color);
    player.SetVelocityX(s.velocityX);
    if player.touchingDown {
      player.PlayAnimation(color + "-run-right", true);
    } else {
      player.PlayAnimation(color + "-run-right", false);
    }
    r := Ok(s);
  }

  // ---------------------------------------------------------------------------
  // Input and the transition table
  // ---------------------------------------------------------------------------

  /** The four keys `update` polls: the left/right arrow keys and the A/D keys. */
  datatype Keys = Keys(cursorLeft: bool, keyA: bool, cursorRight: bool, keyD: bool)

  predicate LeftHeld(k: Keys) { k.cursorLeft || k.keyA }
  predicate RightHeld(k: Keys) { k.cursorRight || k.keyD }

  /** A successor an `update` builds: which constructor it calls and with what argument. */
  datatype Transition = ToIdle(direction: string) | ToMovingLeft(velocityX: int) | ToMovingRight(velocityX: int)

  function Target(t: Transition): StateName
  {
    match t
    case ToIdle(_) => Idle
    case ToMovingLeft(_) => MovingLeft
    case ToMovingRight(_) => MovingRight
  }

  function TransitionVelocity(t: Transition): int
  {
    match t
    case ToIdle(_) => 0
    case ToMovingLeft(v) => v
    case ToMovingRight(v) => v
  }

  /** Whether the constructor the transition calls would throw. */
  predicate ConstructorThrows(t: Transition)
  {
    match t
    case ToIdle(_) => false
    case ToMovingLeft(v) => MovingLeftRejects(v)
    case ToMovingRight(v) => MovingRightRejects(v)
  }

  /** The animation key the successor's constructor plays. */
  function TransitionKey(t: Transition, color: string): string
  {
    match t
    case ToIdle(d) => AnimKey(color, IdleAnim, IdleFacing(d))
    case ToMovingLeft(_) => AnimKey(color, RunAnim, FaceLeft)
    case ToMovingRight(_) => AnimKey(color, RunAnim, FaceRight)
  }

  /** The flag the successor's constructor passes with its animation. */
  function TransitionFlag(t: Transition, touchingDown: bool): bool
  {
    match t
    case ToIdle(_) => true
    case _ => touchingDown
  }

  /** The velocity each state takes when `update` builds it. */
  function CanonicalVelocity(n: StateName): int
  {
    match n
    case Idle => 0
    case MovingLeft => -PlayerXVelocity
    case MovingRight => PlayerXVelocity
  }

  /**
   * Reference reading of the keys: the state they ask for when they agree
   * (left only, right only, none), and no answer when both are held.
   */
  function Desired(left: bool, right: bool): Option<StateName>
  {
    if left && right then None
    else if left then Some(MovingLeft)
    else if right then Some(MovingRight)
    else Some(Idle)
  }

  /**
   * The branch each state's `update` takes, given the two "held" signals.
   * A state stays put exactly when the keys ask for it; otherwise it moves to
   * the state they ask for; with both keys held, idle and moving-right go
   * left and moving-left goes right. Every successor carries its state's
   * canonical velocity, which its constructor accepts.
   */
  function Decide(n: StateName, left: bool, right: bool): (r: Option<Transition>)
    ensures r.None? <==> Desired(left, right) == Some(n)
    ensures Desired(left, right).Some? && r.Some? ==> Target(r.value) == Desired(left, right).value
    ensures left && right ==> r.Some? && Target(r.value) == (if n == MovingLeft then MovingRight else MovingLeft)
    ensures r.Some? ==> Target(r.value) != n
    ensures r.Some? ==> TransitionVelocity(r.value) == CanonicalVelocity(Target(r.value))
    ensures r.Some? ==> !ConstructorThrows(r.value)
    ensures r.Some? && r.value.ToIdle? ==>
              IdleFacing(r.value.direction) == (if n == MovingLeft then FaceLeft else FaceRight)
  {
    match n
    case Idle =>
      if left then Some(ToMovingLeft(-PlayerXVelocity))
      else if right then Some(ToMovingRight(PlayerXVelocity))
      else None
    case MovingLeft =>
      if !left && !right then Some(ToIdle("left"))
      else if right then Some(ToMovingRight(PlayerXVelocity))
      else None
    case MovingRight =>
      if !left && !right then Some(ToIdle("right"))
      else if left then Some(ToMovingLeft(-PlayerXVelocity))
      else None
  }

  /** Holding left from idle starts moving left whether or not right is held too. */
  lemma IdleLeftWinsTies(right: bool)
    ensures Decide(Idle, true, right) == Some(ToMovingLeft(-PlayerXVelocity))
  {
  }

  // ---------------------------------------------------------------------------
  // update
  // ---------------------------------------------------------------------------

  /**
   * What an `update` of `s` under `keys` promises: with no transition it
   * returns `None` and leaves the sprite untouched; otherwise it returns the
   * successor the table picks, built at the sprite's current position in the
   * same colour, after applying exactly that successor's velocity and clip.
   */
  twostate predicate UpdatePerformed(s: MovementState, keys: Keys, new next: Option<MovementState>)
    reads s.player
  {
    match Decide(s.name, LeftHeld(keys), RightHeld(keys))
    case None =>
      next == None && unchanged(s.player)
    case Some(t) =>
      && next == Some(MovementState(s.player, Target(t), TransitionVelocity(t),
                                    old(s.player.x), old(s.player.y), s.color))
      && AppliedOnce(s.player, TransitionVelocity(t), TransitionKey(t, s.color),
                     TransitionFlag(t, old(s.player.touchingDown)))
      && InSync(next.value)
  }

  /** Idle's `update`: left first, then right, else stay. */
  method UpdateIdle(s: MovementState, keys: Keys) returns (next: Option<MovementState>)
    requires s.name == Idle
    modifies s.player`velocityX, s.player`animKey, s.player`animFlag, s.player`effects
    ensures UpdatePerformed(s, keys, next)
  {
    var player := s.player;
    next := None;
    if keys.cursorLeft || keys.keyA {
      var built := NewMovingLeftState(player, -PlayerXVelocity, player.x, player.y, s.color);
      match built
      case Ok(st) => next := Some(st);
      case Err(_) => assert false;
    } else if keys.cursorRight || keys.keyD {
      var built := NewMovingRightState(player, PlayerXVelocity, player.x, player.y, s.color);
      match built
      case Ok(st) => next := Some(st);
      case Err(_) => assert false;
    }
  }

  /** Moving-left's `update`: stop when no key is held, switch when right is held, else stay. */
  method UpdateMovingLeft(s: MovementState, keys: Keys) returns (next: Option<MovementState>)
    requires s.name == MovingLeft
    modifies s.player`velocityX, s.player`animKey, s.player`animFlag, s.player`effects
    ensures UpdatePerformed(s, keys, next)
  {
    var player := s.player;
    next := None;
    if !(keys.cursorLeft || keys.keyA) && !(keys.cursorRight || keys.keyD) {
      var st := NewIdleState(player, "left", player.x, player.y, s.color);
      next := Some(st);
    } else if keys.cursorRight || keys.keyD {
      var built := NewMovingRightState(player, PlayerXVelocity, player.x, player.y, s.color);
      match built
      case Ok(st) => next := Some(st);
      case Err(_) => assert false;
    }
  }

  /** Moving-right's `update`: stop when no key is held, switch when left is held, else stay. */
  method UpdateMovingRight(s: MovementState, keys: Keys) returns (next: Option<MovementState>)
    requires s.name == MovingRight
    modifies s.player`velocityX, s.player`animKey, s.player`animFlag, s.player`effects
    ensures UpdatePerformed(s, keys, next)
  {
    var player := s.player;
    next := None;
    if !(keys.cursorLeft || keys.keyA) && !(keys.cursorRight || keys.keyD) {
      var st := NewIdleState(player, "right", player.x, player.y, s.color);
      next := Some(st);
    } else if keys.cursorLeft || keys.keyA {
      var built := NewMovingLeftState(player, -PlayerXVelocity, player.x, player.y, s.color);
      match built
      case Ok(st) => next := Some(st);
      case Err(_) => assert false;
    }
  }

  /**
   * `state.update(scene)`: runs the `update` of whichever state `s` is. The
   * state a caller holds afterwards is the one `NextName` gives.
   */
  method Update(s: MovementState, keys: Keys) returns (next: Option<MovementState>)
    modifies s.player`velocityX, s.player`animKey, s.player`animFlag, s.player`effects
    ensures UpdatePerformed(s, keys, next)
    ensures (if next.None? then s.name else next.value.name) == NextName(s.name, keys)
  {
    match s.name
    case Idle => next := UpdateIdle(s, keys);
    case MovingLeft => next := UpdateMovingLeft(s, keys);
    case MovingRight => next := UpdateMovingRight(s, keys);
  }

  /**
   * Calling `update` twice with the same keys: once it has returned `None`,
   * it returns `None` again and the sprite has still not been touched.
   */
  method UpdateAgain(s: MovementState, keys: Keys) returns (first: Option<MovementState>, second: Option<MovementState>)
    modifies s.player`velocityX, s.player`animKey, s.player`animFlag, s.player`effects
    ensures first.None? ==> second.None? && unchanged(s.player)
  {
    first := Update(s, keys);
    second := Update(s, keys);
  }

  // ---------------------------------------------------------------------------
  // Frame traces: the caller keeps its state on `None` and replaces it otherwise
  // ---------------------------------------------------------------------------

  /** The state name after one frame with `keys`. */
  function NextName(n: StateName, keys: Keys): StateName
  {
    match Decide(n, LeftHeld(keys), RightHeld(keys))
    case None => n
    case Some(t) => Target(t)
  }

  /** The state name after feeding one key snapshot per frame. */
  function Trace(n: StateName, frames: seq<Keys>): StateName
    decreases |frames|
  {
    if frames == [] then n else Trace(NextName(n, frames[0]), frames[1..])
  }

  /** `count` frames with the same keys. */
  function Repeat(keys: Keys, count: nat): seq<Keys>
  {
    if count == 0 then [] else [keys] + Repeat(keys, count - 1)
  }

  lemma TraceStep(n: StateName, keys: Keys, count: nat)
    ensures Trace(n, Repeat(keys, count + 1)) == Trace(NextName(n, keys), Repeat(keys, count))
  {
  }

  /** A state that `update` leaves in place stays in place for any number of frames with the same keys. */
  lemma {:induction false} SteadyUnderRepeat(n: StateName, keys: Keys, count: nat)
    requires Decide(n, LeftHeld(keys), RightHeld(keys)).None?
    ensures Trace(n, Repeat(keys, count)) == n
  {
    if count > 0 {
      TraceStep(n, keys, count - 1);
      SteadyUnderRepeat(n, keys, count - 1);
    }
  }

  /**
   * Unless both keys are held, one frame reaches the state the keys ask for,
   * and every later frame with the same keys leaves it there.
   */
  lemma {:induction false} SettlesAfterOneFrame(n: StateName, keys: Keys, count: nat)
    requires !(LeftHeld(keys) && RightHeld(keys))
    ensures Some(NextName(n, keys)) == Desired(LeftHeld(keys), RightHeld(keys))
    ensures Trace(n, Repeat(keys, count + 1)) == NextName(n, keys)
  {
    TraceStep(n, keys, count);
    SteadyUnderRepeat(NextName(n, keys), keys, count);
  }

  function Opposite(n: StateName): StateName
  {
    match n
    case Idle => Idle
    case MovingLeft => MovingRight
    case MovingRight => MovingLeft
  }

  /** With both keys held, a moving state flips direction on every frame. */
  lemma {:induction false} BothHeldFlipsEachFrame(n: StateName, keys: Keys, count: nat)
    requires n != Idle
    requires LeftHeld(keys) && RightHeld(keys)
    ensures Trace(n, Repeat(keys, count)) == if count % 2 == 0 then n else Opposite(n)
    decreases count
  {
    if count > 0 {
      TraceStep(n, keys, count - 1);
      BothHeldFlipsEachFrame(Opposite(n), keys, count - 1);
    }
  }

  /** With both keys held from idle, the player goes left first and then flips every frame. */
  lemma {:induction false} BothHeldFromIdle(keys: Keys, count: nat)
    requires LeftHeld(keys) && RightHeld(keys)
    ensures Trace(Idle, Repeat(keys, count + 1)) == if count % 2 == 0 then MovingLeft else MovingRight
  {
    TraceStep(Idle, keys, count);
    BothHeldFlipsEachFrame(MovingLeft, keys, count);
  }
}
