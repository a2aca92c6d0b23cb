/**
 * The input state of the avatar of T3/Player.js: movement flags set and
 * cleared by key events, the shift sprint, the inverted vertical look,
 * the jump guard, the cell test of `canMove` and the clamp of the shadow
 * volume. Cameras, lights and the per-frame physics of `update` and
 * `fall` are not part of this model.
 */
module Player {
  import opened Voxels
  import opened Grid

  /** `this.movement`: one flag per held key. `up` and `down` are never written by the key handlers. */
  datatype Movement = Movement(forward: bool, backward: bool, left: bool, right: bool,
                               up: bool, down: bool, shift: bool, cameraUp: bool, cameraDown: bool)

  const NoMovement := Movement(false, false, false, false, false, false, false, false, false)

  /** `this.baseSpeed`. */
  const BaseSpeed: real := 0.18

  /** The velocity a jump starts with. */
  const JumpVelocity: real := 0.15

  /** The fields the key handlers read and write; `hasModel` is `this.playerModel` being non-null. */
  datatype PlayerState = PlayerState(movement: Movement, speed: real, yInverted: bool,
                                     isJumping: bool, jumpVelocity: real, hasModel: bool)

  /** The state the constructor leaves: nothing held, base speed, no model loaded yet. */
  const Initial := PlayerState(NoMovement, BaseSpeed, false, false, 0.0, false)

  /** `toLowerCase` on the ASCII letters; every other character is kept. */
  function LowerChar(c: char): (r: char)
    ensures 'A' <= c <= 'Z' ==> 'a' <= r <= 'z' && r as int - c as int == 32
    ensures !('A' <= c <= 'Z') ==> r == c
  {
    if 'A' <= c <= 'Z' then (c as int + 32) as char else c
  }

  /** `key.toLowerCase()`: the same length, each character lowered by LowerChar. */
  function Lower(s: string): (r: string)
    ensures |r| == |s| && forall i :: 0 <= i < |s| ==> r[i] == LowerChar(s[i])
  {
    seq(|s|, i requires 0 <= i < |s| => LowerChar(s[i]))
  }

  /** `jump()`: only a grounded avatar with a model starts a jump. */
  function Jumped(s: PlayerState): PlayerState {
    if !s.isJumping && s.hasModel then s.(isJumping := true, jumpVelocity := JumpVelocity) else s
  }

  /** `toggleYInversion()`. */
  function ToggleY(s: PlayerState): PlayerState {
    s.(yInverted := !s.yInverted)
  }

  /** The case labels of the key handlers' `switch`; "w" and the up arrow share one, and so on. */
  datatype KeyGroup = WKey | SKey | AKey | DKey | Space | ShiftKey | YKey | QKey | EKey | Other

  /** The case labels of the `switch`, by lower-cased key name. */
  const Cases: map<string, KeyGroup> := map[
    "w" := WKey, "arrowup" := WKey, "s" := SKey, "arrowdown" := SKey,
    "a" := AKey, "arrowleft" := AKey, "d" := DKey, "arrowright" := DKey,
    " " := Space, "shift" := ShiftKey, "y" := YKey, "q" := QKey, "e" := EKey]

  /** The case `switch (key.toLowerCase())` selects for `key`; `Other` when no label matches. */
  function KeyOf(key: string): (g: KeyGroup)
    ensures g == Other <==> Lower(key) !in Cases
  {
    var k := Lower(key);
    if k in Cases then Cases[k] else Other
  }

  /** The keys that move forward: "w" in either case and "ArrowUp". */
  lemma ForwardKeyNames()
    ensures KeyOf("w") == WKey && KeyOf("W") == WKey && KeyOf("ArrowUp") == WKey
  {
    assert Lower("w") == "w" && Lower("W") == "w" && Lower("ArrowUp") == "arrowup";
  }

  /** The keys that move backward: "s" in either case and "ArrowDown". */
  lemma BackwardKeyNames()
    ensures KeyOf("s") == SKey && KeyOf("S") == SKey && KeyOf("ArrowDown") == SKey
  {
    assert Lower("s") == "s" && Lower("S") == "s" && Lower("ArrowDown") == "arrowdown";
  }

  /** The keys that move left: "a" in either case and "ArrowLeft". */
  lemma LeftKeyNames()
    ensures KeyOf("a") == AKey && KeyOf("A") == AKey && KeyOf("ArrowLeft") == AKey
  {
    assert Lower("a") == "a" && Lower("A") == "a" && Lower("ArrowLeft") == "arrowleft";
  }

  /** The keys that move right: "d" in either case and "ArrowRight". */
  lemma RightKeyNames()
    ensures KeyOf("d") == DKey && KeyOf("D") == DKey && KeyOf("ArrowRight") == DKey
  {
    assert Lower("d") == "d" && Lower("D") == "d" && Lower("ArrowRight") == "arrowright";
  }

  /** The names of the other keys the handlers know. */
  lemma ControlKeyNames()
    ensures KeyOf(" ") == Space && KeyOf("Shift") == ShiftKey && KeyOf("shift") == ShiftKey
    ensures KeyOf("y") == YKey && KeyOf("Y") == YKey && KeyOf("q") == QKey && KeyOf("e") == EKey
  {
    assert Lower(" ") == " " && Lower("Shift") == "shift" && Lower("shift") == "shift";
    assert Lower("y") == "y" && Lower("Y") == "y" && Lower("q") == "q" && Lower("e") == "e";
  }

  /**
   * `handleKeyDown` for a key of case `g`. The movement keys are mapped
   * crosswise: "w" and the up arrow set `backward`, "s" sets `forward`,
   * "a" sets `right` and "d" sets `left`.
   */
  function KeyDown(s: PlayerState, g: KeyGroup): PlayerState {
    var m := s.movement;
    match g
    case WKey => s.(movement := m.(backward := true))
    case SKey => s.(movement := m.(forward := true))
    case AKey => s.(movement := m.(right := true))
    case DKey => s.(movement := m.(left := true))
    case Space => Jumped(s)
    case ShiftKey => s.(movement := m.(shift := true), speed := BaseSpeed * 2.0)
    case YKey => s.(yInverted := !s.yInverted)
    case QKey => s.(movement := m.(cameraUp := true))
    case EKey => s.(movement := m.(cameraDown := true))
    case Other => s
  }

  /** `handleKeyUp` for a key of case `g`: clears what `handleKeyDown` set; space and "y" do nothing here. */
  function KeyUp(s: PlayerState, g: KeyGroup): PlayerState {
    var m := s.movement;
    match g
    case WKey => s.(movement := m.(backward := false))
    case SKey => s.(movement := m.(forward := false))
    case AKey => s.(movement := m.(right := false))
    case DKey => s.(movement := m.(left := false))
    case ShiftKey => s.(movement := m.(shift := false), speed := BaseSpeed)
    case QKey => s.(movement := m.(cameraUp := false))
    case EKey => s.(movement := m.(cameraDown := false))
    case Space => s
    case YKey => s
    case Other => s
  }

  /** The speed is doubled exactly while shift is held. */
  predicate SpeedFollowsShift(s: PlayerState) {
    s.speed == if s.movement.shift then BaseSpeed * 2.0 else BaseSpeed
  }

  /** The speed starts tied to the shift flag, and every key event, jump and toggle keeps it so. */
  lemma SpeedFollowsShiftPreserved(s: PlayerState, g: KeyGroup)
    requires SpeedFollowsShift(s)
    ensures SpeedFollowsShift(Initial)
    ensures SpeedFollowsShift(KeyDown(s, g)) && SpeedFollowsShift(KeyUp(s, g))
    ensures SpeedFollowsShift(Jumped(s)) && SpeedFollowsShift(ToggleY(s))
  {
  }

  /** Shift down doubles the base speed and shift up restores it, whatever the speed was. */
  lemma ShiftSpeed(s: PlayerState)
    ensures KeyDown(s, ShiftKey).speed == 2.0 * BaseSpeed && KeyDown(s, ShiftKey).movement.shift
    ensures KeyUp(s, ShiftKey).speed == BaseSpeed && !KeyUp(s, ShiftKey).movement.shift
  {
  }

  /**
   * Releasing a key undoes its press: apart from space (a jump) and "y"
   * (a toggle), which the release ignores, press-then-release ends where
   * the release alone would.
   */
  lemma PressThenRelease(s: PlayerState, g: KeyGroup)
    requires g != Space && g != YKey
    ensures KeyUp(KeyDown(s, g), g) == KeyUp(s, g)
  {
  }

  /**
   * The crosswise mapping: each movement key raises one flag and no other,
   * and its release lowers that flag again.
   */
  lemma InvertedMapping(s: PlayerState)
    ensures KeyDown(s, WKey).movement == s.movement.(backward := true)
    ensures KeyDown(s, SKey).movement == s.movement.(forward := true)
    ensures KeyDown(s, AKey).movement == s.movement.(right := true)
    ensures KeyDown(s, DKey).movement == s.movement.(left := true)
    ensures !KeyUp(KeyDown(s, WKey), WKey).movement.backward && !KeyUp(KeyDown(s, SKey), SKey).movement.forward
    ensures !KeyUp(KeyDown(s, AKey), AKey).movement.right && !KeyUp(KeyDown(s, DKey), DKey).movement.left
  {
  }

  /** The "y" key and `toggleYInversion` flip the look inversion; two flips restore it. */
  lemma ToggleTwice(s: PlayerState)
    ensures KeyDown(s, YKey) == ToggleY(s)
    ensures ToggleY(s).yInverted != s.yInverted
    ensures ToggleY(ToggleY(s)) == s
    ensures KeyUp(s, YKey) == s
  {
  }

  /**
   * A jump starts exactly when the avatar is grounded and has a model; it
   * then sets the jump velocity, and otherwise changes nothing. Space is a
   * jump, and jumping again in mid-air does nothing.
   */
  lemma JumpGuard(s: PlayerState)
    ensures Jumped(s).isJumping <==> s.isJumping || s.hasModel
    ensures !s.isJumping && s.hasModel ==> Jumped(s) == s.(isJumping := true, jumpVelocity := 0.15)
    ensures s.isJumping || !s.hasModel ==> Jumped(s) == s
    ensures KeyDown(s, Space) == Jumped(s) && KeyUp(s, Space) == s
    ensures Jumped(Jumped(s)) == Jumped(s)
  {
  }

  /** Keys the handlers do not know change nothing, on press or release. */
  lemma UnhandledKeys(s: PlayerState, key: string)
    requires Lower(key) !in Cases
    ensures KeyDown(s, KeyOf(key)) == s && KeyUp(s, KeyOf(key)) == s
  {
  }

  /** The avatar's input fields, updated in place by the handlers. */
  class Avatar {
    var movement: Movement
    var speed: real
    var yInverted: bool
    var isJumping: bool
    var jumpVelocity: real
    var hasModel: bool

    ghost function State(): PlayerState
      reads this
    {
      PlayerState(movement, speed, yInverted, isJumping, jumpVelocity, hasModel)
    }

    constructor ()
      ensures State() == Initial
    {
      movement := NoMovement;
      speed := BaseSpeed;
      yInverted := false;
      isJumping := false;
      jumpVelocity := 0.0;
      hasModel := false;
    }

    /** `loadModel`, as far as the handlers see it: a model now exists. */
    method LoadModel()
      modifies this
      ensures State() == old(State()).(hasModel := true)
    {
      hasModel := true;
    }

    method Jump()
      modifies this
      ensures State() == Jumped(old(State()))
    {
      if !isJumping && hasModel {
        isJumping := true;
        jumpVelocity := JumpVelocity;
      }
    }

    /** `handleMouseDown(button)`: the right button (2) jumps, any other does nothing. */
    method HandleMouseDown(button: int)
      modifies this
      ensures State() == if button == 2 then Jumped(old(State())) else old(State())
    {
      if button == 2 {
        Jump();
      }
    }

    method ToggleYInversion()
      modifies this
      ensures State() == ToggleY(old(State()))
    {
      yInverted := !yInverted;
    }

    method HandleKeyDown(key: string)
      modifies this
      ensures State() == KeyDown(old(State()), KeyOf(key))
    {
      match KeyOf(key) {
        case WKey => movement := movement.(backward := true);
        case SKey => movement := movement.(forward := true);
        case AKey => movement := movement.(right := true);
        case DKey => movement := movement.(left := true);
        case Space => Jump();
        case ShiftKey =>
          movement := movement.(shift := true);
          speed := BaseSpeed * 2.0;
        case YKey => yInverted := !yInverted;
        case QKey => movement := movement.(cameraUp := true);
        case EKey => movement := movement.(cameraDown := true);
        case Other =>
      }
    }

    method HandleKeyUp(key: string)
      modifies this
      ensures State() == KeyUp(old(State()), KeyOf(key))
    {
      match KeyOf(key) {
        case WKey => movement := movement.(backward := false);
        case SKey => movement := movement.(forward := false);
        case AKey => movement := movement.(right := false);
        case DKey => movement := movement.(left := false);
        case ShiftKey =>
          movement := movement.(shift := false);
          speed := BaseSpeed;
        case QKey => movement := movement.(cameraUp := false);
        case EKey => movement := movement.(cameraDown := false);
        case Space =>
        case YKey =>
        case Other =>
      }
    }
  }

  /**
   * The cell decision of `canMove` for the target cell (x, z, y): a cell
   * outside the grid never blocks, a water cell never blocks, and any
   * other cell blocks when it holds a voxel. `hasVoxel` is only consulted
   * inside the grid.
   */
  function CanMoveCell(w: World, x: int, z: int, y: int): (ok: bool)
    requires w.Valid()
    reads w.data
    ensures !ok <==> w.InBounds(x, z, y) && w.data[x, z, y].blockType != Some(Water) && Truthy(w.data[x, z, y].instanceId)
  {
    if w.InBounds(x, z, y) then
      if w.data[x, z, y].blockType == Some(Water) then true
      else !w.HasVoxel(x, z, y)
    else true
  }

  /**
   * The target cell of `canMove`: the floor of the position moved one step
   * along the direction's horizontal components, one row below the
   * avatar's floored height.
   */
  function TargetCell(px: real, py: real, pz: real, dx: real, dz: real): (c: Pos)
    ensures c.y == py.Floor - 1
    ensures c.x as real <= px + dx < c.x as real + 1.0 && c.z as real <= pz + dz < c.z as real + 1.0
  {
    Pos((px + dx).Floor, py.Floor - 1, (pz + dz).Floor)
  }

  /**
   * On a generated column of height `h` (with or without water), the
   * avatar may step into row `y` exactly when `y` is at or above `h`: the
   * solid rows block, water and air do not.
   */
  lemma CanMoveOnTerrain(w: World, x: int, z: int, h: int, withWater: bool, y: int)
    requires w.Valid() && 0 <= x < w.width && 0 <= z < w.width && 0 <= y < w.height
    requires forall k :: 0 <= k < w.height ==> w.data[x, z, k] == TerrainCell(EmptyCell, h, k, withWater)
    ensures CanMoveCell(w, x, z, y) <==> h <= y
  {
    assert w.data[x, z, y] == TerrainCell(EmptyCell, h, y, withWater);
    BiomeThresholds(y);
  }

  /** The half-extent `changeShadowMapVolume` gives the shadow camera: the fog value clamped to [0, 250]. */
  function ShadowHalfExtent(fogValue: real): (size: real)
    ensures 0.0 <= size <= 250.0
    ensures 0.0 <= fogValue <= 250.0 ==> size == fogValue
    ensures fogValue < 0.0 ==> size == 0.0
    ensures fogValue > 250.0 ==> size == 250.0
  {
    var m := if fogValue < 250.0 then fogValue else 250.0;
    if m > 0.0 then m else 0.0
  }
}
