/**
 * build/Scene.js: the camera through which the player sees the world, and
 * the debug camera that adds arrow-key panning, zoom and an on-screen menu.
 *
 * The camera keeps two positions: `pathPosition` follows the target with a
 * lerp-or-clamp rule, and `augmentedPosition` is the path position plus the
 * shake offset; the view is centred on the augmented position. The debug
 * camera owns a camera (`base`) and drives it: in debug mode the arrow keys
 * move the augmented position directly and the path stays where it is.
 */
module Scene {
  import opened VectorMath
  import opened Canvas
  import opened Stepping
  import Agents
  import Bullets
  import GridBackground

  /** `FOLLOW_DISTANCE`: how far behind its target the camera may trail. */
  const FOLLOW_DISTANCE: real := 50.0
  /** `lerpFactor`: the share of the gap closed by each update. */
  const LERP_FACTOR: real := 0.1
  /** The path moves only when the target is more than this far away on some axis. */
  const DEAD_ZONE: real := 1.0
  /** A shake lasts while its timer is at most this many seconds. */
  const SHAKE_DURATION: real := 0.5
  /** The shake offset at time t is sin(SHAKE_FREQUENCY * t) / t. */
  const SHAKE_FREQUENCY: real := 50.0
  /** Side of a background grid cell in world units. */
  const GRID_SQUARE_SIZE: real := 100.0
  /** World units the debug camera pans per update for each held arrow key. */
  const PAN_VELOCITY: real := 50.0
  /** Scale change per unit of wheel `deltaY`. */
  const ZOOM_PER_WHEEL_UNIT: real := -0.01
  const MIN_SCALE: real := 0.125
  const MAX_SCALE: real := 3.0
  /** The debug menu's first line is at (MENU_LEFT, MENU_TOP), the others MENU_LINE_SPACING below. */
  const MENU_LEFT: real := 30.0
  const MENU_TOP: real := 30.0
  const MENU_LINE_SPACING: real := 30.0

  // ---------------------------------------------------------------------
  // Scene objects

  /** What the scene array holds: players and bullets. */
  datatype SceneObject = PlayerObject(agent: Agents.Agent) | BulletObject(bullet: Bullets.Bullet)
  {
    /** The heap objects the object's position and sprite depend on. */
    function Footprint(): set<object>
      reads if BulletObject? then {bullet} else {}
    {
      match this
      case PlayerObject(a) => {a}
      case BulletObject(b) => {b, b.position}
    }

    /** `getPosition()`. */
    function Position(): Vec2
      reads Footprint()
    {
      match this
      case PlayerObject(a) => a.GetPosition()
      case BulletObject(b) => b.GetPosition()
    }

    /** `getSize()`. */
    function Size(): Vec2 {
      match this
      case PlayerObject(a) => a.GetSize()
      case BulletObject(b) => b.GetSize()
    }

    /** `drawSprite(pos, size)`. */
    function DrawSprite(at: Vec2, size: Vec2): seq<CanvasOp>
      reads Footprint()
    {
      match this
      case PlayerObject(a) => a.DrawSprite(at, size)
      case BulletObject(b) => b.DrawSprite(at, size)
    }
  }

  /** The bullets among objs (their positions are reached through them). */
  function BulletsOf(objs: seq<SceneObject>): set<object> {
    set i | 0 <= i < |objs| && objs[i].BulletObject? :: objs[i].bullet
  }

  /** Every heap object that positions and sprites of objs depend on. */
  function Footprints(objs: seq<SceneObject>): set<object>
    reads BulletsOf(objs)
  {
    set i, o | 0 <= i < |objs| && o in objs[i].Footprint() :: o
  }

  /**
   * The scene array, shared by the game world (which appends to it) and the
   * camera (which draws it).
   */
  class SceneList {
    var items: seq<SceneObject>

    constructor ()
      ensures items == []
    {
      items := [];
    }

    /** `scene.push(object)`. */
    method Push(o: SceneObject)
      modifies this
      ensures items == old(items) + [o]
    {
      items := items + [o];
    }
  }

  /**
   * What the camera centres on: the source passes a function returning a
   * position, and only two are ever passed, `() => origin` and an agent's
   * `getPosition`.
   */
  datatype Target = FixedPoint(point: Vec2) | AgentPosition(agent: Agents.Agent)
  {
    function Position(): Vec2
      reads if AgentPosition? then {agent} else {}
    {
      match this
      case FixedPoint(p) => p
      case AgentPosition(a) => a.GetPosition()
    }
  }

  // ---------------------------------------------------------------------
  // Following the target

  /** `Math.sign`. */
  function Sign(r: real): real {
    if r > 0.0 then 1.0 else if r < 0.0 then -1.0 else 0.0
  }

  /**
   * One axis of the follow rule. The test is on the signed gap, so a gap of
   * any negative size takes the lerp branch.
   */
  function FollowAxis(path: real, dest: real): real {
    var diff := dest - path;
    if diff <= FOLLOW_DISTANCE then path + diff * LERP_FACTOR
    else dest - Sign(diff) * FOLLOW_DISTANCE
  }

  /** The new path position for a destination: unchanged inside the dead zone. */
  function Follow(path: Vec2, dest: Vec2): Vec2 {
    var diff := SubtractVectors(dest, path);
    if Abs(diff.x) > DEAD_ZONE || Abs(diff.y) > DEAD_ZONE then
      Vec2(FollowAxis(path.x, dest.x), FollowAxis(path.y, dest.y))
    else
      path
  }

  predicate InDeadZone(path: Vec2, dest: Vec2) {
    Abs(dest.x - path.x) <= DEAD_ZONE && Abs(dest.y - path.y) <= DEAD_ZONE
  }

  /** Inside the dead zone the path does not move. */
  lemma FollowDeadZone(path: Vec2, dest: Vec2)
    requires InDeadZone(path, dest)
    ensures Follow(path, dest) == path
  {
  }

  /**
   * Outside the dead zone each axis is handled on its own: a signed gap of at
   * most 50 (every negative gap included) is closed by a tenth; a larger
   * gap is clamped so that the camera ends exactly 50 behind.
   */
  lemma FollowLerpOrClamp(path: Vec2, dest: Vec2)
    requires !InDeadZone(path, dest)
    ensures dest.x - path.x <= FOLLOW_DISTANCE ==> Follow(path, dest).x == path.x + 0.1 * (dest.x - path.x)
    ensures dest.y - path.y <= FOLLOW_DISTANCE ==> Follow(path, dest).y == path.y + 0.1 * (dest.y - path.y)
    ensures dest.x - path.x > FOLLOW_DISTANCE ==> dest.x - Follow(path, dest).x == 50.0
    ensures dest.y - path.y > FOLLOW_DISTANCE ==> dest.y - Follow(path, dest).y == 50.0
  {
  }

  /** For a fixed destination the gap never grows, on either axis. */
  lemma FollowGapNeverGrows(path: Vec2, dest: Vec2)
    ensures Abs(dest.x - Follow(path, dest).x) <= Abs(dest.x - path.x)
    ensures Abs(dest.y - Follow(path, dest).y) <= Abs(dest.y - path.y)
  {
  }

  /** Outside the dead zone every non-zero gap strictly shrinks. */
  lemma FollowGapShrinks(path: Vec2, dest: Vec2)
    requires !InDeadZone(path, dest)
    ensures dest.x != path.x ==> Abs(dest.x - Follow(path, dest).x) < Abs(dest.x - path.x)
    ensures dest.y != path.y ==> Abs(dest.y - Follow(path, dest).y) < Abs(dest.y - path.y)
  {
  }

  /**
   * The rule is not symmetric: a target 100 ahead pulls the camera to 50
   * behind it, a target 100 behind only to 90 behind it.
   */
  lemma FollowIsAsymmetric(p: Vec2)
    requires p == Vec2(0.0, 0.0)
    ensures Follow(p, Vec2(100.0, 0.0)).x == 50.0
    ensures Follow(p, Vec2(-100.0, 0.0)).x == -10.0
  {
  }

  // ---------------------------------------------------------------------
  // Shaking

  /** The state `update` and `shake` work on. */
  datatype CameraState = CameraState(
    pathPosition: Vec2,
    augmentedPosition: Vec2,
    shakeTimeElapsed: real,
    isShaking: bool)

  /**
   * The vertical shake offset `Math.sin(50 t) / t`, zero at t = 0. The sine
   * is a parameter: nothing about its values is used.
   */
  function ShakeOffset(sine: real -> real, t: real): real {
    if t == 0.0 then 0.0 else sine(SHAKE_FREQUENCY * t) / t
  }

  /** One call of `shake(deltaTime)`. */
  function ShakeStep(s: CameraState, deltaTime: real, sine: real -> real): CameraState {
    var shaking := s.(isShaking := true);
    if shaking.shakeTimeElapsed <= SHAKE_DURATION then
      shaking.(
        augmentedPosition := AddVectors(shaking.pathPosition, Vec2(0.0, ShakeOffset(sine, shaking.shakeTimeElapsed))),
        shakeTimeElapsed := shaking.shakeTimeElapsed + deltaTime)
    else
      shaking.(shakeTimeElapsed := 0.0, isShaking := false, augmentedPosition := shaking.pathPosition)
  }

  /**
   * While the timer is at most 0.5 s a shake call marks the camera shaking,
   * displaces it vertically only, from the path, and advances the timer by
   * deltaTime; past 0.5 s it resets the timer, stops shaking and puts the
   * camera back on its path. The path never moves.
   */
  lemma ShakeStepCases(s: CameraState, deltaTime: real, sine: real -> real)
    ensures var r := ShakeStep(s, deltaTime, sine);
      && r.pathPosition == s.pathPosition
      && (s.shakeTimeElapsed <= SHAKE_DURATION ==>
            && r.isShaking
            && r.shakeTimeElapsed == s.shakeTimeElapsed + deltaTime
            && r.augmentedPosition.x == s.pathPosition.x
            && r.augmentedPosition.y == s.pathPosition.y + ShakeOffset(sine, s.shakeTimeElapsed))
      && (s.shakeTimeElapsed > SHAKE_DURATION ==>
            && !r.isShaking && r.shakeTimeElapsed == 0.0
            && r.augmentedPosition == s.pathPosition)
  {
  }

  /** Starting a shake with a zero step (the "s" key) does not displace the camera. */
  lemma ShakeStartsOnPath(s: CameraState, sine: real -> real)
    requires s.shakeTimeElapsed == 0.0
    ensures ShakeStep(s, 0.0, sine) == s.(isShaking := true, augmentedPosition := s.pathPosition)
  {
  }

  /** Shake calls with a fixed positive step, until one of them ends the shake. */
  function ShakeUntilReset(s: CameraState, deltaTime: real, sine: real -> real): CameraState
    requires deltaTime > 0.0
    decreases Remaining(s.shakeTimeElapsed, deltaTime, SHAKE_DURATION)
  {
    var next := ShakeStep(s, deltaTime, sine);
    if s.shakeTimeElapsed > SHAKE_DURATION then next
    else
      RemainingShrinks(s.shakeTimeElapsed, deltaTime, SHAKE_DURATION);
      ShakeUntilReset(next, deltaTime, sine)
  }

  /**
   * With a positive frame time every shake ends: the camera is left not
   * shaking, with a zero timer, back on its unchanged path.
   */
  lemma {:induction false} ShakeEnds(s: CameraState, deltaTime: real, sine: real -> real)
    requires deltaTime > 0.0
    ensures var r := ShakeUntilReset(s, deltaTime, sine);
      !r.isShaking && r.shakeTimeElapsed == 0.0
      && r.pathPosition == s.pathPosition && r.augmentedPosition == s.pathPosition
    decreases Remaining(s.shakeTimeElapsed, deltaTime, SHAKE_DURATION)
  {
    if s.shakeTimeElapsed <= SHAKE_DURATION {
      RemainingShrinks(s.shakeTimeElapsed, deltaTime, SHAKE_DURATION);
      ShakeEnds(ShakeStep(s, deltaTime, sine), deltaTime, sine);
    }
  }

  /** `Camera.prototype.update(deltaTime)` given where the target is. */
  function UpdateStep(s: CameraState, dest: Vec2, deltaTime: real, sine: real -> real): CameraState {
    var moved := s.(pathPosition := Follow(s.pathPosition, dest));
    if moved.isShaking then ShakeStep(moved, deltaTime, sine)
    else moved.(augmentedPosition := moved.pathPosition)
  }

  /**
   * An update follows the target, and then either shakes or puts the
   * augmented position on the path; in both cases the augmented position
   * ends on the path's vertical line. Without a shake nothing but the two
   * positions changes.
   */
  lemma UpdateStepCases(s: CameraState, dest: Vec2, deltaTime: real, sine: real -> real)
    ensures var r := UpdateStep(s, dest, deltaTime, sine);
      && r.pathPosition == Follow(s.pathPosition, dest)
      && r.augmentedPosition.x == r.pathPosition.x
      && (!s.isShaking ==> r == s.(pathPosition := r.pathPosition, augmentedPosition := r.pathPosition))
      && (s.isShaking ==> r == ShakeStep(s.(pathPosition := r.pathPosition), deltaTime, sine))
  {
  }

  // ---------------------------------------------------------------------
  // View geometry

  /** What the projection needs: the centre, the radii fixed at construction, the scale and the screen size. */
  datatype Viewport = Viewport(center: Vec2, axesRadii: Vec2, scale: real, width: real, height: real)

  datatype Bounds = Bounds(topLeft: Vec2, bottomRight: Vec2)

  /** `computeWorldBounds()`: the visible world rectangle. */
  function WorldBounds(v: Viewport): Bounds
    requires v.scale > 0.0
  {
    Bounds(
      Vec2(v.center.x - v.axesRadii.x / v.scale, v.center.y - v.axesRadii.y / v.scale),
      Vec2(v.center.x + v.axesRadii.x / v.scale, v.center.y + v.axesRadii.y / v.scale))
  }

  /** `coordWithinBounds(coord)`. */
  predicate Within(v: Viewport, c: Vec2)
    requires v.scale > 0.0
  {
    var b := WorldBounds(v);
    c.x >= b.topLeft.x && c.y >= b.topLeft.y && c.x <= b.bottomRight.x && c.y <= b.bottomRight.y
  }

  /** `worldToScreenCoords(coord)`. */
  function WorldToScreen(v: Viewport, c: Vec2): Vec2 {
    Vec2(v.width / 2.0 + v.scale * (c.x - v.center.x), v.height / 2.0 + v.scale * (c.y - v.center.y))
  }

  /** The bounds are centred on the view's centre. */
  lemma WorldBoundsAreCentred(v: Viewport)
    requires v.scale > 0.0
    ensures var b := WorldBounds(v);
      (b.topLeft.x + b.bottomRight.x) / 2.0 == v.center.x
      && (b.topLeft.y + b.bottomRight.y) / 2.0 == v.center.y
      && b.bottomRight.x - b.topLeft.x == 2.0 * v.axesRadii.x / v.scale
      && b.bottomRight.y - b.topLeft.y == 2.0 * v.axesRadii.y / v.scale
  {
  }

  /** All four corners are visible: the test is inclusive on every edge. */
  lemma WithinIsInclusive(v: Viewport)
    requires v.scale > 0.0 && v.axesRadii.x >= 0.0 && v.axesRadii.y >= 0.0
    ensures var b := WorldBounds(v);
      && Within(v, b.topLeft) && Within(v, b.bottomRight)
      && Within(v, Vec2(b.topLeft.x, b.bottomRight.y)) && Within(v, Vec2(b.bottomRight.x, b.topLeft.y))
      && Within(v, v.center)
  {
    RadiusOverScale(v.axesRadii.x, v.scale);
    RadiusOverScale(v.axesRadii.y, v.scale);
  }

  /** Helper: a non-negative radius over a positive scale is non-negative. */
  lemma RadiusOverScale(r: real, s: real)
    requires r >= 0.0 && s > 0.0
    ensures r / s >= 0.0
  {
    assert (r / s) * s == r;
  }

  /** The view's centre is drawn at the centre of the screen. */
  lemma CentreMapsToScreenCentre(v: Viewport)
    ensures WorldToScreen(v, v.center) == Vec2(v.width / 2.0, v.height / 2.0)
  {
  }

  /** The projection is affine on each axis, with factor `scale`. */
  lemma WorldToScreenIsAffine(v: Viewport, c1: Vec2, c2: Vec2)
    ensures SubtractVectors(WorldToScreen(v, c1), WorldToScreen(v, c2))
         == MultiplyVectors(Vec2(v.scale, v.scale), SubtractVectors(c1, c2))
  {
    assert v.scale * (c1.x - v.center.x) - v.scale * (c2.x - v.center.x) == v.scale * (c1.x - c2.x);
    assert v.scale * (c1.y - v.center.y) - v.scale * (c2.y - v.center.y) == v.scale * (c1.y - c2.y);
  }

  /** Helper: for a positive s, a lies within r / s of 0 exactly when s * a lies within r of 0. */
  lemma ScaledInterval(a: real, r: real, s: real)
    requires s > 0.0
    ensures (-(r / s) <= a <= r / s) <==> (-r <= s * a <= r)
  {
    var q := r / s;
    assert q * s == r;
    if -q <= a <= q {
      assert s * a <= s * q;
      assert s * (-q) <= s * a;
    }
  }

  /**
   * A point is visible exactly when it is drawn within axesRadii of the
   * screen centre, whatever the current scale: the radii were fixed from
   * the scale at construction.
   */
  lemma WithinIffNearScreenCentre(v: Viewport, c: Vec2)
    requires v.scale > 0.0
    ensures var sc := WorldToScreen(v, c);
      Within(v, c) <==> (Abs(sc.x - v.width / 2.0) <= v.axesRadii.x && Abs(sc.y - v.height / 2.0) <= v.axesRadii.y)
  {
    ScaledInterval(c.x - v.center.x, v.axesRadii.x, v.scale);
    ScaledInterval(c.y - v.center.y, v.axesRadii.y, v.scale);
  }

  /**
   * With radii of half the screen (a camera built with scale 1, as the game
   * builds it) a point is visible exactly when it is drawn on the screen.
   */
  lemma WithinIffOnScreen(v: Viewport, c: Vec2)
    requires v.scale > 0.0 && v.axesRadii == Vec2(v.width / 2.0, v.height / 2.0)
    ensures var sc := WorldToScreen(v, c);
      Within(v, c) <==> (0.0 <= sc.x <= v.width && 0.0 <= sc.y <= v.height)
  {
    WithinIffNearScreenCentre(v, c);
  }

  // ---------------------------------------------------------------------
  // Culling

  /** The indices of the objects `renderAll` draws, in scene order. */
  function VisibleIndices(objs: seq<SceneObject>, v: Viewport): (idx: seq<nat>)
    requires v.scale > 0.0
    reads BulletsOf(objs), Footprints(objs)
    ensures forall j :: 0 <= j < |idx| ==> idx[j] < |objs|
  {
    if objs == [] then []
    else
      var init := objs[..|objs| - 1];
      assert BulletsOf(init) <= BulletsOf(objs);
      assert forall i :: 0 <= i < |init| ==> init[i] == objs[i];
      VisibleIndices(init, v)
        + (if Within(v, objs[|objs| - 1].Position()) then [|objs| - 1] else [])
  }

  /**
   * Culling draws exactly the objects whose position is within the bounds,
   * each once, in the order of the scene.
   */
  lemma {:induction false} VisibleIndicesAreTheVisibleObjects(objs: seq<SceneObject>, v: Viewport)
    requires v.scale > 0.0
    ensures var idx := VisibleIndices(objs, v);
      && (forall k :: 0 <= k < |objs| ==> (k in idx <==> Within(v, objs[k].Position())))
      && (forall a, b :: 0 <= a < b < |idx| ==> idx[a] < idx[b])
  {
    if objs != [] {
      var init := objs[..|objs| - 1];
      assert forall i :: 0 <= i < |init| ==> init[i] == objs[i];
      VisibleIndicesAreTheVisibleObjects(init, v);
      var before := VisibleIndices(init, v);
      var idx := VisibleIndices(objs, v);
      assert forall j :: 0 <= j < |before| ==> before[j] < |objs| - 1;
      assert idx == before + (if Within(v, objs[|objs| - 1].Position()) then [|objs| - 1] else []);
      forall a, b | 0 <= a < b < |idx|
        ensures idx[a] < idx[b]
      {
        if b < |before| {
          assert idx[a] == before[a] && idx[b] == before[b];
        } else {
          assert idx[a] == before[a];
        }
      }
    }
  }

  /** The sprites of the objects at idx, each at its screen position with its size times the scale. */
  function SpritesAt(objs: seq<SceneObject>, idx: seq<nat>, v: Viewport): seq<CanvasOp>
    requires forall j :: 0 <= j < |idx| ==> idx[j] < |objs|
    reads BulletsOf(objs), Footprints(objs)
  {
    if idx == [] then []
    else
      var o := objs[idx[|idx| - 1]];
      SpritesAt(objs, idx[..|idx| - 1], v)
        + o.DrawSprite(WorldToScreen(v, o.Position()), MultiplyVectors(Vec2(v.scale, v.scale), o.Size()))
  }

  // ---------------------------------------------------------------------
  // The camera

  class Camera {
    /** `destinationPosition`: what to follow. */
    var target: Target
    var pathPosition: Vec2
    var augmentedPosition: Vec2
    var scale: real
    /** Half the screen times the scale at construction; later zooming does not change it. */
    const axesRadii: Vec2
    const width: real
    const height: real
    var shakeTimeElapsed: real
    var isShaking: bool
    const scene: SceneList
    /** `Math.sin`, as a parameter. */
    const sine: real -> real

    ghost predicate Valid()
      reads this
    {
      scale > 0.0
    }

    function State(): CameraState
      reads this`pathPosition, this`augmentedPosition, this`shakeTimeElapsed, this`isShaking
    {
      CameraState(pathPosition, augmentedPosition, shakeTimeElapsed, isShaking)
    }

    function View(): Viewport
      reads this
    {
      Viewport(augmentedPosition, axesRadii, scale, width, height)
    }

    /**
     * The path and augmented positions start at the target; the radii are
     * half the screen times the initial scale; no shake is running.
     */
    constructor (target: Target, scene: SceneList, width: real, height: real, scale: real, sine: real -> real)
      requires scale > 0.0
      ensures Valid()
      ensures this.target == target && this.scene == scene && this.sine == sine
      ensures this.width == width && this.height == height && this.scale == scale
      ensures State() == CameraState(target.Position(), target.Position(), 0.0, false)
      ensures axesRadii == Vec2(scale * (width / 2.0), scale * (height / 2.0))
    {
      this.target := target;
      pathPosition := target.Position();
      augmentedPosition := pathPosition;
      this.scene := scene;
      this.scale := scale;
      this.width := width;
      this.height := height;
      axesRadii := Vec2(scale * (width / 2.0), scale * (height / 2.0));
      shakeTimeElapsed := 0.0;
      isShaking := false;
      this.sine := sine;
    }

    /** `centerOn(positionToCenter)`: only the target changes. */
    method CenterOn(target: Target)
      modifies this`target
      ensures this.target == target
    {
      this.target := target;
    }

    /** `shake(deltaTime)`. */
    method Shake(deltaTime: real)
      modifies this`augmentedPosition, this`shakeTimeElapsed, this`isShaking
      ensures State() == ShakeStep(old(State()), deltaTime, sine)
    {
      if !isShaking {
        isShaking := true;
      }
      if shakeTimeElapsed <= SHAKE_DURATION {
        var toAdd := if shakeTimeElapsed == 0.0 then 0.0 else sine(SHAKE_FREQUENCY * shakeTimeElapsed) / shakeTimeElapsed;
        augmentedPosition := AddVectors(pathPosition, Vec2(0.0, toAdd));
        shakeTimeElapsed := shakeTimeElapsed + deltaTime;
      } else {
        shakeTimeElapsed := 0.0;
        isShaking := false;
        augmentedPosition := pathPosition;
      }
    }

    /** `update(deltaTime)`: follow the target, then shake or settle on the path. */
    method Update(deltaTime: real)
      modifies this`pathPosition, this`augmentedPosition, this`shakeTimeElapsed, this`isShaking
      ensures State() == UpdateStep(old(State()), old(target.Position()), deltaTime, sine)
    {
      var destPos := target.Position();
      var diff := SubtractVectors(destPos, pathPosition);
      if Abs(diff.x) > DEAD_ZONE || Abs(diff.y) > DEAD_ZONE {
        var newX, newY;
        if diff.x <= FOLLOW_DISTANCE {
          newX := pathPosition.x + diff.x * LERP_FACTOR;
        } else {
          newX := destPos.x - Sign(diff.x) * FOLLOW_DISTANCE;
        }
        if diff.y <= FOLLOW_DISTANCE {
          newY := pathPosition.y + diff.y * LERP_FACTOR;
        } else {
          newY := destPos.y - Sign(diff.y) * FOLLOW_DISTANCE;
        }
        pathPosition := Vec2(newX, newY);
      }
      if isShaking {
        Shake(deltaTime);
      } else {
        augmentedPosition := pathPosition;
      }
    }

    /** `computeWorldBounds()`: the world rectangle the camera sees, centred on it. */
    function ComputeWorldBounds(): (b: Bounds)
      requires Valid()
      reads this
      ensures (b.topLeft.x + b.bottomRight.x) / 2.0 == augmentedPosition.x
      ensures (b.topLeft.y + b.bottomRight.y) / 2.0 == augmentedPosition.y
      ensures b.bottomRight.x - b.topLeft.x == 2.0 * axesRadii.x / scale
      ensures b.bottomRight.y - b.topLeft.y == 2.0 * axesRadii.y / scale
    {
      WorldBoundsAreCentred(View());
      WorldBounds(View())
    }

    /** `coordWithinBounds(coord)`: visible exactly when drawn within axesRadii of the screen centre. */
    predicate CoordWithinBounds(coord: Vec2)
      requires Valid()
      reads this
      ensures var sc := WorldToScreenCoords(coord);
        CoordWithinBounds(coord) <==> Abs(sc.x - width / 2.0) <= axesRadii.x && Abs(sc.y - height / 2.0) <= axesRadii.y
    {
      WithinIffNearScreenCentre(View(), coord);
      Within(View(), coord)
    }

    /**
     * `worldToScreenCoords(coord)`: the camera is drawn at the screen centre,
     * and the offset from it is the world offset from the camera times `scale`.
     */
    function WorldToScreenCoords(coord: Vec2): (p: Vec2)
      reads this
      ensures SubtractVectors(p, Vec2(width / 2.0, height / 2.0))
           == MultiplyVectors(Vec2(scale, scale), SubtractVectors(coord, augmentedPosition))
      ensures coord == augmentedPosition ==> p == Vec2(width / 2.0, height / 2.0)
    {
      CentreMapsToScreenCentre(View());
      WorldToScreenIsAffine(View(), coord, augmentedPosition);
      WorldToScreen(View(), coord)
    }

    /**
     * What `renderAll()` draws: the grid background with cells of 100 *
     * scale, then the sprite of every visible scene object in scene order.
     */
    function Picture(): seq<CanvasOp>
      requires Valid()
      reads this, scene, BulletsOf(scene.items), Footprints(scene.items)
    {
      GridBackground.GridLines(ComputeWorldBounds().topLeft,
          Vec2(scale * GRID_SQUARE_SIZE, scale * GRID_SQUARE_SIZE), width, height)
        + SpritesAt(scene.items, VisibleIndices(scene.items, View()), View())
    }

    /**
     * `renderAll()`: the grid background with cells of 100 * scale, then the
     * sprite of every visible scene object in scene order; `drawn` names
     * the objects drawn.
     */
    method RenderAll() returns (ops: seq<CanvasOp>, ghost drawn: seq<nat>)
      requires Valid()
      ensures drawn == VisibleIndices(scene.items, View())
      ensures ops == Picture()
    {
      var worldBounds := ComputeWorldBounds();
      var gridSquareVec := Vec2(scale * GRID_SQUARE_SIZE, scale * GRID_SQUARE_SIZE);
      var background := GridBackground.Draw(worldBounds.topLeft, worldBounds.bottomRight, gridSquareVec, width, height);
      var sprites;
      sprites, drawn := DrawVisible(scene.items, View());
      ops := background + sprites;
    }
  }

  /**
   * The object loop of `renderAll`: each object whose position is within
   * the view's bounds is drawn at its screen coordinates with its size
   * times the scale.
   */
  method DrawVisible(objs: seq<SceneObject>, v: Viewport) returns (ops: seq<CanvasOp>, ghost drawn: seq<nat>)
    requires v.scale > 0.0
    ensures drawn == VisibleIndices(objs, v)
    ensures ops == SpritesAt(objs, drawn, v)
  {
    ops := [];
    drawn := [];
    for i := 0 to |objs|
      invariant drawn == VisibleIndices(objs[..i], v)
      invariant forall j :: 0 <= j < |drawn| ==> drawn[j] < i
      invariant ops == SpritesAt(objs, drawn, v)
    {
      var obj := objs[i];
      var objPos := obj.Position();
      var scaledSize := MultiplyVectors(Vec2(v.scale, v.scale), obj.Size());
      assert objs[..i + 1][..i] == objs[..i] && objs[..i + 1][i] == obj;
      if Within(v, objPos) {
        var objectScreenCoords := WorldToScreen(v, objPos);
        ops := ops + obj.DrawSprite(objectScreenCoords, scaledSize);
        assert (drawn + [i])[..|drawn|] == drawn;
        drawn := drawn + [i];
      }
    }
    assert objs[..|objs|] == objs;
  }

  // ---------------------------------------------------------------------
  // Debug camera input

  /** `Math.min(Math.max(.125, scale), 3)`. */
  function ClampScale(s: real): (r: real)
    ensures MIN_SCALE <= r <= MAX_SCALE
    ensures MIN_SCALE <= s <= MAX_SCALE ==> r == s
    ensures s < MIN_SCALE ==> r == MIN_SCALE
    ensures s > MAX_SCALE ==> r == MAX_SCALE
  {
    var atLeast := if MIN_SCALE > s then MIN_SCALE else s;
    if atLeast < MAX_SCALE then atLeast else MAX_SCALE
  }

  /** Zooming more never shrinks the clamped scale. */
  lemma ClampScaleIsMonotone(s: real, t: real)
    requires s <= t
    ensures ClampScale(s) <= ClampScale(t)
  {
  }

  /**
   * The arrow-key pan of one debug update: up beats down, right beats left,
   * 50 world units per held axis.
   */
  function Pan(keysDown: seq<string>, p: Vec2): Vec2 {
    var vertical :=
      if "ArrowUp" in keysDown then AddVectors(Vec2(0.0, -PAN_VELOCITY), p)
      else if "ArrowDown" in keysDown then AddVectors(Vec2(0.0, PAN_VELOCITY), p)
      else p;
    if "ArrowRight" in keysDown then AddVectors(Vec2(PAN_VELOCITY, 0.0), vertical)
    else if "ArrowLeft" in keysDown then AddVectors(Vec2(-PAN_VELOCITY, 0.0), vertical)
    else vertical
  }

  /** The pan as one displacement per axis. */
  lemma PanDisplacement(keysDown: seq<string>, p: Vec2)
    ensures var dx := if "ArrowRight" in keysDown then 50.0 else if "ArrowLeft" in keysDown then -50.0 else 0.0;
      var dy := if "ArrowUp" in keysDown then -50.0 else if "ArrowDown" in keysDown then 50.0 else 0.0;
      Pan(keysDown, p) == Vec2(p.x + dx, p.y + dy)
  {
  }

  /** `DebugCamera.update(deltaTime)` given where the target is. */
  function DebugStep(s: CameraState, keysDown: seq<string>, debugOn: bool, dest: Vec2,
                     deltaTime: real, sine: real -> real): CameraState {
    if debugOn then
      var panned := s.(augmentedPosition := Pan(keysDown, s.augmentedPosition));
      if panned.isShaking then ShakeStep(panned, deltaTime, sine) else panned
    else
      UpdateStep(s, dest, deltaTime, sine)
  }

  /**
   * In debug mode the path never moves; without a shake only the augmented
   * position changes, by the pan; a running shake overrides the pan and
   * puts the camera on the path's vertical line. Out of debug mode it is the
   * ordinary camera update.
   */
  lemma DebugStepCases(s: CameraState, keysDown: seq<string>, debugOn: bool, dest: Vec2,
                       deltaTime: real, sine: real -> real)
    ensures var r := DebugStep(s, keysDown, debugOn, dest, deltaTime, sine);
      && (debugOn ==> r.pathPosition == s.pathPosition)
      && (debugOn && !s.isShaking ==> r == s.(augmentedPosition := Pan(keysDown, s.augmentedPosition)))
      && (debugOn && s.isShaking ==> r.augmentedPosition.x == s.pathPosition.x)
      && (!debugOn ==> r == UpdateStep(s, dest, deltaTime, sine))
  {
  }

  /** `keysDown.filter(k => k != key)`. */
  function Without(keys: seq<string>, key: string): (r: seq<string>)
    ensures |r| <= |keys|
  {
    if keys == [] then []
    else Without(keys[..|keys| - 1], key) + (if keys[|keys| - 1] == key then [] else [keys[|keys| - 1]])
  }

  /** Removing a key removes every copy of it and keeps every other key. */
  lemma {:induction false} WithoutRemovesExactlyKey(keys: seq<string>, key: string)
    ensures forall k :: k in Without(keys, key) <==> (k in keys && k != key)
  {
    if keys != [] {
      WithoutRemovesExactlyKey(keys[..|keys| - 1], key);
      assert keys == keys[..|keys| - 1] + [keys[|keys| - 1]];
    }
  }

  /** Removing a key keeps the order of the others: it works piece by piece. */
  lemma {:induction false} WithoutKeepsOrder(a: seq<string>, b: seq<string>, key: string)
    ensures Without(a + b, key) == Without(a, key) + Without(b, key)
  {
    if b != [] {
      WithoutKeepsOrder(a, b[..|b| - 1], key);
      assert (a + b)[..|a + b| - 1] == a + b[..|b| - 1];
    } else {
      assert a + b == a;
    }
  }

  /** Keys other than the removed one survive with their multiplicity. */
  lemma {:induction false} WithoutKeepsOthers(keys: seq<string>, key: string)
    ensures multiset(Without(keys, key))[key] == 0
    ensures forall k :: k != key ==> multiset(Without(keys, key))[k] == multiset(keys)[k]
  {
    if keys != [] {
      var init, last := keys[..|keys| - 1], keys[|keys| - 1];
      WithoutKeepsOthers(init, key);
      assert keys == init + [last];
      assert multiset(keys) == multiset(init) + multiset{last};
      var kept := if last == key then [] else [last];
      assert multiset(Without(keys, key)) == multiset(Without(init, key)) + multiset(kept);
    }
  }

  // ---------------------------------------------------------------------
  // Debug menu

  /** JavaScript's `Math.round`: to the nearest integer, halves upward. */
  function JsRound(x: real): (r: int)
    ensures r as real - 0.5 <= x < r as real + 0.5
  {
    (x + 0.5).Floor
  }

  function DigitChar(d: nat): char
    requires d < 10
  {
    "0123456789"[d]
  }

  function DigitValue(c: char): nat {
    if '0' <= c <= '9' then (c - '0') as nat else 0
  }

  /** Decimal digits of n, most significant first, as JavaScript prints an integer. */
  function NatToString(n: nat): (s: string)
    ensures |s| > 0 && forall i :: 0 <= i < |s| ==> '0' <= s[i] <= '9'
  {
    if n < 10 then [DigitChar(n)] else NatToString(n / 10) + [DigitChar(n % 10)]
  }

  /** Reading decimal digits back as a number. */
  function ParseDigits(s: string): nat {
    if s == [] then 0 else 10 * ParseDigits(s[..|s| - 1]) + DigitValue(s[|s| - 1])
  }

  /** Printing an integer and reading it back gives the integer. */
  lemma {:induction false} NatToStringRoundTrip(n: nat)
    ensures ParseDigits(NatToString(n)) == n
  {
    if n >= 10 {
      NatToStringRoundTrip(n / 10);
      var s := NatToString(n);
      assert s[..|s| - 1] == NatToString(n / 10);
    }
  }

  /** An integer as JavaScript prints it. */
  function IntToString(i: int): string {
    if i < 0 then "-" + NatToString(-i) else NatToString(i)
  }

  /** A debug-menu line: the source pushes closures, re-evaluated at every display. */
  datatype DebugLine =
    | CameraModeLine
    | StaticLine(text: string)
    | PlayerLine(id: string, agent: Agents.Agent)

  /** The text of a line at display time. */
  function LineText(line: DebugLine, debugOn: bool): string
    reads if line.PlayerLine? then {line.agent} else {}
  {
    match line
    case CameraModeLine => "Camera Mode: " + (if debugOn then "Debug Camera" else "Player Camera")
    case StaticLine(text) => text
    case PlayerLine(id, agent) =>
      var p := agent.GetPosition();
      "Player ID: \"" + id + "\", Position: (" + IntToString(JsRound(p.x)) + ", " + IntToString(JsRound(p.y)) + ")"
  }

  function AgentsOf(lines: seq<DebugLine>): set<object> {
    set i | 0 <= i < |lines| && lines[i].PlayerLine? :: lines[i].agent
  }

  function LineTexts(lines: seq<DebugLine>, debugOn: bool): (texts: seq<string>)
    reads AgentsOf(lines)
    ensures |texts| == |lines|
  {
    if lines == [] then []
    else
      var init := lines[..|lines| - 1];
      assert AgentsOf(init) <= AgentsOf(lines);
      LineTexts(init, debugOn) + [LineText(lines[|lines| - 1], debugOn)]
  }

  /** The three lines every debug camera starts with. */
  const INITIAL_DEBUG_LINES: seq<DebugLine> := [
    CameraModeLine,
    StaticLine("Spacebar to toggle camera mode"),
    StaticLine("Scroll to zoom, arrow keys to pan camera in debug mode")]

  /** The height of menu line i: 30 + 30 i. */
  function MenuLineY(i: int): real {
    MENU_TOP + MENU_LINE_SPACING * i as real
  }

  /** The menu: line i at (30, 30 + 30 i). */
  function MenuLayout(texts: seq<string>): (ops: seq<CanvasOp>)
    ensures |ops| == |texts|
  {
    if texts == [] then []
    else
      MenuLayout(texts[..|texts| - 1])
        + [FillText(texts[|texts| - 1], Vec2(MENU_LEFT, MenuLineY(|texts| - 1)))]
  }

  /** Laying out one more line puts it one spacing below the others. */
  lemma MenuLayoutStep(texts: seq<string>, text: string)
    ensures MenuLayout(texts + [text])
         == MenuLayout(texts) + [FillText(text, Vec2(MENU_LEFT, MenuLineY(|texts|)))]
  {
    var all := texts + [text];
    assert all[..|all| - 1] == texts && all[|all| - 1] == text && |all| - 1 == |texts|;
  }

  /** Line i of the menu is text i, at (30, 30 + 30 i). */
  lemma {:induction false} MenuLayoutAt(texts: seq<string>)
    ensures forall i :: 0 <= i < |texts| ==>
      MenuLayout(texts)[i] == FillText(texts[i], Vec2(MENU_LEFT, MenuLineY(i)))
  {
    if texts != [] {
      var init := texts[..|texts| - 1];
      MenuLayoutAt(init);
      assert forall i :: 0 <= i < |init| ==> texts[i] == init[i];
    }
  }

  /** Menu lines do not overlap: every line sits 30 below the previous one, the first at y = 30. */
  lemma MenuLinesAreSpaced(texts: seq<string>)
    ensures MenuLayout(texts) != [] ==> MenuLayout(texts)[0].FillText? && MenuLayout(texts)[0].at == Vec2(30.0, 30.0)
    ensures forall i, j :: 0 <= i && j == i + 1 && j < |texts| ==>
      && MenuLayout(texts)[i].FillText? && MenuLayout(texts)[j].FillText?
      && MenuLayout(texts)[j].at.x == MenuLayout(texts)[i].at.x
      && MenuLayout(texts)[j].at.y == MenuLayout(texts)[i].at.y + 30.0
  {
    MenuLayoutAt(texts);
  }

  // ---------------------------------------------------------------------
  // The debug camera

  class DebugCamera {
    /** The camera this one extends. */
    const base: Camera
    var debugOn: bool
    var keysDown: seq<string>
    var debugLines: seq<DebugLine>

    ghost predicate Valid()
      reads this, base
    {
      base.Valid()
    }

    /**
     * A camera centred on the origin at scale 1, in debug mode, with no
     * keys held and the three fixed menu lines.
     */
    constructor (scene: SceneList, width: real, height: real, sine: real -> real)
      ensures Valid() && fresh(base)
      ensures base.scene == scene && base.width == width && base.height == height && base.sine == sine
      ensures base.target == FixedPoint(Origin) && base.scale == 1.0
      ensures base.State() == CameraState(Origin, Origin, 0.0, false)
      ensures debugOn && keysDown == [] && debugLines == INITIAL_DEBUG_LINES
    {
      base := new Camera(FixedPoint(Origin), scene, width, height, 1.0, sine);
      debugOn := true;
      keysDown := [];
      debugLines := INITIAL_DEBUG_LINES;
    }

    /** `update(deltaTime)`: pan (and shake) in debug mode, otherwise a camera update. */
    method Update(deltaTime: real)
      modifies base`pathPosition, base`augmentedPosition, base`shakeTimeElapsed, base`isShaking
      ensures base.State() == DebugStep(old(base.State()), keysDown, debugOn, old(base.target.Position()), deltaTime, base.sine)
    {
      if debugOn {
        var vel := PAN_VELOCITY;
        if "ArrowUp" in keysDown {
          base.augmentedPosition := AddVectors(Vec2(0.0, -vel), base.augmentedPosition);
        } else if "ArrowDown" in keysDown {
          base.augmentedPosition := AddVectors(Vec2(0.0, vel), base.augmentedPosition);
        }
        if "ArrowRight" in keysDown {
          base.augmentedPosition := AddVectors(Vec2(vel, 0.0), base.augmentedPosition);
        } else if "ArrowLeft" in keysDown {
          base.augmentedPosition := AddVectors(Vec2(-vel, 0.0), base.augmentedPosition);
        }
        if base.isShaking {
          base.Shake(deltaTime);
        }
      } else {
        base.Update(deltaTime);
      }
    }

    /** `toggleDebugFeatures()`: two toggles restore the mode. */
    method ToggleDebugFeatures()
      modifies this`debugOn
      ensures debugOn == !old(debugOn)
    {
      debugOn := !debugOn;
    }

    /** The keydown listener: record the key; space toggles the mode, "s" starts a shake. */
    method OnKeyDown(key: string)
      modifies this`keysDown, this`debugOn, base`augmentedPosition, base`shakeTimeElapsed, base`isShaking
      ensures keysDown == old(keysDown) + [key]
      ensures debugOn == (if key == " " then !old(debugOn) else old(debugOn))
      ensures base.State() == if key == "s" then ShakeStep(old(base.State()), 0.0, base.sine) else old(base.State())
    {
      keysDown := keysDown + [key];
      if key == " " {
        ToggleDebugFeatures();
      }
      if key == "s" {
        base.Shake(0.0);
      }
    }

    /** The keyup listener: every copy of the key is released. */
    method OnKeyUp(key: string)
      modifies this`keysDown
      ensures keysDown == Without(old(keysDown), key)
    {
      keysDown := Without(keysDown, key);
    }

    /** The wheel listener: zoom by deltaY * -0.01, clamped to [0.125, 3], in either mode. */
    method OnWheel(deltaY: real)
      modifies base`scale
      ensures base.scale == ClampScale(old(base.scale) + deltaY * ZOOM_PER_WHEEL_UNIT)
      ensures Valid()
    {
      base.scale := base.scale + deltaY * ZOOM_PER_WHEEL_UNIT;
      var atLeast := if MIN_SCALE > base.scale then MIN_SCALE else base.scale;
      base.scale := if atLeast < MAX_SCALE then atLeast else MAX_SCALE;
    }

    /** `addToDebugMenu(line)`. */
    method AddToDebugMenu(line: DebugLine)
      modifies this`debugLines
      ensures debugLines == old(debugLines) + [line]
    {
      debugLines := debugLines + [line];
    }

    /** `displayDebugMenu()`: each line's current text, one below the other. */
    method DisplayDebugMenu() returns (ops: seq<CanvasOp>)
      ensures ops == MenuLayout(LineTexts(debugLines, debugOn))
    {
      ops := [];
      var currLineYPos := MENU_TOP;
      ghost var texts: seq<string> := [];
      for i := 0 to |debugLines|
        invariant currLineYPos == MenuLineY(i)
        invariant texts == LineTexts(debugLines[..i], debugOn)
        invariant ops == MenuLayout(texts)
      {
        assert debugLines[..i + 1][..i] == debugLines[..i];
        var text := LineText(debugLines[i], debugOn);
        MenuLayoutStep(texts, text);
        ops := ops + [FillText(text, Vec2(MENU_LEFT, currLineYPos))];
        texts := texts + [text];
        currLineYPos := currLineYPos + MENU_LINE_SPACING;
      }
      assert debugLines[..|debugLines|] == debugLines;
    }
  }
}
