/** The basic architecture scene: a camera that starts at the home pose and
    is orbited about the origin by the arrow keys, one step per frame, and a
    floor grid of extent 20 with step 2.

    The cosine and sine of the rotation speed are passed in as opaque reals
    `c` and `s`; lemmas that need a true rotation assume c * c + s * s == 1. */
module BasicArchitecture {
  import opened Scene
  import Grid

  /** The home pose (zoomX, zoomY, zoomZ). */
  const ZoomX: real := 0.0
  const ZoomY: real := 50.0
  const ZoomZ: real := 0.0
  /** Down only applies while the camera is strictly above this height. */
  const MinHeight: real := 5.0
  /** Up only applies while the camera is strictly below ZoomY - UpMargin. */
  const UpMargin: real := 0.1
  /** Below this height, up snaps straight to the home pose. */
  const SnapHeight: real := 1.0

  /** The floor grid of the scene: extent 20, step 2, white. */
  const GridLines: int := 20
  const GridStep: int := 2
  const White: int := 0xFFFFFF

  /** A camera position in scene-world units. */
  datatype Position = Position(x: real, y: real, z: real)

  const Home: Position := Position(ZoomX, ZoomY, ZoomZ)

  /** Which direction keys are held during one frame. */
  datatype Keys = Keys(left: bool, right: bool, down: bool, up: bool)

  const NoKey: Keys := Keys(false, false, false, false)
  const LeftKey: Keys := Keys(true, false, false, false)
  const RightKey: Keys := Keys(false, true, false, false)
  const DownKey: Keys := Keys(false, false, true, false)
  const UpKey: Keys := Keys(false, false, false, true)

  /** Left: rotate (x, z) by the rotation speed. */
  function YawLeft(p: Position, c: real, s: real): Position
  {
    Position(p.x * c - p.z * s, p.y, p.z * c + p.x * s)
  }

  /** Right: rotate (x, z) the other way. */
  function YawRight(p: Position, c: real, s: real): Position
  {
    Position(p.x * c + p.z * s, p.y, p.z * c - p.x * s)
  }

  /** Down: rotate (y, z) the same way as left rotates (x, z). */
  function PitchDown(p: Position, c: real, s: real): Position
  {
    Position(p.x, p.y * c - p.z * s, p.z * c + p.y * s)
  }

  /** Up: rotate (y, z) the other way. */
  function PitchUp(p: Position, c: real, s: real): Position
  {
    Position(p.x, p.y * c + p.z * s, p.z * c - p.y * s)
  }

  /** The position after one frame with `keys` held: the first held key of
      left, right, down, up decides; down and up are guarded by the height. */
  function Next(p: Position, keys: Keys, c: real, s: real): Position
  {
    if keys.left then YawLeft(p, c, s)
    else if keys.right then YawRight(p, c, s)
    else if keys.down then
      (if p.y > MinHeight then PitchDown(p, c, s) else p)
    else if keys.up then
      (if p.y < ZoomY - UpMargin then
         (if p.y < SnapHeight then Home else PitchUp(p, c, s))
       else p)
    else p
  }

  /** The position after `n` frames with the same keys held. */
  function Hold(p: Position, keys: Keys, c: real, s: real, n: nat): Position
  {
    if n == 0 then p else Next(Hold(p, keys, c, s, n - 1), keys, c, s)
  }

  /** The scene's camera; its position is updated in place once per frame. */
  class Camera {
    var x: real
    var y: real
    var z: real

    /** The camera starts at the home pose. */
    constructor ()
      ensures Pos() == Home
    {
      x, y, z := ZoomX, ZoomY, ZoomZ;
    }

    function Pos(): Position
      reads this
    {
      Position(x, y, z)
    }

    /** `updateKeyboard()`: reads the position, then at most one branch of
        left, right, down, up writes it. Looking at the origin afterwards is
        not modelled. */
    method Step(left: bool, right: bool, down: bool, up: bool, c: real, s: real)
      modifies this
      ensures Pos() == Next(old(Pos()), Keys(left, right, down, up), c, s)
    {
      var x, y, z := this.x, this.y, this.z;
      ghost var p := Position(x, y, z);
      if left {
        this.x := x * c - z * s;
        this.z := z * c + x * s;
        assert Pos() == YawLeft(p, c, s);
      } else if right {
        this.x := x * c + z * s;
        this.z := z * c - x * s;
        assert Pos() == YawRight(p, c, s);
      } else if down {
        if this.y > MinHeight {
          this.y := y * c - z * s;
          this.z := z * c + y * s;
          assert Pos() == PitchDown(p, c, s);
        }
      } else if up {
        if this.y < ZoomY - UpMargin {
          if this.y < SnapHeight {
            this.x := ZoomX;
            this.y := ZoomY;
            this.z := ZoomZ;
          } else {
            this.y := y * c + z * s;
            this.z := z * c - y * s;
            assert Pos() == PitchUp(p, c, s);
          }
        }
      }
    }
  }

  /** The floor grid that `initScene` builds with the shared grid loop. */
  method InitFloorGrid() returns (stage: LinePieces)
    ensures stage.color == White
    ensures stage.vertices == Grid.GridVertices(GridLines, GridStep)
    ensures |stage.vertices| == 84
    ensures forall v :: v in stage.vertices ==> Grid.OnFloor(v, GridLines)
  {
    var floorGrid := new Geometry();
    Grid.AppendGrid(floorGrid, GridLines, GridStep);
    Grid.GridVerticesCount(GridLines, GridStep);
    stage := LinePieces(floorGrid.vertices, White);
  }

  /** Precedence: left beats every other key, right beats down and up, and
      down beats up; a lower key held with a higher one has no effect. */
  lemma KeyPrecedence(p: Position, keys: Keys, c: real, s: real)
    ensures keys.left ==> Next(p, keys, c, s) == Next(p, LeftKey, c, s)
    ensures !keys.left && keys.right ==> Next(p, keys, c, s) == Next(p, RightKey, c, s)
    ensures !keys.left && !keys.right && keys.down ==> Next(p, keys, c, s) == Next(p, DownKey, c, s)
    ensures !keys.left && !keys.right && !keys.down && keys.up ==> Next(p, keys, c, s) == Next(p, UpKey, c, s)
  {
  }

  /** With no direction key held the camera stays where it is. */
  lemma NoKeyNoMove(p: Position, c: real, s: real)
    ensures Next(p, NoKey, c, s) == p
  {
  }

  /** Left and right move only x and z; the height is unchanged. */
  lemma YawKeepsHeight(p: Position, c: real, s: real)
    ensures Next(p, LeftKey, c, s).y == p.y
    ensures Next(p, RightKey, c, s).y == p.y
  {
  }

  /** Left and right keep the camera's distance from the vertical axis. */
  lemma YawKeepsRadius(p: Position, c: real, s: real)
    requires c * c + s * s == 1.0
    ensures var q := Next(p, LeftKey, c, s); q.x * q.x + q.z * q.z == p.x * p.x + p.z * p.z
    ensures var q := Next(p, RightKey, c, s); q.x * q.x + q.z * q.z == p.x * p.x + p.z * p.z
  {
  }

  /** Rotating (a, b) one way and then back restores it when c * c + s * s == 1. */
  lemma RotateBack(a: real, b: real, c: real, s: real)
    requires c * c + s * s == 1.0
    ensures (a * c - b * s) * c + (b * c + a * s) * s == a
    ensures (b * c + a * s) * c - (a * c - b * s) * s == b
    ensures (a * c + b * s) * c - (b * c - a * s) * s == a
    ensures (b * c - a * s) * c + (a * c + b * s) * s == b
  {
    assert (a * c - b * s) * c + (b * c + a * s) * s == a * (c * c + s * s);
    assert (b * c + a * s) * c - (a * c - b * s) * s == b * (c * c + s * s);
    assert (a * c + b * s) * c - (b * c - a * s) * s == a * (c * c + s * s);
    assert (b * c - a * s) * c + (a * c + b * s) * s == b * (c * c + s * s);
  }

  /** A left step and a right step undo each other, in either order. */
  lemma LeftRightInverse(p: Position, c: real, s: real)
    requires c * c + s * s == 1.0
    ensures Next(Next(p, LeftKey, c, s), RightKey, c, s) == p
    ensures Next(Next(p, RightKey, c, s), LeftKey, c, s) == p
  {
    RotateBack(p.x, p.z, c, s);
  }

  /** Down does nothing at or below MinHeight; above it, x is unchanged and
      (y, z) is rotated. */
  lemma DownGuard(p: Position, c: real, s: real)
    ensures p.y <= MinHeight ==> Next(p, DownKey, c, s) == p
    ensures p.y > MinHeight ==>
              var q := Next(p, DownKey, c, s);
              q.x == p.x && q.y == p.y * c - p.z * s && q.z == p.z * c + p.y * s
  {
  }

  /** Up does nothing once the camera is within UpMargin of the home height. */
  lemma UpAtTopNoMove(p: Position, c: real, s: real)
    requires p.y >= ZoomY - UpMargin
    ensures Next(p, UpKey, c, s) == p
  {
  }

  /** Up from below SnapHeight jumps to (0, 50, 0), whatever x and z were. */
  lemma UpSnapsHome(p: Position, c: real, s: real)
    requires p.y < SnapHeight
    ensures Next(p, UpKey, c, s) == Position(0.0, 50.0, 0.0)
  {
  }

  /** Between SnapHeight and the top, up keeps x and rotates (y, z) back. */
  lemma UpRotates(p: Position, c: real, s: real)
    requires SnapHeight <= p.y < ZoomY - UpMargin
    ensures var q := Next(p, UpKey, c, s);
      q.x == p.x && q.y == p.y * c + p.z * s && q.z == p.z * c - p.y * s
  {
  }

  /** Up undoes a down step whenever the guards let both rotate. */
  lemma UpUndoesDown(p: Position, c: real, s: real)
    requires c * c + s * s == 1.0
    requires p.y > MinHeight
    requires SnapHeight <= Next(p, DownKey, c, s).y < ZoomY - UpMargin
    ensures Next(Next(p, DownKey, c, s), UpKey, c, s) == p
  {
    RotateBack(p.y, p.z, c, s);
  }

  /** The cosine and sine of 2 * atan(1/100), about 0.019999 radians: a
      rotation with rational cosine and sine close to the script's 0.02
      radians per frame. */
  const NearC: real := 9999.0 / 10001.0
  const NearS: real := 200.0 / 10001.0

  /** The square of the camera's distance from the origin. */
  function Radius2(p: Position): real
  {
    p.x * p.x + p.y * p.y + p.z * p.z
  }

  /** The down guard does not clamp: on the sphere of radius 50, a step of
      about 0.02 radians from just above MinHeight ends below it. */
  lemma DownCanUndershootFloor()
    ensures NearC * NearC + NearS * NearS == 1.0
    ensures var p := Position(10.0 / 7.0, 36.0 / 7.0, 348.0 / 7.0);
      && Radius2(p) == 2500.0
      && p.y > MinHeight
      && Next(p, DownKey, NearC, NearS).y < MinHeight
  {
  }

  /** One up press does not always raise the camera: with z < 0 it can lower it. */
  lemma UpCanLower()
    ensures NearC * NearC + NearS * NearS == 1.0
    ensures var p := Position(0.0, 30.0, -40.0);
      && Radius2(p) == 2500.0
      && SnapHeight <= p.y < ZoomY - UpMargin
      && Next(p, UpKey, NearC, NearS).y < p.y
  {
  }

  /** Down and up rotations keep x and the distance from the x axis. */
  lemma PitchKeepsRadius(p: Position, c: real, s: real)
    requires c * c + s * s == 1.0
    ensures var q := PitchDown(p, c, s); q.x == p.x && q.y * q.y + q.z * q.z == p.y * p.y + p.z * p.z
    ensures var q := PitchUp(p, c, s); q.x == p.x && q.y * q.y + q.z * q.z == p.y * p.y + p.z * p.z
  {
  }

  /** A move that keeps x and the distance from the x axis keeps Radius2. */
  lemma RadiusFromPitch(q: Position, p: Position)
    requires q.x == p.x && q.y * q.y + q.z * q.z == p.y * p.y + p.z * p.z
    ensures Radius2(q) == Radius2(p)
  {
  }

  /** A move that keeps y and the distance from the y axis keeps Radius2. */
  lemma RadiusFromYaw(q: Position, p: Position)
    requires q.y == p.y && q.x * q.x + q.z * q.z == p.x * p.x + p.z * p.z
    ensures Radius2(q) == Radius2(p)
  {
  }

  /** Each of the four rotations keeps the distance from the origin. */
  lemma RotationsKeepRadius(p: Position, c: real, s: real)
    requires c * c + s * s == 1.0
    ensures Radius2(YawLeft(p, c, s)) == Radius2(p)
    ensures Radius2(YawRight(p, c, s)) == Radius2(p)
    ensures Radius2(PitchDown(p, c, s)) == Radius2(p)
    ensures Radius2(PitchUp(p, c, s)) == Radius2(p)
  {
    YawKeepsRadius(p, c, s);
    RadiusFromYaw(YawLeft(p, c, s), p);
    RadiusFromYaw(YawRight(p, c, s), p);
    PitchKeepsRadius(p, c, s);
    RadiusFromPitch(PitchDown(p, c, s), p);
    RadiusFromPitch(PitchUp(p, c, s), p);
  }

  /** Between SnapHeight and the top, up lowers the camera exactly when
      z * s < y * (1 - c). */
  lemma UpLowersIff(p: Position, c: real, s: real)
    requires SnapHeight <= p.y < ZoomY - UpMargin
    ensures Next(p, UpKey, c, s).y < p.y <==> p.z * s < p.y * (1.0 - c)
  {
  }

  /** For any rotation angle strictly between 0 and 180 degrees (sine above 0,
      cosine below 1), up between SnapHeight and the top lowers the camera
      whenever z <= 0. */
  lemma UpLowersWhenZNotPositive(p: Position, c: real, s: real)
    requires 0.0 < s && c < 1.0
    requires SnapHeight <= p.y < ZoomY - UpMargin
    requires p.z <= 0.0
    ensures Next(p, UpKey, c, s).y < p.y
  {
    assert p.z * s <= 0.0;
    assert p.y * (1.0 - c) > 0.0;
    UpLowersIff(p, c, s);
  }

  /** Every frame keeps the distance from the origin, except the snap of up,
      which lands on the home pose. */
  lemma StepKeepsRadiusOrSnaps(p: Position, keys: Keys, c: real, s: real)
    requires c * c + s * s == 1.0
    ensures var q := Next(p, keys, c, s); q == Home || Radius2(q) == Radius2(p)
  {
    RotationsKeepRadius(p, c, s);
  }

  /** The position after a run of frames, `ks[i]` being the keys held in
      frame i. */
  function Run(p: Position, ks: seq<Keys>, c: real, s: real): Position
    decreases |ks|
  {
    if ks == [] then p else Run(Next(p, ks[0], c, s), ks[1..], c, s)
  }

  /** On the sphere of radius 50, any run of frames, with any keys held in
      each, stays on that sphere. */
  lemma {:induction false} RunOnSphere(p: Position, ks: seq<Keys>, c: real, s: real)
    requires c * c + s * s == 1.0
    requires Radius2(p) == 2500.0
    ensures Radius2(Run(p, ks, c, s)) == 2500.0
    decreases |ks|
  {
    if ks != [] {
      StepKeepsRadiusOrSnaps(p, ks[0], c, s);
      RunOnSphere(Next(p, ks[0], c, s), ks[1..], c, s);
    }
  }

  /** On the sphere of radius 50 the height never exceeds ZoomY. */
  lemma OnSphereBelowTop(p: Position)
    requires Radius2(p) == 2500.0
    ensures p.y <= ZoomY
  {
    if p.y > ZoomY {
      assert false;
    }
  }

  /** From the start pose, whatever keys are pressed frame after frame, the
      camera stays 50 from the origin and never rises above the home height. */
  lemma RunFromHomeBelowTop(ks: seq<Keys>, c: real, s: real)
    requires c * c + s * s == 1.0
    ensures Radius2(Run(Home, ks, c, s)) == 2500.0
    ensures Run(Home, ks, c, s).y <= ZoomY
  {
    RunOnSphere(Home, ks, c, s);
    OnSphereBelowTop(Run(Home, ks, c, s));
  }

  /** Holding left for any number of frames keeps the distance from the axis. */
  lemma {:induction false} HoldLeftKeepsRadius(p: Position, c: real, s: real, n: nat)
    requires c * c + s * s == 1.0
    ensures var q := Hold(p, LeftKey, c, s, n);
      q.x * q.x + q.z * q.z == p.x * p.x + p.z * p.z && q.y == p.y
  {
    if n > 0 {
      var before := Hold(p, LeftKey, c, s, n - 1);
      var after := Hold(p, LeftKey, c, s, n);
      HoldLeftKeepsRadius(p, c, s, n - 1);
      YawKeepsRadius(before, c, s);
      assert after == Next(before, LeftKey, c, s);
      assert after.x * after.x + after.z * after.z == before.x * before.x + before.z * before.z;
    }
  }

  /** The first of n + 1 frames can be taken before the other n. */
  lemma {:induction false} HoldFirstFrame(p: Position, keys: Keys, c: real, s: real, n: nat)
    ensures Hold(p, keys, c, s, n + 1) == Hold(Next(p, keys, c, s), keys, c, s, n)
  {
    if n > 0 {
      HoldFirstFrame(p, keys, c, s, n - 1);
    }
  }

  /** Holding left for n frames and then right for n frames returns the
      camera to where it started. */
  lemma {:induction false} HoldLeftThenRight(p: Position, c: real, s: real, n: nat)
    requires c * c + s * s == 1.0
    ensures Hold(Hold(p, LeftKey, c, s, n), RightKey, c, s, n) == p
  {
    if n > 0 {
      var q := Hold(p, LeftKey, c, s, n - 1);
      calc {
        Hold(Hold(p, LeftKey, c, s, n), RightKey, c, s, n);
        Hold(Next(q, LeftKey, c, s), RightKey, c, s, n);
        { HoldFirstFrame(Next(q, LeftKey, c, s), RightKey, c, s, n - 1); }
        Hold(Next(Next(q, LeftKey, c, s), RightKey, c, s), RightKey, c, s, n - 1);
        { LeftRightInverse(q, c, s); }
        Hold(q, RightKey, c, s, n - 1);
        { HoldLeftThenRight(p, c, s, n - 1); }
        p;
      }
    }
  }

  /** Holding right for n frames and then left for n frames returns the
      camera to where it started. */
  lemma {:induction false} HoldRightThenLeft(p: Position, c: real, s: real, n: nat)
    requires c * c + s * s == 1.0
    ensures Hold(Hold(p, RightKey, c, s, n), LeftKey, c, s, n) == p
  {
    if n > 0 {
      var q := Hold(p, RightKey, c, s, n - 1);
      calc {
        Hold(Hold(p, RightKey, c, s, n), LeftKey, c, s, n);
        Hold(Next(q, RightKey, c, s), LeftKey, c, s, n);
        { HoldFirstFrame(Next(q, RightKey, c, s), LeftKey, c, s, n - 1); }
        Hold(Next(Next(q, RightKey, c, s), LeftKey, c, s), LeftKey, c, s, n - 1);
        { LeftRightInverse(q, c, s); }
        Hold(q, LeftKey, c, s, n - 1);
        { HoldRightThenLeft(p, c, s, n - 1); }
        p;
      }
    }
  }

  /** Holding down at or below MinHeight never moves the camera. */
  lemma {:induction false} HoldDownBelowFloor(p: Position, c: real, s: real, n: nat)
    requires p.y <= MinHeight
    ensures Hold(p, DownKey, c, s, n) == p
  {
    if n > 0 {
      HoldDownBelowFloor(p, c, s, n - 1);
    }
  }
}
