/**
 * The floating image (src/components/3d/FloatingImage.tsx): a textured plane that bobs
 * on y, sways about z, and eases its uniform scale toward a hover-dependent target.
 */
module FloatingImage {
  import opened Trig
  import opened Scene
  import Numeric

  /** Bob amplitude on y, sway amplitude about z, and the per-frame easing factor. */
  const BOB: real := 0.2
  const SWAY: real := 0.05
  const LERP_SPEED: real := 0.1
  /** Scale multiplier while the pointer is over the image. */
  const HOVER_SCALE: real := 1.1

  /** The `scale` prop: one number, or one number per axis. */
  datatype ScaleProp = Uniform(s: real) | PerAxis(v: Vec3)

  /** The props the behaviour reads. */
  datatype Props = Props(position: Vec3, scale: ScaleProp, rotation: Vec3, speed: real)

  /** The defaults: at the origin, unit scale, no rotation, speed 1. */
  function DefaultProps(): (p: Props)
    ensures p.position == p.rotation == Vec3(0.0, 0.0, 0.0)
    ensures p.scale == Uniform(1.0) && p.speed == 1.0
  {
    Props(Vec3(0.0, 0.0, 0.0), Uniform(1.0), Vec3(0.0, 0.0, 0.0), 1.0)
  }

  /** The scale the mesh is mounted with: a number is spread over all three axes. */
  function MountScale(scale: ScaleProp): (v: Vec3)
    ensures scale.Uniform? ==> v.x == v.y == v.z == scale.s
    ensures scale.PerAxis? ==> v == scale.v
  {
    match scale
    case Uniform(s) => Vec3(s, s, s)
    case PerAxis(v) => v
  }

  /** The number the hover target multiplies: the uniform scale, or the x scale. */
  function BaseScale(scale: ScaleProp): (b: real)
    ensures b == MountScale(scale).x
  {
    match scale
    case Uniform(s) => s
    case PerAxis(v) => v.x
  }

  /** The scale the image eases toward: 10% larger while hovered. */
  function TargetScale(scale: ScaleProp, hovered: bool): (t: real)
    ensures hovered ==> t == BaseScale(scale) * HOVER_SCALE
    ensures !hovered ==> t == BaseScale(scale)
  {
    BaseScale(scale) * (if hovered then HOVER_SCALE else 1.0)
  }

  /** three.js's `MathUtils.lerp`: `(1 - t) * x + t * y`. */
  function ThreeLerp(x: real, y: real, t: real): (r: real)
    ensures r == Numeric.Lerp(x, y, t)
  {
    assert (1.0 - t) * x == x - t * x;
    (1.0 - t) * x + t * y
  }

  /** One easing step: the distance to the target shrinks to 90% of what it was. */
  function EaseScale(current: real, target: real): (r: real)
    ensures r - target == 0.9 * (current - target)
    ensures current == target ==> r == current
  {
    ThreeLerp(current, target, LERP_SPEED)
  }

  function Pow(b: real, k: nat): real
  {
    if k == 0 then 1.0 else b * Pow(b, k - 1)
  }

  /** The scale after `k` frames with an unchanging target. */
  function EaseFrames(current: real, target: real, k: nat): real
  {
    if k == 0 then current else EaseScale(EaseFrames(current, target, k - 1), target)
  }

  /** After `k` frames the distance to the target is `0.9^k` times the starting distance. */
  lemma {:induction false} EaseFramesDistance(current: real, target: real, k: nat)
    ensures EaseFrames(current, target, k) - target == Pow(0.9, k) * (current - target)
  {
    if k > 0 {
      EaseFramesDistance(current, target, k - 1);
      var p := Pow(0.9, k - 1);
      assert 0.9 * (p * (current - target)) == (0.9 * p) * (current - target);
    }
  }

  lemma {:induction false} PowInUnit(k: nat)
    ensures 0.0 < Pow(0.9, k) <= 1.0
  {
    if k > 0 {
      PowInUnit(k - 1);
    }
  }

  /** The scale never overshoots: it stays on its starting side of the target and never moves away. */
  lemma EaseFramesApproach(current: real, target: real, k: nat)
    ensures current <= target ==> current <= EaseFrames(current, target, k) <= target
    ensures target <= current ==> target <= EaseFrames(current, target, k) <= current
  {
    EaseFramesDistance(current, target, k);
    PowInUnit(k);
    var p, d := Pow(0.9, k), current - target;
    if d <= 0.0 {
      Numeric.NonNegativeProduct(p, -d);
      Numeric.NonNegativeProduct(1.0 - p, -d);
    } else {
      Numeric.NonNegativeProduct(p, d);
      Numeric.NonNegativeProduct(1.0 - p, d);
    }
  }

  /** The y-bob and z-sway phases. */
  function BobPhase(time: real, speed: real, offset: real): real { time * speed + offset }
  function SwayPhase(time: real, offset: real): real { time * 0.5 + offset }

  /** The mesh's transform as three.js holds it. */
  class Object3D {
    var position: Vec3
    var rotation: Vec3
    var scale: Vec3

    /** The `<mesh>` element: the props' position and rotation, and the mount scale. */
    constructor (props: Props)
      ensures position == props.position && rotation == props.rotation
      ensures scale == MountScale(props.scale)
    {
      position := props.position;
      rotation := props.rotation;
      scale := MountScale(props.scale);
    }
  }

  /** The component's own state: its props, random phase offset and hover flag. */
  class Image {
    const props: Props
    /** `Math.random() * 100`, drawn once. */
    const offset: real
    var hovered: bool

    constructor (props: Props, random: real)
      requires 0.0 <= random < 1.0
      ensures this.props == props && offset == random * 100.0 && !hovered
      ensures 0.0 <= offset < 100.0
    {
      this.props := props;
      offset := random * 100.0;
      hovered := false;
    }

    method PointerOver()
      modifies this
      ensures hovered
    {
      hovered := true;
    }

    method PointerOut()
      modifies this
      ensures !hovered
    {
      hovered := false;
    }

    /**
     * One `useFrame` callback. Without a mesh nothing changes. Otherwise y bobs within
     * 0.2 of the prop, the z rotation sways within 0.05 of the prop, the other position
     * and rotation axes keep their values, and all three scale axes take one easing
     * step from the current x scale toward the target.
     */
    method Frame(mesh: Object3D?, time: real, m: MathLib)
      requires m.Valid()
      modifies mesh
      ensures mesh != null ==>
        && mesh.position == old(mesh.position).(y := props.position.y + m.sin(BobPhase(time, props.speed, offset)) * BOB)
        && mesh.rotation == old(mesh.rotation).(z := props.rotation.z + m.sin(SwayPhase(time, offset)) * SWAY)
        && mesh.scale.x == mesh.scale.y == mesh.scale.z == EaseScale(old(mesh.scale.x), TargetScale(props.scale, hovered))
      ensures mesh != null ==> props.position.y - BOB <= mesh.position.y <= props.position.y + BOB
      ensures mesh != null ==> props.rotation.z - SWAY <= mesh.rotation.z <= props.rotation.z + SWAY
    {
      if mesh == null {
        return;
      }
      mesh.position := mesh.position.(y := props.position.y + m.sin(BobPhase(time, props.speed, offset)) * BOB);
      mesh.rotation := mesh.rotation.(z := props.rotation.z + m.sin(SwayPhase(time, offset)) * SWAY);
      var target := TargetScale(props.scale, hovered);
      var current := mesh.scale.x;
      var newScale := EaseScale(current, target);
      mesh.scale := Vec3(newScale, newScale, newScale);
    }
  }
}
