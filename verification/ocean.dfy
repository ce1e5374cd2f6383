/**
 * The stylised ocean (src/components/3d/StylizedOcean.tsx): a 100 x 100 plane with
 * 50 x 50 segments whose vertex buffer has its z components rewritten every frame
 * from a frozen copy of the original positions plus three sine waves.
 */
module StylizedOcean {
  import opened Trig

  /** Vertices of a plane with 50 x 50 segments: 51 rows of 51. */
  const VERTICES: nat := 51 * 51

  /** Largest total wave height: 0.5 + 0.2 + 0.2. */
  const AMPLITUDE: real := 0.9

  /** The phases of the three waves. */
  function Phase1(x: real, time: real): real { x * 0.2 + time * 1.5 }
  function Phase2(y: real, time: real): real { y * 0.1 + time * 0.5 }
  function Phase3(x: real, y: real, time: real): real { (x + y) * 0.15 + time }

  /** The sum of the three waves at plane point (x, y); it never exceeds 0.9 in size. */
  function Wave(x: real, y: real, time: real, m: MathLib): (w: real)
    ensures m.Valid() ==> -AMPLITUDE <= w <= AMPLITUDE
  {
    0.5 * m.sin(Phase1(x, time)) + 0.2 * m.sin(Phase2(y, time)) + 0.2 * m.sin(Phase3(x, y, time))
  }

  /** Slot `k` of a flat xyz buffer holds a z component. */
  predicate IsZ(k: int) { k % 3 == 2 }

  /**
   * The buffer one frame writes, given the original positions and the clock: x and y
   * components are the originals, each z component is its original plus the wave.
   */
  function Displaced(original: seq<real>, time: real, m: MathLib): (r: seq<real>)
    requires |original| % 3 == 0
    ensures |r| == |original|
    ensures forall k :: 0 <= k < |r| && !IsZ(k) ==> r[k] == original[k]
    ensures m.Valid() ==> forall k :: 0 <= k < |r| && IsZ(k) ==> -AMPLITUDE <= r[k] - original[k] <= AMPLITUDE
  {
    seq(|original|, k requires 0 <= k < |original| => DisplacedAt(original, k, time, m))
  }

  /** Slot `k` of the displaced buffer: a z slot gets the wave at its vertex's x and y. */
  function DisplacedAt(original: seq<real>, k: nat, time: real, m: MathLib): (v: real)
    requires k < |original|
    ensures !IsZ(k) ==> v == original[k]
    ensures m.Valid() && IsZ(k) ==> -AMPLITUDE <= v - original[k] <= AMPLITUDE
  {
    if IsZ(k) then original[k] + Wave(original[k - 2], original[k - 1], time, m) else original[k]
  }

  /** The ocean mesh's position buffer, its frozen original copy and the upload flag. */
  class Ocean {
    /** The `originalPositions` snapshot taken once when the geometry is made. */
    const original: seq<real>
    /** The geometry's live position buffer. */
    const positions: array<real>
    var needsUpdate: bool

    /** Whole vertices; x and y never move; z stays within the wave amplitude of the original. */
    ghost predicate Valid()
      reads this, positions
    {
      && positions.Length == |original|
      && |original| % 3 == 0
      && (forall k :: 0 <= k < |original| && !IsZ(k) ==> positions[k] == original[k])
      && (forall k :: 0 <= k < |original| && IsZ(k) ==> -AMPLITUDE <= positions[k] - original[k] <= AMPLITUDE)
    }

    /** Takes the plane's buffer and copies it into the snapshot. */
    constructor (geometry: array<real>)
      requires geometry.Length == 3 * VERTICES
      ensures Valid() && positions == geometry && original == geometry[..] && !needsUpdate
    {
      positions := geometry;
      original := geometry[..];
      needsUpdate := false;
    }

    /**
     * One `useFrame` callback: without a mounted mesh nothing changes; otherwise the
     * buffer becomes `Displaced(original, time)`, whatever it held before, and is
     * flagged for upload.
     */
    method Frame(mounted: bool, time: real, m: MathLib)
      requires Valid() && m.Valid()
      modifies this, positions
      ensures Valid()
      ensures !mounted ==> unchanged(this, positions)
      ensures mounted ==> positions[..] == Displaced(original, time, m) && needsUpdate
    {
      if !mounted {
        return;
      }
      WriteHeights(original, positions, time, m);
      needsUpdate := true;
    }
  }

  /** A vertex starting at slot `i` is whole: x, y, then the z slot that gets the wave. */
  lemma VertexStep(original: seq<real>, i: nat, time: real, m: MathLib)
    requires |original| % 3 == 0 && i % 3 == 0 && i < |original|
    ensures i + 3 <= |original| && (i + 3) % 3 == 0
    ensures !IsZ(i) && !IsZ(i + 1) && IsZ(i + 2)
    ensures Displaced(original, time, m)[i + 2] == original[i + 2] + Wave(original[i], original[i + 1], time, m)
  {
  }

  /**
   * Progress of the displacement loop over a buffer: every slot before `i` holds its
   * target value, and every later x or y slot already does.
   */
  ghost predicate WrittenUpTo(buf: seq<real>, target: seq<real>, i: nat)
  {
    && |buf| == |target| && i <= |buf|
    && (forall k :: 0 <= k < i ==> buf[k] == target[k])
    && (forall k :: i <= k < |buf| && !IsZ(k) ==> buf[k] == target[k])
  }

  /** Writing the z slot of the vertex at `i` moves the loop's progress one vertex on. */
  lemma WriteVertex(original: seq<real>, buf: seq<real>, i: nat, time: real, m: MathLib)
    requires |original| % 3 == 0 && i % 3 == 0 && i < |original|
    requires WrittenUpTo(buf, Displaced(original, time, m), i)
    ensures i + 3 <= |original|
    ensures WrittenUpTo(buf[i + 2 := original[i + 2] + Wave(original[i], original[i + 1], time, m)],
                        Displaced(original, time, m), i + 3)
  {
    VertexStep(original, i, time, m);
  }

  /** The displacement loop: steps through whole vertices, writing only z slots. */
  method WriteHeights(original: seq<real>, positions: array<real>, time: real, m: MathLib)
    requires positions.Length == |original| && |original| % 3 == 0
    requires forall k :: 0 <= k < |original| && !IsZ(k) ==> positions[k] == original[k]
    modifies positions
    ensures positions[..] == Displaced(original, time, m)
  {
    ghost var target := Displaced(original, time, m);
    var i := 0;
    while i < positions.Length
      invariant 0 <= i <= positions.Length && i % 3 == 0
      invariant WrittenUpTo(positions[..], target, i)
    {
      WriteVertex(original, positions[..], i, time, m);
      positions[i + 2] := original[i + 2] + Wave(original[i], original[i + 1], time, m);
      i := i + 3;
    }
    assert positions[..] == target;
  }
}
