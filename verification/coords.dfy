/** Vectors and colours as the exporter writes them: the host is Z-up, the
    viewer Y-up, so every position, rotation and target is remapped from
    (x, y, z) to (x, z, -y) and rounded to four decimals; colours keep their
    first three channels, rounded the same way. */
module Coords {
  import opened Rounding

  /** A host vector (location, Euler rotation, target location). */
  datatype Vec3 = Vec3(x: real, y: real, z: real)

  function Add(a: Vec3, b: Vec3): Vec3 {
    Vec3(a.x + b.x, a.y + b.y, a.z + b.z)
  }

  /** `safe_transform(vec)`: the three-element list `[x, z, -y]`, rounded. */
  function Transform(v: Vec3): (r: seq<real>)
    ensures |r| == 3
  {
    [Round4(v.x), Round4(v.z), Round4(-v.y)]
  }

  /** The inverse axis remap, from the viewer's Y-up list back to the
      host's Z-up vector. */
  function Unmap(r: seq<real>): Vec3
    requires |r| == 3
  {
    Vec3(r[0], -r[2], r[1])
  }

  /** A vector each of whose components has at most four decimals. */
  predicate VecOnGrid(v: Vec3) {
    OnGrid(v.x) && OnGrid(v.y) && OnGrid(v.z)
  }

  /** The remapped list is the host's x, then z, then the negated rounded
      y: the last entry is the same whether the sign flips before or after
      rounding. */
  lemma TransformAxes(v: Vec3)
    ensures Transform(v) == [Round4(v.x), Round4(v.z), -Round4(v.y)]
  {
    Round4Neg(v.y);
  }

  /** Every entry of the remapped list is already rounded, and undoing the
      remap recovers the host vector up to rounding: exactly, when the
      vector already had at most four decimals. */
  lemma TransformRoundTrip(v: Vec3)
    ensures forall i :: 0 <= i < 3 ==> OnGrid(Transform(v)[i])
    ensures Unmap(Transform(v)) == Vec3(Round4(v.x), Round4(v.y), Round4(v.z))
    ensures VecOnGrid(v) ==> Unmap(Transform(v)) == v
  {
    Round4Neg(v.y);
    if VecOnGrid(v) {
      Round4OnGrid(v.x);
      Round4OnGrid(v.y);
      Round4OnGrid(v.z);
    }
  }

  /** `color_to_list(c)`: the first three channels (fewer when the colour
      has fewer), each rounded to four decimals; alpha is dropped. */
  function ColorToList(c: seq<real>): (r: seq<real>)
    ensures |r| == if |c| < 3 then |c| else 3
    ensures forall i :: 0 <= i < |r| ==> r[i] == Round4(c[i])
  {
    var rgb := if |c| < 3 then c else c[..3];
    seq(|rgb|, i requires 0 <= i < |rgb| => Round4(rgb[i]))
  }

  /** Whatever follows the third channel has no effect on the list. */
  lemma ColorDropsAlpha(rgb: seq<real>, rest: seq<real>)
    requires |rgb| == 3
    ensures ColorToList(rgb + rest) == ColorToList(rgb)
  {
    var a, b := ColorToList(rgb + rest), ColorToList(rgb);
    assert forall i :: 0 <= i < 3 ==> a[i] == b[i];
  }

  /** A converted colour converts to itself. */
  lemma ColorToListIdempotent(c: seq<real>)
    ensures ColorToList(ColorToList(c)) == ColorToList(c)
  {
    var once := ColorToList(c);
    var twice := ColorToList(once);
    forall i | 0 <= i < |once|
      ensures twice[i] == once[i]
    {
      Round4Idempotent(c[i]);
    }
  }

  /** The host's downward unit vector is the viewer's (0, -1, 0). */
  lemma TransformDown()
    ensures Transform(Vec3(0.0, 0.0, -1.0)) == [0.0, -1.0, 0.0]
  {
    RoundHalfEvenOfInt(0);
    RoundHalfEvenOfInt(-10000);
    RoundHalfEvenOfInt(10000);
    assert 0.0 * Scale == 0.0 && -1.0 * Scale == -10000.0 && -(-1.0) * Scale == 10000.0;
  }

  /** The colour (0.12345, 0.6, 1.0, 0.0), given as the exact values of
      the doubles nearest those decimals, converts to [0.1235, 0.6, 1.0]:
      alpha is dropped, and the double nearest 0.12345 lies just above the
      tie, so it rounds up. */
  lemma ColorExample()
    ensures ColorToList([
      0.123450000000000004174438572590588591992855072021484375,
      0.59999999999999997779553950749686919152736663818359375,
      1.0,
      0.0]) == [0.1235, 0.6, 1.0]
  {
    var c := [
      0.123450000000000004174438572590588591992855072021484375,
      0.59999999999999997779553950749686919152736663818359375,
      1.0,
      0.0];
    assert (c[0] * Scale).Floor == 1234;
    assert (c[1] * Scale).Floor == 5999;
    RoundHalfEvenOfInt(10000);
    assert ColorToList(c)[0] == 0.1235;
    assert ColorToList(c)[1] == 0.6;
    assert ColorToList(c)[2] == 1.0;
  }
}
