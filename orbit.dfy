/** The orbit-guide generators: `segments + 1` samples of a circle of the given
    radius at angles `2 pi i / segments`, appended as flat `(x, y, z)` triples to a
    caller-owned vector. */
module OrbitPaths {
  import opened FloatModel
  import opened Vectors

  /** Which two axes carry `radius * cos(angle)` and `radius * sin(angle)`. */
  datatype Plane = XZ | YZ

  /** `2.0f * M_PI * i / segments`: from 0 at the first sample to `2 pi` at sample
      `segments`. */
  function OrbitAngle(m: Trig, segments: int, i: nat): (r: real)
    ensures segments != 0 && i == 0 ==> r == 0.0
    ensures segments > 0 && i == segments ==> r == 2.0 * m.pi
  {
    Div(m, Mul(2.0 * m.pi, i as real), segments as real)
  }

  /** Sample `i` of the orbit in `plane`. */
  function OrbitPoint(m: Trig, plane: Plane, radius: real, segments: int, i: nat): (p: seq<real>)
    ensures |p| == 3
  {
    var c := Mul(radius, Cos(m, OrbitAngle(m, segments, i)));
    var s := Mul(radius, Sin(m, OrbitAngle(m, segments, i)));
    match plane
    case XZ => [c, 0.0, s]
    case YZ => [0.0, c, s]
  }

  /** The flattened coordinates of the first `n` samples. */
  function OrbitPrefix(m: Trig, plane: Plane, radius: real, segments: int, n: nat): seq<real>
  {
    if n == 0 then []
    else OrbitPrefix(m, plane, radius, segments, n - 1) + OrbitPoint(m, plane, radius, segments, n - 1)
  }

  /** What a generator appends: samples `0 ..= segments`, `3 * (segments + 1)` floats,
      and none when `segments` is negative. */
  function OrbitPath(m: Trig, plane: Plane, radius: real, segments: int): (r: seq<real>)
    ensures |r| == if segments >= 0 then 3 * (segments + 1) else 0
  {
    if segments < 0 then []
    else
      OrbitPrefixLength(m, plane, radius, segments, segments + 1);
      OrbitPrefix(m, plane, radius, segments, segments + 1)
  }

  // ---------------------------------------------------------------------------
  // Properties of the path
  // ---------------------------------------------------------------------------

  lemma {:induction false} OrbitPrefixLength(m: Trig, plane: Plane, radius: real, segments: int, n: nat)
    ensures |OrbitPrefix(m, plane, radius, segments, n)| == 3 * n
  {
    if n > 0 {
      OrbitPrefixLength(m, plane, radius, segments, n - 1);
    }
  }

  lemma {:induction false} OrbitPrefixAt(m: Trig, plane: Plane, radius: real, segments: int, n: nat, i: nat, c: nat)
    requires i < n && c < 3
    ensures 3 * i + c < |OrbitPrefix(m, plane, radius, segments, n)|
    ensures OrbitPrefix(m, plane, radius, segments, n)[3 * i + c] == OrbitPoint(m, plane, radius, segments, i)[c]
  {
    OrbitPrefixLength(m, plane, radius, segments, n - 1);
    if i < n - 1 {
      OrbitPrefixAt(m, plane, radius, segments, n - 1, i, c);
    }
  }

  /** Sample `i`, for each `i` in `0 ..= segments`, sits at position `3 * i`, in order. */
  lemma OrbitPathAt(m: Trig, plane: Plane, radius: real, segments: int, i: nat, c: nat)
    requires i <= segments && c < 3
    ensures 3 * i + c < |OrbitPath(m, plane, radius, segments)|
    ensures OrbitPath(m, plane, radius, segments)[3 * i + c] == OrbitPoint(m, plane, radius, segments, i)[c]
  {
    OrbitPrefixAt(m, plane, radius, segments, segments + 1, i, c);
  }

  /** The orbit lies in its plane: the XZ orbit's Y coordinates and the YZ orbit's
      X coordinates are all `0.0`. */
  lemma OrbitPathPlanar(m: Trig, plane: Plane, radius: real, segments: int)
    ensures var p := OrbitPath(m, plane, radius, segments);
      forall k :: 0 <= k < |p| && k % 3 == (if plane == XZ then 1 else 0) ==> p[k] == 0.0
  {
    var p := OrbitPath(m, plane, radius, segments);
    forall k | 0 <= k < |p| && k % 3 == (if plane == XZ then 1 else 0)
      ensures p[k] == 0.0
    {
      var i: nat, c: nat := k / 3, k % 3;
      assert k == 3 * i + c && i <= segments;
      OrbitPathAt(m, plane, radius, segments, i, c);
    }
  }

  /** The YZ orbit is the XZ orbit with its X coordinates moved to Y. */
  lemma OrbitYZFromXZ(m: Trig, radius: real, segments: int)
    ensures var xz, yz := OrbitPath(m, XZ, radius, segments), OrbitPath(m, YZ, radius, segments);
      |yz| == |xz| &&
      forall i: nat :: 3 * i + 2 < |xz| ==>
        yz[3 * i] == 0.0 && yz[3 * i + 1] == xz[3 * i] && yz[3 * i + 2] == xz[3 * i + 2]
  {
    var xz, yz := OrbitPath(m, XZ, radius, segments), OrbitPath(m, YZ, radius, segments);
    forall i: nat | 3 * i + 2 < |xz|
      ensures yz[3 * i] == 0.0 && yz[3 * i + 1] == xz[3 * i] && yz[3 * i + 2] == xz[3 * i + 2]
    {
      OrbitPathAt(m, XZ, radius, segments, i, 0);
      OrbitPathAt(m, XZ, radius, segments, i, 2);
      OrbitPathAt(m, YZ, radius, segments, i, 0);
      OrbitPathAt(m, YZ, radius, segments, i, 1);
      OrbitPathAt(m, YZ, radius, segments, i, 2);
    }
  }

  /** When `cos^2 + sin^2 == 1` at the sample's angle, sample `i` is at distance
      `radius` from the centre. */
  lemma OrbitOnCircle(m: Trig, plane: Plane, radius: real, segments: int, i: nat)
    requires var a := OrbitAngle(m, segments, i); Cos(m, a) * Cos(m, a) + Sin(m, a) * Sin(m, a) == 1.0
    ensures var p := OrbitPoint(m, plane, radius, segments, i);
      p[0] * p[0] + p[1] * p[1] + p[2] * p[2] == radius * radius
  {
    var c := Cos(m, OrbitAngle(m, segments, i));
    var s := Sin(m, OrbitAngle(m, segments, i));
    calc {
      (radius * c) * (radius * c) + (radius * s) * (radius * s);
      radius * radius * (c * c + s * s);
      radius * radius;
    }
  }

  /** The first sample is at angle 0 and the last at angle `2 pi`, so when `cos` and
      `sin` take the same values there the polyline closes on itself. */
  lemma OrbitClosed(m: Trig, plane: Plane, radius: real, segments: nat)
    requires segments > 0
    requires Cos(m, 2.0 * m.pi) == Cos(m, 0.0) && Sin(m, 2.0 * m.pi) == Sin(m, 0.0)
    ensures OrbitAngle(m, segments, 0) == 0.0 && OrbitAngle(m, segments, segments) == 2.0 * m.pi
    ensures OrbitPoint(m, plane, radius, segments, segments) == OrbitPoint(m, plane, radius, segments, 0)
  {
    assert Mul(2.0 * m.pi, segments as real) / (segments as real) == 2.0 * m.pi;
  }

  // ---------------------------------------------------------------------------
  // The generators
  // ---------------------------------------------------------------------------

  /** `generateOrbitXZ(orbitVertices, radius, segments = 100)`. */
  method GenerateOrbitXZ(orbitVertices: Vector<real>, m: Trig, radius: real, segments: int := 100)
    modifies orbitVertices
    ensures orbitVertices.elems == old(orbitVertices.elems) + OrbitPath(m, XZ, radius, segments)
    ensures |orbitVertices.elems| == |old(orbitVertices.elems)| + if segments >= 0 then 3 * (segments + 1) else 0
  {
    var i := 0;
    while i <= segments
      invariant 0 <= i && (segments >= 0 ==> i <= segments + 1) && (segments < 0 ==> i == 0)
      invariant orbitVertices.elems == old(orbitVertices.elems) + OrbitPrefix(m, XZ, radius, segments, i)
    {
      var angle := Div(m, Mul(2.0 * m.pi, i as real), segments as real);
      PushThree(orbitVertices, Mul(radius, Cos(m, angle)), 0.0, Mul(radius, Sin(m, angle)));
      AppendAssoc(old(orbitVertices.elems), OrbitPrefix(m, XZ, radius, segments, i), OrbitPoint(m, XZ, radius, segments, i));
      i := i + 1;
    }
  }

  /** `generateOrbitYZ(orbitVertices, radius, segments = 100)`. */
  method GenerateOrbitYZ(orbitVertices: Vector<real>, m: Trig, radius: real, segments: int := 100)
    modifies orbitVertices
    ensures orbitVertices.elems == old(orbitVertices.elems) + OrbitPath(m, YZ, radius, segments)
    ensures |orbitVertices.elems| == |old(orbitVertices.elems)| + if segments >= 0 then 3 * (segments + 1) else 0
  {
    var i := 0;
    while i <= segments
      invariant 0 <= i && (segments >= 0 ==> i <= segments + 1) && (segments < 0 ==> i == 0)
      invariant orbitVertices.elems == old(orbitVertices.elems) + OrbitPrefix(m, YZ, radius, segments, i)
    {
      var angle := Div(m, Mul(2.0 * m.pi, i as real), segments as real);
      PushThree(orbitVertices, 0.0, Mul(radius, Cos(m, angle)), Mul(radius, Sin(m, angle)));
      AppendAssoc(old(orbitVertices.elems), OrbitPrefix(m, YZ, radius, segments, i), OrbitPoint(m, YZ, radius, segments, i));
      i := i + 1;
    }
  }

  /** `generateOrbitDiagonal(orbitVertices, radius, segments = 100)`: the same floats as
      `generateOrbitXZ`; the tilt is applied by the caller's model matrix. */
  method GenerateOrbitDiagonal(orbitVertices: Vector<real>, m: Trig, radius: real, segments: int := 100)
    modifies orbitVertices
    ensures orbitVertices.elems == old(orbitVertices.elems) + OrbitPath(m, XZ, radius, segments)
    ensures |orbitVertices.elems| == |old(orbitVertices.elems)| + if segments >= 0 then 3 * (segments + 1) else 0
  {
    var i := 0;
    while i <= segments
      invariant 0 <= i && (segments >= 0 ==> i <= segments + 1) && (segments < 0 ==> i == 0)
      invariant orbitVertices.elems == old(orbitVertices.elems) + OrbitPrefix(m, XZ, radius, segments, i)
    {
      var angle := Div(m, Mul(2.0 * m.pi, i as real), segments as real);
      var x := Mul(radius, Cos(m, angle));
      var z := Mul(radius, Sin(m, angle));
      PushThree(orbitVertices, x, 0.0, z);
      AppendAssoc(old(orbitVertices.elems), OrbitPrefix(m, XZ, radius, segments, i), OrbitPoint(m, XZ, radius, segments, i));
      i := i + 1;
    }
  }
}
