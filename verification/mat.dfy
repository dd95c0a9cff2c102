/** Vector and triangle math of the game (src/mat.rs): `Vec3` arithmetic,
    the Moller-Trumbore ray/triangle test, and meshes decoded from a flat
    vertex stream. f64 is modelled by real; sqrt and trig stay out. */
module Mat {

  datatype Vec3 = Vec3(x: real, y: real, z: real)

  /** A triangle: three vertices and an RGB colour kept as a vector. */
  datatype Tri = Tri(v0: Vec3, v1: Vec3, v2: Vec3, color: Vec3)

  datatype Mesh = Mesh(tris: seq<Tri>)

  const Origin := Vec3(0.0, 0.0, 0.0)

  // ---------------------------------------------------------------------
  // Vec3 operators

  function Add(a: Vec3, b: Vec3): (r: Vec3)
    ensures Sub(r, b) == a
  {
    Vec3(a.x + b.x, a.y + b.y, a.z + b.z)
  }

  function Sub(a: Vec3, b: Vec3): Vec3
  {
    Vec3(a.x - b.x, a.y - b.y, a.z - b.z)
  }

  /** `Vec3 * f64` */
  function Scale(a: Vec3, s: real): Vec3
  {
    Vec3(a.x * s, a.y * s, a.z * s)
  }

  /** `Vec3 / f64` is multiplication by the reciprocal. */
  function Div(a: Vec3, s: real): (r: Vec3)
    requires s != 0.0
    ensures Scale(r, s) == a
  {
    Scale(a, 1.0 / s)
  }

  function Dot(a: Vec3, b: Vec3): real
  {
    a.x * b.x + a.y * b.y + a.z * b.z
  }

  function Cross(a: Vec3, b: Vec3): Vec3
  {
    Vec3(a.y * b.z - a.z * b.y,
         a.z * b.x - a.x * b.z,
         a.x * b.y - a.y * b.x)
  }

  function Abs(r: real): real
  {
    if r < 0.0 then -r else r
  }

  lemma AddComponentwise(a: Vec3, b: Vec3)
    ensures Add(a, b) == Add(b, a)
    ensures Add(Add(a, b), Origin) == Add(a, b)
    ensures Sub(a, b) == Add(a, Scale(b, -1.0))
  {
  }

  lemma DotSymmetric(a: Vec3, b: Vec3)
    ensures Dot(a, b) == Dot(b, a)
  {
  }

  lemma CrossAntiCommutative(a: Vec3, b: Vec3)
    ensures Cross(a, b) == Scale(Cross(b, a), -1.0)
    ensures Cross(a, a) == Origin
  {
  }

  lemma DivIsScaleByReciprocal(a: Vec3, s: real)
    requires s != 0.0
    ensures Div(a, s) == Scale(a, 1.0 / s)
    ensures Div(Scale(a, s), s) == a
  {
  }

  // ---------------------------------------------------------------------
  // Moller-Trumbore

  /** Determinant of the Moller-Trumbore system: dot(cross(rd, e2), e1). */
  function Det(t: Tri, rd: Vec3): real
  {
    Dot(Cross(rd, Sub(t.v2, t.v0)), Sub(t.v1, t.v0))
  }

  /** First barycentric coordinate (along v1 - v0). */
  function BaryU(t: Tri, ro: Vec3, rd: Vec3): real
    requires Det(t, rd) != 0.0
  {
    Dot(Sub(ro, t.v0), Cross(rd, Sub(t.v2, t.v0))) * (1.0 / Det(t, rd))
  }

  /** Second barycentric coordinate (along v2 - v0). */
  function BaryV(t: Tri, ro: Vec3, rd: Vec3): real
    requires Det(t, rd) != 0.0
  {
    Dot(rd, Cross(Sub(ro, t.v0), Sub(t.v1, t.v0))) * (1.0 / Det(t, rd))
  }

  /** Distance along the (unnormalised) ray direction. */
  function RayParam(t: Tri, ro: Vec3, rd: Vec3): real
    requires Det(t, rd) != 0.0
  {
    Dot(Sub(t.v2, t.v0), Cross(Sub(ro, t.v0), Sub(t.v1, t.v0))) * (1.0 / Det(t, rd))
  }

  /** `Tri::hit_mt`: (hit, distance) of the ray ro + s*rd against t. */
  function HitMT(t: Tri, ro: Vec3, rd: Vec3): (r: (bool, real))
    ensures !r.0 ==> r.1 == 0.0
    ensures Abs(Det(t, rd)) < 0.001 ==> r == (false, 0.0)
    ensures r.0 ==> Abs(Det(t, rd)) >= 0.001
    ensures r.0 ==> 0.0 <= BaryU(t, ro, rd) <= 1.0 && 0.0 <= BaryV(t, ro, rd)
                    && BaryU(t, ro, rd) + BaryV(t, ro, rd) <= 1.0
    ensures r.0 ==> r.1 == RayParam(t, ro, rd) && r.1 >= 0.0
  {
    var det := Det(t, rd);
    if Abs(det) < 0.001 then (false, 0.0)
    else
      var u := BaryU(t, ro, rd);
      if u < 0.0 || u > 1.0 then (false, 0.0)
      else
        var v := BaryV(t, ro, rd);
        if v < 0.0 || v + u > 1.0 then (false, 0.0)
        else
          var dist := RayParam(t, ro, rd);
          if dist < 0.0 then (false, 0.0)
          else (true, dist)
  }

  /** A triangle with v1 = v0 or v2 = v0 has a zero determinant and is never hit. */
  lemma DegenerateTriangleNeverHit(t: Tri, ro: Vec3, rd: Vec3)
    requires t.v1 == t.v0 || t.v2 == t.v0
    ensures HitMT(t, ro, rd) == (false, 0.0)
  {
    assert Det(t, rd) == 0.0;
  }

  // Cramer's rule for the Moller-Trumbore system before the division by the
  // determinant d: d*tv = a*e1 + b*e2 - c*rd, with tv = ro - v0 and a, b, c
  // the numerators of u, v and the distance. The cross product commutes with
  // a cyclic renaming of the axes, so one scalar identity, applied to rotated
  // coordinates, gives all three components.

  lemma CramerX(tv: Vec3, rd: Vec3, e1: Vec3, e2: Vec3, d: real, a: real, b: real, c: real)
    requires d == Dot(Cross(rd, e2), e1)
    requires a == Dot(tv, Cross(rd, e2)) && b == Dot(rd, Cross(tv, e1)) && c == Dot(e2, Cross(tv, e1))
    ensures tv.x * d == e1.x * a + e2.x * b - rd.x * c
  {
    var p, q := Cross(rd, e2), Cross(tv, e1);
    CramerComponent(tv.x, tv.y, tv.z, rd.x, rd.y, rd.z, e1.x, e1.y, e1.z, e2.x, e2.y, e2.z,
                    p.x, p.y, p.z, q.x, q.y, q.z, d, a, b, c);
  }

  lemma CramerY(tv: Vec3, rd: Vec3, e1: Vec3, e2: Vec3, d: real, a: real, b: real, c: real)
    requires d == Dot(Cross(rd, e2), e1)
    requires a == Dot(tv, Cross(rd, e2)) && b == Dot(rd, Cross(tv, e1)) && c == Dot(e2, Cross(tv, e1))
    ensures tv.y * d == e1.y * a + e2.y * b - rd.y * c
  {
    var p, q := Cross(rd, e2), Cross(tv, e1);
    CramerComponent(tv.y, tv.z, tv.x, rd.y, rd.z, rd.x, e1.y, e1.z, e1.x, e2.y, e2.z, e2.x,
                    p.y, p.z, p.x, q.y, q.z, q.x, d, a, b, c);
  }

  lemma CramerZ(tv: Vec3, rd: Vec3, e1: Vec3, e2: Vec3, d: real, a: real, b: real, c: real)
    requires d == Dot(Cross(rd, e2), e1)
    requires a == Dot(tv, Cross(rd, e2)) && b == Dot(rd, Cross(tv, e1)) && c == Dot(e2, Cross(tv, e1))
    ensures tv.z * d == e1.z * a + e2.z * b - rd.z * c
  {
    var p, q := Cross(rd, e2), Cross(tv, e1);
    CramerComponent(tv.z, tv.x, tv.y, rd.z, rd.x, rd.y, e1.z, e1.x, e1.y, e2.z, e2.x, e2.y,
                    p.z, p.x, p.y, q.z, q.x, q.y, d, a, b, c);
  }

  /** The first component of Cramer's rule, over plain reals. */
  lemma CramerComponent(tx: real, ty: real, tz: real, rx: real, ry: real, rz: real,
                        ax: real, ay: real, az: real, cx: real, cy: real, cz: real,
                        px: real, py: real, pz: real, qx: real, qy: real, qz: real,
                        d: real, a: real, b: real, c: real)
    requires px == ry * cz - rz * cy && py == rz * cx - rx * cz && pz == rx * cy - ry * cx
    requires qx == ty * az - tz * ay && qy == tz * ax - tx * az && qz == tx * ay - ty * ax
    requires d == px * ax + py * ay + pz * az
    requires a == tx * px + ty * py + tz * pz
    requires b == rx * qx + ry * qy + rz * qz
    requires c == cx * qx + cy * qy + cz * qz
    ensures tx * d == ax * a + cx * b - rx * c
  {
  }

  /** Where the determinant is non-zero, ro + RayParam*rd is the point
      v0 + BaryU*(v1 - v0) + BaryV*(v2 - v0) of the triangle's plane. */
  lemma RayMeetsPlaneAt(t: Tri, ro: Vec3, rd: Vec3)
    requires Det(t, rd) != 0.0
    ensures Add(ro, Scale(rd, RayParam(t, ro, rd)))
         == Add(t.v0, Add(Scale(Sub(t.v1, t.v0), BaryU(t, ro, rd)),
                          Scale(Sub(t.v2, t.v0), BaryV(t, ro, rd))))
  {
    SolvedSystem(ro, t.v0, rd, Sub(t.v1, t.v0), Sub(t.v2, t.v0), 1.0 / Det(t, rd),
                 BaryU(t, ro, rd), BaryV(t, ro, rd), RayParam(t, ro, rd));
  }

  /** The Moller-Trumbore system solved by Cramer's rule: with k the
      inverse of the determinant and u, v, s the three numerators times k,
      ro + s*rd = v0 + u*e1 + v*e2. */
  lemma SolvedSystem(ro: Vec3, v0: Vec3, rd: Vec3, e1: Vec3, e2: Vec3, k: real, u: real, v: real, s: real)
    requires Dot(Cross(rd, e2), e1) != 0.0 && k == 1.0 / Dot(Cross(rd, e2), e1)
    requires u == Dot(Sub(ro, v0), Cross(rd, e2)) * k
    requires v == Dot(rd, Cross(Sub(ro, v0), e1)) * k
    requires s == Dot(e2, Cross(Sub(ro, v0), e1)) * k
    ensures Add(ro, Scale(rd, s)) == Add(v0, Add(Scale(e1, u), Scale(e2, v)))
  {
    var tv := Sub(ro, v0);
    var d := Dot(Cross(rd, e2), e1);
    assert d * k == 1.0;
    var a, b, c := Dot(tv, Cross(rd, e2)), Dot(rd, Cross(tv, e1)), Dot(e2, Cross(tv, e1));
    CramerX(tv, rd, e1, e2, d, a, b, c);
    CramerY(tv, rd, e1, e2, d, a, b, c);
    CramerZ(tv, rd, e1, e2, d, a, b, c);
    SolvedAxes(ro, v0, tv, rd, e1, e2, d, k, a, b, c, u, v, s);
  }

  /** SolvedSystem once Cramer's rule holds on every axis: the division by
      the determinant, one axis at a time. */
  lemma SolvedAxes(ro: Vec3, v0: Vec3, tv: Vec3, rd: Vec3, e1: Vec3, e2: Vec3,
                   d: real, k: real, a: real, b: real, c: real, u: real, v: real, s: real)
    requires tv == Sub(ro, v0) && d * k == 1.0
    requires u == a * k && v == b * k && s == c * k
    requires tv.x * d == e1.x * a + e2.x * b - rd.x * c
    requires tv.y * d == e1.y * a + e2.y * b - rd.y * c
    requires tv.z * d == e1.z * a + e2.z * b - rd.z * c
    ensures Add(ro, Scale(rd, s)) == Add(v0, Add(Scale(e1, u), Scale(e2, v)))
  {
    SolveComponent(v0.x, ro.x, tv.x, rd.x, e1.x, e2.x, d, k, a, b, c, u, v, s);
    SolveComponent(v0.y, ro.y, tv.y, rd.y, e1.y, e2.y, d, k, a, b, c, u, v, s);
    SolveComponent(v0.z, ro.z, tv.z, rd.z, e1.z, e2.z, d, k, a, b, c, u, v, s);
    Assemble(ro, rd, s, v0, e1, e2, u, v);
  }

  /** Collects three component equations into one vector equation. */
  lemma Assemble(ro: Vec3, rd: Vec3, s: real, v0: Vec3, e1: Vec3, e2: Vec3, u: real, v: real)
    requires ro.x + rd.x * s == v0.x + (e1.x * u + e2.x * v)
    requires ro.y + rd.y * s == v0.y + (e1.y * u + e2.y * v)
    requires ro.z + rd.z * s == v0.z + (e1.z * u + e2.z * v)
    ensures Add(ro, Scale(rd, s)) == Add(v0, Add(Scale(e1, u), Scale(e2, v)))
  {
    var lhs := Add(ro, Scale(rd, s));
    var rhs := Add(v0, Add(Scale(e1, u), Scale(e2, v)));
    assert lhs.x == rhs.x && lhs.y == rhs.y && lhs.z == rhs.z;
  }

  /** One component of SolvedSystem: Cramer's rule divided by d. */
  lemma SolveComponent(v0: real, o: real, w: real, r: real, e1: real, e2: real,
                       d: real, k: real, a: real, b: real, c: real, u: real, v: real, s: real)
    requires d * k == 1.0
    requires u == a * k && v == b * k && s == c * k
    requires w == o - v0 && w * d == e1 * a + e2 * b - r * c
    ensures o + r * s == v0 + (e1 * u + e2 * v)
  {
    calc {
      e1 * u + e2 * v - r * s;
      e1 * (a * k) + e2 * (b * k) - r * (c * k);
      (e1 * a + e2 * b - r * c) * k;
      (w * d) * k;
      w * (d * k);
    }
  }

  /** On a hit, the reported point lies inside the triangle: it is
      v0 + u*(v1 - v0) + v*(v2 - v0) with u, v >= 0 and u + v <= 1. */
  lemma HitPointInTriangle(t: Tri, ro: Vec3, rd: Vec3)
    requires HitMT(t, ro, rd).0
    ensures var u, v := BaryU(t, ro, rd), BaryV(t, ro, rd);
            && 0.0 <= u && 0.0 <= v && u + v <= 1.0
            && Add(ro, Scale(rd, HitMT(t, ro, rd).1))
               == Add(t.v0, Add(Scale(Sub(t.v1, t.v0), u), Scale(Sub(t.v2, t.v0), v)))
  {
    RayMeetsPlaneAt(t, ro, rd);
  }

  /** The converse of HitMT's postcondition: a well-conditioned ray whose
      barycentric coordinates lie in the triangle and whose distance is not
      negative is reported as a hit at that distance. */
  lemma HitWhenInside(t: Tri, ro: Vec3, rd: Vec3)
    requires Abs(Det(t, rd)) >= 0.001
    requires 0.0 <= BaryU(t, ro, rd) <= 1.0 && 0.0 <= BaryV(t, ro, rd)
    requires BaryU(t, ro, rd) + BaryV(t, ro, rd) <= 1.0
    requires RayParam(t, ro, rd) >= 0.0
    ensures HitMT(t, ro, rd) == (true, RayParam(t, ro, rd))
  {
  }

  /** A well-conditioned ray whose plane point lies in the triangle but
      behind the origin is a miss. */
  lemma MissWhenBehind(t: Tri, ro: Vec3, rd: Vec3)
    requires Abs(Det(t, rd)) >= 0.001
    requires RayParam(t, ro, rd) < 0.0
    ensures HitMT(t, ro, rd) == (false, 0.0)
  {
  }


  /** A unit-size triangle in the plane z = 0. */
  predicate IsFacing(t: Tri)
  {
    t == Tri(Vec3(-1.0, -1.0, 0.0), Vec3(1.0, -1.0, 0.0), Vec3(0.0, 1.0, 0.0), Origin)
  }

  lemma FacingDet(t: Tri, rd: Vec3)
    requires IsFacing(t) && rd == Vec3(0.0, 0.0, 1.0)
    ensures Det(t, rd) == -4.0
  {
    assert Sub(t.v2, t.v0) == Vec3(1.0, 2.0, 0.0);
    assert Cross(rd, Vec3(1.0, 2.0, 0.0)) == Vec3(-2.0, 1.0, 0.0);
  }

  /** A ray from (0, 0, -1) along +z meets the triangle at u = 0.25,
      v = 0.5, distance 1. */
  lemma FacingHitValues(t: Tri, ro: Vec3, rd: Vec3)
    requires IsFacing(t) && ro == Vec3(0.0, 0.0, -1.0) && rd == Vec3(0.0, 0.0, 1.0)
    ensures Det(t, rd) == -4.0
    ensures BaryU(t, ro, rd) == 0.25 && BaryV(t, ro, rd) == 0.5 && RayParam(t, ro, rd) == 1.0
  {
    FacingDet(t, rd);
    var tv := Sub(ro, t.v0);
    assert tv == Vec3(1.0, 1.0, -1.0);
    assert Cross(tv, Sub(t.v1, t.v0)) == Vec3(0.0, -2.0, -2.0);
  }

  lemma KnownHit(t: Tri, ro: Vec3, rd: Vec3)
    requires IsFacing(t) && ro == Vec3(0.0, 0.0, -1.0) && rd == Vec3(0.0, 0.0, 1.0)
    ensures HitMT(t, ro, rd) == (true, 1.0)
  {
    FacingHitValues(t, ro, rd);
  }

  /** The same triangle moved to z = -5 lies behind the ray's origin: the
      plane point has distance -4, so it is a miss. */
  lemma KnownMissBehindOrigin(t: Tri, ro: Vec3, rd: Vec3)
    requires t == Tri(Vec3(-1.0, -1.0, -5.0), Vec3(1.0, -1.0, -5.0), Vec3(0.0, 1.0, -5.0), Origin)
    requires ro == Vec3(0.0, 0.0, -1.0) && rd == Vec3(0.0, 0.0, 1.0)
    ensures HitMT(t, ro, rd) == (false, 0.0)
  {
    assert Sub(t.v2, t.v0) == Vec3(1.0, 2.0, 0.0);
    assert Cross(rd, Vec3(1.0, 2.0, 0.0)) == Vec3(-2.0, 1.0, 0.0);
    assert Det(t, rd) == -4.0;
    var tv := Sub(ro, t.v0);
    assert tv == Vec3(1.0, 1.0, 4.0);
    assert Cross(tv, Sub(t.v1, t.v0)) == Vec3(0.0, 8.0, -2.0);
    assert RayParam(t, ro, rd) == -4.0;
  }

  // ---------------------------------------------------------------------
  // Meshes

  /** A vertex-stream entry `(f64, f64, f64)` read as a vector. */
  function ToVec(p: (real, real, real)): Vec3
  {
    Vec3(p.0, p.1, p.2)
  }

  /** The triangles `Mesh::new` builds from a flat stream: each group of
      four entries is v2, v1, v0 and then the colour; a trailing group of
      one to three entries is dropped. */
  function Decode(v: seq<(real, real, real)>): (r: seq<Tri>)
    ensures |r| == |v| / 4
    decreases |v|
  {
    if |v| < 4 then []
    else [Tri(ToVec(v[2]), ToVec(v[1]), ToVec(v[0]), ToVec(v[3]))] + Decode(v[4..])
  }

  /** Triangle k comes from entries 4k..4k+3: v2, v1, v0, colour. */
  lemma {:induction false} DecodeAt(v: seq<(real, real, real)>, k: nat)
    requires k < |v| / 4
    ensures Decode(v)[k] == Tri(ToVec(v[4 * k + 2]), ToVec(v[4 * k + 1]), ToVec(v[4 * k]), ToVec(v[4 * k + 3]))
    decreases k
  {
    if k > 0 {
      DecodeAt(v[4..], k - 1);
    }
  }

  /** Streams whose length is a multiple of four decode group by group, so
      decoding a concatenation concatenates the decodings. */
  lemma {:induction false} DecodeAppend(a: seq<(real, real, real)>, b: seq<(real, real, real)>)
    requires |a| % 4 == 0
    ensures Decode(a + b) == Decode(a) + Decode(b)
    decreases |a|
  {
    if |a| != 0 {
      var g := [Tri(ToVec(a[2]), ToVec(a[1]), ToVec(a[0]), ToVec(a[3]))];
      var ab := a + b;
      assert ab[4..] == a[4..] + b;
      assert ab[0] == a[0] && ab[1] == a[1] && ab[2] == a[2] && ab[3] == a[3];
      DecodeAppend(a[4..], b);
      assert Decode(ab) == g + (Decode(a[4..]) + Decode(b));
      assert Decode(a) == g + Decode(a[4..]);
    } else {
      assert a + b == b;
    }
  }

  /** One more group of four adds one triangle at the end. */
  lemma DecodeSnoc(v: seq<(real, real, real)>, j: nat)
    requires j % 4 == 0 && j + 4 <= |v|
    ensures Decode(v[..j + 4])
         == Decode(v[..j]) + [Tri(ToVec(v[j + 2]), ToVec(v[j + 1]), ToVec(v[j]), ToVec(v[j + 3]))]
  {
    var g := v[j..j + 4];
    assert v[..j + 4] == v[..j] + g;
    DecodeAppend(v[..j], g);
    assert g[4..] == [];
  }

  /** Fewer than four trailing entries add nothing. */
  lemma DecodeDropsTail(v: seq<(real, real, real)>, j: nat)
    requires j % 4 == 0 && j <= |v| < j + 4
    ensures Decode(v[..j]) == Decode(v)
  {
    assert v == v[..j] + v[j..];
    DecodeAppend(v[..j], v[j..]);
  }

  /** `Mesh::new`: walks the stream with an index on the colour entry of
      each group, stepping by four. */
  method NewMesh(v: seq<(real, real, real)>) returns (m: Mesh)
    ensures m.tris == Decode(v)
  {
    var i := 3;
    var tris: seq<Tri> := [];
    while i < |v|
      invariant i % 4 == 3 && 3 <= i <= |v| + 3
      invariant tris == Decode(v[..i - 3])
    {
      DecodeSnoc(v, i - 3);
      tris := tris + [Tri(ToVec(v[i - 1]), ToVec(v[i - 2]), ToVec(v[i - 3]), ToVec(v[i]))];
      i := i + 4;
    }
    DecodeDropsTail(v, i - 3);
    m := Mesh(tris);
  }

  /** Mesh `+`: the triangles of m1 followed by those of m2. */
  function Concat(m1: Mesh, m2: Mesh): (r: Mesh)
    ensures |r.tris| == |m1.tris| + |m2.tris|
    ensures r.tris[..|m1.tris|] == m1.tris && r.tris[|m1.tris|..] == m2.tris
  {
    Mesh(m1.tris + m2.tris)
  }

  const Empty := Mesh([])

  lemma ConcatMonoid(m1: Mesh, m2: Mesh, m3: Mesh)
    ensures Concat(Concat(m1, m2), m3) == Concat(m1, Concat(m2, m3))
    ensures Concat(Empty, m1) == m1 && Concat(m1, Empty) == m1
  {
    assert (m1.tris + m2.tris) + m3.tris == m1.tris + (m2.tris + m3.tris);
    assert [] + m1.tris == m1.tris && m1.tris + [] == m1.tris;
  }

  /** The triangle moved by off: its three vertices shifted, colour kept. */
  function Shift(t: Tri, off: Vec3): (r: Tri)
    ensures Sub(r.v0, off) == t.v0 && Sub(r.v1, off) == t.v1 && Sub(r.v2, off) == t.v2
    ensures r.color == t.color
  {
    Tri(Add(t.v0, off), Add(t.v1, off), Add(t.v2, off), t.color)
  }

  function ShiftAll(ts: seq<Tri>, off: Vec3): (r: seq<Tri>)
    ensures |r| == |ts| && forall k :: 0 <= k < |ts| ==> r[k] == Shift(ts[k], off)
  {
    seq(|ts|, k requires 0 <= k < |ts| => Shift(ts[k], off))
  }

  /** The loop over `mut_tris` that moves every triangle of a mesh in
      place by off. */
  method TranslateTris(m: Mesh, off: Vec3) returns (r: Mesh)
    ensures |r.tris| == |m.tris|
    ensures forall k :: 0 <= k < |m.tris| ==>
              Sub(r.tris[k].v0, off) == m.tris[k].v0 && Sub(r.tris[k].v1, off) == m.tris[k].v1
              && Sub(r.tris[k].v2, off) == m.tris[k].v2 && r.tris[k].color == m.tris[k].color
    ensures r.tris == ShiftAll(m.tris, off)
  {
    r := m;
    var i := 0;
    while i < |r.tris|
      invariant 0 <= i <= |r.tris| == |m.tris|
      invariant forall k :: 0 <= k < i ==> r.tris[k] == Shift(m.tris[k], off)
      invariant r.tris[i..] == m.tris[i..]
    {
      var t := r.tris[i];
      t := t.(v0 := Add(t.v0, off));
      t := t.(v1 := Add(t.v1, off));
      t := t.(v2 := Add(t.v2, off));
      r := r.(tris := r.tris[i := t]);
      i := i + 1;
    }
  }

  /** Moving a concatenation moves each part; moving twice adds the offsets. */
  lemma ShiftAllProperties(a: seq<Tri>, b: seq<Tri>, off: Vec3, off2: Vec3)
    ensures ShiftAll(a + b, off) == ShiftAll(a, off) + ShiftAll(b, off)
    ensures ShiftAll(ShiftAll(a, off), off2) == ShiftAll(a, Add(off, off2))
    ensures ShiftAll(a, Origin) == a
  {
    assert ShiftAll(a + b, off) == ShiftAll(a, off) + ShiftAll(b, off);
  }

  /** The cross product is orthogonal to both operands. */
  lemma CrossOrthogonal(a: Vec3, b: Vec3)
    ensures Dot(Cross(a, b), a) == 0.0 && Dot(Cross(a, b), b) == 0.0
  {
  }
}
