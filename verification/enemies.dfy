/** The chasing enemy (src/enemies.rs). An enemy is a value: the program
    clones it, and `translate` consumes and returns it. */
module Enemies {
  import opened Wrappers
  import opened Mat
  import opened Collider
  import opened LevelGeometry

  datatype Enemy = Enemy(pos: Vec3, speed: real, vel: Vec3, collider: BoxCollider, mesh: Mesh, vision: real)

  /** The default enemy's vertex stream: a cube of side GW / 5 around its
      position, two red triangles per face, faces in the order left, front,
      right, back, top, bottom. */
  const LeftFace: seq<(real, real, real)> := [
    (-GW * 0.1, -GW * 0.1, -GW * 0.1), (-GW * 0.1, -GW * 0.1, GW * 0.1), (-GW * 0.1, GW * 0.1, GW * 0.1), (255.0, 0.0, 0.0),
    (-GW * 0.1, -GW * 0.1, -GW * 0.1), (-GW * 0.1, GW * 0.1, GW * 0.1), (-GW * 0.1, GW * 0.1, -GW * 0.1), (255.0, 0.0, 0.0)
  ]
  const FrontFace: seq<(real, real, real)> := [
    (-GW * 0.1, -GW * 0.1, -GW * 0.1), (GW * 0.1, -GW * 0.1, -GW * 0.1), (GW * 0.1, GW * 0.1, -GW * 0.1), (255.0, 0.0, 0.0),
    (-GW * 0.1, -GW * 0.1, -GW * 0.1), (-GW * 0.1, GW * 0.1, -GW * 0.1), (GW * 0.1, GW * 0.1, -GW * 0.1), (255.0, 0.0, 0.0)
  ]
  const RightFace: seq<(real, real, real)> := [
    (GW * 0.1, -GW * 0.1, -GW * 0.1), (GW * 0.1, -GW * 0.1, GW * 0.1), (GW * 0.1, GW * 0.1, GW * 0.1), (255.0, 0.0, 0.0),
    (GW * 0.1, -GW * 0.1, -GW * 0.1), (GW * 0.1, GW * 0.1, GW * 0.1), (GW * 0.1, GW * 0.1, -GW * 0.1), (255.0, 0.0, 0.0)
  ]
  const BackFace: seq<(real, real, real)> := [
    (-GW * 0.1, -GW * 0.1, GW * 0.1), (GW * 0.1, -GW * 0.1, GW * 0.1), (GW * 0.1, GW * 0.1, GW * 0.1), (255.0, 0.0, 0.0),
    (-GW * 0.1, -GW * 0.1, GW * 0.1), (-GW * 0.1, GW * 0.1, GW * 0.1), (GW * 0.1, GW * 0.1, GW * 0.1), (255.0, 0.0, 0.0)
  ]
  const TopFace: seq<(real, real, real)> := [
    (-GW * 0.1, GW * 0.1, -GW * 0.1), (-GW * 0.1, GW * 0.1, GW * 0.1), (GW * 0.1, GW * 0.1, -GW * 0.1), (255.0, 0.0, 0.0),
    (GW * 0.1, GW * 0.1, GW * 0.1), (-GW * 0.1, GW * 0.1, GW * 0.1), (GW * 0.1, GW * 0.1, -GW * 0.1), (255.0, 0.0, 0.0)
  ]
  const BottomFace: seq<(real, real, real)> := [
    (-GW * 0.1, -GW * 0.1, -GW * 0.1), (-GW * 0.1, -GW * 0.1, GW * 0.1), (GW * 0.1, -GW * 0.1, -GW * 0.1), (255.0, 0.0, 0.0),
    (GW * 0.1, -GW * 0.1, GW * 0.1), (-GW * 0.1, -GW * 0.1, GW * 0.1), (GW * 0.1, -GW * 0.1, -GW * 0.1), (255.0, 0.0, 0.0)
  ]

  const Shape: seq<(real, real, real)> := LeftFace + FrontFace + RightFace + BackFace + TopFace + BottomFace

  /** A point on a corner of the cube spanning -GW * 0.1 to GW * 0.1. */
  predicate OnCorner(p: Vec3)
  {
    (p.x == GW * 0.1 || p.x == -GW * 0.1) && (p.y == GW * 0.1 || p.y == -GW * 0.1)
    && (p.z == GW * 0.1 || p.z == -GW * 0.1)
  }

  /** `Enemy::default`. */
  function Default(): (e: Enemy)
    ensures e.pos == Vec3(5.0, 7.5, 5.0) && e.vel == Origin
    ensures e.speed == 23.0 && e.vision == 40.0
    ensures e.collider.minX == e.collider.minY == e.collider.minZ == -1.0
    ensures e.collider.maxX == e.collider.maxY == e.collider.maxZ == 1.0
    ensures e.collider.tag == Some("angry_pixel")
    ensures |e.mesh.tris| == 12
  {
    Enemy(
      Vec3(GW * 0.5, GH * 0.5, GW * 0.5),
      23.0,
      Vec3(0.0, 0.0, 0.0),
      BoxCollider(GW * 0.1, GW * 0.1, GW * 0.1, -GW * 0.1, -GW * 0.1, -GW * 0.1, Some("angry_pixel")),
      Mesh(Decode(Shape)),
      GW * 4.0)
  }

  /** Group k of a vertex stream holds three cube corners and the colour
      red. */
  predicate RedCubeGroup(v: seq<(real, real, real)>, k: nat)
    requires 4 * k + 3 < |v|
  {
    OnCorner(ToVec(v[4 * k])) && OnCorner(ToVec(v[4 * k + 1])) && OnCorner(ToVec(v[4 * k + 2]))
    && v[4 * k + 3] == (255.0, 0.0, 0.0)
  }

  /** A face whose two triangles are red with corner vertices. */
  predicate RedCubeFace(f: seq<(real, real, real)>)
  {
    |f| == 8 && RedCubeGroup(f, 0) && RedCubeGroup(f, 1)
  }

  predicate RedCubeTris(ts: seq<Tri>)
  {
    forall t :: t in ts ==>
      t.color == Vec3(255.0, 0.0, 0.0) && OnCorner(t.v0) && OnCorner(t.v1) && OnCorner(t.v2)
  }

  lemma RedCubeFaceDecodes(f: seq<(real, real, real)>)
    requires RedCubeFace(f)
    ensures RedCubeTris(Decode(f))
  {
    DecodeAt(f, 0);
    DecodeAt(f, 1);
  }

  /** Decoding the face streams one after another. */
  lemma DecodeFaces(a: seq<(real, real, real)>, b: seq<(real, real, real)>)
    requires |a| % 4 == 0 && RedCubeTris(Decode(a)) && RedCubeFace(b)
    ensures RedCubeTris(Decode(a + b))
  {
    DecodeAppend(a, b);
    RedCubeFaceDecodes(b);
  }

  lemma FacesOfShape()
    ensures RedCubeFace(LeftFace) && RedCubeFace(FrontFace) && RedCubeFace(RightFace)
    ensures RedCubeFace(BackFace) && RedCubeFace(TopFace) && RedCubeFace(BottomFace)
  {
  }

  /** The default mesh: twelve red triangles whose vertices are all corners
      of the cube. */
  lemma DefaultMeshShape()
    ensures forall t :: t in Default().mesh.tris ==>
              t.color == Vec3(255.0, 0.0, 0.0) && OnCorner(t.v0) && OnCorner(t.v1) && OnCorner(t.v2)
  {
    FacesOfShape();
    RedCubeFaceDecodes(LeftFace);
    DecodeFaces(LeftFace, FrontFace);
    DecodeFaces(LeftFace + FrontFace, RightFace);
    DecodeFaces(LeftFace + FrontFace + RightFace, BackFace);
    DecodeFaces(LeftFace + FrontFace + RightFace + BackFace, TopFace);
    DecodeFaces(LeftFace + FrontFace + RightFace + BackFace + TopFace, BottomFace);
  }

  /** `translate`: only the position moves, by the offset. */
  function Translate(e: Enemy, to: Vec3): (r: Enemy)
    ensures Sub(r.pos, to) == e.pos
    ensures r.speed == e.speed && r.vel == e.vel && r.collider == e.collider
    ensures r.mesh == e.mesh && r.vision == e.vision
  {
    e.(pos := Add(e.pos, to))
  }

  /** `get_collider`: the stored box moved to the enemy's position; the
      stored box itself is a value and stays as it was. */
  function GetCollider(e: Enemy): (r: ColliderTerm)
    ensures r.Translated? && r.base == Literal(e.collider)
    ensures Sub(r.offset, e.pos) == Origin
  {
    Translated(Literal(e.collider), e.pos)
  }

  /** `get_mesh`: a copy of the stored mesh with every triangle moved to the
      enemy's position, by the same in-place loop over the triangles as the
      loader uses. */
  method GetMesh(e: Enemy) returns (m: Mesh)
    ensures |m.tris| == |e.mesh.tris|
    ensures forall k :: 0 <= k < |m.tris| ==>
              Sub(m.tris[k].v0, e.pos) == e.mesh.tris[k].v0 && Sub(m.tris[k].v1, e.pos) == e.mesh.tris[k].v1
              && Sub(m.tris[k].v2, e.pos) == e.mesh.tris[k].v2 && m.tris[k].color == e.mesh.tris[k].color
    ensures m.tris == ShiftAll(e.mesh.tris, e.pos)
  {
    m := TranslateTris(e.mesh, Vec3(e.pos.x, e.pos.y, e.pos.z));
  }

  /** Moving an enemy moves what `get_collider` and `get_mesh` report by
      the same offset. */
  lemma TranslateMovesViews(e: Enemy, to: Vec3)
    ensures GetCollider(Translate(e, to)) == Translated(Literal(e.collider), Add(e.pos, to))
    ensures ShiftAll(Translate(e, to).mesh.tris, Translate(e, to).pos)
         == ShiftAll(ShiftAll(e.mesh.tris, e.pos), to)
  {
    ShiftAllProperties(e.mesh.tris, [], e.pos, to);
  }

  /** `update`. The distance (`abs`), the direction (`norm`) and the
      collision resolver (`check_collision`, which adjusts position and
      velocity) are parameters. Within vision range the enemy heads for the
      player at its speed, lets the resolver correct the move and advances
      by vel * dt; otherwise nothing changes. */
  function Update(e: Enemy, dt: real, player: Vec3, colliders: seq<ColliderTerm>,
                  length: Vec3 -> real, norm: Vec3 -> Vec3,
                  resolve: (BoxCollider, Vec3, Vec3, real, seq<ColliderTerm>) -> (Vec3, Vec3)): (r: Enemy)
    ensures length(Sub(player, e.pos)) >= e.vision ==> r == e
    ensures r.speed == e.speed && r.collider == e.collider && r.mesh == e.mesh && r.vision == e.vision
    ensures length(Sub(player, e.pos)) < e.vision ==>
              var (p, v) := resolve(e.collider, e.pos, Scale(norm(Sub(player, e.pos)), e.speed), dt, colliders);
              r.vel == v && Sub(r.pos, Scale(v, dt)) == p
  {
    var toPlayer := Sub(player, e.pos);
    if length(toPlayer) < e.vision then
      var chase := Scale(norm(toPlayer), e.speed);
      var (p, v) := resolve(e.collider, e.pos, chase, dt, colliders);
      e.(vel := v, pos := Add(p, Scale(v, dt)))
    else
      e
  }
}
