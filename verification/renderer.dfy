/** The ray caster (src/renderer.rs): every pixel of the terminal takes the
    colour of the nearest triangle its ray hits, darkened with distance, and
    the frame is printed and the buffer cleared. The ray-triangle test and
    the rotation are parameters: the test the renderer calls is not defined
    in the modelled files, and the rotation is trigonometry. */
module Renderer {
  import opened Mat
  import Camera

  /** Beyond this distance a colour has faded to black. */
  const RenderDist: real := 100.0

  /** `f64::MAX`, the distance every pixel starts from. */
  const F64Max: real := 179769313486231570814527423731704356798070567525844996598917476803157260780028538760589558632766878171540458953514382464234321326889464182768467546703537516986049910576551282076245490090389328944075868508455133942304583236903222948165808559332123348274797826204144723168738177180919299881250404026184124858368.0

  /** A ray-triangle test: (hit, distance) for a triangle, an origin and a
      direction. */
  type HitTest = (Tri, Vec3, Vec3) -> (bool, real)

  /** A rotation of a vector by the camera's angles. */
  type Rotation = (Vec3, Vec3) -> Vec3

  /** The buffer `new` and `flush` build: h rows of w black pixels. */
  function Blank(w: nat, h: nat): (r: seq<seq<Vec3>>)
    ensures |r| == h && forall y :: 0 <= y < h ==> |r[y]| == w
    ensures forall y, x :: 0 <= y < h && 0 <= x < w ==> r[y][x] == Origin
  {
    seq(h, _ => seq(w, _ => Origin))
  }

  function Min(a: nat, b: nat): nat
  {
    if a <= b then a else b
  }

  /** The camera-space vector through pixel (x, y) of a w by h screen: the
      pixel's offset from the centre, divided by half the smaller side, at
      the focus length. */
  function PixelCoords(w: nat, h: nat, x: nat, y: nat, focus: real): (r: Vec3)
    requires x < w && y < h
    ensures var m := Min(w, h) as real / 2.0;
            m > 0.0 && r.x * m == x as real - w as real / 2.0 && r.y * m == y as real - h as real / 2.0
            && r.z == focus
  {
    var m := Min(w, h) as real / 2.0;
    Vec3((x as real - w as real / 2.0) / m, (y as real - h as real / 2.0) / m, focus)
  }

  // ---------------------------------------------------------------------
  // The nearest hit
  // ---------------------------------------------------------------------

  /** The distance and colour a pixel holds after its loop over the
      triangles. */
  datatype Nearest = Nearest(dist: real, color: Vec3)

  const NoHit := Nearest(F64Max, Origin)

  /** The triangles taken in mesh order: a hit replaces the current choice
      only when it is strictly nearer. */
  function NearestOf(tris: seq<Tri>, o: Vec3, d: Vec3, hit: HitTest): Nearest
    decreases |tris|
  {
    if |tris| == 0 then NoHit
    else
      var n := NearestOf(tris[..|tris| - 1], o, d, hit);
      var t := tris[|tris| - 1];
      var hd := hit(t, o, d);
      if hd.0 && hd.1 < n.dist then Nearest(hd.1, t.color) else n
  }

  /** Triangle i is hit, nearer than `f64::MAX`. */
  predicate Hits(tris: seq<Tri>, o: Vec3, d: Vec3, hit: HitTest, i: int)
    requires 0 <= i < |tris|
  {
    hit(tris[i], o, d).0 && hit(tris[i], o, d).1 < F64Max
  }

  function DistOf(tris: seq<Tri>, o: Vec3, d: Vec3, hit: HitTest, i: int): real
    requires 0 <= i < |tris|
  {
    hit(tris[i], o, d).1
  }

  /** Triangle k is the first of the nearest hits. */
  predicate FirstNearest(tris: seq<Tri>, o: Vec3, d: Vec3, hit: HitTest, k: int)
    requires 0 <= k < |tris|
  {
    Hits(tris, o, d, hit, k)
    && (forall j :: 0 <= j < |tris| && Hits(tris, o, d, hit, j) ==> DistOf(tris, o, d, hit, k) <= DistOf(tris, o, d, hit, j))
    && (forall j :: 0 <= j < k && Hits(tris, o, d, hit, j) ==> DistOf(tris, o, d, hit, k) < DistOf(tris, o, d, hit, j))
  }

  /** With no hit the pixel keeps `f64::MAX` and black; otherwise it takes
      the distance and colour of the first triangle in mesh order among
      those with the smallest distance. */
  lemma NearestIsFirstMin(tris: seq<Tri>, o: Vec3, d: Vec3, hit: HitTest)
    ensures (forall i :: 0 <= i < |tris| ==> !Hits(tris, o, d, hit, i)) ==> NearestOf(tris, o, d, hit) == NoHit
    ensures (exists i :: 0 <= i < |tris| && Hits(tris, o, d, hit, i)) ==>
              exists k :: 0 <= k < |tris| && FirstNearest(tris, o, d, hit, k)
                && NearestOf(tris, o, d, hit) == Nearest(DistOf(tris, o, d, hit, k), tris[k].color)
  {
    if exists i :: 0 <= i < |tris| && Hits(tris, o, d, hit, i) {
      NearestSome(tris, o, d, hit);
    } else {
      NearestNone(tris, o, d, hit);
    }
  }

  /** The triangles before the last are hit as they are in the whole
      sequence. */
  lemma HitsInPrefix(tris: seq<Tri>, o: Vec3, d: Vec3, hit: HitTest, n: nat)
    requires n <= |tris|
    ensures forall i :: 0 <= i < n ==> Hits(tris[..n], o, d, hit, i) == Hits(tris, o, d, hit, i)
    ensures forall i :: 0 <= i < n ==> DistOf(tris[..n], o, d, hit, i) == DistOf(tris, o, d, hit, i)
  {
    forall i | 0 <= i < n
      ensures tris[..n][i] == tris[i]
    {
    }
  }

  lemma {:induction false} NearestNone(tris: seq<Tri>, o: Vec3, d: Vec3, hit: HitTest)
    requires forall i :: 0 <= i < |tris| ==> !Hits(tris, o, d, hit, i)
    ensures NearestOf(tris, o, d, hit) == NoHit
    decreases |tris|
  {
    if |tris| > 0 {
      var n := |tris| - 1;
      HitsInPrefix(tris, o, d, hit, n);
      NearestNone(tris[..n], o, d, hit);
      assert !Hits(tris, o, d, hit, n);
    }
  }

  lemma {:induction false} NearestSome(tris: seq<Tri>, o: Vec3, d: Vec3, hit: HitTest)
    requires exists i :: 0 <= i < |tris| && Hits(tris, o, d, hit, i)
    ensures exists k :: 0 <= k < |tris| && FirstNearest(tris, o, d, hit, k)
              && NearestOf(tris, o, d, hit) == Nearest(DistOf(tris, o, d, hit, k), tris[k].color)
    decreases |tris|
  {
    var n := |tris| - 1;
    var init := tris[..n];
    HitsInPrefix(tris, o, d, hit, n);
    if exists i :: 0 <= i < n && Hits(init, o, d, hit, i) {
      NearestSome(init, o, d, hit);
      var k :| 0 <= k < n && FirstNearest(init, o, d, hit, k)
               && NearestOf(init, o, d, hit) == Nearest(DistOf(init, o, d, hit, k), init[k].color);
      if Hits(tris, o, d, hit, n) && DistOf(tris, o, d, hit, n) < DistOf(tris, o, d, hit, k) {
        NearerLast(tris, o, d, hit, k);
      } else {
        KeepFirst(tris, o, d, hit, k);
      }
    } else {
      NearestNone(init, o, d, hit);
      OnlyLast(tris, o, d, hit);
    }
  }

  /** A last triangle strictly nearer than the first nearest of the others
      becomes the first nearest. */
  lemma NearerLast(tris: seq<Tri>, o: Vec3, d: Vec3, hit: HitTest, k: nat)
    requires k < |tris| - 1 && FirstNearest(tris[..|tris| - 1], o, d, hit, k)
    requires Hits(tris, o, d, hit, |tris| - 1)
    requires DistOf(tris, o, d, hit, |tris| - 1) < DistOf(tris, o, d, hit, k)
    ensures FirstNearest(tris, o, d, hit, |tris| - 1)
  {
    var n := |tris| - 1;
    HitsInPrefix(tris, o, d, hit, n);
  }

  /** A last triangle that is not strictly nearer leaves the first nearest
      where it was. */
  lemma KeepFirst(tris: seq<Tri>, o: Vec3, d: Vec3, hit: HitTest, k: nat)
    requires k < |tris| - 1 && FirstNearest(tris[..|tris| - 1], o, d, hit, k)
    requires !(Hits(tris, o, d, hit, |tris| - 1)
               && DistOf(tris, o, d, hit, |tris| - 1) < DistOf(tris, o, d, hit, k))
    ensures FirstNearest(tris, o, d, hit, k)
  {
    var n := |tris| - 1;
    HitsInPrefix(tris, o, d, hit, n);
  }

  /** The last triangle, the only one hit, is the first nearest. */
  lemma OnlyLast(tris: seq<Tri>, o: Vec3, d: Vec3, hit: HitTest)
    requires |tris| > 0 && Hits(tris, o, d, hit, |tris| - 1)
    requires forall i :: 0 <= i < |tris| - 1 ==> !Hits(tris, o, d, hit, i)
    ensures FirstNearest(tris, o, d, hit, |tris| - 1)
  {
  }

  /** The loop over the triangles for one pixel. */
  method NearestHit(tris: seq<Tri>, o: Vec3, d: Vec3, hit: HitTest) returns (minDist: real, color: Vec3)
    ensures Nearest(minDist, color) == NearestOf(tris, o, d, hit)
  {
    minDist := F64Max;
    color := Origin;
    for i := 0 to |tris|
      invariant Nearest(minDist, color) == NearestOf(tris[..i], o, d, hit)
    {
      assert tris[..i + 1][..i] == tris[..i];
      var hd := hit(tris[i], o, d);
      if hd.0 {
        if hd.1 < minDist {
          minDist := hd.1;
          color := tris[i].color;
        }
      }
    }
    assert tris[..|tris|] == tris;
  }

  // ---------------------------------------------------------------------
  // Fog and pixels
  // ---------------------------------------------------------------------

  /** The colour faded with distance. */
  function Fog(c: Vec3, dist: real): Vec3
  {
    Scale(c, 1.0 - dist / RenderDist)
  }

  /** Within the render distance a channel that is not negative fades to a
      value between black and itself; with no hit the pixel is black. */
  lemma FogBounds(c: Vec3, dist: real)
    ensures 0.0 <= dist <= RenderDist && c.x >= 0.0 && c.y >= 0.0 && c.z >= 0.0 ==>
              var r := Fog(c, dist);
              0.0 <= r.x <= c.x && 0.0 <= r.y <= c.y && 0.0 <= r.z <= c.z
    ensures Fog(NoHit.color, NoHit.dist) == Origin
  {
    if 0.0 <= dist <= RenderDist {
      var f := 1.0 - dist / RenderDist;
      assert 0.0 <= f <= 1.0;
      FactorBounds(c.x, f);
      FactorBounds(c.y, f);
      FactorBounds(c.z, f);
    }
  }

  lemma FactorBounds(a: real, f: real)
    requires 0.0 <= f <= 1.0
    ensures a >= 0.0 ==> 0.0 <= a * f <= a
  {
    if a >= 0.0 {
      assert a * f <= a * 1.0;
    }
  }

  /** What the camera sees through pixel (x, y). */
  function PixelColor(w: nat, h: nat, x: nat, y: nat, pos: Vec3, rotation: Vec3, focus: real,
                      tris: seq<Tri>, hit: HitTest, rotate: Rotation): Vec3
    requires x < w && y < h
  {
    var dir := rotate(PixelCoords(w, h, x, y, focus), rotation);
    var n := NearestOf(tris, Add(pos, dir), dir, hit);
    Fog(n.color, n.dist)
  }

  /** One row of the picture. */
  function ImageRow(w: nat, h: nat, y: nat, pos: Vec3, rotation: Vec3, focus: real,
                    tris: seq<Tri>, hit: HitTest, rotate: Rotation): (r: seq<Vec3>)
    requires y < h
    ensures |r| == w
  {
    seq(w, x requires 0 <= x < w => PixelColor(w, h, x, y, pos, rotation, focus, tris, hit, rotate))
  }

  /** The picture: h rows of w pixels. */
  function Image(w: nat, h: nat, pos: Vec3, rotation: Vec3, focus: real,
                 tris: seq<Tri>, hit: HitTest, rotate: Rotation): (r: seq<seq<Vec3>>)
    ensures |r| == h
    ensures forall y :: 0 <= y < h ==> r[y] == ImageRow(w, h, y, pos, rotation, focus, tris, hit, rotate)
  {
    seq(h, y requires 0 <= y < h => ImageRow(w, h, y, pos, rotation, focus, tris, hit, rotate))
  }

  /** The body of the pixel loop: the pixel's vector turned by the camera's
      rotation is the ray's direction, and the ray starts that far from the
      camera; the nearest hit's colour is faded with its distance. */
  method Shade(w: nat, h: nat, x: nat, y: nat, pos: Vec3, rotation: Vec3, focus: real,
               tris: seq<Tri>, hit: HitTest, rotate: Rotation) returns (color: Vec3)
    requires x < w && y < h
    ensures color == PixelColor(w, h, x, y, pos, rotation, focus, tris, hit, rotate)
  {
    var minDim := Min(w, h) as real / 2.0;
    var coords := Vec3((x as real - w as real / 2.0) / minDim, (y as real - h as real / 2.0) / minDim, focus);
    coords := rotate(coords, rotation);
    var rayDir := coords;
    var rayO := Add(pos, coords);
    var minDist;
    minDist, color := NearestHit(tris, rayO, rayDir, hit);
    color := Scale(color, 1.0 - minDist / RenderDist);
  }

  // ---------------------------------------------------------------------
  // What flush prints
  // ---------------------------------------------------------------------

  /** `as u8` on a colour channel: cut toward zero and held to 0..255. */
  function ToU8(r: real): (b: int)
    ensures 0 <= b <= 255
    ensures 0.0 <= r < 256.0 ==> b as real <= r < b as real + 1.0
    ensures r < 0.0 ==> b == 0
    ensures r >= 256.0 ==> b == 255
  {
    if r < 0.0 then 0 else if r >= 255.0 then 255 else r.Floor
  }

  function Rgb(c: Vec3): (int, int, int)
  {
    (ToU8(c.x), ToU8(c.y), ToU8(c.z))
  }

  /** The pixels `flush` prints, row by row, as byte triples. */
  function Emitted(rows: seq<seq<Vec3>>): seq<(int, int, int)>
    decreases |rows|
  {
    if |rows| == 0 then []
    else
      var last := rows[|rows| - 1];
      Emitted(rows[..|rows| - 1]) + seq(|last|, x requires 0 <= x < |last| => Rgb(last[x]))
  }

  /** A w by h buffer prints w·h pixels. */
  lemma {:induction false} EmittedLength(rows: seq<seq<Vec3>>, w: nat)
    requires forall y :: 0 <= y < |rows| ==> |rows[y]| == w
    ensures |Emitted(rows)| == |rows| * w
    decreases |rows|
  {
    if |rows| > 0 {
      var n := |rows| - 1;
      EmittedLength(rows[..n], w);
      assert |rows| * w == n * w + w;
    }
  }

  /** Pixel (x, y) of a w by h buffer is printed at place y·w + x. */
  lemma {:induction false} EmittedAt(rows: seq<seq<Vec3>>, w: nat, y: nat, x: nat)
    requires forall r :: 0 <= r < |rows| ==> |rows[r]| == w
    requires y < |rows| && x < w
    ensures y * w + x < |Emitted(rows)| && Emitted(rows)[y * w + x] == Rgb(rows[y][x])
    decreases |rows|
  {
    var n := |rows| - 1;
    var init := rows[..n];
    EmittedLength(init, w);
    EmittedLength(rows, w);
    if y < n {
      EmittedAt(init, w, y, x);
      assert init[y] == rows[y];
    } else {
      assert |rows| * w == n * w + w;
    }
  }

  // ---------------------------------------------------------------------
  // The screen
  // ---------------------------------------------------------------------

  class Screen {
    var w: nat
    var h: nat
    var buffer: seq<seq<Vec3>>

    /** The buffer has h rows of w pixels. */
    ghost predicate Valid()
      reads this
    {
      |buffer| == h && forall y :: 0 <= y < h ==> |buffer[y]| == w
    }

    /** `new`: the terminal's size less two rows for the status line, and a
        black buffer. */
    constructor (termW: nat, termH: nat)
      requires termH >= 2
      ensures Valid() && w == termW && h == termH - 2 && buffer == Blank(termW, termH - 2)
    {
      w := termW;
      h := termH - 2;
      buffer := Blank(termW, termH - 2);
    }

    /** `flush`: prints the buffer row by row and clears it. */
    method Flush() returns (frame: seq<(int, int, int)>)
      requires Valid()
      modifies this`buffer
      ensures Valid() && buffer == Blank(w, h)
      ensures frame == Emitted(old(buffer))
    {
      frame := [];
      for y := 0 to |buffer|
        invariant frame == Emitted(buffer[..y])
      {
        var row := buffer[y];
        for x := 0 to |row|
          invariant frame == Emitted(buffer[..y]) + seq(x, i requires 0 <= i < x => Rgb(row[i]))
        {
          frame := frame + [Rgb(row[x])];
        }
        assert buffer[..y + 1][..y] == buffer[..y];
      }
      assert buffer[..|buffer|] == buffer;
      buffer := Blank(w, h);
    }

    /** `render`: every pixel, row by row, takes what the camera sees
        through it, each written once; then the frame is flushed. */
    method Render(cam: Camera.Camera, mesh: Mesh, hit: HitTest, rotate: Rotation)
      returns (frame: seq<(int, int, int)>)
      requires Valid()
      modifies this`buffer
      ensures Valid() && buffer == Blank(w, h)
      ensures frame == Emitted(Image(w, h, cam.pos, cam.rotation, cam.focusLength, mesh.tris, hit, rotate))
    {
      var tris := mesh.tris;
      ghost var image := Image(w, h, cam.pos, cam.rotation, cam.focusLength, tris, hit, rotate);
      for y := 0 to |buffer|
        invariant Valid()
        invariant buffer[..y] == image[..y]
        invariant buffer[y..] == old(buffer)[y..]
      {
        ghost var before := buffer;
        for x := 0 to |buffer[y]|
          invariant Valid()
          invariant |buffer| == |before| && forall j :: 0 <= j < h && j != y ==> buffer[j] == before[j]
          invariant buffer[y][..x] == image[y][..x]
          invariant buffer[y][x..] == before[y][x..]
        {
          var color := Shade(w, h, x, y, cam.pos, cam.rotation, cam.focusLength, tris, hit, rotate);
          buffer := buffer[y := buffer[y][x := color]];
        }
        assert buffer[y] == image[y];
        assert buffer[..y + 1] == image[..y + 1];
      }
      assert buffer == buffer[..h] == image[..h] == image;
      frame := Flush();
    }
  }
}
