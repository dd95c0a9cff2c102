/** The level loader (src/loader.rs): level text is cut into one grid per
    storey at `sep` lines, and every character of every grid becomes a
    piece of geometry and one or two collision boxes, moved to the cell's
    place. */
module Loader {
  import opened Wrappers
  import opened Mat
  import opened Collider
  import opened LevelGeometry
  import opened RustStr
  import Enemies

  // ---------------------------------------------------------------------
  // separate_map
  // ---------------------------------------------------------------------

  /** A line that separates two storeys. */
  predicate IsSep(line: string)
  {
    Trim(line) == "sep"
  }

  /** The finished pieces and the piece being built. */
  datatype SepState = SepState(done: seq<string>, cur: string)

  /** The state `separate_map` reaches after the given lines. */
  function SepRun(lines: seq<string>): SepState
    decreases |lines|
  {
    if |lines| == 0 then SepState([], "")
    else
      var st := SepRun(lines[..|lines| - 1]);
      var line := lines[|lines| - 1];
      if IsSep(line) then SepState(st.done + [st.cur], "")
      else SepState(st.done, st.cur + (line + "\n"))
  }

  /** The pieces `separate_map` returns for the given lines. */
  function Separate(lines: seq<string>): (r: seq<string>)
    ensures |r| >= 1
  {
    SepRun(lines).done + [SepRun(lines).cur]
  }

  /** `separate_map`: the text's lines, cut at separator lines. */
  method SeparateMap(text: string) returns (res: seq<string>)
    ensures res == Separate(Lines(text))
  {
    res := SeparateLines(Lines(text));
  }

  /** The loop of `separate_map` over the lines: a separator line closes
      the piece being built, any other line is added to it with a newline;
      the last piece is closed after the loop. */
  method SeparateLines(lines: seq<string>) returns (res: seq<string>)
    ensures res == Separate(lines)
  {
    var cur := "";
    res := [];
    var i := 0;
    while i < |lines|
      invariant 0 <= i <= |lines|
      invariant SepRun(lines[..i]) == SepState(res, cur)
    {
      SepRunNext(lines, i);
      var line := lines[i];
      if !IsSep(line) {
        AppendAssoc(cur, line, "\n");
        cur := cur + line;
        cur := cur + "\n";
      } else {
        res := res + [cur];
        cur := "";
      }
      i := i + 1;
    }
    assert lines[..i] == lines;
    res := res + [cur];
  }

  /** The state after line i follows from the state before it. */
  lemma SepRunNext(lines: seq<string>, i: nat)
    requires i < |lines|
    ensures var st := SepRun(lines[..i]);
            SepRun(lines[..i + 1])
            == if IsSep(lines[i]) then SepState(st.done + [st.cur], "") else SepState(st.done, st.cur + (lines[i] + "\n"))
  {
    assert lines[..i + 1][..i] == lines[..i];
  }

  /** The number of separator lines. */
  function CountSep(lines: seq<string>): nat
    decreases |lines|
  {
    if |lines| == 0 then 0
    else CountSep(lines[..|lines| - 1]) + (if IsSep(lines[|lines| - 1]) then 1 else 0)
  }

  /** The other lines, in order, each followed by a newline. */
  function Kept(lines: seq<string>): string
    decreases |lines|
  {
    if |lines| == 0 then ""
    else
      var line := lines[|lines| - 1];
      Kept(lines[..|lines| - 1]) + (if IsSep(line) then "" else line + "\n")
  }

  function Flatten(pieces: seq<string>): string
    decreases |pieces|
  {
    if |pieces| == 0 then "" else Flatten(pieces[..|pieces| - 1]) + pieces[|pieces| - 1]
  }

  lemma {:induction false} SepRunCount(lines: seq<string>)
    ensures |SepRun(lines).done| == CountSep(lines)
    decreases |lines|
  {
    if |lines| > 0 {
      SepRunCount(lines[..|lines| - 1]);
    }
  }

  lemma {:induction false} SepRunText(lines: seq<string>)
    ensures Flatten(SepRun(lines).done) + SepRun(lines).cur == Kept(lines)
    decreases |lines|
  {
    if |lines| > 0 {
      var init := lines[..|lines| - 1];
      var line := lines[|lines| - 1];
      SepRunText(init);
      var st := SepRun(init);
      if IsSep(line) {
        var d := st.done + [st.cur];
        assert d[..|d| - 1] == st.done;
        assert Flatten(d) == Flatten(st.done) + st.cur;
        assert Kept(lines) == Kept(init) + "";
        assert Flatten(d) + "" == Flatten(d);
      } else {
        AppendAssoc(Flatten(st.done), st.cur, line + "\n");
      }
    }
  }

  /** Associativity of `+`, stated once so the solver need not search
      for it in SeparateLines and SepRunText. */
  lemma AppendAssoc(a: string, b: string, c: string)
    ensures a + (b + c) == (a + b) + c
  {
  }

  /** `separate_map` returns one piece more than there are separator lines;
      read one after another, the pieces are exactly the other lines, in
      order, each followed by a newline. */
  lemma SeparatePieces(lines: seq<string>)
    ensures |Separate(lines)| == CountSep(lines) + 1
    ensures Flatten(Separate(lines)) == Kept(lines)
  {
    SepRunCount(lines);
    SepRunText(lines);
    var st := SepRun(lines);
    assert (st.done + [st.cur])[..|st.done|] == st.done;
  }

  // ---------------------------------------------------------------------
  // The character grids
  // ---------------------------------------------------------------------

  /** The rows of one storey: its text split at newlines, each row with
      trailing whitespace trimmed. */
  function Rows(piece: string): seq<string>
  {
    var parts := SplitNl(piece);
    seq(|parts|, z requires 0 <= z < |parts| => TrimEnd(parts[z]))
  }

  /** One grid of rows per storey. */
  function Maps(pieces: seq<string>): seq<seq<string>>
  {
    seq(|pieces|, level requires 0 <= level < |pieces| => Rows(pieces[level]))
  }

  /** `row.chars().nth(x)`. */
  function CharAt(row: string, x: int): (r: Option<char>)
    ensures r.Some? <==> 0 <= x < |row|
    ensures r.Some? ==> r.value == row[x]
  {
    if 0 <= x < |row| then Some(row[x]) else None
  }

  /** The character at a place of the building, None outside every grid. */
  function At(maps: seq<seq<string>>, level: int, z: int, x: int): Option<char>
  {
    if 0 <= level < |maps| && 0 <= z < |maps[level]| then CharAt(maps[level][z], x) else None
  }

  /** A cell: storey, row, column. */
  datatype Pos = Pos(level: nat, z: nat, x: nat)

  predicate ValidPos(maps: seq<seq<string>>, p: Pos)
  {
    p.level < |maps| && p.z < |maps[p.level]| && p.x < |maps[p.level][p.z]|
  }

  function CharOf(maps: seq<seq<string>>, p: Pos): char
    requires ValidPos(maps, p)
  {
    maps[p.level][p.z][p.x]
  }

  // ---------------------------------------------------------------------
  // Visible faces
  // ---------------------------------------------------------------------

  /** Which of the six faces of a cell's table are shown, in table order. */
  datatype FaceMask = FaceMask(f0: bool, f1: bool, f2: bool, f3: bool, f4: bool, f5: bool)

  function Bit(b: bool): nat
  {
    if b then 1 else 0
  }

  /** The number of faces a mask shows. */
  function CountShown(m: FaceMask): nat
  {
    Bit(m.f0) + Bit(m.f1) + Bit(m.f2) + Bit(m.f3) + Bit(m.f4) + Bit(m.f5)
  }

  /** The faces `add_floor` shows, in `FLOOR` order (top, underside, left,
      right, front, back), with the conditions as the loader writes them. */
  function FloorMask(maps: seq<seq<string>>, p: Pos): FaceMask
    requires ValidPos(maps, p)
  {
    var rows := maps[p.level];
    var row := rows[p.z];
    var x := p.x;
    var z := p.z;
    FaceMask(
      true,
      p.level != 0,
      x == 0 || CharAt(row, x - 1) != Some('.'),
      x == |row| - 1 || CharAt(row, x + 1) != Some('.'),
      z == 0 || CharAt(rows[z - 1], x) != Some('.'),
      z == |rows| - 1 || CharAt(rows[z + 1], x) != Some('.'))
  }

  /** The faces `add_wall` shows, in `WALL` order (top, underside, front,
      back, left, right). The top shows unless the cell above holds
      something that covers it; the underside shows when the storey below
      has this row and no wall under the cell; each side shows unless a
      wall stands next to it. */
  function WallMask(maps: seq<seq<string>>, p: Pos): FaceMask
    requires ValidPos(maps, p)
  {
    var level := p.level;
    var rows := maps[level];
    var x := p.x;
    var z := p.z;
    FaceMask(
      level >= |maps| - 1 || z >= |maps[level + 1]|
      || CharAt(maps[level + 1][z], x) !in {Some('X'), Some('.'), Some('v'), Some('S'), Some('E')},
      level != 0 && z < |maps[level - 1]| && CharAt(maps[level - 1][z], x) != Some('X'),
      z == 0 || CharAt(rows[z - 1], x) != Some('X'),
      z == |rows| - 1 || CharAt(rows[z + 1], x) != Some('X'),
      x == 0 || CharAt(rows[z], x - 1) != Some('X'),
      x == |rows[z]| - 1 || CharAt(rows[z], x + 1) != Some('X'))
  }

  /** The faces `add_half_wall` shows: those of a wall, except that the top
      always shows. */
  function HalfWallMask(maps: seq<seq<string>>, p: Pos): FaceMask
    requires ValidPos(maps, p)
  {
    WallMask(maps, p).(f0 := true)
  }

  /** A floor always shows its top and shows its underside above the ground
      storey; each side shows exactly when the neighbouring cell on that side
      is not a floor '.' (outside the grid counts as no floor). */
  lemma FloorFaces(maps: seq<seq<string>>, p: Pos)
    requires ValidPos(maps, p)
    ensures FloorMask(maps, p).f0 && (FloorMask(maps, p).f1 <==> p.level > 0)
    ensures FloorMask(maps, p).f2 <==> At(maps, p.level, p.z, p.x - 1) != Some('.')
    ensures FloorMask(maps, p).f3 <==> At(maps, p.level, p.z, p.x + 1) != Some('.')
    ensures FloorMask(maps, p).f4 <==> At(maps, p.level, p.z - 1, p.x) != Some('.')
    ensures FloorMask(maps, p).f5 <==> At(maps, p.level, p.z + 1, p.x) != Some('.')
  {
  }

  /** A wall shows its top unless the cell above holds a wall, a floor, a
      spike, a start or an end; its underside when there is a storey below
      with this row and no wall under it; each side exactly when the
      neighbouring cell on that side is not a wall 'X' (outside the grid
      counts as no wall). */
  lemma WallFaces(maps: seq<seq<string>>, p: Pos)
    requires ValidPos(maps, p)
    ensures WallMask(maps, p).f0 <==> At(maps, p.level + 1, p.z, p.x) !in {Some('X'), Some('.'), Some('v'), Some('S'), Some('E')}
    ensures WallMask(maps, p).f1 <==> p.level > 0 && p.z < |maps[p.level - 1]| && At(maps, p.level - 1, p.z, p.x) != Some('X')
    ensures WallMask(maps, p).f2 <==> At(maps, p.level, p.z - 1, p.x) != Some('X')
    ensures WallMask(maps, p).f3 <==> At(maps, p.level, p.z + 1, p.x) != Some('X')
    ensures WallMask(maps, p).f4 <==> At(maps, p.level, p.z, p.x - 1) != Some('X')
    ensures WallMask(maps, p).f5 <==> At(maps, p.level, p.z, p.x + 1) != Some('X')
  {
  }

  /** A half-wall always shows its top; its other faces show as a wall's
      would. */
  lemma HalfWallFaces(maps: seq<seq<string>>, p: Pos)
    requires ValidPos(maps, p)
    ensures HalfWallMask(maps, p).f0
    ensures HalfWallMask(maps, p).f1 <==> p.level > 0 && p.z < |maps[p.level - 1]| && At(maps, p.level - 1, p.z, p.x) != Some('X')
    ensures HalfWallMask(maps, p).f2 <==> At(maps, p.level, p.z - 1, p.x) != Some('X')
    ensures HalfWallMask(maps, p).f3 <==> At(maps, p.level, p.z + 1, p.x) != Some('X')
    ensures HalfWallMask(maps, p).f4 <==> At(maps, p.level, p.z, p.x - 1) != Some('X')
    ensures HalfWallMask(maps, p).f5 <==> At(maps, p.level, p.z, p.x + 1) != Some('X')
  {
  }

  /** `grid + Mesh::new(face)` when the face is shown. */
  function AddFace(grid: seq<Tri>, show: bool, face: seq<(real, real, real)>): seq<Tri>
  {
    if show then grid + Decode(face) else grid
  }

  /** The grid with the faces the mask selects added in table order (the
      tables have six faces; anything shorter adds nothing). */
  function WithFaces(grid: seq<Tri>, faces: seq<seq<(real, real, real)>>, m: FaceMask): seq<Tri>
  {
    if |faces| < 6 then grid
    else AddFace(AddFace(AddFace(AddFace(AddFace(AddFace(grid,
      m.f0, faces[0]), m.f1, faces[1]), m.f2, faces[2]),
      m.f3, faces[3]), m.f4, faces[4]), m.f5, faces[5])
  }

  /** A shown face adds its two triangles after what is there. */
  lemma AddFaceAfter(grid: seq<Tri>, e: seq<Tri>, show: bool, face: seq<(real, real, real)>)
    requires |face| == 8
    ensures AddFace(grid + e, show, face) == grid + AddFace(e, show, face)
  {
    if show {
      assert (grid + e) + Decode(face) == grid + (e + Decode(face));
    }
  }

  lemma AddFaceLength(e: seq<Tri>, show: bool, face: seq<(real, real, real)>)
    requires |face| == 8
    ensures |AddFace(e, show, face)| == |e| + 2 * Bit(show)
  {
  }

  /** The faces a mask selects come after the grid. */
  lemma WithFacesAfter(grid: seq<Tri>, faces: seq<seq<(real, real, real)>>, m: FaceMask)
    requires |faces| == 6 && forall k :: 0 <= k < 6 ==> |faces[k]| == 8
    ensures WithFaces(grid, faces, m) == grid + WithFaces([], faces, m)
  {
    var e0: seq<Tri> := [];
    assert grid == grid + e0;
    AddFaceAfter(grid, e0, m.f0, faces[0]);
    var e1 := AddFace(e0, m.f0, faces[0]);
    AddFaceAfter(grid, e1, m.f1, faces[1]);
    var e2 := AddFace(e1, m.f1, faces[1]);
    AddFaceAfter(grid, e2, m.f2, faces[2]);
    var e3 := AddFace(e2, m.f2, faces[2]);
    AddFaceAfter(grid, e3, m.f3, faces[3]);
    var e4 := AddFace(e3, m.f3, faces[3]);
    AddFaceAfter(grid, e4, m.f4, faces[4]);
    var e5 := AddFace(e4, m.f4, faces[4]);
    AddFaceAfter(grid, e5, m.f5, faces[5]);
  }

  /** The faces a mask selects add two triangles each. */
  lemma WithFacesCount(grid: seq<Tri>, faces: seq<seq<(real, real, real)>>, m: FaceMask)
    requires |faces| == 6 && forall k :: 0 <= k < 6 ==> |faces[k]| == 8
    ensures |WithFaces(grid, faces, m)| == |grid| + 2 * CountShown(m)
  {
    var g1 := AddFace(grid, m.f0, faces[0]);
    AddFaceLength(grid, m.f0, faces[0]);
    var g2 := AddFace(g1, m.f1, faces[1]);
    AddFaceLength(g1, m.f1, faces[1]);
    var g3 := AddFace(g2, m.f2, faces[2]);
    AddFaceLength(g2, m.f2, faces[2]);
    var g4 := AddFace(g3, m.f3, faces[3]);
    AddFaceLength(g3, m.f3, faces[3]);
    var g5 := AddFace(g4, m.f4, faces[4]);
    AddFaceLength(g4, m.f4, faces[4]);
    AddFaceLength(g5, m.f5, faces[5]);
  }

  // ---------------------------------------------------------------------
  // Collision boxes
  // ---------------------------------------------------------------------

  const FloorBox := NewBox(FloorCollider.0, FloorCollider.1, None)
  const WallBox := NewBox(WallCollider.0, WallCollider.1, None)
  const HalfWallBox := NewBox(HalfWallCollider.0, HalfWallCollider.1, None)
  const StartBox := NewBox(StartCollider.0, StartCollider.1, None)
  const GoalBox := NewBox(GoalCollider.0, GoalCollider.1, Some("goal"))
  const SpikeBox := NewBox(SpikeCollider.0, SpikeCollider.1, Some("spike"))

  // ---------------------------------------------------------------------
  // add_floor, add_wall, add_half_wall, add_spike
  // ---------------------------------------------------------------------

  /** One `if cond { grid = grid + Mesh::new(FACES[k]) }` step of the
      `add_*` functions. */
  method ShowFace(grid: Mesh, show: bool, face: seq<(real, real, real)>) returns (grid': Mesh)
    ensures grid'.tris == AddFace(grid.tris, show, face)
  {
    grid' := grid;
    if show {
      var m := NewMesh(face);
      grid' := Concat(grid', m);
    }
  }

  /** `add_floor`: the floor faces its neighbours leave visible, then its
      box. */
  method AddFloor(grid: Mesh, maps: seq<seq<string>>, p: Pos, colliders: seq<ColliderTerm>)
    returns (grid': Mesh, colliders': seq<ColliderTerm>)
    requires ValidPos(maps, p)
    ensures grid'.tris == WithFaces(grid.tris, Floor, FloorMask(maps, p))
    ensures colliders' == colliders + [FloorBox]
  {
    TableShapes();
    var shown := FloorMask(maps, p);
    grid' := ShowFace(grid, shown.f0, Floor[0]);
    grid' := ShowFace(grid', shown.f1, Floor[1]);
    grid' := ShowFace(grid', shown.f2, Floor[2]);
    grid' := ShowFace(grid', shown.f3, Floor[3]);
    grid' := ShowFace(grid', shown.f4, Floor[4]);
    grid' := ShowFace(grid', shown.f5, Floor[5]);
    colliders' := colliders + [FloorBox];
  }

  /** `add_wall`: the wall faces its neighbours leave visible, then its box. */
  method AddWall(maps: seq<seq<string>>, p: Pos, grid: Mesh, colliders: seq<ColliderTerm>)
    returns (grid': Mesh, colliders': seq<ColliderTerm>)
    requires ValidPos(maps, p)
    ensures grid'.tris == WithFaces(grid.tris, Wall, WallMask(maps, p))
    ensures colliders' == colliders + [WallBox]
  {
    TableShapes();
    var shown := WallMask(maps, p);
    grid' := ShowFace(grid, shown.f0, Wall[0]);
    grid' := ShowFace(grid', shown.f1, Wall[1]);
    grid' := ShowFace(grid', shown.f2, Wall[2]);
    grid' := ShowFace(grid', shown.f3, Wall[3]);
    grid' := ShowFace(grid', shown.f4, Wall[4]);
    grid' := ShowFace(grid', shown.f5, Wall[5]);
    colliders' := colliders + [WallBox];
  }

  /** `add_half_wall`: the half-wall faces its neighbours leave visible,
      then its box. */
  method AddHalfWall(grid: Mesh, maps: seq<seq<string>>, p: Pos, colliders: seq<ColliderTerm>)
    returns (grid': Mesh, colliders': seq<ColliderTerm>)
    requires ValidPos(maps, p)
    ensures grid'.tris == WithFaces(grid.tris, HalfWall, HalfWallMask(maps, p))
    ensures colliders' == colliders + [HalfWallBox]
  {
    TableShapes();
    var shown := HalfWallMask(maps, p);
    grid' := ShowFace(grid, shown.f0, HalfWall[0]);
    grid' := ShowFace(grid', shown.f1, HalfWall[1]);
    grid' := ShowFace(grid', shown.f2, HalfWall[2]);
    grid' := ShowFace(grid', shown.f3, HalfWall[3]);
    grid' := ShowFace(grid', shown.f4, HalfWall[4]);
    grid' := ShowFace(grid', shown.f5, HalfWall[5]);
    colliders' := colliders + [HalfWallBox];
  }

  /** `add_spike`: the spike pyramid and its box, tagged "spike". */
  method AddSpike(grid: Mesh, colliders: seq<ColliderTerm>) returns (grid': Mesh, colliders': seq<ColliderTerm>)
    ensures grid'.tris == grid.tris + Decode(Spike)
    ensures colliders' == colliders + [SpikeBox]
  {
    var spike := NewMesh(Spike);
    grid' := Concat(grid, spike);
    colliders' := colliders + [SpikeBox];
  }

  // ---------------------------------------------------------------------
  // One cell of `load`
  // ---------------------------------------------------------------------

  /** The characters a level may hold; any other one aborts the load. */
  predicate ValidChar(c: char)
  {
    c == 'v' || c == 'X' || c == 'x' || c == '.' || c == 'e' || c == ' ' || c == 'S' || c == 'E'
  }

  /** Where the cell's geometry, boxes and enemy are moved:
      (x·GW, −level·GH, z·GW). */
  function Offset(p: Pos): (r: Vec3)
    ensures r.x == (p.x as real) * GW && r.y == -(p.level as real) * GH && r.z == (p.z as real) * GW
  {
    Vec3((p.x as real) * GW, -((p.level as real) * GH), (p.z as real) * GW)
  }

  /** The player's start for an 'S' cell: the middle of the cell, raised by
      level·GH (upwards, unlike the geometry, which goes down). */
  function StartAt(p: Pos): (r: (real, real, real))
    ensures r.0 == Offset(p).x + GW / 2.0 && r.1 == -Offset(p).y + GH / 2.0 && r.2 == Offset(p).z + GW / 2.0
  {
    ((p.x as real) * GW + GW / 2.0, (p.level as real) * GH + GH * 0.5, (p.z as real) * GW + GW / 2.0)
  }

  /** The triangles the character at p puts into its cell, before they are
      moved. */
  function CellTris(maps: seq<seq<string>>, p: Pos): seq<Tri>
    requires ValidPos(maps, p)
  {
    match CharOf(maps, p)
    case 'v' => WithFaces([], Floor, FloorMask(maps, p)) + Decode(Spike)
    case 'X' => WithFaces([], Wall, WallMask(maps, p))
    case 'x' => WithFaces([], HalfWall, HalfWallMask(maps, p))
    case '.' => WithFaces([], Floor, FloorMask(maps, p))
    case 'e' => WithFaces([], Floor, FloorMask(maps, p))
    case 'S' => Decode(Start)
    case 'E' => Decode(End)
    case _ => []
  }

  /** The boxes a character puts into its cell, before they are moved. */
  function CellBoxes(c: char): (r: seq<ColliderTerm>)
    ensures c == 'E' ==> r == [FloorBox, GoalBox]
    ensures c == 'v' ==> r == [FloorBox, SpikeBox]
    ensures c in {'.', 'e', 'X', 'x', 'S'} ==> |r| == 1 && r[0].NewBox? && r[0].newTag == None
    ensures !ValidChar(c) || c == ' ' ==> r == []
  {
    match c
    case 'v' => [FloorBox, SpikeBox]
    case 'X' => [WallBox]
    case 'x' => [HalfWallBox]
    case '.' => [FloorBox]
    case 'e' => [FloorBox]
    case 'S' => [StartBox]
    case 'E' => [FloorBox, GoalBox]
    case _ => []
  }

  /** What `load` has built so far. */
  datatype LoadState = LoadState(mesh: Mesh, colliders: seq<ColliderTerm>, start: (real, real, real), enemies: seq<Enemies.Enemy>)

  const Init := LoadState(Empty, [], (0.0, 0.0, 0.0), [])

  /** Every box moved to the cell's place, in order. */
  function MoveAll(cs: seq<ColliderTerm>, off: Vec3): (r: seq<ColliderTerm>)
    ensures |r| == |cs| && forall k :: 0 <= k < |cs| ==> r[k] == Translated(cs[k], off)
  {
    seq(|cs|, k requires 0 <= k < |cs| => Translated(cs[k], off))
  }

  /** The effect of the cell at p on what has been built: an invalid
      character is an error; a space adds nothing; any other character adds
      its moved triangles to the mesh and its moved boxes to the colliders,
      an 'S' moves the start and an 'e' adds an enemy. */
  function Step(maps: seq<seq<string>>, st: LoadState, p: Pos): Result<LoadState, char>
    requires ValidPos(maps, p)
  {
    var c := CharOf(maps, p);
    if !ValidChar(c) then Err(c)
    else if c == ' ' then Ok(st)
    else
      var off := Offset(p);
      Ok(LoadState(
        Mesh(st.mesh.tris + ShiftAll(CellTris(maps, p), off)),
        st.colliders + MoveAll(CellBoxes(c), off),
        if c == 'S' then StartAt(p) else st.start,
        if c == 'e' then st.enemies + [Enemies.Translate(Enemies.Default(), off)] else st.enemies))
  }

  predicate AllValid(maps: seq<seq<string>>, ps: seq<Pos>)
  {
    forall i :: 0 <= i < |ps| ==> ValidPos(maps, ps[i])
  }

  /** The cells ps taken in order from the empty start; the first error
      stops the load. */
  function Run(maps: seq<seq<string>>, ps: seq<Pos>): Result<LoadState, char>
    requires AllValid(maps, ps)
    decreases |ps|, 0
  {
    if |ps| == 0 then Ok(Init)
    else After(maps, ps[..|ps| - 1], ps[|ps| - 1])
  }

  /** The cells ps and then the cell p: p is taken unless the load has
      already stopped. */
  function After(maps: seq<seq<string>>, ps: seq<Pos>, p: Pos): Result<LoadState, char>
    requires AllValid(maps, ps) && ValidPos(maps, p)
    decreases |ps|, 1
  {
    match Run(maps, ps)
    case Err(c) => Err(c)
    case Ok(st) => Step(maps, st, p)
  }

  // ---------------------------------------------------------------------
  // Scan order
  // ---------------------------------------------------------------------

  /** The first n cells of row z of a storey, left to right. */
  function RowScan(level: nat, z: nat, n: nat): (r: seq<Pos>)
    ensures |r| == n && forall i :: 0 <= i < n ==> r[i] == Pos(level, z, i)
  {
    seq(n, i requires 0 <= i < n => Pos(level, z, i))
  }

  /** The cells of the first k rows of a storey, row by row. */
  function LevelScan(maps: seq<seq<string>>, level: nat, k: nat): (r: seq<Pos>)
    requires level < |maps| && k <= |maps[level]|
    ensures AllValid(maps, r)
    ensures forall i :: 0 <= i < |r| ==> r[i].level == level && r[i].z < k
    decreases k
  {
    if k == 0 then []
    else LevelScan(maps, level, k - 1) + RowScan(level, k - 1, |maps[level][k - 1]|)
  }

  /** The cells of the first m storeys, storey by storey. */
  function Scan(maps: seq<seq<string>>, m: nat): (r: seq<Pos>)
    requires m <= |maps|
    ensures AllValid(maps, r)
    ensures forall i :: 0 <= i < |r| ==> r[i].level < m
    decreases m
  {
    if m == 0 then []
    else Scan(maps, m - 1) + LevelScan(maps, m - 1, |maps[m - 1]|)
  }

  /** Every cell of the building in the order `load` visits them. */
  function Cells(maps: seq<seq<string>>): (r: seq<Pos>)
    ensures AllValid(maps, r)
  {
    Scan(maps, |maps|)
  }

  // ---------------------------------------------------------------------
  // load
  // ---------------------------------------------------------------------

  /** What `load` returns; the level's name, taken from its file name, is
      not part of this model. */
  datatype LevelMap = LevelMap(mesh: Mesh, colliders: seq<ColliderTerm>, startPos: (real, real, real),
                               mapString: string, enemies: seq<Enemies.Enemy>)

  /** The level `load` builds from the text of a level file, or the first
      invalid character it meets. */
  function LoadLevel(text: string): Result<LevelMap, char>
  {
    var maps := MapsOf(text);
    match Run(maps, Cells(maps))
    case Err(c) => Err(c)
    case Ok(st) => Ok(LevelMap(st.mesh, st.colliders, st.start, text, st.enemies))
  }

  // ---------------------------------------------------------------------
  // The scan, one cell more
  // ---------------------------------------------------------------------

  /** Running one cell more is one step more, unless an error has already
      stopped the load. */
  lemma RunSnoc(maps: seq<seq<string>>, ps: seq<Pos>, p: Pos)
    requires AllValid(maps, ps) && ValidPos(maps, p)
    ensures AllValid(maps, ps + [p])
    ensures Run(maps, ps + [p]) == if Run(maps, ps).Err? then Run(maps, ps) else Step(maps, Run(maps, ps).value, p)
  {
    assert (ps + [p])[..|ps|] == ps;
  }

  /** Once the load has stopped at an error, no further cell changes that. */
  lemma {:induction false} RunSticky(maps: seq<seq<string>>, ps: seq<Pos>, qs: seq<Pos>)
    requires AllValid(maps, qs) && ps <= qs && AllValid(maps, ps)
    requires Run(maps, ps).Err?
    ensures Run(maps, qs) == Run(maps, ps)
    decreases |qs|
  {
    if |qs| > |ps| {
      var init := qs[..|qs| - 1];
      assert ps <= init;
      RunSticky(maps, ps, init);
    } else {
      assert ps == qs;
    }
  }

  /** The scan up to and including cell (level, z, x) is the scan up to it
      followed by that cell. */
  lemma ScanSnoc(maps: seq<seq<string>>, level: nat, z: nat, x: nat)
    requires ValidPos(maps, Pos(level, z, x))
    ensures var pre := Scan(maps, level) + LevelScan(maps, level, z);
            pre + RowScan(level, z, x + 1) == (pre + RowScan(level, z, x)) + [Pos(level, z, x)]
  {
    assert RowScan(level, z, x + 1) == RowScan(level, z, x) + [Pos(level, z, x)];
  }

  /** Every cell of the scan up to (level, z, x) is a cell of the grids. */
  predicate ScanValid(maps: seq<seq<string>>, level: nat, z: nat, x: nat)
    requires level < |maps| && z < |maps[level]|
  {
    AllValid(maps, Scan(maps, level) + LevelScan(maps, level, z) + RowScan(level, z, x))
  }

  /** Appending nothing: a step stated on its own so that the loop proofs
      do not search for it. */
  lemma NothingMore(a: seq<Pos>, b: seq<Pos>)
    requires |b| == 0
    ensures a + b == a
  {
  }

  /** One unfolding of Scan, stated on its own so that LoadStorey does
      not search for it. */
  lemma StoreyDone(maps: seq<seq<string>>, level: nat)
    requires level < |maps|
    ensures Scan(maps, level + 1) == Scan(maps, level) + LevelScan(maps, level, |maps[level]|)
  {
  }

  /** The scan up to the end of row z is the scan up to row z + 1. */
  lemma RowDone(maps: seq<seq<string>>, level: nat, z: nat)
    requires level < |maps| && z < |maps[level]|
    ensures Scan(maps, level) + LevelScan(maps, level, z + 1)
            == Scan(maps, level) + LevelScan(maps, level, z) + RowScan(level, z, |maps[level][z]|)
  {
    assert LevelScan(maps, level, z + 1) == LevelScan(maps, level, z) + RowScan(level, z, |maps[level][z]|);
  }

  lemma {:induction false} LevelScanGrows(maps: seq<seq<string>>, level: nat, j: nat, k: nat)
    requires level < |maps| && j <= k <= |maps[level]|
    ensures LevelScan(maps, level, j) <= LevelScan(maps, level, k)
    decreases k
  {
    if j < k {
      LevelScanGrows(maps, level, j, k - 1);
    }
  }

  lemma {:induction false} ScanGrows(maps: seq<seq<string>>, j: nat, k: nat)
    requires j <= k <= |maps|
    ensures Scan(maps, j) <= Scan(maps, k)
    decreases k
  {
    if j < k {
      ScanGrows(maps, j, k - 1);
    }
  }

  lemma PrefixAppend(a: seq<Pos>, b: seq<Pos>, c: seq<Pos>)
    requires b <= c
    ensures a + b <= a + c
  {
    assert (a + c)[..|a + b|] == a + c[..|b|];
  }

  /** The scan up to and including cell (level, z, x) is a prefix of the
      scan to the end of its row. */
  lemma RowPrefix(maps: seq<seq<string>>, level: nat, z: nat, x: nat)
    requires ValidPos(maps, Pos(level, z, x))
    ensures Scan(maps, level) + LevelScan(maps, level, z) + RowScan(level, z, x + 1)
            <= Scan(maps, level) + LevelScan(maps, level, z) + RowScan(level, z, |maps[level][z]|)
  {
    assert RowScan(level, z, x + 1) <= RowScan(level, z, |maps[level][z]|);
    PrefixAppend(Scan(maps, level) + LevelScan(maps, level, z), RowScan(level, z, x + 1), RowScan(level, z, |maps[level][z]|));
  }

  /** A load that has stopped within the first k rows of a storey has
      stopped by the end of the storey. */
  lemma StoreyStops(maps: seq<seq<string>>, level: nat, k: nat)
    requires level < |maps| && k <= |maps[level]|
    requires Run(maps, Scan(maps, level) + LevelScan(maps, level, k)).Err?
    ensures Run(maps, Scan(maps, level + 1)) == Run(maps, Scan(maps, level) + LevelScan(maps, level, k))
  {
    LevelScanGrows(maps, level, k, |maps[level]|);
    PrefixAppend(Scan(maps, level), LevelScan(maps, level, k), LevelScan(maps, level, |maps[level]|));
    RunSticky(maps, Scan(maps, level) + LevelScan(maps, level, k), Scan(maps, level + 1));
  }

  /** A load that has stopped within the first m storeys has stopped for
      good. */
  lemma ScanStops(maps: seq<seq<string>>, m: nat)
    requires m <= |maps| && Run(maps, Scan(maps, m)).Err?
    ensures Run(maps, Cells(maps)) == Run(maps, Scan(maps, m))
  {
    ScanGrows(maps, m, |maps|);
    RunSticky(maps, Scan(maps, m), Cells(maps));
  }

  // ---------------------------------------------------------------------
  // load, imperatively
  // ---------------------------------------------------------------------

  /** Moves the cell's boxes to its place and pushes them, in order. */
  method PushMoved(colliders: seq<ColliderTerm>, boxes: seq<ColliderTerm>, off: Vec3)
    returns (colliders': seq<ColliderTerm>)
    ensures colliders' == colliders + MoveAll(boxes, off)
  {
    colliders' := colliders;
    var i := 0;
    while i < |boxes|
      invariant 0 <= i <= |boxes|
      invariant colliders' == colliders + MoveAll(boxes[..i], off)
    {
      assert MoveAll(boxes[..i + 1], off) == MoveAll(boxes[..i], off) + [Translated(boxes[i], off)];
      colliders' := colliders' + [Translated(boxes[i], off)];
      i := i + 1;
    }
    assert boxes[..i] == boxes;
  }

  /** The arms of `load`'s match on the character: the triangles and boxes
      of the cell at p, before they are moved. */
  method CellContents(maps: seq<seq<string>>, p: Pos) returns (grid: Mesh, boxes: seq<ColliderTerm>)
    requires ValidPos(maps, p)
    ensures grid.tris == CellTris(maps, p)
    ensures boxes == CellBoxes(CharOf(maps, p))
  {
    grid := Mesh([]);
    boxes := [];
    match maps[p.level][p.z][p.x] {
      case 'v' =>
        grid, boxes := AddFloor(grid, maps, p, boxes);
        grid, boxes := AddSpike(grid, boxes);
      case 'X' =>
        grid, boxes := AddWall(maps, p, grid, boxes);
      case 'x' =>
        grid, boxes := AddHalfWall(grid, maps, p, boxes);
      case '.' =>
        grid, boxes := AddFloor(grid, maps, p, boxes);
      case 'e' =>
        grid, boxes := AddFloor(grid, maps, p, boxes);
      case 'S' =>
        grid := NewMesh(Start);
        boxes := boxes + [StartBox];
      case 'E' =>
        grid := NewMesh(End);
        boxes := boxes + [FloorBox];
        boxes := boxes + [GoalBox];
      case _ =>
    }
  }

  /** The body of `load`'s innermost loop: the cell at p. An invalid
      character stops the load, a space is skipped; otherwise the cell's
      triangles and boxes are moved to its place and added, an 'S' moves
      the start and an 'e' adds an enemy. */
  method LoadCell(maps: seq<seq<string>>, p: Pos, st: LoadState) returns (r: Result<LoadState, char>)
    requires ValidPos(maps, p)
    ensures r == Step(maps, st, p)
  {
    var ch := maps[p.level][p.z][p.x];
    if !ValidChar(ch) {
      return Err(ch);
    }
    if ch == ' ' {
      return Ok(st);
    }
    var grid, boxes := CellContents(maps, p);
    var off := Offset(p);
    var start := st.start;
    var enemies := st.enemies;
    if ch == 'S' {
      start := StartAt(p);
    }
    if ch == 'e' {
      enemies := enemies + [Enemies.Translate(Enemies.Default(), off)];
    }
    grid := TranslateTris(grid, off);
    var mesh := Concat(st.mesh, grid);
    var colliders := PushMoved(st.colliders, boxes, off);
    r := Ok(LoadState(mesh, colliders, start, enemies));
  }

  /** The innermost loop of `load`: the cells of one non-empty row, left
      to right. An invalid character stops the loop; the result is that of
      running the scan to the end of the row either way. */
  method LoadRow(maps: seq<seq<string>>, level: nat, z: nat, st: LoadState) returns (r: Result<LoadState, char>)
    requires level < |maps| && z < |maps[level]|
    requires Run(maps, Scan(maps, level) + LevelScan(maps, level, z)) == Ok(st)
    ensures ScanValid(maps, level, z, |maps[level][z]|)
    ensures r == Run(maps, Scan(maps, level) + LevelScan(maps, level, z) + RowScan(level, z, |maps[level][z]|))
  {
    var row := maps[level][z];
    var cur := st;
    var x := 0;
    NothingMore(Scan(maps, level) + LevelScan(maps, level, z), RowScan(level, z, 0));
    while x < |row|
      invariant x <= |row|
      invariant ScanValid(maps, level, z, x)
      invariant Run(maps, Scan(maps, level) + LevelScan(maps, level, z) + RowScan(level, z, x)) == Ok(cur)
    {
      var p := Pos(level, z, x);
      var pre := Scan(maps, level) + LevelScan(maps, level, z) + RowScan(level, z, x);
      ScanSnoc(maps, level, z, x);
      RunSnoc(maps, pre, p);
      var res := LoadCell(maps, p, cur);
      if res.Err? {
        RowPrefix(maps, level, z, x);
        RunSticky(maps, pre + [p], Scan(maps, level) + LevelScan(maps, level, z) + RowScan(level, z, |row|));
        return res;
      }
      cur := res.value;
      x := x + 1;
    }
    r := Ok(cur);
  }

  /** One pass of the middle loop of `load`: an empty row is skipped, any
      other is loaded by LoadRow. */
  method VisitRow(maps: seq<seq<string>>, level: nat, z: nat, st: LoadState) returns (r: Result<LoadState, char>)
    requires level < |maps| && z < |maps[level]|
    requires Run(maps, Scan(maps, level) + LevelScan(maps, level, z)) == Ok(st)
    ensures r == Run(maps, Scan(maps, level) + LevelScan(maps, level, z + 1))
  {
    RowDone(maps, level, z);
    if |maps[level][z]| == 0 {
      NothingMore(Scan(maps, level) + LevelScan(maps, level, z), RowScan(level, z, 0));
      return Ok(st);
    }
    r := LoadRow(maps, level, z, st);
  }

  /** The middle loop of `load`: the rows of storey `level`, top to
      bottom. An invalid character stops the loop. */
  method LoadStorey(maps: seq<seq<string>>, level: nat, st: LoadState) returns (r: Result<LoadState, char>)
    requires level < |maps|
    requires Run(maps, Scan(maps, level)) == Ok(st)
    ensures r == Run(maps, Scan(maps, level + 1))
  {
    var cur := st;
    var z := 0;
    NothingMore(Scan(maps, level), LevelScan(maps, level, 0));
    while z < |maps[level]|
      invariant z <= |maps[level]|
      invariant Run(maps, Scan(maps, level) + LevelScan(maps, level, z)) == Ok(cur)
    {
      r := VisitRow(maps, level, z, cur);
      if r.Err? {
        StoreyStops(maps, level, z + 1);
        return;
      }
      cur := r.value;
      z := z + 1;
    }
    StoreyDone(maps, level);
    r := Ok(cur);
  }

  /** The outer loop of `load` over the grids, storey by storey. */
  method LoadMaps(maps: seq<seq<string>>) returns (r: Result<LoadState, char>)
    ensures r == Run(maps, Cells(maps))
  {
    var st := Init;
    var level := 0;
    while level < |maps|
      invariant level <= |maps|
      invariant Run(maps, Scan(maps, level)) == Ok(st)
    {
      r := LoadStorey(maps, level, st);
      if r.Err? {
        ScanStops(maps, level + 1);
        return;
      }
      st := r.value;
      level := level + 1;
    }
    r := Ok(st);
  }

  /** `load`, with the text of the level file given. */
  method Load(text: string) returns (r: Result<LevelMap, char>)
    ensures r == LoadLevel(text)
  {
    var sepMap := SeparateMap(text);
    var maps := Maps(sepMap);
    assert maps == MapsOf(text);
    var built := LoadMaps(maps);
    match built {
      case Err(c) => r := Err(c);
      case Ok(st) => r := Ok(LevelMap(st.mesh, st.colliders, st.start, text, st.enemies));
    }
  }

  // ---------------------------------------------------------------------
  // What a load produces
  // ---------------------------------------------------------------------

  /** The cells among ps that hold c, in scan order. */
  function Where(maps: seq<seq<string>>, ps: seq<Pos>, c: char): (r: seq<Pos>)
    requires AllValid(maps, ps)
    ensures |r| <= |ps|
    ensures AllValid(maps, r) && forall k :: 0 <= k < |r| ==> CharOf(maps, r[k]) == c
    decreases |ps|
  {
    if |ps| == 0 then []
    else
      var last := ps[|ps| - 1];
      Where(maps, ps[..|ps| - 1], c) + (if CharOf(maps, last) == c then [last] else [])
  }

  /** The number of colliders made with the given tag. */
  function Tagged(cs: seq<ColliderTerm>, tag: string): nat
    decreases |cs|
  {
    if |cs| == 0 then 0
    else Tagged(cs[..|cs| - 1], tag) + (if MadeWith(cs[|cs| - 1]) == Some(tag) then 1 else 0)
  }

  lemma {:induction false} TaggedAppend(a: seq<ColliderTerm>, b: seq<ColliderTerm>, tag: string)
    ensures Tagged(a + b, tag) == Tagged(a, tag) + Tagged(b, tag)
    decreases |b|
  {
    if |b| == 0 {
      assert a + b == a;
    } else {
      TaggedAppend(a, b[..|b| - 1], tag);
      assert (a + b)[..|a + b| - 1] == a + b[..|b| - 1];
    }
  }

  /** Only an 'E' cell adds a box tagged "goal", and only a 'v' cell one
      tagged "spike"; each adds exactly one. */
  lemma CellTags(c: char, off: Vec3)
    ensures Tagged(MoveAll(CellBoxes(c), off), "goal") == if c == 'E' then 1 else 0
    ensures Tagged(MoveAll(CellBoxes(c), off), "spike") == if c == 'v' then 1 else 0
  {
    var m := MoveAll(CellBoxes(c), off);
    if c == 'E' || c == 'v' {
      assert m == [m[0], m[1]];
      TaggedPair(m[0], m[1], "goal");
      TaggedPair(m[0], m[1], "spike");
    } else if |m| == 1 {
      assert m == [m[0]];
      TaggedPair(m[0], m[0], "goal");
      TaggedPair(m[0], m[0], "spike");
    }
  }

  lemma TaggedPair(a: ColliderTerm, b: ColliderTerm, tag: string)
    ensures Tagged([a], tag) == if MadeWith(a) == Some(tag) then 1 else 0
    ensures Tagged([a, b], tag) == Tagged([a], tag) + if MadeWith(b) == Some(tag) then 1 else 0
  {
    assert [a][..0] == [];
    assert [a, b][..1] == [a];
  }

  /** Every cell among ps holds one of the characters a level may hold. */
  predicate AllChars(maps: seq<seq<string>>, ps: seq<Pos>)
    requires AllValid(maps, ps)
  {
    forall i :: 0 <= i < |ps| ==> ValidChar(CharOf(maps, ps[i]))
  }

  /** The load stops exactly when some cell holds a character outside
      {v, X, x, ., e, S, E, space}. */
  lemma RunFails(maps: seq<seq<string>>, ps: seq<Pos>)
    requires AllValid(maps, ps)
    ensures Run(maps, ps).Ok? <==> AllChars(maps, ps)
  {
    if Run(maps, ps).Ok? {
      RunOkChars(maps, ps);
    } else {
      RunFirstError(maps, ps);
    }
  }

  lemma {:induction false} RunOkChars(maps: seq<seq<string>>, ps: seq<Pos>)
    requires AllValid(maps, ps) && Run(maps, ps).Ok?
    ensures AllChars(maps, ps)
    decreases |ps|
  {
    if |ps| > 0 {
      var n := |ps| - 1;
      var init := ps[..n];
      RunOkChars(maps, init);
      StepError(maps, Run(maps, init).value, ps[n]);
      CharsSnoc(maps, ps);
    }
  }

  lemma CharsSnoc(maps: seq<seq<string>>, ps: seq<Pos>)
    requires AllValid(maps, ps) && |ps| > 0
    requires AllChars(maps, ps[..|ps| - 1]) && ValidChar(CharOf(maps, ps[|ps| - 1]))
    ensures AllChars(maps, ps)
  {
    var n := |ps| - 1;
    forall i | 0 <= i < |ps|
      ensures ValidChar(CharOf(maps, ps[i]))
    {
      if i < n {
        assert ps[i] == ps[..n][i];
      }
    }
  }

  /** When the load stops, it reports the first invalid character in scan
      order. */
  lemma {:induction false} RunFirstError(maps: seq<seq<string>>, ps: seq<Pos>)
    requires AllValid(maps, ps) && Run(maps, ps).Err?
    ensures exists i :: 0 <= i < |ps| && Run(maps, ps).error == CharOf(maps, ps[i])
              && !ValidChar(CharOf(maps, ps[i])) && AllChars(maps, ps[..i])
    decreases |ps|
  {
    var n := |ps| - 1;
    var init := ps[..n];
    var r := Run(maps, init);
    if r.Err? {
      RunFirstError(maps, init);
      var i :| 0 <= i < n && r.error == CharOf(maps, init[i])
               && !ValidChar(CharOf(maps, init[i])) && AllChars(maps, init[..i]);
      assert init[i] == ps[i] && init[..i] == ps[..i];
    } else {
      StepError(maps, r.value, ps[n]);
      RunOkChars(maps, init);
      assert init == ps[..n];
    }
  }

  lemma StepError(maps: seq<seq<string>>, st: LoadState, p: Pos)
    requires ValidPos(maps, p)
    ensures Step(maps, st, p).Err? <==> !ValidChar(CharOf(maps, p))
    ensures Step(maps, st, p).Err? ==> Step(maps, st, p).error == CharOf(maps, p)
  {
  }

  /** A load that succeeds adds one enemy per 'e' cell, in scan order, each
      the default enemy moved to its cell. */
  lemma {:induction false} RunEnemies(maps: seq<seq<string>>, ps: seq<Pos>)
    requires AllValid(maps, ps) && Run(maps, ps).Ok?
    ensures var es := Where(maps, ps, 'e');
            |Run(maps, ps).value.enemies| == |es|
            && forall k :: 0 <= k < |es| ==>
                 Run(maps, ps).value.enemies[k] == Enemies.Translate(Enemies.Default(), Offset(es[k]))
    decreases |ps|
  {
    if |ps| > 0 {
      RunEnemies(maps, ps[..|ps| - 1]);
    }
  }

  /** A load that succeeds has one "goal" box per 'E' cell and one "spike"
      box per 'v' cell. */
  lemma {:induction false} RunTags(maps: seq<seq<string>>, ps: seq<Pos>)
    requires AllValid(maps, ps) && Run(maps, ps).Ok?
    ensures Tagged(Run(maps, ps).value.colliders, "goal") == |Where(maps, ps, 'E')|
    ensures Tagged(Run(maps, ps).value.colliders, "spike") == |Where(maps, ps, 'v')|
    decreases |ps|
  {
    if |ps| > 0 {
      var init := ps[..|ps| - 1];
      var p := ps[|ps| - 1];
      RunTags(maps, init);
      var c := CharOf(maps, p);
      if c != ' ' {
        var st := Run(maps, init).value;
        TaggedAppend(st.colliders, MoveAll(CellBoxes(c), Offset(p)), "goal");
        TaggedAppend(st.colliders, MoveAll(CellBoxes(c), Offset(p)), "spike");
        CellTags(c, Offset(p));
      }
    }
  }

  /** A load that succeeds has one box per cell that is not a space, and a
      second one per 'E' and per 'v' cell. */
  lemma {:induction false} RunColliderCount(maps: seq<seq<string>>, ps: seq<Pos>)
    requires AllValid(maps, ps) && Run(maps, ps).Ok?
    ensures |Run(maps, ps).value.colliders|
            == |ps| - |Where(maps, ps, ' ')| + |Where(maps, ps, 'E')| + |Where(maps, ps, 'v')|
    decreases |ps|
  {
    if |ps| > 0 {
      RunColliderCount(maps, ps[..|ps| - 1]);
    }
  }

  /** A load that succeeds starts the player at the last 'S' cell in scan
      order, or at the origin when there is none. */
  /** Where the player starts after a load that put the 'S' cells ss in
      that order: the last of them, or the origin with none. */
  function LastStart(ss: seq<Pos>): (real, real, real)
  {
    if |ss| == 0 then (0.0, 0.0, 0.0) else StartAt(ss[|ss| - 1])
  }

  lemma {:induction false} RunStart(maps: seq<seq<string>>, ps: seq<Pos>)
    requires AllValid(maps, ps) && Run(maps, ps).Ok?
    ensures Run(maps, ps).value.start == LastStart(Where(maps, ps, 'S'))
    decreases |ps|
  {
    if |ps| > 0 {
      RunStart(maps, ps[..|ps| - 1]);
      StartStep(maps, ps);
    }
  }

  /** One more cell keeps the start at the last 'S'. */
  lemma StartStep(maps: seq<seq<string>>, ps: seq<Pos>)
    requires AllValid(maps, ps) && |ps| > 0 && Run(maps, ps).Ok?
    requires Run(maps, ps[..|ps| - 1]).Ok?
    requires Run(maps, ps[..|ps| - 1]).value.start == LastStart(Where(maps, ps[..|ps| - 1], 'S'))
    ensures Run(maps, ps).value.start == LastStart(Where(maps, ps, 'S'))
  {
    var init := ps[..|ps| - 1];
    var p := ps[|ps| - 1];
    StepStart(maps, Run(maps, init).value, p);
    if CharOf(maps, p) == 'S' {
      assert Where(maps, ps, 'S') == Where(maps, init, 'S') + [p];
    } else {
      assert Where(maps, ps, 'S') == Where(maps, init, 'S');
    }
  }

  lemma StepStart(maps: seq<seq<string>>, st: LoadState, p: Pos)
    requires ValidPos(maps, p) && Step(maps, st, p).Ok?
    ensures Step(maps, st, p).value.start == if CharOf(maps, p) == 'S' then StartAt(p) else st.start
  {
  }

  // ---------------------------------------------------------------------
  // The scan visits every cell once, in order
  // ---------------------------------------------------------------------

  /** p comes before q: a lower storey, or the same storey and an earlier
      row, or the same row and an earlier column. */
  predicate Before(p: Pos, q: Pos)
  {
    p.level < q.level || (p.level == q.level && (p.z < q.z || (p.z == q.z && p.x < q.x)))
  }

  predicate InOrder(ps: seq<Pos>)
  {
    forall i, j :: 0 <= i < j < |ps| ==> Before(ps[i], ps[j])
  }

  lemma OrderedAppend(a: seq<Pos>, b: seq<Pos>)
    requires InOrder(a) && InOrder(b)
    requires forall i, j :: 0 <= i < |a| && 0 <= j < |b| ==> Before(a[i], b[j])
    ensures InOrder(a + b)
  {
    forall i, j | 0 <= i < j < |a + b|
      ensures Before((a + b)[i], (a + b)[j])
    {
      if j < |a| {
      } else if i >= |a| {
        assert (a + b)[i] == b[i - |a|] && (a + b)[j] == b[j - |a|];
      } else {
        assert (a + b)[i] == a[i] && (a + b)[j] == b[j - |a|];
      }
    }
  }

  lemma {:induction false} LevelScanInOrder(maps: seq<seq<string>>, level: nat, k: nat)
    requires level < |maps| && k <= |maps[level]|
    ensures InOrder(LevelScan(maps, level, k))
    decreases k
  {
    if k > 0 {
      LevelScanInOrder(maps, level, k - 1);
      OrderedAppend(LevelScan(maps, level, k - 1), RowScan(level, k - 1, |maps[level][k - 1]|));
    }
  }

  lemma {:induction false} ScanInOrder(maps: seq<seq<string>>, m: nat)
    requires m <= |maps|
    ensures InOrder(Scan(maps, m))
    decreases m
  {
    if m > 0 {
      ScanInOrder(maps, m - 1);
      LevelScanInOrder(maps, m - 1, |maps[m - 1]|);
      OrderedAppend(Scan(maps, m - 1), LevelScan(maps, m - 1, |maps[m - 1]|));
    }
  }

  lemma {:induction false} InLevelScan(maps: seq<seq<string>>, p: Pos, k: nat)
    requires ValidPos(maps, p) && p.z < k <= |maps[p.level]|
    ensures p in LevelScan(maps, p.level, k)
    decreases k
  {
    if p.z < k - 1 {
      InLevelScan(maps, p, k - 1);
    } else {
      assert RowScan(p.level, p.z, |maps[p.level][p.z]|)[p.x] == p;
    }
  }

  lemma {:induction false} InScan(maps: seq<seq<string>>, p: Pos, m: nat)
    requires ValidPos(maps, p) && p.level < m <= |maps|
    ensures p in Scan(maps, m)
    decreases m
  {
    if p.level < m - 1 {
      InScan(maps, p, m - 1);
    } else {
      InLevelScan(maps, p, |maps[p.level]|);
    }
  }

  /** `load` visits exactly the cells of the grids, storey by storey, row
      by row, column by column, each once. */
  lemma ScanOrder(maps: seq<seq<string>>)
    ensures forall p :: p in Cells(maps) <==> ValidPos(maps, p)
    ensures InOrder(Cells(maps))
  {
    forall p | ValidPos(maps, p)
      ensures p in Cells(maps)
    {
      InScan(maps, p, |maps|);
    }
    ScanInOrder(maps, |maps|);
  }

  // ---------------------------------------------------------------------
  // The size of a cell
  // ---------------------------------------------------------------------

  /** The triangles of a cell: two per shown face of a floor, wall or
      half-wall (a floor and a half-wall always show their top, so 2 to 12),
      the spike's four more on a 'v', twelve for a start, 24 for an end and
      none for a space. */
  lemma CellSize(maps: seq<seq<string>>, p: Pos)
    requires ValidPos(maps, p)
    ensures var c := CharOf(maps, p);
            var n := |CellTris(maps, p)|;
            (c == '.' || c == 'e' ==> n == 2 * CountShown(FloorMask(maps, p)) && 2 <= n <= 12)
            && (c == 'v' ==> n == 2 * CountShown(FloorMask(maps, p)) + 4)
            && (c == 'X' ==> n == 2 * CountShown(WallMask(maps, p)))
            && (c == 'x' ==> n == 2 * CountShown(HalfWallMask(maps, p)) && 2 <= n <= 12)
            && (c == 'S' ==> n == 12) && (c == 'E' ==> n == 24) && (c == ' ' ==> n == 0)
  {
    TableShapes();
    WithFacesCount([], Floor, FloorMask(maps, p));
    WithFacesCount([], Wall, WallMask(maps, p));
    WithFacesCount([], HalfWall, HalfWallMask(maps, p));
  }

  // ---------------------------------------------------------------------
  // load, end to end
  // ---------------------------------------------------------------------

  /** The grids of a level file's text. */
  function MapsOf(text: string): seq<seq<string>>
  {
    Maps(Separate(Lines(text)))
  }

  /** `load` fails exactly when the level holds a character it does not
      know, and then reports the first one in scan order. */
  lemma LoadFails(text: string)
    ensures LoadLevel(text).Ok? <==> AllChars(MapsOf(text), Cells(MapsOf(text)))
  {
    RunFails(MapsOf(text), Cells(MapsOf(text)));
  }

  lemma LoadError(text: string, c: char)
    requires LoadLevel(text) == Err(c)
    ensures var maps := MapsOf(text);
            var cells := Cells(maps);
            exists i :: 0 <= i < |cells| && c == CharOf(maps, cells[i])
              && !ValidChar(c) && AllChars(maps, cells[..i])
  {
    RunFirstError(MapsOf(text), Cells(MapsOf(text)));
  }

  /** A level that loads keeps its text, has one enemy per 'e', one "goal"
      box per 'E', one "spike" box per 'v', one box per cell that is not a
      space plus one per 'E' and 'v', and starts the player at the last
      'S'. */
  lemma LoadOk(text: string, lm: LevelMap)
    requires LoadLevel(text) == Ok(lm)
    ensures var maps := MapsOf(text);
            var cells := Cells(maps);
            var ss := Where(maps, cells, 'S');
            lm.mapString == text
            && |lm.enemies| == |Where(maps, cells, 'e')|
            && Tagged(lm.colliders, "goal") == |Where(maps, cells, 'E')|
            && Tagged(lm.colliders, "spike") == |Where(maps, cells, 'v')|
            && |lm.colliders| == |cells| - |Where(maps, cells, ' ')| + |Where(maps, cells, 'E')| + |Where(maps, cells, 'v')|
            && lm.startPos == if |ss| == 0 then (0.0, 0.0, 0.0) else StartAt(ss[|ss| - 1])
  {
    var maps := MapsOf(text);
    var cells := Cells(maps);
    RunEnemies(maps, cells);
    RunTags(maps, cells);
    RunColliderCount(maps, cells);
    RunStart(maps, cells);
  }
}
