# TermTrack in Dafny

TermTrack is a terminal racing and platforming game. Levels are drawn as
character grids, and each frame is ray-cast onto the terminal one coloured
cell at a time. This project models the game's core and proves properties
of it:

- **Mat** (`src/mat.rs`): the vector arithmetic and the Möller–Trumbore
  ray/triangle test (`hit_mt`). Also meshes, decoded from a flat vertex
  stream (`Mesh::new`), joined with `+` and moved triangle by triangle.
- **LevelGeometry** and **Loader** (`src/loader.rs`):
  - the geometry tables;
  - `separate_map`, which cuts the level text at `sep` lines;
  - `load`, which walks the three-level character grid and compiles every
    cell into triangles, colliders, enemies and the start position;
  - `add_floor`, `add_wall`, `add_half_wall` and `add_spike`, which pick the
    faces to emit from the neighbouring characters.

  The nested loops of `load` are proved equal to a left fold of one cell
  step over the cells in scan order (level, row, column). The counting,
  ordering, tagging and error properties are proved about that fold.
- **Collider**: the collision box type, which `src/loader.rs` and
  `src/enemies.rs` use. `BoxCollider::new` and `translate` are kept as
  symbolic terms.
- **Enemies** (`src/enemies.rs`): the default enemy, `translate`,
  `get_mesh`, `get_collider` and `update`.
- **Camera** (`src/camera.rs`): a class whose `update_pos` moves the
  position in place.
- **Renderer** (`src/renderer.rs`): a `Screen` class with its pixel buffer.
  - `render` fills every pixel with the fogged colour of the nearest
    triangle its ray hits, then flushes.
  - `flush` emits the buffer as byte triples and clears it.
- **Screens** (`src/screens.rs`):
  - the menu's scroll window and selection keys, in u16 arithmetic;
  - the yes/no toggles of `game_over` and `exit`;
  - the name typing and the leaderboard listing of `finish`.
- **RustStr**: the parts of Rust's string library the loader uses
  (`lines`, `split("\n")`, `trim`, `trim_end`).

Modelling conventions:

- `f64` is modelled by `real`.
- A Rust panic is an `Err` or `None` result.
- The keyboard is modelled as a sequence of polls, each poll the set of keys
  held at that moment.
- The ray-triangle test that `render` calls and the camera rotation are
  function parameters (`HitTest`, `Rotation`). `src/renderer.rs:96` calls a
  `tri.hit` that `src/mat.rs` does not define, and the rotation is
  trigonometry.

Details of the code that the model keeps:

- **Pixel vector.** `y` is `(y - h/2) / m` with `m = min(w, h)/2`. The ray
  starts at `camera.pos` plus the rotated pixel vector, not at the camera
  itself.
- **Fog.** No shading term is applied beyond the fog.
- **Start position.** The height is `+level·GH + GH/2`, while the cell
  geometry is moved by `-level·GH`.

## Model

| member | source | states |
|---|---|---|
| Mat.Add | src/mat.rs:196-206 | adding b and then subtracting b gives back a |
| Mat.Div | src/mat.rs:232-238 | dividing by s and then scaling by s gives back a (s non-zero) |
| Mat.AddComponentwise | src/mat.rs:196-230 | + is commutative and has the zero vector as identity; a − b is a + (−1)·b |
| Mat.DotSymmetric | src/mat.rs:26-28 | dot(a, b) = dot(b, a) |
| Mat.CrossAntiCommutative | src/mat.rs:34-40 | cross(a, b) = −cross(b, a), and cross(a, a) is the zero vector |
| Mat.CrossOrthogonal | src/mat.rs:34-40 | cross(a, b) is orthogonal to a and to b |
| Mat.DivIsScaleByReciprocal | src/mat.rs:232-238 | a / s = a·(1/s), and (a·s)/s = a |
| Mat.HitMT | src/mat.rs:110-134 | a miss reports distance 0; \|det\| < 0.001 is a miss; a hit has u in [0,1], v ≥ 0, u + v ≤ 1 and a distance ≥ 0 equal to the ray parameter |
| Mat.DegenerateTriangleNeverHit | src/mat.rs:111-117 | a triangle with v1 = v0 or v2 = v0 is never hit |
| Mat.RayMeetsPlaneAt | src/mat.rs:118-133 | with a non-zero determinant, the ray point at the reported distance is v0 + u·(v1−v0) + v·(v2−v0) |
| Mat.HitPointInTriangle | src/mat.rs:110-134 | on a hit, the reported point lies inside the triangle |
| Mat.HitWhenInside | src/mat.rs:115-133 | converse: a well-conditioned ray with in-triangle coordinates and a non-negative distance is a hit at that distance |
| Mat.MissWhenBehind | src/mat.rs:129-132 | a well-conditioned ray whose plane point is behind the origin is a miss |
| Mat.KnownHit | src/mat.rs:110-134 | origin (0,0,−1) and direction (0,0,1) against (−1,−1,0), (1,−1,0), (0,1,0) give (true, 1) |
| Mat.KnownMissBehindOrigin | src/mat.rs:110-134 | the same triangle at z = −5 is behind the origin and is missed |
| Mat.Decode | src/mat.rs:140-171 | a stream of n entries decodes to n/4 triangles (integer division) |
| Mat.DecodeAt | src/mat.rs:145-166 | triangle k has v2 = entry 4k, v1 = entry 4k+1, v0 = entry 4k+2, colour = entry 4k+3 |
| Mat.DecodeAppend | src/mat.rs:140-171 | decoding a stream whose first part has a multiple of four entries decodes the parts one after the other |
| Mat.DecodeDropsTail | src/mat.rs:144 | a trailing group of one to three entries adds nothing |
| Mat.NewMesh | src/mat.rs:140-171 | the `while` loop stepping by four builds exactly the decoded triangles |
| Mat.Concat | src/mat.rs:182-192 | `m1 + m2` holds m1's triangles and then m2's; its length is the sum |
| Mat.ConcatMonoid | src/mat.rs:182-192 | mesh `+` is associative, and the empty mesh is its identity |
| Mat.Shift | src/loader.rs:500-517 | a moved triangle has every vertex shifted by the offset and keeps its colour |
| Mat.ShiftAll | src/mat.rs:177-179 | every triangle moved, the count kept |
| Mat.TranslateTris | src/loader.rs:499-518 | the in-place loop over `mut_tris` shifts every vertex by the offset and keeps the count and the colours |
| Mat.ShiftAllProperties | src/loader.rs:499-518 | moving distributes over concatenation, two moves add their offsets, and the zero move changes nothing |
| LevelGeometry.TableShapes | src/loader.rs:19-279 | each face table holds six faces of eight entries (two triangles) |
| Loader.SeparateMap | src/loader.rs:402-416 | `separate_map` yields exactly the pieces of the specification `Separate` of the text's lines |
| Loader.SeparateLines | src/loader.rs:405-415 | the loop over the lines, pushing the current piece at each `sep` line and once at the end, yields exactly `Separate` |
| Loader.Separate | src/loader.rs:414 | there is always at least one piece |
| Loader.SeparatePieces | src/loader.rs:402-416 | one more piece than there are `sep` lines; the pieces joined are the other lines in order, each followed by "\n" |
| Loader.SepRunCount | src/loader.rs:405-413 | each `sep` line closes exactly one piece |
| Loader.SepRunText | src/loader.rs:405-413 | the closed pieces and the open one hold the kept lines in order |
| Loader.CharAt | src/loader.rs:566-592 | `chars().nth(x)` is a character exactly when x is in the row, and then it is that character |
| Loader.FloorFaces | src/loader.rs:656-677 | the floor face is always added, the roof iff level ≠ 0, and each side face iff that neighbour is not '.' (or is outside the grid) |
| Loader.WallFaces | src/loader.rs:564-595 | the top face is added iff the cell above is not one of X . v S E; the face under the wall iff the level below has the row and its cell is not 'X'; each side iff that neighbour is not 'X' |
| Loader.HalfWallFaces | src/loader.rs:611-637 | the top face is always added; the other faces follow the rules of a wall |
| Loader.AddFaceAfter | src/loader.rs:571-594 | adding a face to a grid only appends to it |
| Loader.AddFaceLength | src/loader.rs:571-594 | a face adds two triangles when shown and none otherwise |
| Loader.WithFacesAfter | src/loader.rs:564-595 | the faces of a cell are appended after the grid it starts from |
| Loader.WithFacesCount | src/loader.rs:564-595 | a cell gets two triangles per shown face |
| Loader.ShowFace | src/loader.rs:571-572 | `grid = grid + Mesh::new(face)` appends the face's triangles |
| Loader.AddFloor | src/loader.rs:647-683 | the emitted faces follow the floor mask, then one untagged floor collider is pushed |
| Loader.AddWall | src/loader.rs:554-599 | the emitted faces follow the wall mask, then one untagged wall collider is pushed |
| Loader.AddHalfWall | src/loader.rs:601-645 | the emitted faces follow the half-wall mask, then one untagged collider is pushed |
| Loader.AddSpike | src/loader.rs:544-552 | the spike triangles are appended, then one collider tagged "spike" is pushed |
| Loader.Offset | src/loader.rs:498-518 | the cell at (level, z, x) moves by (x·GW, −level·GH, z·GW) |
| Loader.StartAt | src/loader.rs:467-472 | 'S' sets the start to (x·GW + GW/2, level·GH + GH/2, z·GW + GW/2) |
| Loader.CellBoxes | src/loader.rs:439-495 | 'E' gives an untagged floor collider and then one tagged "goal"; 'v' gives a floor collider and then one tagged "spike"; '.', 'e', 'X', 'x' and 'S' give exactly one untagged collider; a space or an invalid character gives none |
| Loader.MoveAll | src/loader.rs:522-530 | every collider of the cell is translated by the cell offset, in order |
| Loader.RowScan | src/loader.rs:436 | the cells of a row, left to right |
| Loader.LevelScan | src/loader.rs:432-435 | the rows of a level in order; every cell is inside the grid |
| Loader.Scan | src/loader.rs:430 | the levels in order; every cell is inside the grid |
| Loader.Cells | src/loader.rs:430-436 | every scanned cell is inside the grid |
| Loader.RunSnoc | src/loader.rs:430-531 | one more cell is one more step, and an abort stays an abort |
| Loader.RunSticky | src/loader.rs:495 | once a cell aborts the load, later cells change nothing |
| Loader.ScanOrder | src/loader.rs:430-436 | a cell is scanned iff it lies inside the grid, and the scan is ordered by level, then row, then column |
| Loader.PushMoved | src/loader.rs:523-530 | the loop pushes the cell's colliders, each translated, after the existing ones |
| Loader.CellContents | src/loader.rs:437-496 | the character dispatch builds the cell's triangles and colliders |
| Loader.LoadCell | src/loader.rs:436-531 | the body for one cell performs exactly one step of the fold, including the abort on an invalid character and the skip on a space |
| Loader.LoadRow | src/loader.rs:436-531 | the loop over one row performs the fold over that row's cells |
| Loader.LoadMaps | src/loader.rs:430-533 | the nested loops (empty rows skipped) perform the fold over all cells in scan order |
| Loader.LoadStorey | src/loader.rs:432-532 | the loop over the rows of one storey performs the fold over that storey's cells, stopping at an invalid character |
| Loader.VisitRow | src/loader.rs:433-436 | an empty row is skipped and changes nothing; any other row is folded cell by cell |
| Loader.StoreyStops | src/loader.rs:495 | an abort inside a storey is the result of the scan up to the end of that storey |
| Loader.ScanStops | src/loader.rs:495 | an abort in an early storey is the result of the whole load |
| Loader.Load | src/loader.rs:418-542 | `load` of a level text returns exactly `LoadLevel` of it |
| Loader.Where | src/loader.rs:439-495 | the cells holding a given character, in scan order |
| Loader.TaggedAppend | src/loader.rs:529 | tag counts add over concatenation |
| Loader.CellTags | src/loader.rs:481-493 | a cell contributes one "goal" collider iff it is 'E', and one "spike" collider iff it is 'v' |
| Loader.TaggedPair | src/loader.rs:529 | tag counts of one and two colliders |
| Loader.RunFails | src/loader.rs:495 | the load succeeds iff every scanned character is valid |
| Loader.RunOkChars | src/loader.rs:495 | a successful load saw only valid characters |
| Loader.RunFirstError | src/loader.rs:495 | a failed load reports the first invalid character in scan order |
| Loader.StepError | src/loader.rs:495 | a cell aborts iff its character is invalid, and reports that character |
| Loader.RunEnemies | src/loader.rs:454-461 | there is one enemy per 'e' cell, in scan order, each the default enemy moved by its cell offset |
| Loader.RunTags | src/loader.rs:481-493 | the number of "goal" colliders is the number of 'E' cells, and of "spike" colliders the number of 'v' cells |
| Loader.RunColliderCount | src/loader.rs:439-530 | colliders = non-space cells + 'E' cells + 'v' cells |
| Loader.RunStart | src/loader.rs:420-472 | the start is that of the last 'S' in scan order, or (0,0,0) with none |
| Loader.StepStart | src/loader.rs:467-472 | only an 'S' cell changes the start |
| Loader.OrderedAppend | src/loader.rs:430-436 | joining two ordered scans whose parts are in order keeps the scan ordered |
| Loader.CellSize | src/loader.rs:439-495 | triangles per character: '.' and 'e' two per shown floor face (2 to 12); 'v' four more; 'X' and 'x' two per shown face; 'S' 12; 'E' 24; space none |
| Loader.LoadFails | src/loader.rs:418-542 | a level text loads iff all its cells hold valid characters |
| Loader.LoadError | src/loader.rs:495 | a failed load names the first invalid character in scan order |
| Loader.LoadOk | src/loader.rs:418-542 | a loaded level keeps the text; its enemies, "goal" and "spike" colliders and total collider count follow the cell counts; its start is the last 'S' |
| Enemies.Default | src/enemies.rs:14-96 | position (GW/2, GH/2, GW/2), zero velocity, speed 23, vision 4·GW, a box of ±GW·0.1 tagged "angry_pixel", 12 triangles |
| Enemies.RedCubeFaceDecodes | src/enemies.rs:37-92 | a face's group of entries decodes to red triangles on cube corners |
| Enemies.DecodeFaces | src/enemies.rs:37-92 | this holds across the faces one after another |
| Enemies.DefaultMeshShape | src/enemies.rs:37-92 | every default triangle is coloured (255, 0, 0), and every coordinate is ±GW·0.1 |
| Enemies.Translate | src/enemies.rs:121-124 | `translate` adds the offset to the position and leaves everything else unchanged |
| Enemies.GetCollider | src/enemies.rs:115-119 | the stored box translated by the position; the stored box is unchanged |
| Enemies.GetMesh | src/enemies.rs:126-149 | a copy with the same number of triangles, every vertex shifted by the position and every colour kept |
| Enemies.TranslateMovesViews | src/enemies.rs:115-149 | translating an enemy moves its reported collider and mesh by the same offset |
| Enemies.Update | src/enemies.rs:99-114 | out of vision range nothing changes; within range, speed, box, mesh and vision are kept, and the position is the resolved position advanced by the resolved velocity |
| Camera.Advance | src/camera.rs:16 | the new position minus the old is vel·dt |
| Camera.AdvanceStill | src/camera.rs:16 | dt = 0 or a zero velocity leaves the position unchanged |
| Camera.AdvanceTwice | src/camera.rs:16 | a step of dt1 and then one of dt2 is one step of dt1 + dt2 |
| Camera.Camera.UpdatePos | src/camera.rs:12-17 | `update_pos` sets pos := pos + vel·dt; vel, rotation and focus length are unchanged |
| Renderer.Blank | src/renderer.rs:28-38 | h rows of w black pixels |
| Renderer.PixelCoords | src/renderer.rs:86-91 | the camera-space pixel is ((x − w/2)/m, (y − h/2)/m, focus_length) with m = min(w, h)/2 > 0 |
| Renderer.NearestIsFirstMin | src/renderer.rs:80-104 | with no hit the pixel keeps `f64::MAX` and black; otherwise it takes the first triangle in mesh order with the smallest distance, and an equal later distance does not replace it |
| Renderer.NearestNone | src/renderer.rs:80-104 | with no hit nothing is chosen |
| Renderer.NearestSome | src/renderer.rs:95-104 | with a hit the first nearest is chosen |
| Renderer.NearerLast | src/renderer.rs:98-102 | a strictly nearer hit replaces the choice |
| Renderer.KeepFirst | src/renderer.rs:97-103 | a hit that is not strictly nearer keeps the choice |
| Renderer.NearestHit | src/renderer.rs:80-104 | the loop over the triangles computes the specification `NearestOf` |
| Renderer.FogBounds | src/renderer.rs:105 | for 0 ≤ d ≤ 100 each non-negative channel fades to between 0 and itself; with no hit the pixel is black |
| Renderer.Shade | src/renderer.rs:86-106 | the pixel's ray runs along the rotated pixel vector from `camera.pos` plus that vector, and the pixel gets the fogged colour of the nearest hit |
| Renderer.ImageRow | src/renderer.rs:79-107 | a row of the picture has w pixels |
| Renderer.Image | src/renderer.rs:78-108 | the picture has h rows, row y of the pixels seen through it |
| Renderer.ToU8 | src/renderer.rs:52 | `as u8` saturates at 0 and 255 and rounds toward zero in range |
| Renderer.EmittedLength | src/renderer.rs:47-55 | a w by h buffer prints w·h pixels |
| Renderer.EmittedAt | src/renderer.rs:47-55 | pixel (x, y) is printed at place y·w + x |
| Renderer.Screen.constructor | src/renderer.rs:15-41 | h is the terminal height less two, and the buffer is h rows of w black pixels |
| Renderer.Screen.Flush | src/renderer.rs:43-72 | the nested loops print the buffer row by row, and the buffer is then h rows of w black pixels |
| Renderer.Screen.Render | src/renderer.rs:74-112 | every pixel is written once with the colour seen through it, the buffer keeps its dimensions, and the frame flushed is that picture; the buffer is left blank |
| Screens.BoxHeight | src/screens.rs:97-101 | the box is 7 lines with at least 7 levels, otherwise one line per level |
| Screens.WindowHoldsChoice | src/screens.rs:131-151 | with chosen < count the window [lowest, highest) contains the chosen level, spans BoxHeight lines and ends at or before count, so every printed name exists |
| Screens.MenuWindow | src/screens.rs:131-141 | the u16 branch computation panics on an empty list and otherwise yields the centred window clamped to the list |
| Screens.SelectionStaysInList | src/screens.rs:172-179 | Down adds one, clamped at count − 1; Up subtracts one, saturating at 0; both keep the selection on a level |
| Screens.Menu | src/screens.rs:87-189 | centring the 30-cell box panics on a terminal narrower than 30 cells or lower than the box, and opening the exit screen panics on a terminal lower than 4 cells; an empty level list panics; otherwise the window and selection arithmetic never panics, and a picked level always exists |
| Screens.Flips | src/screens.rs:282-289 | no more flips than polls |
| Screens.YesNo | src/screens.rs:276-294 | the answer comes at the first poll with Enter and neither Up nor Down, and it is yes iff the earlier polls flipped it an even number of times |
| Screens.GameOver | src/screens.rs:191-295 | `game_over` answers only once Enter is pressed, yes iff there were an even number of Up/Down presses before it |
| Screens.Exit | src/screens.rs:507-626 | the game closes iff Enter follows an even number of Up/Down presses, and the screen returns iff it follows an odd number |
| Screens.FlipTwice | src/screens.rs:282-289 | two flips add two to the flip count, so they restore the answer |
| Screens.Table | src/screens.rs:14-52 | the typing table has 37 keys |
| Screens.FirstHeld | src/screens.rs:471-480 | the table is searched in order: the found key is held and no earlier one is |
| Screens.TypedIsFirstHeld | src/screens.rs:471-480 | only the first held table key types: its shifted text iff LShift is held |
| Screens.TypeKey | src/screens.rs:471-480 | the loop over any table types what `Typed` gives for that table |
| Screens.FinishPoll | src/screens.rs:468-503 | the key handling of one poll, for any table, in table, Backspace, Down, Up, Enter order |
| Screens.FinishStepKeeps | src/screens.rs:468-494 | a poll other than Enter updates the name and the answer as the fold specifies |
| Screens.EraseDropsLast | src/screens.rs:482-485 | Backspace removes the last character, and an empty name stays empty |
| Screens.OneCharEach | src/screens.rs:14-52 | every table key types one character, with or without shift (in the corrected table) |
| Screens.TypeThenErase | src/screens.rs:471-485 | typing a key and then pressing Backspace gives back the name (with the corrected table) |
| Screens.BackspaceErases | src/screens.rs:481-485 | Backspace is no table key, so a poll of Backspace alone erases |
| Screens.ShiftFourAsWritten | src/screens.rs:44 | on the finish screen with the table as written, shift+4 puts "Â¤" in the name, and a Backspace after it leaves "Â" |
| Screens.ShiftFourThenErase | src/screens.rs:44 | with the corrected table, shift+4 puts "¤" in the name, and a Backspace after it leaves the name empty |
| Screens.Saved | src/screens.rs:495-501 | Enter adds (name, time) to the leaderboard iff the name is not empty |
| Screens.Listed | src/screens.rs:327 | at most min(length, 5) entries are listed: the first ones |
| Screens.Finish | src/screens.rs:297-505 | `finish`, typing with the table as written, answers at the first effective Enter; the answer is yes iff the polls before it flipped it an even number of times, and the board gains the typed name iff that name is not empty |
| RustStr.TrimEndDrops | src/loader.rs:427 | `trim_end` leaves a prefix that does not end in whitespace, and everything it drops is whitespace |
| RustStr.TrimStartDrops | src/loader.rs:406 | `trim_start` leaves a suffix that does not start with whitespace, and everything it drops is whitespace |
| RustStr.TrimBothEnds | src/loader.rs:406 | what `trim` leaves neither starts nor ends with whitespace |
| RustStr.SplitNl | src/loader.rs:427 | `split("\n")` gives at least one piece, and no piece holds a newline |
| RustStr.JoinSplit | src/loader.rs:427 | joining the pieces of a split with "\n" gives the text back |
| RustStr.SplitJoin | src/loader.rs:427 | splitting a join of newline-free pieces gives the pieces back |
| RustStr.Lines | src/loader.rs:405 | `lines()` pieces hold no newline, and there is one fewer than the split pieces or the same number |

## Left out

- Level files, the file system and the level name. `load` takes the level
  text as a parameter, and `level_name` is not part of the returned value.
- The collision resolver and the box geometry. `check_collision`,
  `BoxCollider::new` and `translate` are defined in no modelled file.
  Colliders are symbolic terms, and a tag is counted on the box a collider
  was made with.
- Non-ASCII rows. `row.len()` counts bytes, but the model counts
  characters. The two agree on every level that loads, because a non-ASCII
  character in a scanned cell aborts the load.
- The `sqrt` functions. `Vec3::abs`, `norm`, `Tri::normal` and `hit_geo` use
  `sqrt` (and `hit_geo` an exact float zero test). `Enemies.Update` takes
  the distance and the direction as parameters.
- The camera rotation. The `rotate` functions are trigonometry; the
  renderer takes the rotation as a parameter.
- Floating-point effects: rounding, infinities and NaN. `f64` is `real`, and
  divisions are only made by non-zero values.
- Enemies.Update: modelled as a function on the enemy value, not as an
  in-place update of `self`.
- Renderer.Screen.Render: the rows are filled one after another, though the
  source uses rayon to fill them in parallel. `print_info` and the `extra`
  text are left out.
- Renderer.Screen.Flush: the frame is a sequence of byte triples; the ANSI
  escape text and the cursor movement are not modelled.
- Renderer.Screen.constructor: requires a terminal at least two rows high.
  The u16 subtraction `h - 2` panics below that, and that panic is not
  modelled. Raw mode and the terminal size query are left out; the size is
  passed in.
- Screens: the drawing, the sleeping, the audio and the terminal size query
  are not modelled. The keyboard device is a sequence of polls.
- Screens.GameOver, Screens.Exit, Screens.Finish: the u16 subtractions that
  centre their boxes are not modelled. These are
  `screen_width / 2 - box_width / 2` and `screen_height / 2 - box_height / 2`
  in `game_over` (its box widened to the length of its message), in `exit`
  and in `finish` (its box 9 lines plus the listed entries). They panic on
  a terminal too small for the box, and these three members take no
  terminal size. Only Screens.Menu models the size, including the exit
  screen it opens.
- Screens.Menu: states when the u16 arithmetic panics and that a picked
  level is valid. The sequence of selections is not stated as a fold. The
  level names are counted, not held, so the panic of `to_str().unwrap()`
  on a name that is not UTF-8 is not modelled; the terminal size is
  passed in as u16 values.
- Screens.Finish: the leaderboard JSON (reading, the sort by a float key,
  writing) is not modelled. The board is passed in already sorted, and
  `Saved` is what would be written.
- The network client, the score server, audio, and the `game.rs`/`main.rs`
  glue: these are I/O and foreign libraries outside the core.

## Findings

| source | as written | input that shows it | evidently intended | confidence | as-written member | corrected member |
|---|---|---|---|---|---|---|
| src/screens.rs:44 | shift+4 types the two characters "Â¤", which look like a Latin-1 misreading of the UTF-8 encoding of "¤" | on the finish screen, hold LShift and 4, then press Backspace: the name keeps a stray "Â" | shift+4 types the single character "¤", so Backspace removes it | medium, not executed | Screens.ShiftFourAsWritten | Screens.ShiftFourThenErase |
