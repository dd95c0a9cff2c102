/** The fixed geometry the level loader places in each grid cell
    (src/loader.rs:6-400): grid sizes, the flat vertex streams of each cell
    kind (groups of four entries: three vertices and a colour) and the two
    corners of each collider box. A wall, half wall or floor is six faces of
    two triangles each; which of them a cell shows depends on its
    neighbours. */
module LevelGeometry {

  /** Grid width (x and z) and grid height (y) of one cell. */
  const GW: real := 10.0
  const GH: real := 15.0

  /** `WALL`: faces of a full-height wall block. */
  const Wall: seq<seq<(real, real, real)>> := [
    [
      (0.0, 0.0, 0.0), (GW, 0.0, 0.0), (GW, 0.0, GW), (207.0, 172.0, 85.0),
      (0.0, 0.0, 0.0), (0.0, 0.0, GW), (GW, 0.0, GW), (207.0, 172.0, 85.0)
    ],
    [
      (0.0, GH, 0.0), (GW, GH, 0.0), (GW, GH, GW), (207.0, 172.0, 85.0),
      (0.0, GH, 0.0), (0.0, GH, GW), (GW, GH, GW), (207.0, 172.0, 85.0)
    ],
    [
      (0.0, 0.0, 0.0), (GW, 0.0, 0.0), (GW, GH, 0.0), (237.0, 233.0, 126.0),
      (0.0, 0.0, 0.0), (GW, GH, 0.0), (0.0, GH, 0.0), (237.0, 233.0, 126.0)
    ],
    [
      (0.0, 0.0, GW), (GW, 0.0, GW), (GW, GH, GW), (237.0, 233.0, 126.0),
      (0.0, 0.0, GW), (GW, GH, GW), (0.0, GH, GW), (237.0, 233.0, 126.0)
    ],
    [
      (0.0, 0.0, 0.0), (0.0, 0.0, GW), (0.0, GH, 0.0), (237.0, 233.0, 126.0),
      (0.0, GH, 0.0), (0.0, GH, GW), (0.0, 0.0, GW), (237.0, 233.0, 126.0)
    ],
    [
      (GW, 0.0, 0.0), (GW, 0.0, GW), (GW, GH, 0.0), (237.0, 233.0, 126.0),
      (GW, GH, 0.0), (GW, GH, GW), (GW, 0.0, GW), (237.0, 233.0, 126.0)
    ]
  ]

  /** `WALL_COLLIDER` */
  const WallCollider: ((real, real, real), (real, real, real)) := ((0.0, GH, 0.0), (GW, 0.0, GW))

  /** `HALF_WALL`: faces of a half-height block. */
  const HalfWall: seq<seq<(real, real, real)>> := [
    [
      (0.0, 0.5 * GH, 0.0), (GW, 0.5 * GH, 0.0), (GW, 0.5 * GH, GW), (207.0, 172.0, 85.0),
      (0.0, 0.5 * GH, 0.0), (0.0, 0.5 * GH, GW), (GW, 0.5 * GH, GW), (207.0, 172.0, 85.0)
    ],
    [
      (0.0, GH, 0.0), (GW, GH, 0.0), (GW, GH, GW), (207.0, 172.0, 85.0),
      (0.0, GH, 0.0), (0.0, GH, GW), (GW, GH, GW), (207.0, 172.0, 85.0)
    ],
    [
      (0.0, 0.5 * GH, 0.0), (GW, 0.5 * GH, 0.0), (GW, GH, 0.0), (237.0, 233.0, 126.0),
      (0.0, 0.5 * GH, 0.0), (GW, GH, 0.0), (0.0, GH, 0.0), (237.0, 233.0, 126.0)
    ],
    [
      (0.0, 0.5 * GH, GW), (GW, 0.5 * GH, GW), (GW, GH, GW), (237.0, 233.0, 126.0),
      (0.0, 0.5 * GH, GW), (GW, GH, GW), (0.0, GH, GW), (237.0, 233.0, 126.0)
    ],
    [
      (0.0, 0.5 * GH, 0.0), (0.0, 0.5 * GH, GW), (0.0, GH, 0.0), (237.0, 233.0, 126.0),
      (0.0, GH, 0.0), (0.0, GH, GW), (0.0, 0.5 * GH, GW), (237.0, 233.0, 126.0)
    ],
    [
      (GW, 0.5 * GH, 0.0), (GW, 0.5 * GH, GW), (GW, GH, 0.0), (237.0, 233.0, 126.0),
      (GW, GH, 0.0), (GW, GH, GW), (GW, 0.5 * GH, GW), (237.0, 233.0, 126.0)
    ]
  ]

  /** `HALF_WALL_COLLIDER` */
  const HalfWallCollider: ((real, real, real), (real, real, real)) := ((0.0, GH, 0.0), (GW, 0.5 * GH, GW))

  /** `START`: the start pad, 12 triangles. */
  const Start: seq<(real, real, real)> := [
    (0.0, GH * 0.85, 0.0), (0.0, GH * 0.85, GW), (GW, GH * 0.85, 0.0), (207.0, 172.0, 85.0),
    (GW, GH * 0.85, 0.0), (0.0, GH * 0.85, GW), (GW, GH * 0.85, GW), (207.0, 172.0, 85.0),
    (0.0, GH, 0.0), (0.0, GH, GW), (GW, GH, 0.0), (207.0, 172.0, 85.0),
    (GW, GH, 0.0), (0.0, GH, GW), (GW, GH, GW), (207.0, 172.0, 85.0),
    (0.0, GH, 0.0), (0.0, GH, GW), (0.0, GH * 0.85, 0.0), (237.0, 233.0, 126.0),
    (0.0, GH * 0.85, 0.0), (0.0, GH * 0.85, GW), (0.0, GH, GW), (237.0, 233.0, 126.0),
    (GW, GH, 0.0), (GW, GH, GW), (GW, GH * 0.85, 0.0), (237.0, 233.0, 126.0),
    (GW, GH * 0.85, 0.0), (GW, GH * 0.85, GW), (GW, GH, GW), (237.0, 233.0, 126.0),
    (0.0, GH, 0.0), (GW, GH, 0.0), (GW, GH * 0.85, 0.0), (237.0, 233.0, 126.0),
    (0.0, GH, 0.0), (0.0, GH * 0.85, 0.0), (GW, GH * 0.85, 0.0), (237.0, 233.0, 126.0),
    (0.0, GH, GW), (GW, GH, GW), (GW, GH * 0.85, GW), (237.0, 233.0, 126.0),
    (0.0, GH, GW), (0.0, GH * 0.85, GW), (GW, GH * 0.85, GW), (237.0, 233.0, 126.0)
  ]

  /** `START_COLLIDER` */
  const StartCollider: ((real, real, real), (real, real, real)) := ((0.0, GH, 0.0), (GW, GH * 0.85, GW))

  /** `FLOOR_COLLIDER` */
  const FloorCollider: ((real, real, real), (real, real, real)) := ((0.0, GH, 0.0), (GW, GH * 0.9, GW))

  /** `FLOOR`: faces of a floor slab. */
  const Floor: seq<seq<(real, real, real)>> := [
    [
      (0.0, GH * 0.9, 0.0), (0.0, GH * 0.9, GW), (GW, GH * 0.9, 0.0), (207.0, 172.0, 85.0),
      (GW, GH * 0.9, 0.0), (0.0, GH * 0.9, GW), (GW, GH * 0.9, GW), (207.0, 172.0, 85.0)
    ],
    [
      (0.0, GH, 0.0), (0.0, GH, GW), (GW, GH, 0.0), (207.0, 172.0, 85.0),
      (GW, GH, 0.0), (0.0, GH, GW), (GW, GH, GW), (207.0, 172.0, 85.0)
    ],
    [
      (0.0, GH, 0.0), (0.0, GH, GW), (0.0, GH * 0.9, 0.0), (237.0, 233.0, 126.0),
      (0.0, GH * 0.9, 0.0), (0.0, GH * 0.9, GW), (0.0, GH, GW), (237.0, 233.0, 126.0)
    ],
    [
      (GW, GH, 0.0), (GW, GH, GW), (GW, GH * 0.9, 0.0), (237.0, 233.0, 126.0),
      (GW, GH * 0.9, 0.0), (GW, GH * 0.9, GW), (GW, GH, GW), (237.0, 233.0, 126.0)
    ],
    [
      (0.0, GH, 0.0), (GW, GH, 0.0), (GW, GH * 0.9, 0.0), (237.0, 233.0, 126.0),
      (0.0, GH, 0.0), (0.0, GH * 0.9, 0.0), (GW, GH * 0.9, 0.0), (237.0, 233.0, 126.0)
    ],
    [
      (0.0, GH, GW), (GW, GH, GW), (GW, GH * 0.9, GW), (237.0, 233.0, 126.0),
      (0.0, GH, GW), (0.0, GH * 0.9, GW), (GW, GH * 0.9, GW), (237.0, 233.0, 126.0)
    ]
  ]

  /** `END`: the goal block, 24 triangles. */
  const End: seq<(real, real, real)> := [
    (0.0, GH * 0.8, 0.0), (0.0, GH * 0.8, GW), (GW, GH * 0.8, 0.0), (1000.0, 1000.0, 1000.0),
    (GW, GH * 0.8, 0.0), (0.0, GH * 0.8, GW), (GW, GH * 0.8, GW), (1000.0, 1000.0, 1000.0),
    (0.0, GH, 0.0), (0.0, GH, GW), (GW, GH, 0.0), (1000.0, 1000.0, 1000.0),
    (GW, GH, 0.0), (0.0, GH, GW), (GW, GH, GW), (1000.0, 1000.0, 1000.0),
    (0.0, GH, 0.0), (0.0, GH, GW), (0.0, GH * 0.8, 0.0), (1000.0, 1000.0, 1000.0),
    (0.0, GH * 0.8, 0.0), (0.0, GH * 0.8, GW), (0.0, GH, GW), (1000.0, 1000.0, 1000.0),
    (GW, GH, 0.0), (GW, GH, GW), (GW, GH * 0.8, 0.0), (1000.0, 1000.0, 1000.0),
    (GW, GH * 0.8, 0.0), (GW, GH * 0.8, GW), (GW, GH, GW), (1000.0, 1000.0, 1000.0),
    (0.0, GH, 0.0), (GW, GH, 0.0), (GW, GH * 0.8, 0.0), (1000.0, 1000.0, 1000.0),
    (0.0, GH, 0.0), (0.0, GH * 0.8, 0.0), (GW, GH * 0.8, 0.0), (1000.0, 1000.0, 1000.0),
    (0.0, GH, GW), (GW, GH, GW), (GW, GH * 0.8, GW), (1000.0, 1000.0, 1000.0),
    (0.0, GH, GW), (0.0, GH * 0.8, GW), (GW, GH * 0.8, GW), (1000.0, 1000.0, 1000.0),
    (0.0, GH * 0.1, 0.0), (0.0, GH * 0.1, GW), (GW, GH * 0.1, 0.0), (1000.0, 1000.0, 1000.0),
    (GW, GH * 0.1, 0.0), (0.0, GH * 0.1, GW), (GW, GH * 0.1, GW), (1000.0, 1000.0, 1000.0),
    (0.0, 0.0, 0.0), (0.0, 0.0, GW), (GW, 0.0, 0.0), (1000.0, 1000.0, 1000.0),
    (GW, 0.0, 0.0), (0.0, 0.0, GW), (GW, 0.0, GW), (1000.0, 1000.0, 1000.0),
    (0.0, 0.0, 0.0), (0.0, 0.0, GW), (0.0, GH * 0.1, 0.0), (1000.0, 1000.0, 1000.0),
    (0.0, GH * 0.1, 0.0), (0.0, GH * 0.1, GW), (0.0, 0.0, GW), (1000.0, 1000.0, 1000.0),
    (GW, 0.0, 0.0), (GW, 0.0, GW), (GW, GH * 0.1, 0.0), (1000.0, 1000.0, 1000.0),
    (GW, GH * 0.1, 0.0), (GW, GH * 0.1, GW), (GW, 0.0, GW), (1000.0, 1000.0, 1000.0),
    (0.0, 0.0, 0.0), (GW, 0.0, 0.0), (GW, GH * 0.1, 0.0), (1000.0, 1000.0, 1000.0),
    (0.0, 0.0, 0.0), (0.0, GH * 0.1, 0.0), (GW, GH * 0.1, 0.0), (1000.0, 1000.0, 1000.0),
    (0.0, 0.0, GW), (GW, 0.0, GW), (GW, GH * 0.1, GW), (1000.0, 1000.0, 1000.0),
    (0.0, 0.0, GW), (0.0, GH * 0.1, GW), (GW, GH * 0.1, GW), (1000.0, 1000.0, 1000.0)
  ]

  /** `GOAL_COLLIDER` */
  const GoalCollider: ((real, real, real), (real, real, real)) := ((0.0, GH * 0.9, 0.0), (GW, GH * 0.1, GW))

  /** `SPIKE_COLLIDER` */
  const SpikeCollider: ((real, real, real), (real, real, real)) := ((0.0, GH * 0.9, 0.0), (GW, GH * 0.8, GW))

  /** `SPIKE`: the four faces of a spike pyramid. */
  const Spike: seq<(real, real, real)> := [
    (GW, GH * 0.9, 0.0), (GW / 2.0, GH * 0.6, GW / 2.0), (GW, GH * 0.9, GW), (100.0, 100.0, 100.0),
    (GW, GH * 0.9, 0.0), (GW / 2.0, GH * 0.6, GW / 2.0), (0.0, GH * 0.9, 0.0), (100.0, 100.0, 100.0),
    (0.0, GH * 0.9, 0.0), (GW / 2.0, GH * 0.6, GW / 2.0), (0.0, GH * 0.9, GW), (100.0, 100.0, 100.0),
    (0.0, GH * 0.9, GW), (GW / 2.0, GH * 0.6, GW / 2.0), (GW, GH * 0.9, GW), (100.0, 100.0, 100.0)
  ]

  /** Each face table has six faces of two triangles (eight entries) each. */
  lemma TableShapes()
    ensures |Wall| == 6 && |HalfWall| == 6 && |Floor| == 6
    ensures forall k :: 0 <= k < 6 ==> |Wall[k]| == 8 && |HalfWall[k]| == 8 && |Floor[k]| == 8
  {
  }
}
