/** The player's camera (src/camera.rs): a position that the game moves by
    the velocity once per frame. */
module Camera {
  import opened Mat

  /** One integration step: the position moved by the velocity for dt. */
  function Advance(pos: Vec3, vel: Vec3, dt: real): (r: Vec3)
    ensures Sub(r, pos) == Scale(vel, dt)
  {
    Add(pos, Scale(vel, dt))
  }

  /** No time or no velocity: the camera stays where it is. */
  lemma AdvanceStill(pos: Vec3, vel: Vec3, dt: real)
    ensures Advance(pos, vel, 0.0) == pos
    ensures Advance(pos, Origin, dt) == pos
  {
  }

  /** Two steps with the same velocity are one step for the whole time. */
  lemma AdvanceTwice(pos: Vec3, vel: Vec3, dt1: real, dt2: real)
    ensures Advance(Advance(pos, vel, dt1), vel, dt2) == Advance(pos, vel, dt1 + dt2)
  {
  }

  class Camera {
    var pos: Vec3
    var focusLength: real
    var rotation: Vec3
    var vel: Vec3

    constructor (pos: Vec3, focusLength: real, rotation: Vec3, vel: Vec3)
      ensures this.pos == pos && this.focusLength == focusLength
      ensures this.rotation == rotation && this.vel == vel
    {
      this.pos := pos;
      this.focusLength := focusLength;
      this.rotation := rotation;
      this.vel := vel;
    }

    /** `update_pos`: one step of the position; nothing else changes. */
    method UpdatePos(dt: real)
      modifies this`pos
      ensures pos == Advance(old(pos), vel, dt)
      ensures vel == old(vel) && rotation == old(rotation) && focusLength == old(focusLength)
    {
      pos := Add(pos, Scale(vel, dt));
    }
  }
}
