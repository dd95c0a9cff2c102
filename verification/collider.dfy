/** Axis-aligned collision boxes. The box type is used by the loader and the
    enemies (src/loader.rs:474, src/enemies.rs:28-36) but defined in none of
    the modelled files: its fields are the ones the enemy code spells out,
    and its constructor from two corners and its `translate` stay
    uninterpreted, as symbolic terms. */
module Collider {
  import opened Wrappers
  import opened Mat

  datatype BoxCollider = BoxCollider(
    maxX: real, maxY: real, maxZ: real,
    minX: real, minY: real, minZ: real,
    tag: Option<string>)

  type Corner = (real, real, real)

  /** A collider as the program builds it: `BoxCollider::new(c0, c1, tag)`,
      a box written out field by field, or a box moved by `translate`. */
  datatype ColliderTerm =
    | NewBox(c0: Corner, c1: Corner, newTag: Option<string>)
    | Literal(box: BoxCollider)
    | Translated(base: ColliderTerm, offset: Vec3)

  /** The tag a collider was made with, however often it was moved since. */
  function MadeWith(t: ColliderTerm): Option<string>
  {
    match t
    case NewBox(_, _, tag) => tag
    case Literal(b) => b.tag
    case Translated(b, _) => MadeWith(b)
  }
}
