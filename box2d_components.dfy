/**
 * `coll<A, B>(r, a, b)` (game/src/core/box2d/box2d_components.hpp): orders
 * the two entities of a collision as (the one with component A, the one
 * with component B). The registry's component storage for A and for B is
 * the set of entities that have it; the (null, null) pair is `None`.
 */
module Box2dComponents {
  import opened Wrappers

  function Coll<E>(a: E, b: E, withA: set<E>, withB: set<E>): (r: Option<(E, E)>)
    ensures a in withA && b in withB ==> r == Some((a, b))
    ensures !(a in withA && b in withB) && a in withB && b in withA ==> r == Some((b, a))
    ensures r.None? <==> !(a in withA && b in withB) && !(a in withB && b in withA)
  {
    if a in withA && b in withB then Some((a, b))
    else if a in withB && b in withA then Some((b, a))
    else None
  }

  /** A matched pair is the two colliding entities, the A one first and the B one second. */
  lemma CollRoles<E>(a: E, b: E, withA: set<E>, withB: set<E>)
    requires Coll(a, b, withA, withB).Some?
    ensures var (x, y) := Coll(a, b, withA, withB).value;
      x in withA && y in withB && ((x, y) == (a, b) || (x, y) == (b, a))
  {
  }

  /**
   * The order in which Box2D reports the two shapes does not matter unless
   * both orientations match, in which case the first argument is taken as A.
   */
  lemma CollOrderIndependent<E>(a: E, b: E, withA: set<E>, withB: set<E>)
    requires !(a in withA && b in withB && a in withB && b in withA)
    ensures Coll(a, b, withA, withB) == Coll(b, a, withA, withB)
  {
  }

  lemma CollAmbiguousPrefersFirst<E>(a: E, b: E, withA: set<E>, withB: set<E>)
    requires a in withA && b in withB && a in withB && b in withA
    ensures Coll(a, b, withA, withB) == Some((a, b)) && Coll(b, a, withA, withB) == Some((b, a))
  {
  }
}
