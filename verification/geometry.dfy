/**
 Ternary (barycentric) points of a simplex of a given scale. The model keeps
 every segment in ternary coordinates; the projection to the plane is applied
 later by the drawing surface and is not part of this model.
 */
module Geometry {

  /** A ternary point (a, b, c). Nothing forces a + b + c to equal the scale. */
  datatype Triple = Triple(a: real, b: real, c: real)

  /** Sum of the three components. */
  function Sum(p: Triple): real
  {
    p.a + p.b + p.c
  }

  /** Cyclic relabelling of the components: (a, b, c) becomes (c, a, b). */
  function Rotate(p: Triple): (q: Triple)
    ensures Sum(q) == Sum(p)
  {
    Triple(p.c, p.a, p.b)
  }

  /** Componentwise difference q - p: the displacement from p to q. */
  function Delta(p: Triple, q: Triple): (d: Triple)
    ensures Sum(d) == Sum(q) - Sum(p)
  {
    Triple(q.a - p.a, q.b - p.b, q.c - p.c)
  }

  /** The three corners of the simplex of the given scale. */
  function Vertices(scale: real): seq<Triple>
  {
    [Triple(scale, 0.0, 0.0), Triple(0.0, scale, 0.0), Triple(0.0, 0.0, scale)]
  }

  /** Whether `p` is one of the corners of the simplex. */
  predicate IsVertex(p: Triple, scale: real)
  {
    p in Vertices(scale)
  }
}
