/**
 The line primitives of ternary/lines.py: a single segment between two ternary
 points, the three families of lines parallel to the edges of the simplex, and
 the boundary. Drawing a line is modelled as producing one `Segment`; the
 caller appends it to the output of the plot.
 */
module Lines {
  import opened Geometry
  import opened Styles

  /** A segment handed to the drawing surface: two ternary endpoints, the one
      permutation the projection applies to both, and the style options. */
  datatype Segment = Segment(p1: Triple, p2: Triple, perm: Val, style: Style)

  /** The keyword under which `line` takes its permutation. */
  const PermutationKey: string := "permutation"

  /** The permutation `line` receives from its keyword arguments (`None` by default). */
  function BoundPermutation(kwargs: Style): Val
  {
    if PermutationKey in kwargs then kwargs[PermutationKey] else Null
  }

  /** The keyword arguments `line` forwards to the drawing surface: all but the permutation. */
  function BoundStyle(kwargs: Style): Style
  {
    kwargs - {PermutationKey}
  }

  /** `line(ax, p1, p2, **kwargs)`: one segment from p1 to p2. The endpoints are
      kept, the `permutation` keyword (if any) becomes the one permutation of the
      segment, and every other keyword reaches the style with its value unchanged. */
  function Line(p1: Triple, p2: Triple, kwargs: Style): (r: Segment)
    ensures r.p1 == p1 && r.p2 == p2
    ensures PermutationKey in kwargs ==> r.perm == kwargs[PermutationKey]
    ensures PermutationKey !in kwargs ==> r.perm == Null
    ensures r.style == kwargs - {PermutationKey}
  {
    Segment(p1, p2, BoundPermutation(kwargs), BoundStyle(kwargs))
  }

  /** The i-th line parallel to the lower axis: the third coordinate is held at i. */
  function HorizontalLine(scale: real, i: real, kwargs: Style): (r: Segment)
    ensures Sum(r.p1) == scale && Sum(r.p2) == scale
    ensures r.p1.c == i && r.p2.c == i
    ensures r.p1.a == 0.0 && r.p2.b == 0.0
    ensures r.perm == BoundPermutation(kwargs) && r.style == BoundStyle(kwargs)
  {
    Line(Triple(0.0, scale - i, i), Triple(scale - i, 0.0, i), kwargs)
  }

  /** The i-th line parallel to the left axis: the second coordinate is held at i. */
  function LeftParallelLine(scale: real, i: real, kwargs: Style): (r: Segment)
    ensures Sum(r.p1) == scale && Sum(r.p2) == scale
    ensures r.p1.b == i && r.p2.b == i
    ensures r.p1.a == 0.0 && r.p2.c == 0.0
    ensures r.perm == BoundPermutation(kwargs) && r.style == BoundStyle(kwargs)
  {
    Line(Triple(0.0, i, scale - i), Triple(scale - i, i, 0.0), kwargs)
  }

  /** The i-th line parallel to the right axis: the first coordinate is held at i. */
  function RightParallelLine(scale: real, i: real, kwargs: Style): (r: Segment)
    ensures Sum(r.p1) == scale && Sum(r.p2) == scale
    ensures r.p1.a == i && r.p2.a == i
    ensures r.p1.c == 0.0 && r.p2.b == 0.0
    ensures r.perm == BoundPermutation(kwargs) && r.style == BoundStyle(kwargs)
  {
    Line(Triple(i, scale - i, 0.0), Triple(i, 0.0, scale - i), kwargs)
  }

  /** The segment with its endpoints relabelled by `Rotate`. */
  function Rotated(s: Segment): Segment
  {
    s.(p1 := Rotate(s.p1), p2 := Rotate(s.p2))
  }

  /** The segment traversed the other way. */
  function Reversed(s: Segment): Segment
  {
    s.(p1 := s.p2, p2 := s.p1)
  }

  /** The three families are one family seen under the cyclic relabelling of
      the coordinates: rotating a horizontal line gives the right-parallel line
      at the same index, rotating that gives the left-parallel line, and
      rotating that gives the horizontal line back. */
  lemma ParallelFamiliesRotate(scale: real, i: real, kwargs: Style)
    ensures RightParallelLine(scale, i, kwargs) == Reversed(Rotated(HorizontalLine(scale, i, kwargs)))
    ensures LeftParallelLine(scale, i, kwargs) == Rotated(RightParallelLine(scale, i, kwargs))
    ensures HorizontalLine(scale, i, kwargs) == Reversed(Rotated(LeftParallelLine(scale, i, kwargs)))
  {
  }

  /** `boundary(ax, scale, **kwargs)`: the three edges of the simplex, drawn as the
      horizontal, left-parallel and right-parallel lines at index 0. */
  function Boundary(scale: real, kwargs: Style): (r: seq<Segment>)
    ensures |r| == 3
    ensures forall j :: 0 <= j < |r| ==> IsVertex(r[j].p1, scale) && IsVertex(r[j].p2, scale)
    ensures forall j :: 0 <= j < |r| ==> r[j].style == BoundStyle(kwargs) && r[j].perm == BoundPermutation(kwargs)
  {
    [HorizontalLine(scale, 0.0, kwargs), LeftParallelLine(scale, 0.0, kwargs), RightParallelLine(scale, 0.0, kwargs)]
  }

  /** Number of segments having `v` as an endpoint. */
  function Occurrences(segs: seq<Segment>, v: Triple): nat
  {
    if |segs| == 0 then 0
    else (if segs[0].p1 == v || segs[0].p2 == v then 1 else 0) + Occurrences(segs[1..], v)
  }

  /** For a non-degenerate simplex the boundary is a triangle: each segment joins
      two different corners and each corner ends exactly two segments. */
  lemma {:induction false} BoundaryIsTriangle(scale: real)
    requires scale != 0.0
    ensures forall kwargs: Style, j :: 0 <= j < 3 ==> Boundary(scale, kwargs)[j].p1 != Boundary(scale, kwargs)[j].p2
    ensures forall kwargs: Style, v :: IsVertex(v, scale) ==> Occurrences(Boundary(scale, kwargs), v) == 2
  {
    forall kwargs: Style, v | IsVertex(v, scale)
      ensures Occurrences(Boundary(scale, kwargs), v) == 2
    {
      var b := Boundary(scale, kwargs);
      var t0, t1, t2 := Triple(scale, 0.0, 0.0), Triple(0.0, scale, 0.0), Triple(0.0, 0.0, scale);
      assert t0 != t1 && t1 != t2 && t0 != t2;
      assert b[0].p1 == t1 && b[0].p2 == t0;
      assert b[1].p1 == t2 && b[1].p2 == t0;
      assert b[2].p1 == t1 && b[2].p2 == t2;
      assert b[1..][1..][1..] == [];
      assert Occurrences(b[2..], v) == (if v == t1 || v == t2 then 1 else 0) by {
        assert b[2..][0] == b[2] && b[2..][1..] == [];
      }
      assert Occurrences(b[1..], v) == (if v == t2 || v == t0 then 1 else 0) + Occurrences(b[2..], v) by {
        assert b[1..][0] == b[1] && b[1..][1..] == b[2..];
      }
      assert v == t0 || v == t1 || v == t2;
    }
  }

  /** The boundary draws its edges in the order horizontal, left, right, all at index 0. */
  lemma BoundaryOrder(scale: real, kwargs: Style)
    ensures Boundary(scale, kwargs)[0] == HorizontalLine(scale, 0.0, kwargs)
    ensures Boundary(scale, kwargs)[1] == LeftParallelLine(scale, 0.0, kwargs)
    ensures Boundary(scale, kwargs)[2] == RightParallelLine(scale, 0.0, kwargs)
  {
  }
}
