/**
 `gridlines` of ternary/lines.py: the dotted grid of lines parallel to the
 three edges, spaced `multiple` apart. The horizontal family runs over
 `[0, scale)`, the left- and right-parallel families over `[0, scale + multiple)`,
 so the latter two have one line more. When `multiple` divides `scale` that
 extra line has length zero, at the corners (0, scale, 0) and (scale, 0, 0);
 otherwise it lies outside the simplex. Each family's line at index 0 is an
 edge of the boundary, so the grid includes the boundary.
 */
module Grid {
  import opened Wrappers
  import opened Geometry
  import opened Styles
  import opened Ranges
  import opened Lines

  const LinewidthKey: string := "linewidth"
  const LinestyleKey: string := "linestyle"

  /** The style used when the caller gives no line width. */
  const DefaultLinewidth: Val := Num(0.5)
  /** The style used when the caller gives no line style: dotted. */
  const DefaultLinestyle: Val := Text(":")

  /** The common keyword arguments with `linewidth` and `linestyle` filled in when absent. */
  function WithGridDefaults(kwargs: Style): (r: Style)
    ensures r.Keys == kwargs.Keys + {LinewidthKey, LinestyleKey}
    ensures forall k :: k in kwargs ==> r[k] == kwargs[k]
    ensures LinewidthKey !in kwargs ==> r[LinewidthKey] == DefaultLinewidth
    ensures LinestyleKey !in kwargs ==> r[LinestyleKey] == DefaultLinestyle
  {
    var withWidth := if LinewidthKey !in kwargs then kwargs[LinewidthKey := DefaultLinewidth] else kwargs;
    if LinestyleKey !in withWidth then withWidth[LinestyleKey := DefaultLinestyle] else withWidth
  }

  /** The spacing actually used: a falsy `multiple` (`None` or zero) becomes 1.0. */
  function EffectiveMultiple(multiple: Option<real>): (m: real)
    ensures m != 0.0
    ensures multiple.Some? && multiple.value != 0.0 ==> m == multiple.value
    ensures multiple.None? || multiple.value == 0.0 ==> m == 1.0
  {
    if multiple.None? || multiple.value == 0.0 then 1.0 else multiple.value
  }

  /** The style of one family: its override merged over the defaulted common style. */
  function FamilyStyle(kwargs: Style, family: Option<Style>): Style
  {
    MergeDicts(Some(WithGridDefaults(kwargs)), family)
  }

  /** One horizontal line per index, in index order. */
  function HorizontalFamily(scale: real, indices: seq<real>, style: Style): (r: seq<Segment>)
    ensures |r| == |indices|
  {
    seq(|indices|, k requires 0 <= k < |indices| => HorizontalLine(scale, indices[k], style))
  }

  /** A left-parallel then a right-parallel line per index, in index order. */
  function ParallelPairs(scale: real, indices: seq<real>, leftStyle: Style, rightStyle: Style): (r: seq<Segment>)
    ensures |r| == 2 * |indices|
  {
    if |indices| == 0 then []
    else [LeftParallelLine(scale, indices[0], leftStyle), RightParallelLine(scale, indices[0], rightStyle)]
         + ParallelPairs(scale, indices[1..], leftStyle, rightStyle)
  }

  /** The k-th pair is the left- then the right-parallel line at the k-th index. */
  lemma {:induction false} ParallelPairsAt(scale: real, indices: seq<real>, leftStyle: Style, rightStyle: Style, k: nat)
    requires k < |indices|
    ensures ParallelPairs(scale, indices, leftStyle, rightStyle)[2 * k] == LeftParallelLine(scale, indices[k], leftStyle)
    ensures ParallelPairs(scale, indices, leftStyle, rightStyle)[2 * k + 1] == RightParallelLine(scale, indices[k], rightStyle)
  {
    if k > 0 {
      var rest := ParallelPairs(scale, indices[1..], leftStyle, rightStyle);
      ParallelPairsAt(scale, indices[1..], leftStyle, rightStyle, k - 1);
      assert indices[1..][k - 1] == indices[k];
      assert ParallelPairs(scale, indices, leftStyle, rightStyle)[2 * k] == rest[2 * (k - 1)];
      assert ParallelPairs(scale, indices, leftStyle, rightStyle)[2 * k + 1] == rest[2 * (k - 1) + 1];
    }
  }

  /** `gridlines(ax, scale, multiple, horizontal_kwargs, left_kwargs, right_kwargs, **kwargs)`. */
  function Gridlines(scale: real, multiple: Option<real>, horizontalKwargs: Option<Style>,
                     leftKwargs: Option<Style>, rightKwargs: Option<Style>, kwargs: Style): (r: seq<Segment>)
    ensures var m := EffectiveMultiple(multiple);
            |r| == ArangeCount(scale, m) + 2 * ArangeCount(scale + m, m)
  {
    var m := EffectiveMultiple(multiple);
    GridFrom(scale, Arange(scale, m), Arange(scale + m, m),
             FamilyStyle(kwargs, horizontalKwargs), FamilyStyle(kwargs, leftKwargs), FamilyStyle(kwargs, rightKwargs))
  }

  /** The grid drawn from given index sequences: the horizontal lines, then the left/right pairs. */
  function GridFrom(scale: real, horizontalIndices: seq<real>, pairIndices: seq<real>,
                    horizontalStyle: Style, leftStyle: Style, rightStyle: Style): (r: seq<Segment>)
    ensures |r| == |horizontalIndices| + 2 * |pairIndices|
  {
    HorizontalFamily(scale, horizontalIndices, horizontalStyle) + ParallelPairs(scale, pairIndices, leftStyle, rightStyle)
  }

  /** The horizontal lines come first: one at every multiple of the spacing
      strictly short of `scale`, and no others. */
  lemma GridlinesHorizontal(scale: real, multiple: Option<real>, horizontalKwargs: Option<Style>,
                            leftKwargs: Option<Style>, rightKwargs: Option<Style>, kwargs: Style, k: nat)
    ensures var m := EffectiveMultiple(multiple);
            var nH := |Arange(scale, m)|;
            var g := Gridlines(scale, multiple, horizontalKwargs, leftKwargs, rightKwargs, kwargs);
            && (BeforeStop(Nth(k, m), scale, m) <==> k < nH)
            && (k < nH ==> g[k] == HorizontalLine(scale, Nth(k, m), FamilyStyle(kwargs, horizontalKwargs)))
  {
    var m := EffectiveMultiple(multiple);
    ArangeMembership(scale, m, k);
  }

  /** Beyond the horizontal family, the lines come in left-then-right pairs, one
      pair at every multiple of the spacing strictly short of `scale + multiple`. */
  lemma GridlinesPairs(scale: real, multiple: Option<real>, horizontalKwargs: Option<Style>,
                       leftKwargs: Option<Style>, rightKwargs: Option<Style>, kwargs: Style, k: nat)
    ensures var m := EffectiveMultiple(multiple);
            var nH := |Arange(scale, m)|;
            var g := Gridlines(scale, multiple, horizontalKwargs, leftKwargs, rightKwargs, kwargs);
            && (BeforeStop(Nth(k, m), scale + m, m) <==> nH + 2 * k + 1 < |g|)
            && (nH + 2 * k + 1 < |g| ==>
                  && g[nH + 2 * k] == LeftParallelLine(scale, Nth(k, m), FamilyStyle(kwargs, leftKwargs))
                  && g[nH + 2 * k + 1] == RightParallelLine(scale, Nth(k, m), FamilyStyle(kwargs, rightKwargs)))
  {
    var m := EffectiveMultiple(multiple);
    var front := Arange(scale, m);
    var indices := Arange(scale + m, m);
    var ls, rs := FamilyStyle(kwargs, leftKwargs), FamilyStyle(kwargs, rightKwargs);
    var g := Gridlines(scale, multiple, horizontalKwargs, leftKwargs, rightKwargs, kwargs);
    assert g == GridFrom(scale, front, indices, FamilyStyle(kwargs, horizontalKwargs), ls, rs);
    assert |g| == |front| + 2 * |indices|;
    ArangeMembership(scale + m, m, k);
    if k < |indices| {
      GridFromPairAt(scale, front, indices, FamilyStyle(kwargs, horizontalKwargs), ls, rs, k);
      assert indices[k] == Nth(k, m);
    }
  }

  /** After the horizontal lines, the k-th pair is the left- then the right-parallel line at the k-th index. */
  lemma GridFromPairAt(scale: real, horizontalIndices: seq<real>, pairIndices: seq<real>,
                       horizontalStyle: Style, leftStyle: Style, rightStyle: Style, k: nat)
    requires k < |pairIndices|
    ensures GridFrom(scale, horizontalIndices, pairIndices, horizontalStyle, leftStyle, rightStyle)[|horizontalIndices| + 2 * k]
            == LeftParallelLine(scale, pairIndices[k], leftStyle)
    ensures GridFrom(scale, horizontalIndices, pairIndices, horizontalStyle, leftStyle, rightStyle)[|horizontalIndices| + 2 * k + 1]
            == RightParallelLine(scale, pairIndices[k], rightStyle)
  {
    var front := HorizontalFamily(scale, horizontalIndices, horizontalStyle);
    var pairs := ParallelPairs(scale, pairIndices, leftStyle, rightStyle);
    ParallelPairsAt(scale, pairIndices, leftStyle, rightStyle, k);
    assert |front| == |horizontalIndices|;
    assert (front + pairs)[|front| + 2 * k] == pairs[2 * k];
    assert (front + pairs)[|front| + 2 * k + 1] == pairs[2 * k + 1];
  }

  /** For a non-negative scale and spacing, each of the left and right families
      has exactly one line more than the horizontal family: the extra line is
      the one at the last multiple: a zero-length segment at a corner when
      `multiple` divides `scale`, a line outside the simplex otherwise. */
  lemma GridlinesFamilySizes(scale: real, multiple: Option<real>)
    requires 0.0 <= scale
    requires multiple.None? || multiple.value >= 0.0
    ensures var m := EffectiveMultiple(multiple);
            |Arange(scale + m, m)| == |Arange(scale, m)| + 1
  {
    var m := EffectiveMultiple(multiple);
    ArangeExtend(scale, m);
  }

  /** What a family's style holds: the keys of the common style, of the family
      override and the two default keys; the override's values win, the other
      common values are kept, and the grid defaults for `linewidth` and
      `linestyle` survive unless the common style or the override sets them. */
  lemma FamilyStyleContents(kwargs: Style, family: Option<Style>)
    ensures var s := FamilyStyle(kwargs, family);
            && s.Keys == kwargs.Keys + OrEmpty(family).Keys + {LinewidthKey, LinestyleKey}
            && (forall key :: key in OrEmpty(family) ==> s[key] == OrEmpty(family)[key])
            && (forall key :: key in kwargs && key !in OrEmpty(family) ==> s[key] == kwargs[key])
    ensures LinewidthKey !in kwargs && LinewidthKey !in OrEmpty(family) ==>
              FamilyStyle(kwargs, family)[LinewidthKey] == DefaultLinewidth
    ensures LinestyleKey !in kwargs && LinestyleKey !in OrEmpty(family) ==>
              FamilyStyle(kwargs, family)[LinestyleKey] == DefaultLinestyle
  {
  }

  /** Where the families reach index `scale`, the left- and right-parallel
      lines there have length zero: both ends are the corner (0, scale, 0),
      respectively (scale, 0, 0). */
  lemma FarLinesDegenerate(scale: real, kwargs: Style)
    ensures var l := LeftParallelLine(scale, scale, kwargs);
            l.p1 == l.p2 == Triple(0.0, scale, 0.0)
    ensures var r := RightParallelLine(scale, scale, kwargs);
            r.p1 == r.p2 == Triple(scale, 0.0, 0.0)
  {
  }

  /** The grid draws the boundary too: whenever index 0 is drawn, the first
      horizontal line and the first left/right pair have the endpoints of the
      three boundary edges, in the boundary's order. */
  lemma GridlinesIncludeBoundary(scale: real, multiple: Option<real>, horizontalKwargs: Option<Style>,
                                 leftKwargs: Option<Style>, rightKwargs: Option<Style>, kwargs: Style)
    requires BeforeStop(0.0, scale, EffectiveMultiple(multiple))
    ensures var g := Gridlines(scale, multiple, horizontalKwargs, leftKwargs, rightKwargs, kwargs);
            var b := Boundary(scale, kwargs);
            var nH := |Arange(scale, EffectiveMultiple(multiple))|;
            && 0 < nH && nH + 1 < |g|
            && g[0].p1 == b[0].p1 && g[0].p2 == b[0].p2
            && g[nH].p1 == b[1].p1 && g[nH].p2 == b[1].p2
            && g[nH + 1].p1 == b[2].p1 && g[nH + 1].p2 == b[2].p2
  {
    var m := EffectiveMultiple(multiple);
    assert Nth(0, m) == 0.0;
    GridlinesHorizontal(scale, multiple, horizontalKwargs, leftKwargs, rightKwargs, kwargs, 0);
    GridlinesPairs(scale, multiple, horizontalKwargs, leftKwargs, rightKwargs, kwargs, 0);
  }

  /** The documented example: scale 30 with multiple 6 draws 5 horizontal lines
      (and 6 of each other family); scale 10 with multiple 2 draws 5 and 6. */
  lemma GridlinesExamples()
    ensures |Arange(30.0, 6.0)| == 5 && |Arange(36.0, 6.0)| == 6
    ensures Arange(10.0, 2.0) == [0.0, 2.0, 4.0, 6.0, 8.0]
    ensures Arange(12.0, 2.0) == [0.0, 2.0, 4.0, 6.0, 8.0, 10.0]
  {
  }
}
