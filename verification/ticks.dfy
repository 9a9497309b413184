/**
 `ticks` of ternary/lines.py: short marks off the right, left and bottom edges
 of the simplex. The side selector is a string of the letters l, r and b in
 any case; a side is drawn when its letter occurs, sides are drawn in the
 order r, l, b, and each drawn side gets one tick per index of
 `arange(0, scale + multiple, multiple)`.
 */
module Ticks {
  import opened Wrappers
  import opened Geometry
  import opened Styles
  import opened Ranges
  import opened Lines

  /** Why `ticks` raises. */
  datatype TickError =
    | InvalidAxis   // the selector holds a character other than l, r, b
    | ZeroStep      // `arange` was asked for a zero step

  /** The sides a tick can be drawn off. */
  datatype Side = RightSide | LeftSide | BottomSide

  /** Position of a side in the drawing order r, l, b. */
  function Rank(side: Side): nat
  {
    match side
    case RightSide => 0
    case LeftSide => 1
    case BottomSide => 2
  }

  /** The selector letter of each side. */
  function Letter(side: Side): char
  {
    match side
    case RightSide => 'r'
    case LeftSide => 'l'
    case BottomSide => 'b'
  }

  /** The letters a selector may contain once lower-cased. */
  const ValidLetters: set<char> := {'l', 'r', 'b'}

  /** ASCII lower-casing of one character, as byte-string `lower()` does. */
  function Lower(c: char): (d: char)
    ensures !('A' <= d <= 'Z')
    ensures !('A' <= c <= 'Z') ==> d == c
    ensures 'A' <= c <= 'Z' ==> d as int - c as int == 32
  {
    if 'A' <= c <= 'Z' then (c as int + 32) as char else c
  }

  /** The selector lower-cased character by character. */
  function LowerString(s: string): (r: string)
    ensures |r| == |s|
    ensures forall i :: 0 <= i < |s| ==> r[i] == Lower(s[i])
  {
    seq(|s|, i requires 0 <= i < |s| => Lower(s[i]))
  }

  /** A letter occurs in the lower-cased selector exactly when it occurs in either case in the selector. */
  lemma LowerStringHas(s: string, c: char)
    requires 'a' <= c <= 'z'
    ensures c in LowerString(s) <==> c in s || (c as int - 32) as char in s
  {
    var u := (c as int - 32) as char;
    if c in LowerString(s) {
      var i :| 0 <= i < |s| && LowerString(s)[i] == c;
      assert s[i] == c || s[i] == u;
    }
    if c in s {
      var i :| 0 <= i < |s| && s[i] == c;
      assert LowerString(s)[i] == c;
    }
    if u in s {
      var i :| 0 <= i < |s| && s[i] == u;
      assert LowerString(s)[i] == c;
    }
  }

  /** The lower-cased selector holds only l, r and b. */
  predicate ValidAxis(axis: string)
  {
    forall c :: c in axis ==> c in ValidLetters
  }

  /** The lower-cased selector names at least one side. */
  predicate AnySide(axis: string)
  {
    'r' in axis || 'l' in axis || 'b' in axis
  }

  /** The point on the edge where the tick at index i starts. */
  function BasePoint(side: Side, scale: real, i: real): (p: Triple)
    ensures p.c == 0.0
    ensures side == RightSide ==> Sum(p) == scale && p.b == i
    ensures side == LeftSide ==> p.a == 0.0 && p.b == i
    ensures side == BottomSide ==> p.b == 0.0 && p.a == i
  {
    match side
    case RightSide => Triple(scale - i, i, 0.0)
    case LeftSide => Triple(0.0, i, 0.0)
    case BottomSide => Triple(i, 0.0, 0.0)
  }

  /** The far end of the tick at index i: `offset * scale` away from the base
      point in the direction the side and orientation select, still in the
      plane c = 0. */
  function OffsetPoint(side: Side, scale: real, i: real, offset: real, clockwise: bool): (q: Triple)
    ensures q.c == 0.0
    ensures Delta(BasePoint(side, scale, i), q) == Scaled(offset * scale, Direction(side, clockwise))
  {
    var d := offset * scale;
    assert d * 1.0 == d && d * 0.0 == 0.0 && d * -1.0 == -d;
    match side
    case RightSide =>
      if clockwise then Triple(scale - i, i + d, 0.0) else Triple(scale - i + d, i, 0.0)
    case LeftSide =>
      if clockwise then Triple(-d, i, 0.0) else Triple(-d, i + d, 0.0)
    case BottomSide =>
      if clockwise then Triple(i + d, -d, 0.0) else Triple(i, -d, 0.0)
  }

  /** The direction a tick points in, per side and orientation, in ternary components. */
  function Direction(side: Side, clockwise: bool): Triple
  {
    match side
    case RightSide => if clockwise then Triple(0.0, 1.0, 0.0) else Triple(1.0, 0.0, 0.0)
    case LeftSide => if clockwise then Triple(-1.0, 0.0, 0.0) else Triple(-1.0, 1.0, 0.0)
    case BottomSide => if clockwise then Triple(1.0, -1.0, 0.0) else Triple(0.0, -1.0, 0.0)
  }

  /** `v` scaled by `k`. */
  function Scaled(k: real, v: Triple): Triple
  {
    Triple(k * v.a, k * v.b, k * v.c)
  }

  /** One tick: a segment drawn through `line` from the base point on the edge,
      `offset * scale` times the side's direction long whatever its index, so
      the ticks of one side are parallel and equally long. */
  function Tick(side: Side, scale: real, i: real, offset: real, clockwise: bool, kwargs: Style): (t: Segment)
    ensures t.p1 == BasePoint(side, scale, i)
    ensures Delta(t.p1, t.p2) == Scaled(offset * scale, Direction(side, clockwise))
    ensures t.perm == BoundPermutation(kwargs) && t.style == BoundStyle(kwargs)
  {
    Line(BasePoint(side, scale, i), OffsetPoint(side, scale, i, offset, clockwise), kwargs)
  }

  /** The ticks of one side, one per index of `arange(0, scale + multiple, multiple)`:
      the k-th at `k * multiple`. */
  function SideTicks(side: Side, scale: real, multiple: real, offset: real, clockwise: bool, kwargs: Style): (r: seq<Segment>)
    requires multiple != 0.0
    ensures |r| == |Arange(scale + multiple, multiple)|
    ensures forall k :: 0 <= k < |r| ==> r[k] == Tick(side, scale, Nth(k, multiple), offset, clockwise, kwargs)
  {
    var indices := Arange(scale + multiple, multiple);
    seq(|indices|, k requires 0 <= k < |indices| => Tick(side, scale, indices[k], offset, clockwise, kwargs))
  }

  /** The ticks of one side if the selector names it, and nothing otherwise. */
  function SideIfSelected(side: Side, axis: string, scale: real, multiple: real, offset: real,
                          clockwise: bool, kwargs: Style): (r: seq<Segment>)
    requires Letter(side) in axis ==> multiple != 0.0
    ensures Letter(side) in axis ==> |r| == |Arange(scale + multiple, multiple)|
    ensures Letter(side) !in axis ==> r == []
  {
    if Letter(side) in axis then SideTicks(side, scale, multiple, offset, clockwise, kwargs) else []
  }

  /** `ticks(ax, scale, ticks, locations, multiple, axis, offset, clockwise, **kwargs)`.
      `ticks` and `locations` are labels; a missing label list is modelled as
      empty, and when it is empty the default labels `arange(0, scale, multiple)`
      are computed and then never used. */
  function Ticks(scale: real, ticks: seq<Val>, locations: seq<Val>, multiple: real, axis: string,
                 offset: real, clockwise: bool, kwargs: Style): (r: Result<seq<Segment>, TickError>)
    ensures r.Failure? <==>
              || !ValidAxis(LowerString(axis))
              || (multiple == 0.0 && (|ticks| == 0 || AnySide(LowerString(axis))))
    ensures !ValidAxis(LowerString(axis)) ==> r == Failure(InvalidAxis)
    ensures ValidAxis(LowerString(axis)) && r.Failure? ==> r.error == ZeroStep
    ensures r.Success? && !AnySide(LowerString(axis)) ==> r.value == []
  {
    var ax := LowerString(axis);
    if !ValidAxis(ax) then Failure(InvalidAxis)
    else if multiple == 0.0 && |ticks| == 0 then
      // the default labels are `arange(0, scale, 0)`, which raises
      Failure(ZeroStep)
    else if multiple == 0.0 && AnySide(ax) then
      // the first selected side asks for `arange(0, scale, 0)`, which raises
      Failure(ZeroStep)
    else
      Success(SelectedTicks(ax, scale, multiple, offset, clockwise, kwargs))
  }

  /** The ticks of the right, then the left, then the bottom side, each if selected. */
  function SelectedTicks(ax: string, scale: real, multiple: real, offset: real, clockwise: bool,
                         kwargs: Style): seq<Segment>
    requires AnySide(ax) ==> multiple != 0.0
  {
    SideIfSelected(RightSide, ax, scale, multiple, offset, clockwise, kwargs)
    + SideIfSelected(LeftSide, ax, scale, multiple, offset, clockwise, kwargs)
    + SideIfSelected(BottomSide, ax, scale, multiple, offset, clockwise, kwargs)
  }

  /** The sides the selector names, in the order they are drawn: r, l, b. */
  function SelectedSides(axis: string): (r: seq<Side>)
    ensures forall side :: side in r <==> Letter(side) in axis
    ensures forall j, k :: 0 <= j < k < |r| ==> Rank(r[j]) < Rank(r[k])
  {
    (if 'r' in axis then [RightSide] else [])
    + (if 'l' in axis then [LeftSide] else [])
    + (if 'b' in axis then [BottomSide] else [])
  }

  /** A selected side's block holds one tick per index, in index order. */
  lemma SideIfSelectedAt(side: Side, axis: string, scale: real, multiple: real, offset: real,
                         clockwise: bool, kwargs: Style, k: nat)
    requires multiple != 0.0
    requires Letter(side) in axis
    requires k < |Arange(scale + multiple, multiple)|
    ensures |SideIfSelected(side, axis, scale, multiple, offset, clockwise, kwargs)| == |Arange(scale + multiple, multiple)|
    ensures SideIfSelected(side, axis, scale, multiple, offset, clockwise, kwargs)[k]
            == Tick(side, scale, Nth(k, multiple), offset, clockwise, kwargs)
  {
  }

  /** How many ticks are drawn: a valid selector with a non-zero spacing draws
      one block of n ticks per selected side, n being the number of indices of
      `arange(0, scale + multiple, multiple)`; with no index nothing is drawn. */
  lemma TicksCount(scale: real, ticks: seq<Val>, locations: seq<Val>, multiple: real, axis: string,
                   offset: real, clockwise: bool, kwargs: Style)
    requires multiple != 0.0
    requires ValidAxis(LowerString(axis))
    ensures var r := Ticks(scale, ticks, locations, multiple, axis, offset, clockwise, kwargs);
            && r.Success?
            && |r.value| == |SelectedSides(LowerString(axis))| * |Arange(scale + multiple, multiple)|
  {
    var n := |Arange(scale + multiple, multiple)|;
    var ax := LowerString(axis);
    var c := (if 'r' in ax then 1 else 0) + (if 'l' in ax then 1 else 0) + (if 'b' in ax then 1 else 0);
    assert |SelectedSides(ax)| == c;
    BlockSizes(n, 'r' in ax, 'l' in ax, 'b' in ax);
  }

  /** Three blocks of n or 0 elements each take n times the number of non-empty ones. */
  lemma BlockSizes(n: nat, hasX: bool, hasY: bool, hasZ: bool)
    ensures (if hasX then n else 0) + (if hasY then n else 0) + (if hasZ then n else 0)
            == ((if hasX then 1 else 0) + (if hasY then 1 else 0) + (if hasZ then 1 else 0)) * n
  {
  }

  /** Where every tick goes: with n indices per side, the q-th selected side
      (in the order r, l, b) occupies positions q*n to q*n + n - 1, holding its
      ticks at the indices 0, multiple, 2*multiple, ... in order. Together with
      `TicksCount` this fixes every position of the result. */
  lemma TicksLayout(scale: real, ticks: seq<Val>, locations: seq<Val>, multiple: real, axis: string,
                    offset: real, clockwise: bool, kwargs: Style, q: nat, k: nat)
    requires multiple != 0.0
    requires ValidAxis(LowerString(axis))
    requires q < |SelectedSides(LowerString(axis))|
    requires k < |Arange(scale + multiple, multiple)|
    ensures var n := |Arange(scale + multiple, multiple)|;
            var r := Ticks(scale, ticks, locations, multiple, axis, offset, clockwise, kwargs);
            && r.Success?
            && q * n + k < |r.value|
            && r.value[q * n + k] == Tick(SelectedSides(LowerString(axis))[q], scale, Nth(k, multiple), offset, clockwise, kwargs)
  {
    var ax := LowerString(axis);
    var side := SelectedSides(ax)[q];
    SelectedSidesPosition(ax, q);
    SideBlockAt(side, ax, scale, multiple, offset, clockwise, kwargs, k);
    assert Ticks(scale, ticks, locations, multiple, axis, offset, clockwise, kwargs)
        == Success(SelectedTicks(ax, scale, multiple, offset, clockwise, kwargs));
  }

  /** A selected side's block starts after one block per selected side of lower rank. */
  lemma SideBlockAt(side: Side, ax: string, scale: real, multiple: real, offset: real, clockwise: bool,
                    kwargs: Style, k: nat)
    requires multiple != 0.0
    requires Letter(side) in ax
    requires k < |Arange(scale + multiple, multiple)|
    ensures var n := |Arange(scale + multiple, multiple)|;
            var p := (if 'r' in ax && Rank(side) > 0 then 1 else 0) + (if 'l' in ax && Rank(side) > 1 then 1 else 0);
            var all := SelectedTicks(ax, scale, multiple, offset, clockwise, kwargs);
            && p * n + k < |all|
            && all[p * n + k] == Tick(side, scale, Nth(k, multiple), offset, clockwise, kwargs)
  {
    var n := |Arange(scale + multiple, multiple)|;
    var rs := SideIfSelected(RightSide, ax, scale, multiple, offset, clockwise, kwargs);
    var ls := SideIfSelected(LeftSide, ax, scale, multiple, offset, clockwise, kwargs);
    match side
    case RightSide =>
      RightBlockAt(ax, scale, multiple, offset, clockwise, kwargs, k);
    case LeftSide =>
      LeftBlockAt(ax, scale, multiple, offset, clockwise, kwargs, k);
      if 'r' in ax { assert 1 * n == |rs|; } else { assert 0 * n == |rs|; }
    case BottomSide =>
      BottomBlockAt(ax, scale, multiple, offset, clockwise, kwargs, k);
      var nr := if 'r' in ax then 1 else 0;
      var nl := if 'l' in ax then 1 else 0;
      assert |rs| == nr * n && |ls| == nl * n;
      assert (nr + nl) * n == |rs| + |ls|;
  }

  /** The right side's ticks come first. */
  lemma RightBlockAt(ax: string, scale: real, multiple: real, offset: real, clockwise: bool, kwargs: Style, k: nat)
    requires multiple != 0.0
    requires 'r' in ax
    requires k < |Arange(scale + multiple, multiple)|
    ensures var all := SelectedTicks(ax, scale, multiple, offset, clockwise, kwargs);
            && k < |all|
            && all[k] == Tick(RightSide, scale, Nth(k, multiple), offset, clockwise, kwargs)
  {
    var rs, ls, bs := SideIfSelected(RightSide, ax, scale, multiple, offset, clockwise, kwargs),
                      SideIfSelected(LeftSide, ax, scale, multiple, offset, clockwise, kwargs),
                      SideIfSelected(BottomSide, ax, scale, multiple, offset, clockwise, kwargs);
    SideIfSelectedAt(RightSide, ax, scale, multiple, offset, clockwise, kwargs, k);
    ConcatAt(rs + ls, bs, k);
    ConcatAt(rs, ls, k);
  }

  /** The left side's ticks follow the right side's, if any. */
  lemma LeftBlockAt(ax: string, scale: real, multiple: real, offset: real, clockwise: bool, kwargs: Style, k: nat)
    requires multiple != 0.0
    requires 'l' in ax
    requires k < |Arange(scale + multiple, multiple)|
    ensures var all := SelectedTicks(ax, scale, multiple, offset, clockwise, kwargs);
            var before := |SideIfSelected(RightSide, ax, scale, multiple, offset, clockwise, kwargs)|;
            && before + k < |all|
            && all[before + k] == Tick(LeftSide, scale, Nth(k, multiple), offset, clockwise, kwargs)
  {
    var rs, ls, bs := SideIfSelected(RightSide, ax, scale, multiple, offset, clockwise, kwargs),
                      SideIfSelected(LeftSide, ax, scale, multiple, offset, clockwise, kwargs),
                      SideIfSelected(BottomSide, ax, scale, multiple, offset, clockwise, kwargs);
    SideIfSelectedAt(LeftSide, ax, scale, multiple, offset, clockwise, kwargs, k);
    ConcatAt(rs + ls, bs, |rs| + k);
    ConcatAt(rs, ls, |rs| + k);
  }

  /** The bottom side's ticks come last. */
  lemma BottomBlockAt(ax: string, scale: real, multiple: real, offset: real, clockwise: bool, kwargs: Style, k: nat)
    requires multiple != 0.0
    requires 'b' in ax
    requires k < |Arange(scale + multiple, multiple)|
    ensures var all := SelectedTicks(ax, scale, multiple, offset, clockwise, kwargs);
            var before := |SideIfSelected(RightSide, ax, scale, multiple, offset, clockwise, kwargs)| + |SideIfSelected(LeftSide, ax, scale, multiple, offset, clockwise, kwargs)|;
            && before + k < |all|
            && all[before + k] == Tick(BottomSide, scale, Nth(k, multiple), offset, clockwise, kwargs)
  {
    var rs, ls, bs := SideIfSelected(RightSide, ax, scale, multiple, offset, clockwise, kwargs),
                      SideIfSelected(LeftSide, ax, scale, multiple, offset, clockwise, kwargs),
                      SideIfSelected(BottomSide, ax, scale, multiple, offset, clockwise, kwargs);
    SideIfSelectedAt(BottomSide, ax, scale, multiple, offset, clockwise, kwargs, k);
    ConcatAt(rs + ls, bs, |rs| + |ls| + k);
  }

  /** Indexing a concatenation: the front part, then the back part shifted by the front's length. */
  lemma ConcatAt<T>(xs: seq<T>, ys: seq<T>, i: nat)
    requires i < |xs| + |ys|
    ensures i < |xs| ==> (xs + ys)[i] == xs[i]
    ensures |xs| <= i ==> (xs + ys)[i] == ys[i - |xs|]
  {
  }

  /** The q-th selected side is preceded by exactly the selected sides of lower
      rank: its position is the number of sides drawn before it. */
  lemma SelectedSidesPosition(axis: string, q: nat)
    requires q < |SelectedSides(axis)|
    ensures var side := SelectedSides(axis)[q];
            && |SelectedSides(axis)| == (if 'r' in axis then 1 else 0) + (if 'l' in axis then 1 else 0) + (if 'b' in axis then 1 else 0)
            && q == (if 'r' in axis && Rank(side) > 0 then 1 else 0) + (if 'l' in axis && Rank(side) > 1 then 1 else 0)
  {
    var r, l, b := 'r' in axis, 'l' in axis, 'b' in axis;
    var sides := SelectedSides(axis);
    if r && l && b {
      assert sides == [RightSide, LeftSide, BottomSide];
    } else if r && l {
      assert sides == [RightSide, LeftSide];
    } else if r && b {
      assert sides == [RightSide, BottomSide];
    } else if l && b {
      assert sides == [LeftSide, BottomSide];
    } else if r {
      assert sides == [RightSide];
    } else if l {
      assert sides == [LeftSide];
    } else {
      assert sides == [BottomSide];
    }
  }

  /** Only the set of letters in the lower-cased selector matters: repeating a
      letter, reordering letters or changing their case draws the same ticks. */
  lemma TicksLetterSet(scale: real, ticks: seq<Val>, locations: seq<Val>, multiple: real,
                       axis1: string, axis2: string, offset: real, clockwise: bool, kwargs: Style)
    requires forall c :: c in LowerString(axis1) <==> c in LowerString(axis2)
    ensures Ticks(scale, ticks, locations, multiple, axis1, offset, clockwise, kwargs)
         == Ticks(scale, ticks, locations, multiple, axis2, offset, clockwise, kwargs)
  {
    var a1, a2 := LowerString(axis1), LowerString(axis2);
    assert ValidAxis(a1) <==> ValidAxis(a2);
    assert AnySide(a1) <==> AnySide(a2);
  }

  /** The label arguments do not change the ticks drawn; they only decide whether
      a zero `multiple` is noticed when no side is selected. */
  lemma TicksIgnoreLabels(scale: real, ticks1: seq<Val>, locations1: seq<Val>, ticks2: seq<Val>, locations2: seq<Val>,
                          multiple: real, axis: string, offset: real, clockwise: bool, kwargs: Style)
    requires multiple != 0.0
    ensures Ticks(scale, ticks1, locations1, multiple, axis, offset, clockwise, kwargs)
         == Ticks(scale, ticks2, locations2, multiple, axis, offset, clockwise, kwargs)
  {
  }

  /** An empty selector draws nothing, as long as the default labels can be computed. */
  lemma TicksEmptySelector(scale: real, ticks: seq<Val>, locations: seq<Val>, multiple: real,
                           offset: real, clockwise: bool, kwargs: Style)
    requires multiple != 0.0 || |ticks| > 0
    ensures Ticks(scale, ticks, locations, multiple, "", offset, clockwise, kwargs) == Success([])
  {
  }

  /** A selector "x" is refused; "r" over scale -10 draws nothing, as the
      index range is empty; "LR" draws the right then the left side, three
      ticks each over scale 10 with multiple 5 (indices 0, 5 and 10). */
  lemma TicksExamples()
    ensures Ticks(10.0, [], [], 1.0, "x", 0.01, false, map[]) == Failure(InvalidAxis)
    ensures Arange(15.0, 5.0) == [0.0, 5.0, 10.0]
    ensures Ticks(-10.0, [], [], 1.0, "r", 0.01, false, map[]) == Success([])
    ensures var r := Ticks(10.0, [], [], 5.0, "LR", 0.01, false, map[]);
            && r.Success?
            && r.value == SideTicks(RightSide, 10.0, 5.0, 0.01, false, map[]) + SideTicks(LeftSide, 10.0, 5.0, 0.01, false, map[])
            && |r.value| == 6
  {
    assert LowerString("x")[0] == 'x';
    assert 'x' in LowerString("x") && 'x' !in ValidLetters;
    var ax := LowerString("LR");
    assert ax == "lr";
    assert LowerString("r") == "r";
    assert |Arange(-9.0, 1.0)| == 0;
    TicksCount(-10.0, [], [], 1.0, "r", 0.01, false, map[]);
  }
}
