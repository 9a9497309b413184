# Ternary plot lines, boundary, grid and ticks

A Dafny model of `ternary/lines.py` from python-ternary: the module that
turns ternary (barycentric) coordinates into the line segments of a ternary
plot. The segments are the simplex boundary, the dotted grid of lines
parallel to the three edges, and the tick marks off the edges.

Each draw call becomes a value. `line` produces one `Segment`: two ternary
endpoints, the permutation the projection applies to both of them, and the
style options passed to the drawing surface. Every other operation is a pure
function that returns the sequence of segments it would draw, in drawing
order. `ticks` can raise, so it returns a `Result` holding either the
segments or the error.

Modules:

- `Wrappers`: `Option` (a `None` default) and `Result` (a raised error).
- `Geometry`: ternary points, their coordinate sum, the cyclic relabelling of components and the simplex corners.
- `Styles`: keyword-argument dictionaries and `merge_dicts`.
- `Ranges`: numpy's `arange(0, stop, step)` in exact real arithmetic.
- `Lines`: `line`, the three edge-parallel lines and `boundary`.
- `Grid`: `gridlines`.
- `Ticks`: `ticks`.

Modelling decisions:

- A `permutation` keyword reaching `line` through `**kwargs` binds `line`'s
  `permutation` parameter, and the remaining keywords become the style. This
  is how a permutation given to `boundary` or `gridlines` reaches the
  projection (`Lines.Line`).
- The module is Python 2 code (`raise ValueError, "..."`). There, `str.lower()`
  lower-cases ASCII letters only, and `Ticks.Lower` does the same.
- `arange(0, stop, step)` has `max(0, ceil(stop/step))` elements, the k-th
  one being `k*step`. Any non-zero step is allowed, negative ones included,
  as in numpy. A zero step raises in numpy. In `gridlines` it cannot happen,
  because a falsy `multiple` becomes 1.0 first. In `ticks` it is the
  `ZeroStep` error. It fires only when an `arange` is actually evaluated:
  for the default labels when `ticks` is empty, or for the first selected
  side.
- The docstring of `boundary` says it creates an axis when none is given.
  The code does not do that, and the model follows the code.
- The docstring of `gridlines` says it plots grid lines excluding the
  boundary. The code starts every family at index 0, and those first lines
  are the three edges of the boundary, so the grid includes the boundary.
  The model follows the code (`Grid.GridlinesIncludeBoundary`).

## Model

| member | source | states |
|---|---|---|
| `Ranges.Arange` | ternary/lines.py:171-176 | numpy's `arange(0, stop, step)` (also used at lines 188, 192, 203 and 214): `max(0, ceil(stop/step))` values, the k-th being `k*step` |
| `Ranges.ArangeMembership` | ternary/lines.py:171-174 | the k-th multiple of the step is among the indices iff it lies strictly before the stop, so a range holds exactly the multiples short of its stop |
| `Ranges.ArangeMonotone` | ternary/lines.py:171-176 | the indices strictly increase for a positive step and strictly decrease for a negative one |
| `Ranges.ArangeExtend` | ternary/lines.py:171-176 | extending the stop by one step appends exactly one index (the next multiple), provided 0 is still before the extended stop |
| `Styles.MergeDicts` | ternary/lines.py:117-134 | the result holds the keys of both arguments; keys in `updates` take its value, keys only in `base` keep theirs; `None` or `{}` counts as empty |
| `Styles.MergeIdentity` | ternary/lines.py:128-131 | a missing or empty argument on either side leaves the other argument unchanged, and two missing ones give `{}` |
| `Lines.Line` | ternary/lines.py:15-33 | one segment with the given endpoints; a `permutation` keyword becomes the segment's permutation (else `None`) and the style is every keyword except `permutation`, values unchanged |
| `Lines.HorizontalLine` | ternary/lines.py:35-53 | both endpoints sum to `scale` and have third coordinate `i`, one on the a = 0 edge and one on the b = 0 edge; one segment through `line` |
| `Lines.LeftParallelLine` | ternary/lines.py:55-73 | both endpoints sum to `scale` and have second coordinate `i`, one on the a = 0 edge and one on the c = 0 edge; one segment through `line` |
| `Lines.RightParallelLine` | ternary/lines.py:75-93 | both endpoints sum to `scale` and have first coordinate `i`, one on the c = 0 edge and one on the b = 0 edge; one segment through `line` |
| `Lines.ParallelFamiliesRotate` | ternary/lines.py:51-92 | under the relabelling (a, b, c) to (c, a, b), the horizontal line at i becomes the right-parallel one, that becomes the left-parallel one, and that becomes the horizontal one; the first and last mappings swap the line's endpoints |
| `Lines.Boundary` | ternary/lines.py:97-115 | three segments, every endpoint a corner of the simplex, all with the same style and permutation |
| `Lines.BoundaryIsTriangle` | ternary/lines.py:112-114 | for a non-zero scale each boundary segment joins two different corners and each corner ends exactly two segments |
| `Lines.BoundaryOrder` | ternary/lines.py:112-114 | the edges are drawn horizontal, left-parallel, right-parallel, all at index 0 |
| `Grid.WithGridDefaults` | ternary/lines.py:160-163 | `linewidth` becomes 0.5 and `linestyle` becomes ':' only when absent; present keys keep their values; no other key is added |
| `Grid.EffectiveMultiple` | ternary/lines.py:167-168 | a `None` or zero `multiple` becomes 1.0 and any other value is kept, so the spacing is never zero |
| `Grid.Gridlines` | ternary/lines.py:136-177 | the number of lines is the horizontal index count plus twice the left/right index count |
| `Grid.ParallelPairsAt` | ternary/lines.py:174-176 | the k-th pair of the left/right families is the left-parallel then the right-parallel line at the k-th index |
| `Grid.GridlinesHorizontal` | ternary/lines.py:171-172 | the k-th multiple of the spacing is a horizontal index iff it is strictly before `scale`, and then line k is the horizontal line there in the horizontal style |
| `Grid.GridlinesPairs` | ternary/lines.py:174-176 | the k-th multiple is a left/right index iff it is strictly before `scale + multiple`; after the horizontal lines come the left-parallel then the right-parallel line at each such index |
| `Grid.GridlinesFamilySizes` | ternary/lines.py:171-176 | for a non-negative scale and spacing, each of the left and right families has exactly one line more than the horizontal family |
| `Grid.FamilyStyleContents` | ternary/lines.py:160-166 | a family's style (`merge_dicts` of the defaulted common style and the family override) has the keys of both plus the two default keys; the override's values win, other common values are kept, and the defaults survive unless either one sets the key |
| `Grid.FarLinesDegenerate` | ternary/lines.py:55-93 | at index `scale` the left-parallel line collapses to the corner (0, scale, 0) and the right-parallel one to the corner (scale, 0, 0); this is the extra left/right line when `multiple` divides `scale` |
| `Grid.GridlinesIncludeBoundary` | ternary/lines.py:171-176 | when 0 is a horizontal index, the first horizontal line and the first left/right pair of the grid have the endpoints of the three boundary edges, in the boundary's order |
| `Grid.GridlinesExamples` | ternary/lines.py:146-148 | scale 30 with multiple 6 gives 5 horizontal indices and 6 left/right indices; scale 10 with multiple 2 gives indices 0..8 and 0..10 |
| `Ticks.Lower` | ternary/lines.py:181 | the result is never an upper-case ASCII letter; upper-case letters move by 32 and every other character is unchanged |
| `Ticks.LowerString` | ternary/lines.py:181 | the lower-cased selector has the selector's length and holds the lower-cased character at every position |
| `Ticks.LowerStringHas` | ternary/lines.py:181 | a lower-case letter is in the lower-cased selector iff it or its upper-case form is in the selector |
| `Ticks.BasePoint` | ternary/lines.py:191-215 | the r base point sums to `scale` with second coordinate i; the l base point is (0, i, 0); the b base point is (i, 0, 0); all have third coordinate 0 |
| `Ticks.OffsetPoint` | ternary/lines.py:194-221 | the far end of a tick lies in the plane c = 0, `offset*scale` times the side's direction away from the base point, for each side and orientation |
| `Ticks.Tick` | ternary/lines.py:191-222 | a tick starts at the base point and is `offset*scale` times a direction fixed by side and `clockwise` long, whatever its index; it is drawn through `line` with the common keywords |
| `Ticks.SideTicks` | ternary/lines.py:191-222 | one tick per index of `arange(0, scale + multiple, multiple)`, the k-th at `k*multiple` |
| `Ticks.Ticks` | ternary/lines.py:179-222 | fails iff the lower-cased selector has a character outside l, r, b, or `multiple` is 0 and an arange is evaluated; an invalid selector is reported first and a valid one can fail only with the zero-step error; a selector with no side draws nothing |
| `Ticks.SelectedSides` | ternary/lines.py:191-213 | a side is drawn iff its letter is in the lower-cased selector, each at most once, in the order r, l, b |
| `Ticks.TicksCount` | ternary/lines.py:191-222 | a valid selector with a non-zero `multiple` succeeds and draws n ticks per selected side, n being the number of indices of `arange(0, scale + multiple, multiple)`, so nothing when that range is empty |
| `Ticks.SelectedSidesPosition` | ternary/lines.py:191-213 | the q-th selected side comes after exactly the selected sides of lower rank in the order r, l, b |
| `Ticks.TicksLayout` | ternary/lines.py:191-222 | with n indices per side, the q-th selected side fills positions q*n .. q*n+n-1 with its ticks at 0, multiple, 2*multiple, ... in order |
| `Ticks.TicksLetterSet` | ternary/lines.py:181-213 | selectors with the same set of lower-cased letters draw the same ticks, so repeats, order and case do not matter |
| `Ticks.TicksIgnoreLabels` | ternary/lines.py:187-189 | for a non-zero `multiple`, the `ticks` and `locations` arguments do not change the result |
| `Ticks.TicksEmptySelector` | ternary/lines.py:181-213 | an empty selector draws nothing when `multiple` is non-zero or labels are given |
| `Ticks.TicksExamples` | ternary/lines.py:181-222 | selector "x" fails with the axis error; "r" over scale -10 draws nothing; "LR" over scale 10 with multiple 5 draws the r ticks then the l ticks, 6 in all |

## Left out

- Rendering: `Line2D`, `ax.add_line` and the matplotlib imports. A draw is a `Segment` in the output, and the axis passed back to the caller is not modelled.
- `project_point` (from `helpers`, which is not part of this model). Segments stay in ternary coordinates and carry the permutation the projection would receive.
- Floating point: numpy `arange` over floats can gain or lose an element through rounding. The model computes indices in exact real arithmetic.
- Style values are opaque. Only `linewidth`, `linestyle` and `permutation` are looked at.
- Keyword names that clash with a positional parameter: a style key `i` or `scale` makes Python raise a `TypeError` when it is forwarded. The model treats such keys as ordinary style.
- A `ticks` label argument given as a numpy array with several elements: Python raises on its truth value. The model takes labels as a list, with a missing list modelled as empty.
- Default arguments of `ticks` (`multiple=1`, `axis='b'`, `offset=0.01`, `clockwise=False`): the model takes every argument explicitly. A `multiple` of `None` is not representable; in the source, `arange` accepts it for the default labels but `scale + multiple` then raises a `TypeError` when a side is selected.
- Non-ASCII characters in the selector: Python 2's byte-string `lower()` leaves them unchanged, and so does the model. Unicode strings are not modelled.
- Lines.BoundaryIsTriangle: requires a non-zero scale, because at scale 0 all three corners are the same point and each one ends three segments.
- Grid.GridlinesFamilySizes: stated only for a non-negative scale and spacing. It is `Ranges.ArangeExtend` that gives the exact condition: 0 must lie before `scale + multiple`.
