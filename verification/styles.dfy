/**
 Style dictionaries: the keyword arguments forwarded to the drawing surface.
 Their values are opaque to this module except for the grid defaults.
 */
module Styles {
  import opened Wrappers

  /** A keyword-argument value. `Null` is Python's `None`; `Other` stands for
      any value this module only passes along (colours, permutations, ...). */
  datatype Val = Null | Num(x: real) | Text(s: string) | Other(id: nat)

  /** A keyword-argument dictionary. */
  type Style = map<string, Val>

  /** A dictionary argument that may be `None`; `None` and `{}` are both falsy
      and both read as the empty dictionary. */
  function OrEmpty(d: Option<Style>): (r: Style)
    ensures d.Some? ==> r == d.value
    ensures d.None? ==> r == map[]
  {
    if d.None? || d.value == map[] then map[] else d.value
  }

  /** `merge_dicts(base, updates)`: a new dictionary holding every key of both
      arguments, the value from `updates` winning where both have one. */
  function MergeDicts(base: Option<Style>, updates: Option<Style>): (r: Style)
    ensures r.Keys == OrEmpty(base).Keys + OrEmpty(updates).Keys
    ensures forall k :: k in OrEmpty(updates) ==> r[k] == OrEmpty(updates)[k]
    ensures forall k :: k in OrEmpty(base) && k !in OrEmpty(updates) ==> r[k] == OrEmpty(base)[k]
  {
    var b := OrEmpty(base);
    var u := OrEmpty(updates);
    b + u
  }

  /** A missing or empty argument on either side leaves the other unchanged. */
  lemma MergeIdentity(d: Style)
    ensures MergeDicts(None, Some(d)) == d
    ensures MergeDicts(Some(d), None) == d
    ensures MergeDicts(Some(map[]), Some(d)) == d
    ensures MergeDicts(Some(d), Some(map[])) == d
    ensures MergeDicts(None, None) == map[]
  {
  }
}
