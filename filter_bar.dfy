/**
 * The filter bar component: whether any filter is active, and the label checkboxes that add a
 * label to the selection or take it out.
 */
module FilterBar {
  import opened Base

  /**
   * `hasActiveFilters`: a non-empty query, a selected label or the faces-only switch. When it is
   * false the bar shows the cleared state: no query, no label, the switch off.
   */
  predicate HasActiveFilters(query: string, selected: seq<string>, facesOnly: bool)
    ensures !HasActiveFilters(query, selected, facesOnly) ==> query == "" && selected == [] && !facesOnly
  {
    query != "" || |selected| > 0 || facesOnly
  }

  /** `selected.filter((l) => l !== label)`: every occurrence of `label` (here `name`) dropped. */
  function Remove(selected: seq<string>, name: string): (r: seq<string>)
    ensures name !in r
    ensures forall x | x != name :: x in r <==> x in selected
    ensures |r| <= |selected|
    ensures name !in selected ==> r == selected
  {
    if selected == [] then []
    else
      var rest := Remove(selected[..|selected| - 1], name);
      var last := selected[|selected| - 1];
      assert selected == selected[..|selected| - 1] + [last];
      if last == name then rest else rest + [last]
  }

  /** The labels that survive keep their relative order. */
  lemma {:induction false} RemoveKeepsOrder(selected: seq<string>, name: string)
    ensures IsSubsequence(Remove(selected, name), selected)
    decreases |selected|
  {
    if selected != [] {
      var init := selected[..|selected| - 1];
      RemoveKeepsOrder(init, name);
      var r := Remove(selected, name);
      if selected[|selected| - 1] != name {
        assert r[..|r| - 1] == Remove(init, name);
      }
    }
  }

  /** Dropping a label from a duplicate-free selection leaves it duplicate-free. */
  lemma {:induction false} RemoveKeepsDistinct(selected: seq<string>, name: string)
    requires Distinct(selected)
    ensures Distinct(Remove(selected, name))
    decreases |selected|
  {
    if selected != [] {
      var init := selected[..|selected| - 1];
      var last := selected[|selected| - 1];
      RemoveKeepsDistinct(init, name);
      if last != name {
        assert last !in init;
        var rest := Remove(init, name);
        assert last !in rest;
        assert Remove(selected, name) == rest + [last];
      }
    }
  }

  /** The checked state of a label's checkbox. */
  predicate Checked(selected: seq<string>, name: string) {
    name in selected
  }

  /** `onCheckedChange`: the new selection when the label `name`'s checkbox becomes `checked`. */
  function OnCheckedChange(selected: seq<string>, name: string, checked: bool): (r: seq<string>)
    ensures checked ==> r == selected + [name]
    ensures !checked ==> IsSubsequence(r, selected)
    ensures Checked(r, name) == checked
    ensures forall x | x != name :: Checked(r, x) == Checked(selected, x)
  {
    if checked then selected + [name]
    else
      RemoveKeepsOrder(selected, name);
      Remove(selected, name)
  }

  /** Checking an unchecked label and unchecking it again restores the selection. */
  lemma CheckThenUncheck(selected: seq<string>, name: string)
    requires !Checked(selected, name)
    ensures OnCheckedChange(OnCheckedChange(selected, name, true), name, false) == selected
  {
    var added := selected + [name];
    assert added[..|added| - 1] == selected;
  }
}
