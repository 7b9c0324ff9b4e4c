/**
 * The gallery page's client-side query logic: the catalogue of labels offered as filters, the
 * search, label and faces filters, and the handlers that update the page's state.
 */
module Gallery {
  import opened Base
  import opened Text
  import S3
  import FilterBar

  /** One record of `/api/images`, as the page receives it. */
  type Image = S3.ImageMetadata

  const LoadFailed: string := "Failed to load images"

  // The label catalogue

  /**
   * JavaScript's default `sort` order on strings: lexicographic, character by character. It is
   * strict: no string is below itself.
   */
  predicate Below(a: string, b: string)
    ensures Below(a, b) ==> a != b
  {
    if |a| == 0 then |b| > 0
    else if |b| == 0 then false
    else if a[0] == b[0] then Below(a[1..], b[1..])
    else a[0] < b[0]
  }

  /** `Below` orders any two different strings one way and never both ways. */
  lemma {:induction false} BelowTotal(a: string, b: string)
    ensures a != b ==> Below(a, b) || Below(b, a)
    ensures !(Below(a, b) && Below(b, a))
  {
    if |a| > 0 && |b| > 0 && a[0] == b[0] {
      BelowTotal(a[1..], b[1..]);
      assert a == [a[0]] + a[1..] && b == [b[0]] + b[1..];
    }
  }

  /** Strictly ascending in the sort order. */
  predicate Ascending(s: seq<string>) {
    forall i | 0 < i < |s| :: Below(s[i - 1], s[i])
  }

  /** Places a new label into an ascending, duplicate-free list. */
  function Insert(x: string, s: seq<string>): (r: seq<string>)
    requires Ascending(s) && Distinct(s) && x !in s
    ensures Ascending(r) && Distinct(r)
    ensures Elems(r) == Elems(s) + {x} && |r| == |s| + 1
    ensures r[0] == x || (s != [] && r[0] == s[0])
  {
    if s == [] then [x]
    else if Below(x, s[0]) then
      assert forall y | y in s :: y != x;
      [x] + s
    else
      BelowTotal(x, s[0]);
      var rest := Insert(x, s[1..]);
      assert s == [s[0]] + s[1..];
      assert forall j | 0 <= j < |s| - 1 :: s[1..][j] == s[j + 1] != s[0];
      assert s[0] !in Elems(rest);
      [s[0]] + rest
  }

  /** `sort()` on a list of distinct labels. */
  function Sort(s: seq<string>): (r: seq<string>)
    requires Distinct(s)
    ensures Ascending(r) && Distinct(r)
    ensures Elems(r) == Elems(s) && |r| == |s|
  {
    if s == [] then []
    else
      var init := s[..|s| - 1];
      assert s == init + [s[|s| - 1]];
      assert forall j | 0 <= j < |init| :: init[j] == s[j] != s[|s| - 1];
      assert s[|s| - 1] !in Elems(init);
      Insert(s[|s| - 1], Sort(init))
  }

  /** Every label carried by some image. */
  ghost function LabelUnion(images: seq<Image>): set<string> {
    if images == [] then {}
    else LabelUnion(images[..|images| - 1]) + Elems(images[|images| - 1].labels)
  }

  /** A label is in the union exactly when some image carries it. */
  lemma {:induction false} LabelUnionMeaning(images: seq<Image>, name: string)
    ensures name in LabelUnion(images) <==> exists i | 0 <= i < |images| :: name in images[i].labels
    decreases |images|
  {
    if images != [] {
      var init := images[..|images| - 1];
      LabelUnionMeaning(init, name);
      if name in LabelUnion(init) {
        var i :| 0 <= i < |init| && name in init[i].labels;
        assert images[i] == init[i];
      }
      if i :| 0 <= i < |images| && name in images[i].labels {
        if i < |init| {
          assert init[i] == images[i];
        }
      }
    }
  }

  /**
   * `allLabels`: every label of every image is added to a set (kept here as a list in insertion
   * order, as JavaScript's `Set` is), which is then sorted.
   */
  method AllLabels(images: seq<Image>) returns (r: seq<string>)
    ensures Ascending(r) && Distinct(r)
    ensures Elems(r) == LabelUnion(images)
  {
    var seen: seq<string> := [];
    for i := 0 to |images|
      invariant Distinct(seen) && Elems(seen) == LabelUnion(images[..i])
    {
      var labels := images[i].labels;
      for k := 0 to |labels|
        invariant Distinct(seen) && Elems(seen) == LabelUnion(images[..i]) + Elems(labels[..k])
      {
        assert labels[..k + 1] == labels[..k] + [labels[k]];
        assert Elems(labels[..k + 1]) == Elems(labels[..k]) + {labels[k]};
        if labels[k] !in seen {
          assert Elems(seen + [labels[k]]) == Elems(seen) + {labels[k]};
          seen := seen + [labels[k]];
        } else {
          assert labels[k] in Elems(seen);
        }
      }
      assert labels[..|labels|] == labels;
      assert images[..i + 1][..i] == images[..i];
    }
    assert images[..|images|] == images;
    r := Sort(seen);
  }

  /** The catalogue holds a label exactly when some image carries it. */
  lemma AllLabelsMembership(images: seq<Image>, labels: seq<string>, name: string)
    requires Elems(labels) == LabelUnion(images)
    ensures name in labels <==> exists i | 0 <= i < |images| :: name in images[i].labels
  {
    LabelUnionMeaning(images, name);
    assert name in labels <==> name in Elems(labels);
  }

  // The filters

  /**
   * The search: an empty query, or a label or the id containing it, ignoring case. In
   * particular an image is found by its own id.
   */
  predicate MatchesSearch(image: Image, query: string)
    ensures query == "" ==> MatchesSearch(image, query)
    ensures query == image.id ==> MatchesSearch(image, query)
  {
    var q := ToLower(query);
    ContainsWitness(q, q, 0);
    || query == ""
    || (exists name | name in image.labels :: Contains(ToLower(name), q))
    || Contains(ToLower(image.id), q)
  }

  /** The label filter: nothing selected, or the image carries one of the selected labels. */
  predicate MatchesLabels(image: Image, selected: seq<string>)
    ensures image.labels == [] ==> (MatchesLabels(image, selected) <==> selected == [])
  {
    selected == [] || exists name | name in selected :: name in image.labels
  }

  /** The faces filter: switched off, or the image shows at least one face. */
  predicate MatchesFaces(image: Image, facesOnly: bool)
    ensures image.faces == [] ==> (MatchesFaces(image, facesOnly) <==> !facesOnly)
  {
    !facesOnly || |image.faces| > 0
  }

  predicate Shown(image: Image, query: string, selected: seq<string>, facesOnly: bool) {
    MatchesSearch(image, query) && MatchesLabels(image, selected) && MatchesFaces(image, facesOnly)
  }

  /** `filteredImages`. */
  function FilterImages(images: seq<Image>, query: string, selected: seq<string>, facesOnly: bool)
    : (r: seq<Image>)
    ensures |r| <= |images|
    ensures forall image | image in r :: Shown(image, query, selected, facesOnly)
  {
    if images == [] then []
    else
      var rest := FilterImages(images[..|images| - 1], query, selected, facesOnly);
      var last := images[|images| - 1];
      if Shown(last, query, selected, facesOnly) then rest + [last] else rest
  }

  /** An image that passes the filters is shown as often as the gallery holds it; any other, never. */
  lemma {:induction false} FilterCounts(images: seq<Image>, query: string, selected: seq<string>, facesOnly: bool)
    ensures forall image :: (multiset(FilterImages(images, query, selected, facesOnly))[image]
      == if Shown(image, query, selected, facesOnly) then multiset(images)[image] else 0)
    decreases |images|
  {
    if images != [] {
      var init, last := images[..|images| - 1], images[|images| - 1];
      FilterCounts(init, query, selected, facesOnly);
      assert images == init + [last];
      var rest := FilterImages(init, query, selected, facesOnly);
      var keep := Shown(last, query, selected, facesOnly);
      assert FilterImages(images, query, selected, facesOnly) == if keep then rest + [last] else rest;
      forall image
        ensures (multiset(FilterImages(images, query, selected, facesOnly))[image]
          == if Shown(image, query, selected, facesOnly) then multiset(images)[image] else 0)
      {
        assert multiset(images)[image] == multiset(init)[image] + if image == last then 1 else 0;
      }
    }
  }

  /** The images shown keep the gallery's order. */
  lemma {:induction false} FilterKeepsOrder(images: seq<Image>, query: string, selected: seq<string>, facesOnly: bool)
    ensures IsSubsequence(FilterImages(images, query, selected, facesOnly), images)
    decreases |images|
  {
    if images != [] {
      var init := images[..|images| - 1];
      FilterKeepsOrder(init, query, selected, facesOnly);
      var r := FilterImages(images, query, selected, facesOnly);
      if Shown(images[|images| - 1], query, selected, facesOnly) {
        assert r[..|r| - 1] == FilterImages(init, query, selected, facesOnly);
      }
    }
  }

  /** An image is shown exactly when it is in the gallery and passes all three filters. */
  lemma {:induction false} FilterMembership(images: seq<Image>, query: string, selected: seq<string>, facesOnly: bool, image: Image)
    ensures image in FilterImages(images, query, selected, facesOnly)
        <==> image in images && Shown(image, query, selected, facesOnly)
    decreases |images|
  {
    if images != [] {
      var init := images[..|images| - 1];
      FilterMembership(init, query, selected, facesOnly, image);
      assert images == init + [images[|images| - 1]];
    }
  }

  /** With no filter active, every image is shown, in order. */
  lemma {:induction false} InactiveFiltersShowAll(images: seq<Image>, query: string, selected: seq<string>, facesOnly: bool)
    requires !FilterBar.HasActiveFilters(query, selected, facesOnly)
    ensures FilterImages(images, query, selected, facesOnly) == images
    decreases |images|
  {
    if images != [] {
      var init := images[..|images| - 1];
      InactiveFiltersShowAll(init, query, selected, facesOnly);
      assert images == init + [images[|images| - 1]];
    }
  }

  /** The search ignores the case of the query. */
  lemma SearchIgnoresCase(image: Image, query: string)
    ensures MatchesSearch(image, query) == MatchesSearch(image, ToLower(query))
  {
    assert ToLower(ToLower(query)) == ToLower(query);
    assert ToLower(query) == "" <==> query == "";
  }

  // The page's state

  /** The label badge's click handler: drop the label when selected, else append it. */
  function Toggle(selected: seq<string>, name: string): (r: seq<string>)
    ensures name in r <==> name !in selected
    ensures forall x | x != name :: x in r <==> x in selected
    ensures name !in selected ==> r == selected + [name]
    ensures IsSubsequence(selected, r) || IsSubsequence(r, selected)
  {
    if name in selected then
      FilterBar.RemoveKeepsOrder(selected, name);
      FilterBar.Remove(selected, name)
    else
      var r := selected + [name];
      assert r[..|r| - 1] == selected;
      assert IsSubsequence(selected, selected) by { SubsequenceOfItself(selected); }
      r
  }

  /**
   * Toggling a label twice leaves a duplicate-free selection with the same labels; when the
   * label was not selected, the selection is exactly restored.
   */
  lemma ToggleTwice(selected: seq<string>, name: string)
    requires Distinct(selected)
    ensures Distinct(Toggle(selected, name)) && Distinct(Toggle(Toggle(selected, name), name))
    ensures Elems(Toggle(Toggle(selected, name), name)) == Elems(selected)
    ensures name !in selected ==> Toggle(Toggle(selected, name), name) == selected
  {
    var once := Toggle(selected, name);
    if name in selected {
      FilterBar.RemoveKeepsDistinct(selected, name);
      assert Distinct(once);
    } else {
      assert once[..|once| - 1] == selected;
      FilterBar.RemoveKeepsDistinct(once, name);
    }
  }

  class GalleryPage {
    var images: seq<Image>
    var loading: bool
    var error: string
    var searchQuery: string
    var selectedLabels: seq<string>
    var showOnlyWithFaces: bool
    var selectedImage: Option<Image>
    var isModalOpen: bool

    /** The initial state: loading, no images, no filter, no image open. */
    constructor ()
      ensures images == [] && loading && error == ""
      ensures searchQuery == "" && selectedLabels == [] && !showOnlyWithFaces
      ensures selectedImage == None && !isModalOpen
    {
      images := [];
      loading := true;
      error := "";
      searchQuery := "";
      selectedLabels := [];
      showOnlyWithFaces := false;
      selectedImage := None;
      isModalOpen := false;
    }

    function FilteredImages(): seq<Image>
      reads this
    {
      FilterImages(images, searchQuery, selectedLabels, showOnlyWithFaces)
    }

    /**
     * `fetchImages`: `response` is the parsed body of `/api/images`, or `None` when the request
     * or the parse throws. Either way the page stops loading.
     */
    method Load(response: Option<seq<Image>>)
      modifies this
      ensures !loading
      ensures response.Some? ==> images == response.value && error == old(error)
      ensures response.None? ==> images == old(images) && error == LoadFailed
      ensures searchQuery == old(searchQuery) && selectedLabels == old(selectedLabels)
      ensures showOnlyWithFaces == old(showOnlyWithFaces)
      ensures selectedImage == old(selectedImage) && isModalOpen == old(isModalOpen)
    {
      if response.Some? {
        images := response.value;
      } else {
        error := LoadFailed;
      }
      loading := false;
    }

    /** The search box's change handler. */
    method SetSearch(query: string)
      modifies this
      ensures searchQuery == query
      ensures images == old(images) && selectedLabels == old(selectedLabels)
      ensures showOnlyWithFaces == old(showOnlyWithFaces)
      ensures loading == old(loading) && error == old(error)
      ensures selectedImage == old(selectedImage) && isModalOpen == old(isModalOpen)
    {
      searchQuery := query;
    }

    /** A label badge's click handler. */
    method ToggleLabel(name: string)
      modifies this
      ensures selectedLabels == Toggle(old(selectedLabels), name)
      ensures images == old(images) && searchQuery == old(searchQuery)
      ensures showOnlyWithFaces == old(showOnlyWithFaces)
      ensures loading == old(loading) && error == old(error)
      ensures selectedImage == old(selectedImage) && isModalOpen == old(isModalOpen)
    {
      selectedLabels := Toggle(selectedLabels, name);
    }

    /** The faces button's click handler. */
    method ToggleFaces()
      modifies this
      ensures showOnlyWithFaces == !old(showOnlyWithFaces)
      ensures images == old(images) && searchQuery == old(searchQuery)
      ensures selectedLabels == old(selectedLabels)
      ensures loading == old(loading) && error == old(error)
      ensures selectedImage == old(selectedImage) && isModalOpen == old(isModalOpen)
    {
      showOnlyWithFaces := !showOnlyWithFaces;
    }

    /** The clear button's click handler: afterwards every image is shown. */
    method ClearFilters()
      modifies this
      ensures searchQuery == "" && selectedLabels == [] && !showOnlyWithFaces
      ensures images == old(images)
      ensures loading == old(loading) && error == old(error)
      ensures selectedImage == old(selectedImage) && isModalOpen == old(isModalOpen)
      ensures !FilterBar.HasActiveFilters(searchQuery, selectedLabels, showOnlyWithFaces)
      ensures FilteredImages() == images
    {
      searchQuery := "";
      selectedLabels := [];
      showOnlyWithFaces := false;
      InactiveFiltersShowAll(images, searchQuery, selectedLabels, showOnlyWithFaces);
    }

    /** `handleImageClick`: the clicked image opens in the viewer. */
    method OpenImage(image: Image)
      modifies this
      ensures selectedImage == Some(image) && isModalOpen
      ensures images == old(images) && searchQuery == old(searchQuery)
      ensures selectedLabels == old(selectedLabels) && showOnlyWithFaces == old(showOnlyWithFaces)
      ensures loading == old(loading) && error == old(error)
    {
      selectedImage := Some(image);
      isModalOpen := true;
    }
  }
}
