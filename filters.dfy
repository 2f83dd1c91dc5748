/** src/filters/index.ts: the registry of page filters.  The filter
    classes are not part of this model; their type strings are the
    `BitmapFilterType` enum values. */
module Filters {
  import opened Wrappers
  import opened Text
  import opened Registry

  datatype FilterKind = NoFilter | Mask | Grayscale {
    function Type(): string {
      match this
      case NoFilter => "none"
      case Mask => "mask"
      case Grayscale => "grayscale"
    }
  }

  /** `list`, in registration order: the base `Filter`, `Mask`, `Grayscale`. */
  const List: seq<FilterKind> := [NoFilter, Mask, Grayscale]

  const Types: seq<string> := ["none", "mask", "grayscale"]

  /** `getFilterByType`: the first filter whose type equals the query
      ignoring case, or none. */
  function GetFilterByType(query: string): (r: Option<FilterKind>)
    ensures r.Some? ==> ToLower(r.value.Type()) == ToLower(query)
    ensures r.None? <==> forall i :: 0 <= i < |List| ==> ToLower(List[i].Type()) != ToLower(query)
  {
    match FindType(Types, query)
    case None =>
      assert forall i :: 0 <= i < |List| ==> List[i].Type() == Types[i];
      None
    case Some(i) =>
      assert List[i].Type() == Types[i];
      Some(List[i])
  }

  /** The lowered types differ, so a filter is returned exactly when the
      query is its type in some casing. */
  lemma GetFilterByTypeExact(query: string, f: FilterKind)
    ensures GetFilterByType(query) == Some(f) <==> ToLower(query) == ToLower(f.Type())
  {
    var r := GetFilterByType(query);
    assert ToLower("none") != ToLower("mask") by {
      assert ToLower("none")[0] == 'n' && ToLower("mask")[0] == 'm';
    }
    if ToLower(query) == ToLower(f.Type()) {
      var i := match f case NoFilter => 0 case Mask => 1 case Grayscale => 2;
      assert List[i] == f;
      assert r.Some?;
    }
  }
}
