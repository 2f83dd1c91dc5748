/** The case-insensitive, first-match search that every strategy registry
    of the packer uses: the query and each entry's type name are lowered
    and compared, and the first entry in list order that matches wins. */
module Registry {
  import opened Wrappers
  import opened Text

  /** `{ name, description }` that `getMethodProps` returns. */
  datatype MethodProps = MethodProps(name: string, description: string)

  /** Index of the first name in `types` equal to `query` ignoring case. */
  function FindType(types: seq<string>, query: string): (r: Option<nat>)
    ensures r.Some? ==> r.value < |types| && ToLower(types[r.value]) == ToLower(query)
    ensures r.Some? ==> forall j :: 0 <= j < r.value ==> ToLower(types[j]) != ToLower(query)
    ensures r.None? <==> forall j :: 0 <= j < |types| ==> ToLower(types[j]) != ToLower(query)
  {
    if |types| == 0 then None
    else if ToLower(types[0]) == ToLower(query) then Some(0)
    else match FindType(types[1..], query)
      case None => None
      case Some(k) => Some(k + 1)
  }

  /** When the lowered names are pairwise distinct, the search finds an
      index exactly when that entry matches. */
  lemma FindTypeExact(types: seq<string>, query: string, k: nat)
    requires k < |types|
    requires forall i, j :: 0 <= i < j < |types| ==> ToLower(types[i]) != ToLower(types[j])
    ensures FindType(types, query) == Some(k) <==> ToLower(types[k]) == ToLower(query)
  {
  }

  /** Two queries that lower to the same string find the same entry. */
  lemma FindTypeIgnoresCase(types: seq<string>, q1: string, q2: string)
    requires ToLower(q1) == ToLower(q2)
    ensures FindType(types, q1) == FindType(types, q2)
  {
  }
}
