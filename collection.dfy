/**
  A document collection read the way `findOne` and `findById` read it: the
  documents in their natural (insertion) order, and the first one matching a
  filter.
 */
module Collection {
  import opened Domain

  /** Index of the first document satisfying `matches`, or None when there is none. */
  function FindOne<T>(docs: seq<T>, matches: T -> bool): (r: Option<nat>)
    ensures r.Some? ==> r.value < |docs| && matches(docs[r.value])
    ensures r.Some? ==> forall j :: 0 <= j < r.value ==> !matches(docs[j])
    ensures r.None? <==> forall j :: 0 <= j < |docs| ==> !matches(docs[j])
  {
    if docs == [] then None
    else if matches(docs[0]) then Some(0)
    else match FindOne(docs[1..], matches)
      case None => None
      case Some(k) => Some(k + 1)
  }
}
