/** Vocabulary shared by every part of the model: optional values, map
    coordinates, the status a mutation resolver reports, and the first-match
    lookup that a document store's find-one performs. */
module Common {

  datatype Option<T> = None | Some(value: T)

  /** A `{lat, long}` coordinate pair. */
  datatype Cord = Cord(lat: real, long: real)

  /** What a mutation resolver reports. `Success` and `Error` are the two
      literal strings the resolvers return; `Raised` stands for an exception
      thrown inside a resolver, which the API layer turns into an error
      response after nothing has been written. */
  datatype Status = Success | Error | Raised

  /** The position of the first element satisfying `p`: a find-one query
      answers with the first matching document in the collection's order. */
  function FirstIndex<T>(xs: seq<T>, p: T -> bool): (r: Option<nat>)
    ensures r.None? <==> forall i :: 0 <= i < |xs| ==> !p(xs[i])
    ensures r.Some? ==> r.value < |xs| && p(xs[r.value])
    ensures r.Some? ==> forall j :: 0 <= j < r.value ==> !p(xs[j])
  {
    if xs == [] then None
    else if p(xs[0]) then Some(0)
    else match FirstIndex(xs[1..], p)
      case None => None
      case Some(i) => Some(i + 1)
  }
}
