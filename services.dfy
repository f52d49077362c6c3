/** The collaborator services as seen by the stores: every awaited call has an outcome
    supplied from outside, and every call the stores make is recorded in a trace. */
module Services {
  import opened Types

  /** Why a promise rejected: an `Error` instance carries a message, any other thrown
      value does not. */
  datatype Rejection = ErrorInstance(message: string) | NonError

  /** `error instanceof Error ? error.message : fallback` */
  function MessageOr(reason: Rejection, fallback: string): string
  {
    if reason.ErrorInstance? then reason.message else fallback
  }

  /** The outcome of one awaited service call. */
  datatype Reply<T> = Resolved(value: T) | Rejected(reason: Rejection)

  /** How an async operation of the core itself settles. */
  datatype Settled = Fulfilled | Threw(reason: Rejection)

  /** One call into the HTTP collaborator, with what it sends. */
  datatype Call =
    | PolygonsGetAll
    | PolygonsDelete(id: string)
    | PolygonsDeleteAll
    | PolygonsSaveBulk(polygons: seq<MapPolygonRequest>)
    | ObjectsGetAll
    | ObjectsDelete(id: string)
    | ObjectsSaveBulk(objects: seq<MapObjectRequest>)

  /** `Promise.all` over already settled promises, taken in list order: fulfilled when
      every one fulfilled, otherwise the first rejection. */
  function PromiseAll(promises: seq<Settled>): (r: Settled)
    ensures r == Fulfilled <==> forall k :: 0 <= k < |promises| ==> promises[k] == Fulfilled
    ensures r.Threw? ==> r in promises
    ensures r.Threw? ==> exists k :: 0 <= k < |promises| && promises[k] == r && forall j :: 0 <= j < k ==> promises[j] == Fulfilled
  {
    if promises == [] then Fulfilled
    else if promises[0].Threw? then promises[0]
    else
      var rest := PromiseAll(promises[1..]);
      if rest.Threw? then
        var k :| 0 <= k < |promises[1..]| && promises[1..][k] == rest && forall j :: 0 <= j < k ==> promises[1..][j] == Fulfilled;
        assert promises[k + 1] == rest;
        rest
      else rest
  }
}
