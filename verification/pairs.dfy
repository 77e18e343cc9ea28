/** `fetchPriceAsPair` of data.js: the first trading pair of a market-data
    response, if any. The HTTP call itself is abstracted: its outcome is a
    parameter. */
module Pairs {
  import opened Wrappers
  import opened Screening

  /** A parsed market-data response; only its `pairs` array is read. */
  datatype Response = Response(pairs: Option<seq<Snapshot>>)

  /** Reading `data.pairs` when `data` is `undefined` throws. */
  datatype FetchError = TypeError

  /** The selection step: the first pair when the array is present and
      non-empty, `null` otherwise. */
  function FirstPair(pairs: Option<seq<Snapshot>>): (r: Option<Snapshot>)
    ensures r.Some? <==> pairs.Some? && |pairs.value| > 0
    ensures r.Some? ==> r.value == pairs.value[0] && r.value in pairs.value
  {
    if pairs.Some? && |pairs.value| > 0 then Some(pairs.value[0]) else None
  }

  /** `fetchPriceAsPair`, given what `fetchFromProxy` resolved to: `None` is
      the `undefined` it yields after swallowing a network or parse error,
      on which reading `pairs` throws. */
  function FetchPriceAsPair(data: Option<Response>): (r: Result<Option<Snapshot>, FetchError>)
    ensures data.None? <==> r.Failure?
    ensures r.Success? ==>
      (r.value.Some? <==> data.value.pairs.Some? && |data.value.pairs.value| > 0)
    ensures r.Success? && r.value.Some? ==> r.value.value == data.value.pairs.value[0]
  {
    match data
    case None => Failure(TypeError)
    case Some(resp) => Success(FirstPair(resp.pairs))
  }

  /** Only the first pair matters: pairs after it never influence the result. */
  lemma FirstPairIgnoresTail(p: Snapshot, rest: seq<Snapshot>, rest': seq<Snapshot>)
    ensures FirstPair(Some([p] + rest)) == FirstPair(Some([p] + rest')) == Some(p)
  {
  }
}
