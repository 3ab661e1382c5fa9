/** The dashboard's reading of the container (its `wasteData` state): price,
    raw trash indicator and weight, and how one accepted pair of documents
    replaces it. */
module Snapshot {
  import opened Optional
  import Fetcher

  /** `trash` is the raw indicator document: 1, 0 or null (any other integer is
      kept as it is). Price and weight may be negative as sent. */
  datatype WasteData = WasteData(price: real, trash: Option<int>, weight: real)

  /** The reading before any accepted attempt: price 0, trash null, weight 0. */
  const InitialData: WasteData := WasteData(0.0, None, 0.0)

  /** The whole reading taken from an accepted pair of documents: a missing price
      or weight becomes 0, a present one (zero included) is kept, and the trash
      indicator is taken as it is, null included. */
  function Commit(r: Fetcher.Reading): (d: WasteData)
    ensures r.container.price.Some? ==> d.price == r.container.price.value
    ensures r.container.price.None? ==> d.price == 0.0
    ensures r.container.weight.Some? ==> d.weight == r.container.weight.value
    ensures r.container.weight.None? ==> d.weight == 0.0
    ensures d.trash == r.trash
  {
    WasteData(r.container.price.Coalesce(0.0), r.trash, r.container.weight.Coalesce(0.0))
  }

  /** Two accepted readings give the same snapshot only when they agree on the
      trash indicator and on price and weight once absent values read as zero:
      a committed snapshot loses nothing but the absent/zero distinction. */
  lemma CommitDeterminedByCoalescedFields(r1: Fetcher.Reading, r2: Fetcher.Reading)
    ensures Commit(r1) == Commit(r2) <==>
      && r1.trash == r2.trash
      && r1.container.price.Coalesce(0.0) == r2.container.price.Coalesce(0.0)
      && r1.container.weight.Coalesce(0.0) == r2.container.weight.Coalesce(0.0)
  {
  }
}
