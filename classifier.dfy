/** What the dashboard derives from the current reading on every render: the
    waste-type label, the fill percentage and its tier, the container-status and
    collection-schedule labels, the remaining capacity and the displayed values.
    Nothing here keeps state. */
module Classifier {
  import opened Optional
  import opened Snapshot
  import Fetcher

  /** The capacity constant. It is compared with the weight reading as sent
      (displayed in grams) without any unit conversion. */
  const MaxCapacity: real := 100.0

  function Abs(x: real): (r: real)
    ensures r >= 0.0
    ensures r == x || r == -x
  {
    if x < 0.0 then -x else x
  }

  function Min(a: real, b: real): (r: real)
    ensures r <= a && r <= b
    ensures r == a || r == b
  {
    if a <= b then a else b
  }

  /** The waste-type label of the raw trash indicator: 1 reads as dry waste, 0 as
      wet waste, anything else, null included, as unknown. */
  function WasteTypeLabel(trash: Option<int>): (shown: string)
    ensures shown == "dry Waste" <==> trash == Some(1)
    ensures shown == "wet Waste" <==> trash == Some(0)
    ensures shown == "Unknown" <==> trash != Some(1) && trash != Some(0)
  {
    if trash == Some(1) then "dry Waste"
    else if trash == Some(0) then "wet Waste"
    else "Unknown"
  }

  /** Fill level in percent of `MaxCapacity`, capped at 100. Because the capacity
      is 100, below the cap it is the absolute weight figure itself. */
  function FillPercentage(weight: real): (p: real)
    ensures 0.0 <= p <= 100.0
    ensures Abs(weight) >= MaxCapacity ==> p == 100.0
    ensures Abs(weight) <= MaxCapacity ==> p == Abs(weight)
  {
    Min(Abs(weight) / MaxCapacity * 100.0, 100.0)
  }

  /** A heavier reading never shows a lower fill level. */
  lemma FillPercentageMonotone(w1: real, w2: real)
    requires Abs(w1) <= Abs(w2)
    ensures FillPercentage(w1) <= FillPercentage(w2)
  {
  }

  /** Only the magnitude of the weight matters. */
  lemma FillPercentageIgnoresSign(w: real)
    ensures FillPercentage(-w) == FillPercentage(w)
  {
  }

  /** The fill tier: critical from 80 up, warning from 50 up to below 80, normal below 50. */
  function FillStatus(p: real): (tier: string)
    ensures tier == "critical" <==> p >= 80.0
    ensures tier == "warning" <==> 50.0 <= p < 80.0
    ensures tier == "normal" <==> p < 50.0
  {
    if p >= 80.0 then "critical"
    else if p >= 50.0 then "warning"
    else "normal"
  }

  /** The container-status label. It is computed on its own thresholds, which
      are those of the tier, so it corresponds one to one with the tier. */
  function ContainerStatus(p: real): (shown: string)
    ensures shown == "Almost Full" <==> FillStatus(p) == "critical"
    ensures shown == "Half Full" <==> FillStatus(p) == "warning"
    ensures shown == "Normal" <==> FillStatus(p) == "normal"
  {
    if p >= 80.0 then "Almost Full"
    else if p >= 50.0 then "Half Full"
    else "Normal"
  }

  /** The recommended collection schedule, likewise in one-to-one
      correspondence with the tier. */
  function CollectionSchedule(p: real): (shown: string)
    ensures shown == "Immediate" <==> FillStatus(p) == "critical"
    ensures shown == "Within 24 hours" <==> FillStatus(p) == "warning"
    ensures shown == "Regular Schedule" <==> FillStatus(p) == "normal"
  {
    if p >= 80.0 then "Immediate"
    else if p >= 50.0 then "Within 24 hours"
    else "Regular Schedule"
  }

  /** Both tier boundaries belong to the upper tier. */
  lemma TierBoundaries()
    ensures FillStatus(80.0) == "critical" && FillStatus(79.999) == "warning"
    ensures FillStatus(50.0) == "warning" && FillStatus(49.999) == "normal"
  {
  }

  /** A heavier reading never moves to a lower tier. */
  lemma FillStatusMonotone(w1: real, w2: real)
    requires Abs(w1) <= Abs(w2)
    ensures FillStatus(FillPercentage(w1)) == "critical" ==> FillStatus(FillPercentage(w2)) == "critical"
    ensures FillStatus(FillPercentage(w2)) == "normal" ==> FillStatus(FillPercentage(w1)) == "normal"
  {
    FillPercentageMonotone(w1, w2);
  }

  /** Capacity remaining: the capacity less the absolute weight, not clamped, so
      it goes negative once the reading exceeds the capacity. */
  function CapacityRemaining(weight: real): (r: real)
    ensures r + Abs(weight) == MaxCapacity
    ensures r <= MaxCapacity
    ensures r < 0.0 <==> Abs(weight) > MaxCapacity
  {
    MaxCapacity - Abs(weight)
  }

  /** The capacity is used up exactly when the fill level shows 100 percent, and
      below that the fill level and the remaining capacity add up to the capacity. */
  lemma CapacityAgreesWithFill(weight: real)
    ensures CapacityRemaining(weight) <= 0.0 <==> FillPercentage(weight) == 100.0
    ensures CapacityRemaining(weight) >= 0.0 ==>
      FillPercentage(weight) + CapacityRemaining(weight) == MaxCapacity
  {
  }

  /** The weight and price shown: their magnitudes, never negative. */
  function DisplayedAmount(x: real): (shown: real)
    ensures shown >= 0.0
    ensures shown == x || shown == -x
  {
    Abs(x)
  }

  /** Everything the dashboard shows about one reading. */
  datatype View = View(
    wasteType: string,
    weight: real,
    fillPercentage: real,
    fillStatus: string,
    price: real,
    containerStatus: string,
    capacityRemaining: real,
    schedule: string)

  /** The view of a reading; total over every reading. */
  function Derive(d: WasteData): (v: View)
    ensures v.wasteType == WasteTypeLabel(d.trash)
    ensures v.weight == Abs(d.weight) && v.price == Abs(d.price)
    ensures v.fillPercentage == FillPercentage(d.weight)
    ensures v.containerStatus == ContainerStatus(v.fillPercentage)
    ensures v.schedule == CollectionSchedule(v.fillPercentage)
    ensures v.weight >= 0.0 && v.price >= 0.0
    ensures 0.0 <= v.fillPercentage <= 100.0
    ensures v.fillStatus == FillStatus(v.fillPercentage)
    ensures v.capacityRemaining + v.weight == MaxCapacity
  {
    var p := FillPercentage(d.weight);
    View(
      WasteTypeLabel(d.trash),
      DisplayedAmount(d.weight),
      p,
      FillStatus(p),
      DisplayedAmount(d.price),
      ContainerStatus(p),
      CapacityRemaining(d.weight),
      CollectionSchedule(p))
  }

  /** The view before any accepted reading: unknown type, empty, normal, regular schedule. */
  lemma InitialView()
    ensures Derive(InitialData) ==
      View("Unknown", 0.0, 0.0, "normal", 0.0, "Normal", 100.0, "Regular Schedule")
  {
  }

  /** Price -12, weight -430, trash 1: shown as dry waste, 430 and Rs 12, full and critical. */
  lemma NegativeReadingView()
    ensures Derive(Commit(Fetcher.Reading(Fetcher.Container(Some(-12.0), Some(-430.0)), Some(1)))) ==
      View("dry Waste", 430.0, 100.0, "critical", 12.0, "Almost Full", -330.0, "Immediate")
  {
  }

  /** Weight 55 with no price, trash 0: the missing price reads as 0, and the
      view is wet waste at 55 percent, warning tier. */
  lemma HalfFullWetView()
    ensures Derive(Commit(Fetcher.Reading(Fetcher.Container(None, Some(55.0)), Some(0)))) ==
      View("wet Waste", 55.0, 55.0, "warning", 0.0, "Half Full", 45.0, "Within 24 hours")
  {
  }
}
