# IoT waste monitoring dashboard — a Dafny model of its synchronizer and classifier

The dashboard polls a remote document store for one waste container. Each refresh reads
two documents: `Container`, which holds `{Price, Weight}`, and `Trash`, a bare 1, 0 or
null. The component keeps six pieces of state: the reading (`wasteData`), `lastUpdated`,
`loading`, `error`, `refreshing` and `connectionStatus`. On every render it derives a
waste-type label, a fill percentage and tier, a container-status label, a collection
schedule, the remaining capacity and the displayed weight and price.

The model has these parts:

- `Optional` holds `Option`, where `Coalesce` is JavaScript's `??`, and `Result`.
- `Decimal` holds the decimal text of a status code in an error message. It also holds
  the reading-back function, so the round trip can be proved.
- `Fetcher` turns the outcome of the two reads into a reading or a failure message.
  The reads themselves are an input: container not ok, trash not ok, an exception, or
  both bodies.
- `Snapshot` holds the reading and the rule that replaces it as a whole.
- `Classifier` holds the pure derivations and their threshold lemmas.
- `Synchronizer` holds the six-field state as a value. `Begin` and `Settle` are the two
  halves of an attempt. `Run` runs any history of starts and finishes, and the lemmas
  over such histories live here too.
- `Dashboard` holds the component as a class with the six fields as mutable fields.
  `BeginFetch`, `CompleteFetch` and `FetchData` update them step by step, as the setters
  do, and are proved equal to `Begin`/`Settle`.

The model follows the code where it differs from what one might expect:

- The component starts in the *connected* state (`connectionStatus` is `'connected'`
  at mount), not disconnected.
- Nothing guards against overlapping attempts. A manual refresh can overlap a
  timer-driven one. The last finished attempt decides the connection, the error and
  `refreshing` (`Synchronizer.LastFinishDecidesStatus`). The last *successful* attempt
  decides the reading and `lastUpdated`, each success replacing the whole reading at
  once (`Synchronizer.LastSuccessDecidesReading`). The first finish already clears
  `refreshing` while the other attempt is still outstanding
  (`Synchronizer.OverlappingAttempts`).
- Trash `1` is labelled "dry Waste" and `0` "wet Waste", although a nearby comment says
  the opposite.
- The capacity constant 100 is compared with the raw weight figure, which is shown in
  grams, without conversion. So the fill percentage below the cap is the weight figure
  itself.
- The "no container data" case is not an exception in the code, but its effect on the
  state is the same as the catch block's. `Normalize` reports it as a failure with the
  fixed message.

## Model

| member | source | states |
|---|---|---|
| Optional.Option.Coalesce | src/components/WasteMonitorDashboard.jsx:67-68 | `x ?? d` keeps a present value (zero included) and gives `d` only for an absent one |
| Decimal.NatToString | src/components/WasteMonitorDashboard.jsx:42 | the status code's text is a non-empty string of digits with no leading zero unless the code is 0 |
| Decimal.DecimalRoundTrip | src/components/WasteMonitorDashboard.jsx:42 | reading the digits back gives the status code: the text carries the number |
| Decimal.NatToStringInjective | src/components/WasteMonitorDashboard.jsx:49 | distinct status codes are written differently |
| Fetcher.Normalize | src/components/WasteMonitorDashboard.jsx:39-64 | an attempt yields a reading exactly when both reads are ok and the container body is present; otherwise it fails with the container message, the trash message, the exception's message or the fixed "No container data available from the server" |
| Fetcher.ErrorOf | src/components/WasteMonitorDashboard.jsx:58-91 | an attempt leaves an error exactly when it does not succeed, and that error is the failure message `Normalize` gives for the outcome |
| Fetcher.HttpFailureInjective | src/components/WasteMonitorDashboard.jsx:41-50 | a non-ok read's message determines its status code and status text |
| Fetcher.FailureCausesDistinct | src/components/WasteMonitorDashboard.jsx:41-59 | container, trash and empty-body messages never coincide, so the failing resource can be read from the error |
| Fetcher.DetectedFailureMessageNonEmpty | src/components/WasteMonitorDashboard.jsx:41-59 | every failure the attempt detects itself leaves a non-empty message |
| Fetcher.ContainerServerErrorMessage | src/components/WasteMonitorDashboard.jsx:41-43 | a 500 on the container read gives "Failed to fetch container data: 500 " followed by the status text |
| Snapshot.Commit | src/components/WasteMonitorDashboard.jsx:66-78 | an accepted reading sets price and weight to the sent values, or to 0 when they are absent, and sets trash to the raw document, null included |
| Snapshot.CommitDeterminedByCoalescedFields | src/components/WasteMonitorDashboard.jsx:67-78 | two accepted readings give the same snapshot iff they agree on trash and on the defaulted price and weight |
| Classifier.WasteTypeLabel | src/components/WasteMonitorDashboard.jsx:19-21 | 1 gives "dry Waste", 0 gives "wet Waste", anything else (null included) gives "Unknown", each as an iff |
| Classifier.FillPercentage | src/components/WasteMonitorDashboard.jsx:24-25 | the fill level lies in [0,100], is 100 whenever the absolute weight is at least the capacity, and below that equals the absolute weight figure |
| Classifier.FillPercentageMonotone | src/components/WasteMonitorDashboard.jsx:25 | a larger absolute weight never gives a lower fill level |
| Classifier.FillPercentageIgnoresSign | src/components/WasteMonitorDashboard.jsx:25 | negating the weight does not change the fill level |
| Classifier.FillStatus | src/components/WasteMonitorDashboard.jsx:28-32 | the tier is 'critical' iff the fill level is at least 80, 'warning' iff it is in [50,80), 'normal' iff it is below 50 |
| Classifier.ContainerStatus | src/components/WasteMonitorDashboard.jsx:219-221 | the label is "Almost Full", "Half Full" or "Normal" exactly when the tier is critical, warning or normal: its own thresholds are the tier's |
| Classifier.CollectionSchedule | src/components/WasteMonitorDashboard.jsx:233-235 | the label is "Immediate", "Within 24 hours" or "Regular Schedule" exactly when the tier is critical, warning or normal |
| Classifier.TierBoundaries | src/components/WasteMonitorDashboard.jsx:28-32 | 80 is critical, 79.999 warning, 50 warning, 49.999 normal |
| Classifier.FillStatusMonotone | src/components/WasteMonitorDashboard.jsx:25-32 | a heavier reading never moves to a lower tier |
| Classifier.CapacityRemaining | src/components/WasteMonitorDashboard.jsx:227 | the remaining capacity plus the absolute weight is the capacity; it is unclamped and negative exactly when the absolute weight exceeds 100 |
| Classifier.CapacityAgreesWithFill | src/components/WasteMonitorDashboard.jsx:24-25 | the capacity is used up exactly when the fill level is 100; below that, fill level plus remaining capacity is 100 |
| Classifier.DisplayedAmount | src/components/WasteMonitorDashboard.jsx:202 | the displayed price (and weight, line 180) is the magnitude of the value, never negative |
| Classifier.Derive | src/components/WasteMonitorDashboard.jsx:19-32 | every field of the view of any reading is the corresponding derivation of that reading: the waste-type label of its trash, the magnitudes of weight and price, the fill level of its weight, and the tier, status label and schedule of that fill level; amounts are non-negative, the fill level is in [0,100], and the remaining capacity plus the shown weight is the capacity |
| Classifier.InitialView | src/components/WasteMonitorDashboard.jsx:7-32 | the default reading shows Unknown, 0, normal, "Normal", 100 remaining and "Regular Schedule" |
| Classifier.NegativeReadingView | src/components/WasteMonitorDashboard.jsx:19-32 | documents with price -12, weight -430 and trash 1, once committed, show dry waste, 430, Rs 12, 100 percent, critical, -330 remaining, "Immediate" |
| Classifier.HalfFullWetView | src/components/WasteMonitorDashboard.jsx:19-32 | documents with weight 55, no price and trash 0, once committed (the price defaulting to 0), show wet waste at 55 percent, warning, 45 remaining |
| Synchronizer.Initial | src/components/WasteMonitorDashboard.jsx:7-16 | at mount the waste type is unknown, loading is on, refreshing off, no error, and the connection shows as connected |
| Synchronizer.Begin | src/components/WasteMonitorDashboard.jsx:37 | starting an attempt raises refreshing and changes nothing else |
| Synchronizer.Settle | src/components/WasteMonitorDashboard.jsx:35-92 | finishing an attempt always clears loading and refreshing and sets the error to the attempt's error. It is connected iff the attempt succeeded. A success commits the whole reading stamped `now`; a failure keeps the reading and its timestamp |
| Synchronizer.FailuresKeepReading | src/components/WasteMonitorDashboard.jsx:41-64 | across any history without a successful finish, the reading and `lastUpdated` are unchanged |
| Synchronizer.UnknownUntilFirstSuccess | src/components/WasteMonitorDashboard.jsx:7-21 | before the first success the reading is the default one (trash null, so the label is Unknown; weight 0) and `lastUpdated` is the mount time |
| Synchronizer.LoadingUntilFirstFinish | src/components/WasteMonitorDashboard.jsx:13-90 | loading is on iff it was on and no attempt has finished, whatever the outcomes |
| Synchronizer.LastFinishDecidesStatus | src/components/WasteMonitorDashboard.jsx:81-91 | connection and error are those of the last finished attempt; refreshing is on iff an attempt started after it |
| Synchronizer.StartsOnlyRaiseRefreshing | src/components/WasteMonitorDashboard.jsx:37 | a history of starts only raises refreshing |
| Synchronizer.LastSuccessDecidesReading | src/components/WasteMonitorDashboard.jsx:74-80 | the reading and its timestamp are those of the last successful attempt, whatever failures follow it |
| Synchronizer.LastUpdatedMonotone | src/components/WasteMonitorDashboard.jsx:80 | with a clock that never runs backwards, `lastUpdated` never decreases |
| Synchronizer.FirstAttemptServerError | src/components/WasteMonitorDashboard.jsx:36-91 | a first attempt failing with 500 keeps the defaults, ends loading, disconnects and records the message with "500" |
| Synchronizer.ZeroPriceAndNullTrash | src/components/WasteMonitorDashboard.jsx:67-71 | a present 0 price and a missing price give the same snapshot; a null trash reverts the label to Unknown |
| Synchronizer.OverlappingAttempts | src/components/WasteMonitorDashboard.jsx:95-108 | with two attempts in flight, the first finish clears refreshing and the last success replaces the whole reading |
| Dashboard.WasteMonitorDashboard.constructor | src/components/WasteMonitorDashboard.jsx:7-16 | the fields start as `Initial(mountTime)` |
| Dashboard.WasteMonitorDashboard.BeginFetch | src/components/WasteMonitorDashboard.jsx:37 | the fields become `Begin` of the old ones |
| Dashboard.WasteMonitorDashboard.CompleteFetch | src/components/WasteMonitorDashboard.jsx:38-91 | the fields become `Settle` of the old ones. Loading and refreshing end, it is connected iff the attempt succeeded, and a failure leaves the reading and timestamp unchanged |
| Dashboard.WasteMonitorDashboard.FetchData | src/components/WasteMonitorDashboard.jsx:35-92 | one whole attempt: the fields become `Settle(Begin(old))`, with the error, reading and timestamp effects stated per outcome |

## Left out

- The HTTP requests, the JSON parsing of the bodies and the store's URLs are not modelled. An attempt's outcome is an input (`Fetcher.FetchOutcome`). A rejected request or an unparsable body appears only as `Thrown(message)`.
- The message of a thrown exception is whatever the runtime supplies, and it may be empty. Only the messages the attempt builds itself are proved non-empty.
- The trash document is modelled as an optional integer. Other JSON values (strings, booleans, fractions) are not represented. Each of them would read as "Unknown", as any integer other than 0 and 1 does.
- The container body is tested for falsiness, not only for null. A body of `null`, `false`, `0` or `""` is modelled as `Fetched(None, …)` and ends in "No container data available from the server". A truthy body that is not an object (a non-zero number, a non-empty string, `true`) has no `Price` or `Weight`, so it is modelled as `Container(None, None)` and commits price 0 and weight 0.
- Price and weight are `real`, not IEEE doubles. A missing field and a JSON `null` are the same `None`. Non-numeric values are not represented.
- Console logging is not modelled.
- The 5-second interval timer, the mount effect and the clean-up on unmount are not modelled. An attempt is one `FetchData` call, or a `BeginFetch` and `CompleteFetch` pair that other events may interleave.
- `lastUpdated` and `now` are integer timestamps. The clock is a parameter.
- Rendering is not modelled: the loading and error screens, the markup, the CSS classes, the icons (which show 1 as wet waste, opposite to the label) and the disabled refresh button.
- Number and date formatting for display (`toFixed`, locale time and date strings) is not modelled. `Classifier.CapacityRemaining` and `Classifier.FillPercentage` give the unrounded values.
