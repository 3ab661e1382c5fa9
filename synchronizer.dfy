/** The dashboard's six pieces of state and how a refresh attempt changes them.
    An attempt has two observable steps: it starts (the refreshing flag goes up
    before the first read is awaited) and it finishes with the outcome of its
    reads. Timer-driven and manual attempts are not serialized, so a history of
    the dashboard is any sequence of starts and finishes. */
module Synchronizer {
  import opened Optional
  import opened Fetcher
  import opened Snapshot
  import Classifier

  datatype Connection = Connected | Disconnected

  /** wasteData, lastUpdated (a timestamp), loading, error, refreshing, connectionStatus. */
  datatype DashboardState = DashboardState(
    wasteData: WasteData,
    lastUpdated: int,
    loading: bool,
    error: Option<string>,
    refreshing: bool,
    connection: Connection)

  /** The state at mount time: default reading, stamped with the mount time,
      loading, no error, not refreshing, and shown as connected. */
  function Initial(mountTime: int): (s: DashboardState)
    ensures Classifier.WasteTypeLabel(s.wasteData.trash) == "Unknown"
    ensures s.loading && !s.refreshing && s.error.None? && s.connection == Connected
  {
    DashboardState(InitialData, mountTime, true, None, false, Connected)
  }

  /** An attempt starts: only the refreshing flag changes. */
  function Begin(s: DashboardState): (r: DashboardState)
    ensures r.refreshing
    ensures r.(refreshing := s.refreshing) == s
  {
    s.(refreshing := true)
  }

  /** An attempt finishes. A success replaces the whole reading, stamps it with
      `now`, clears the error and shows the dashboard as connected; any failure
      keeps the reading and its timestamp, records the message and shows it as
      disconnected. Either way loading and refreshing end. */
  function Settle(s: DashboardState, o: FetchOutcome, now: int): (r: DashboardState)
    ensures !r.loading && !r.refreshing
    ensures r.error == ErrorOf(o)
    ensures r.connection == Connected <==> Succeeds(o)
    ensures Succeeds(o) ==> r.wasteData == Commit(Normalize(o).value) && r.lastUpdated == now
    ensures !Succeeds(o) ==> r.wasteData == s.wasteData && r.lastUpdated == s.lastUpdated
  {
    match Normalize(o)
    case Ok(reading) =>
      s.(wasteData := Commit(reading), lastUpdated := now, loading := false,
         refreshing := false, connection := Connected, error := None)
    case Err(message) =>
      s.(error := Some(message), connection := Disconnected, loading := false, refreshing := false)
  }

  /** The two observable steps of an attempt. */
  datatype Event = Start | Finish(outcome: FetchOutcome, now: int)

  predicate IsSuccess(e: Event) {
    e.Finish? && Succeeds(e.outcome)
  }

  function Apply(s: DashboardState, e: Event): DashboardState {
    match e
    case Start => Begin(s)
    case Finish(o, now) => Settle(s, o, now)
  }

  /** The state after a history of events, oldest first. */
  function Run(s: DashboardState, events: seq<Event>): DashboardState
    decreases |events|
  {
    if events == [] then s else Run(Apply(s, events[0]), events[1..])
  }

  /** Running two histories one after the other is running their concatenation. */
  lemma {:induction false} RunAppend(s: DashboardState, a: seq<Event>, b: seq<Event>)
    ensures Run(s, a + b) == Run(Run(s, a), b)
    decreases |a|
  {
    if a != [] {
      assert (a + b)[0] == a[0];
      assert (a + b)[1..] == a[1..] + b;
      RunAppend(Apply(s, a[0]), a[1..], b);
    } else {
      assert a + b == b;
    }
  }

  /** Failed attempts never touch the reading or its timestamp: after a history
      without a successful finish both are what they were. */
  lemma {:induction false} FailuresKeepReading(s: DashboardState, events: seq<Event>)
    requires forall i :: 0 <= i < |events| ==> !IsSuccess(events[i])
    ensures Run(s, events).wasteData == s.wasteData
    ensures Run(s, events).lastUpdated == s.lastUpdated
    decreases |events|
  {
    if events != [] {
      assert !IsSuccess(events[0]);
      FailuresKeepReading(Apply(s, events[0]), events[1..]);
    }
  }

  /** Until the first successful attempt the reading is the default one (so the
      waste type is unknown) and stamped with the mount time. */
  lemma UnknownUntilFirstSuccess(mountTime: int, events: seq<Event>)
    requires forall i :: 0 <= i < |events| ==> !IsSuccess(events[i])
    ensures Run(Initial(mountTime), events).wasteData == InitialData
    ensures Run(Initial(mountTime), events).wasteData.trash.None?
    ensures Run(Initial(mountTime), events).lastUpdated == mountTime
  {
    FailuresKeepReading(Initial(mountTime), events);
  }

  /** The loading flag is up exactly until the first attempt finishes, whatever
      its outcome, and never comes back. */
  lemma {:induction false} LoadingUntilFirstFinish(s: DashboardState, events: seq<Event>)
    ensures Run(s, events).loading <==>
      s.loading && forall i :: 0 <= i < |events| ==> !events[i].Finish?
    decreases |events|
  {
    if events != [] {
      LoadingUntilFirstFinish(Apply(s, events[0]), events[1..]);
      assert forall i :: 1 <= i < |events| ==> events[i] == events[1..][i - 1];
    }
  }

  /** The last finished attempt decides the status: the connection and the error
      are those of its outcome, and the refreshing flag is up only if another
      attempt started after it, even though attempts started before it may
      still be in flight. */
  lemma LastFinishDecidesStatus(s: DashboardState, events: seq<Event>, k: nat)
    requires k < |events| && events[k].Finish?
    requires forall j :: k < j < |events| ==> !events[j].Finish?
    ensures Run(s, events).connection == Connected <==> Succeeds(events[k].outcome)
    ensures Run(s, events).error == ErrorOf(events[k].outcome)
    ensures Run(s, events).refreshing <==> exists j :: k < j < |events| && events[j] == Start
  {
    var before, after := events[..k + 1], events[k + 1..];
    assert events == before + after;
    RunAppend(s, before, after);
    assert before == events[..k] + [events[k]];
    RunAppend(s, events[..k], [events[k]]);
    var settled := Run(s, before);
    assert forall j :: 0 <= j < |after| ==> after[j] == events[k + 1 + j];
    StartsOnlyRaiseRefreshing(settled, after);
  }

  /** A history of starts only raises the refreshing flag. */
  lemma {:induction false} StartsOnlyRaiseRefreshing(s: DashboardState, events: seq<Event>)
    requires forall i :: 0 <= i < |events| ==> !events[i].Finish?
    ensures Run(s, events) == s.(refreshing := s.refreshing || events != [])
    decreases |events|
  {
    if events != [] {
      assert events[0] == Start;
      StartsOnlyRaiseRefreshing(Apply(s, events[0]), events[1..]);
    }
  }

  /** The reading shown is the one from the last successful attempt, stamped with
      that attempt's time, however many failures came after it. */
  lemma LastSuccessDecidesReading(s: DashboardState, events: seq<Event>, k: nat)
    requires k < |events| && IsSuccess(events[k])
    requires forall j :: k < j < |events| ==> !IsSuccess(events[j])
    ensures Run(s, events).wasteData == Commit(Normalize(events[k].outcome).value)
    ensures Run(s, events).lastUpdated == events[k].now
  {
    var before, after := events[..k + 1], events[k + 1..];
    assert events == before + after;
    RunAppend(s, before, after);
    assert before == events[..k] + [events[k]];
    RunAppend(s, events[..k], [events[k]]);
    assert forall j :: 0 <= j < |after| ==> after[j] == events[k + 1 + j];
    FailuresKeepReading(Run(s, before), after);
  }

  /** With a clock that never runs backwards, the last-updated stamp never
      decreases over any history. */
  lemma {:induction false} LastUpdatedMonotone(s: DashboardState, events: seq<Event>)
    requires forall i :: 0 <= i < |events| && events[i].Finish? ==> s.lastUpdated <= events[i].now
    requires forall i, j :: 0 <= i < j < |events| && events[i].Finish? && events[j].Finish? ==>
      events[i].now <= events[j].now
    ensures s.lastUpdated <= Run(s, events).lastUpdated
    decreases |events|
  {
    if events != [] {
      var next := Apply(s, events[0]);
      assert forall i :: 1 <= i < |events| ==> events[i] == events[1..][i - 1];
      LastUpdatedMonotone(next, events[1..]);
    }
  }

  /** First attempt fails with a 500 on the container read: the default reading
      stays, the dashboard is disconnected and the error names the 500. */
  lemma FirstAttemptServerError(mountTime: int, now: int, statusText: string)
    ensures Settle(Begin(Initial(mountTime)), ContainerHttpError(500, statusText), now) ==
      DashboardState(InitialData, mountTime, false,
        Some("Failed to fetch container data: 500 " + statusText), false, Disconnected)
  {
    ContainerServerErrorMessage(statusText);
  }

  /** A present zero price is kept, a missing one reads as zero; both give the
      same snapshot. A null trash document reverts the waste type to unknown. */
  lemma ZeroPriceAndNullTrash(s: DashboardState, weight: real, now: int)
    ensures Settle(s, Fetched(Some(Container(Some(0.0), Some(weight))), None), now).wasteData ==
      Settle(s, Fetched(Some(Container(None, Some(weight))), None), now).wasteData ==
      WasteData(0.0, None, weight)
    ensures Classifier.WasteTypeLabel(
      Settle(s, Fetched(Some(Container(None, Some(weight))), None), now).wasteData.trash) == "Unknown"
  {
  }

  /** Two overlapping attempts (no in-flight guard): the first to finish clears
      the refreshing flag although the other is still outstanding, and the
      second to finish overwrites the reading as a whole. */
  lemma OverlappingAttempts(s: DashboardState, c1: Container, t1: Option<int>, c2: Container,
                            t2: Option<int>, now1: int, now2: int)
    ensures !Run(s, [Start, Start, Finish(Fetched(Some(c1), t1), now1)]).refreshing
    ensures Run(s, [Start, Start, Finish(Fetched(Some(c1), t1), now1), Finish(Fetched(Some(c2), t2), now2)]).wasteData
      == Commit(Reading(c2, t2))
  {
    var first := [Start, Start, Finish(Fetched(Some(c1), t1), now1)];
    LastFinishDecidesStatus(s, first, 2);
    var e := [Start, Start, Finish(Fetched(Some(c1), t1), now1), Finish(Fetched(Some(c2), t2), now2)];
    assert e[1..] == [Start, Finish(Fetched(Some(c1), t1), now1), Finish(Fetched(Some(c2), t2), now2)];
    LastSuccessDecidesReading(s, e, 3);
  }
}
