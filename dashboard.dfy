/** The dashboard component's state and its refresh routine, changed field by
    field in the order the component's setters run. */
module Dashboard {
  import opened Optional
  import opened Fetcher
  import opened Snapshot
  import opened Synchronizer

  class WasteMonitorDashboard {
    var wasteData: WasteData
    var lastUpdated: int
    var loading: bool
    var error: Option<string>
    var refreshing: bool
    var connectionStatus: Connection

    /** The six fields as one value. */
    function State(): DashboardState
      reads this
    {
      DashboardState(wasteData, lastUpdated, loading, error, refreshing, connectionStatus)
    }

    /** Mounting the component. */
    constructor (mountTime: int)
      ensures State() == Initial(mountTime)
    {
      wasteData := InitialData;
      lastUpdated := mountTime;
      loading := true;
      error := None;
      refreshing := false;
      connectionStatus := Connected;
    }

    /** The part of a refresh before its first read is awaited. */
    method BeginFetch()
      modifies this
      ensures State() == Begin(old(State()))
    {
      refreshing := true;
    }

    /** The part of a refresh after its reads answered with outcome `o` at time `now`. */
    method CompleteFetch(o: FetchOutcome, now: int)
      modifies this
      ensures State() == Settle(old(State()), o, now)
      ensures !loading && !refreshing
      ensures connectionStatus == Connected <==> Succeeds(o)
      ensures !Succeeds(o) ==> wasteData == old(wasteData) && lastUpdated == old(lastUpdated)
    {
      // the message of the error thrown inside the try block, if any
      var thrown: Option<string> := None;
      match o {
        case ContainerHttpError(status, statusText) =>
          thrown := Some(ContainerFailure(status, statusText));
        case TrashHttpError(status, statusText) =>
          thrown := Some(TrashFailure(status, statusText));
        case Thrown(message) =>
          thrown := Some(message);
        case Fetched(containerData, trashData) =>
          if containerData.None? {
            error := Some(NoContainerData);
            connectionStatus := Disconnected;
            loading := false;
            refreshing := false;
            return;
          }
          var newPrice := containerData.value.price.Coalesce(0.0);
          var newWeight := containerData.value.weight.Coalesce(0.0);
          var newTrash := trashData;
          wasteData := WasteData(newPrice, newTrash, newWeight);
          lastUpdated := now;
          loading := false;
          refreshing := false;
          connectionStatus := Connected;
          error := None;
      }
      if thrown.Some? {
        // the catch block
        error := thrown;
        connectionStatus := Disconnected;
        loading := false;
        refreshing := false;
      }
    }

    /** One whole refresh attempt, with nothing else happening in between. */
    method FetchData(o: FetchOutcome, now: int)
      modifies this
      ensures State() == Settle(Begin(old(State())), o, now)
      ensures !loading && !refreshing
      ensures error == ErrorOf(o)
      ensures Succeeds(o) ==> wasteData == Commit(Normalize(o).value) && lastUpdated == now
      ensures !Succeeds(o) ==> wasteData == old(wasteData) && lastUpdated == old(lastUpdated)
    {
      BeginFetch();
      CompleteFetch(o, now);
    }
  }
}
