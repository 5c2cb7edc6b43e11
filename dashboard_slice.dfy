/** The dashboard store slice: the last analytics fetched, the budget
    alerts, the selected time range and the request flags. */
module DashboardSlice {
  import opened Wrappers
  import opened Types
  import DashboardApi

  datatype State = State(
    analytics: Option<SpendingAnalytics>,
    budgetAlerts: seq<BudgetAlert>,
    loading: bool,
    error: Option<string>,
    selectedTimeRange: DashboardApi.TimeRange)

  const InitialState: State := State(None, [], false, None, DashboardApi.Month)

  class Slice {
    var analytics: Option<SpendingAnalytics>
    var budgetAlerts: seq<BudgetAlert>
    var loading: bool
    var error: Option<string>
    var selectedTimeRange: DashboardApi.TimeRange

    function Snapshot(): State
      reads this
    {
      State(analytics, budgetAlerts, loading, error, selectedTimeRange)
    }

    /** While a fetch is in flight no error is shown. */
    ghost predicate Valid()
      reads this
    {
      loading ==> error.None?
    }

    constructor ()
      ensures Snapshot() == InitialState && Valid()
    {
      analytics, budgetAlerts, loading, error, selectedTimeRange := None, [], false, None, DashboardApi.Month;
    }

    method FetchAnalyticsRequested()
      modifies this
      ensures Snapshot() == old(Snapshot()).(loading := true, error := None)
      ensures Valid()
    {
      loading, error := true, None;
    }

    /** The new analytics replace the old; an earlier error stays. */
    method FetchAnalyticsSucceeded(a: SpendingAnalytics)
      modifies this
      ensures Snapshot() == old(Snapshot()).(loading := false, analytics := Some(a))
      ensures Valid()
    {
      loading, analytics := false, Some(a);
    }

    /** A failure keeps the analytics fetched before it. */
    method FetchAnalyticsFailed(message: string)
      modifies this
      ensures Snapshot() == old(Snapshot()).(loading := false, error := Some(message))
      ensures Valid()
    {
      loading, error := false, Some(message);
    }

    method SetTimeRange(r: DashboardApi.TimeRange)
      modifies this
      ensures Snapshot() == old(Snapshot()).(selectedTimeRange := r)
      ensures old(Valid()) ==> Valid()
    {
      selectedTimeRange := r;
    }

    method ClearError()
      modifies this
      ensures Snapshot() == old(Snapshot()).(error := None)
      ensures Valid()
    {
      error := None;
    }
  }
}
