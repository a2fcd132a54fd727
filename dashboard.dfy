/**
 * The dashboard page (src/pages/Dashboard.js): one poll of the threats endpoint updates
 * the page's figures, or sends the user to the login page; a switch flips dark mode.
 */
module Dashboard {
  import opened Wrappers
  import opened Records
  import opened Aggregates
  import Tally
  import opened BrowserStorage

  const LoginPath := "/login"

  /** The page's state variables. */
  datatype View = View(
    threatCount: nat,
    recentThreats: seq<Threat>,
    severityDistribution: Option<SeverityBuckets>,   // `{}` until the first success
    threatTypes: Tally.Histogram,
    lastUpdate: string,
    systemHealth: Health,
    loading: bool,
    darkMode: bool)

  /** The state when the page mounts over the storage contents `items`. */
  function InitialView(items: map<string, string>): View
  {
    View(0, [], None, Tally.EmptyHistogram, "N/A", Health.Checking, true, StoredTrue(items, DarkMode))
  }

  /** What one step produces: the new state, the new storage contents, where it navigates. */
  datatype Step = Step(view: View, items: map<string, string>, navigate: Option<string>)

  /**
   * One run of `fetchStats`: without a token, only navigate to the login page; on success,
   * recompute every figure from the fetched list; on any failure, drop the token and
   * navigate to the login page. `now` is the clock reading shown as "Last Update".
   */
  function FetchStatsStep(v: View, items: map<string, string>, outcome: FetchOutcome, now: string): Step
  {
    if !HasToken(items) then Step(v, items, Some(LoginPath))
    else match outcome
      case Ok(ts) =>
        var buckets := SeverityCounts(ts);
        Step(v.(threatCount := |ts|, lastUpdate := now, recentThreats := RecentThreats(ts),
                severityDistribution := Some(buckets), threatTypes := ThreatTypeCounts(ts),
                systemHealth := SystemHealth(buckets), loading := false),
             items, None)
      case _ =>
        Step(v.(loading := false), items - {AuthToken}, Some(LoginPath))
  }

  /** `handleDarkModeToggle`: flip the flag and store its string form. */
  function ToggleDarkModeStep(v: View, items: map<string, string>): Step
  {
    Step(v.(darkMode := !v.darkMode), items[DarkMode := BoolString(!v.darkMode)], None)
  }

  /** Without a token nothing changes, `loading` included, and the page goes to login. */
  lemma FetchWithoutToken(v: View, items: map<string, string>, outcome: FetchOutcome, now: string)
    requires !HasToken(items)
    ensures FetchStatsStep(v, items, outcome, now) == Step(v, items, Some(LoginPath))
  {
  }

  /** The first poll without a token leaves the spinner showing. */
  lemma NoTokenKeepsLoading(items: map<string, string>, outcome: FetchOutcome, now: string)
    requires !HasToken(items)
    ensures FetchStatsStep(InitialView(items), items, outcome, now).view.loading
  {
  }

  /**
   * A successful poll: the total is the list's length, the table holds its first
   * min(5, N) records in order, each bucket counts its severity, the per-type histogram
   * is exact, the health follows the Critical thresholds; storage is untouched, the page
   * stays, the spinner stops and dark mode is unchanged.
   */
  lemma FetchSuccess(v: View, items: map<string, string>, ts: seq<Threat>, now: string)
    requires HasToken(items)
    ensures var s := FetchStatsStep(v, items, Ok(ts), now);
      && s.view.threatCount == |ts|
      && |s.view.recentThreats| == (if |ts| < 5 then |ts| else 5)
      && s.view.recentThreats == ts[..|s.view.recentThreats|]
      && s.view.severityDistribution.Some?
      && s.view.severityDistribution.value.critical == CountSeverity(ts, SeverityCritical)
      && s.view.severityDistribution.value.high == CountSeverity(ts, SeverityHigh)
      && s.view.severityDistribution.value.medium == CountSeverity(ts, SeverityMedium)
      && s.view.severityDistribution.value.low == CountSeverity(ts, SeverityLow)
      && BucketTotal(s.view.severityDistribution.value) <= |ts|
      && s.view.threatTypes == ThreatTypeCounts(ts)
      && (forall k :: k in s.view.threatTypes.counts <==> exists i :: 0 <= i < |ts| && ts[i].threatType == k)
      && (forall k :: k in s.view.threatTypes.counts ==> s.view.threatTypes.counts[k] == CountThreatType(ts, k))
      && (s.view.systemHealth == Health.Critical <==> CountSeverity(ts, SeverityCritical) > 5)
      && (s.view.systemHealth == Health.Warning <==> 2 < CountSeverity(ts, SeverityCritical) <= 5)
      && (s.view.systemHealth == Health.Normal <==> CountSeverity(ts, SeverityCritical) <= 2)
      && s.view.lastUpdate == now
      && !s.view.loading
      && s.view.darkMode == v.darkMode
      && s.items == items
      && s.navigate == None
  {
    BucketsSum(ts);
    ThreatTypeCountsCorrect(ts);
    HealthThresholds(CountSeverity(ts, SeverityCritical));
  }

  /**
   * Any failure, not only a 401: the token is removed and every other key kept, the
   * page goes to login, the spinner stops, and the figures stay as they were.
   */
  lemma FetchFailure(v: View, items: map<string, string>, outcome: FetchOutcome, now: string)
    requires HasToken(items) && !outcome.Ok?
    ensures var s := FetchStatsStep(v, items, outcome, now);
      && AuthToken !in s.items
      && (forall k :: k != AuthToken ==> (k in s.items <==> k in items))
      && (forall k :: k in s.items ==> s.items[k] == items[k])
      && s.navigate == Some(LoginPath)
      && s.view == v.(loading := false)
  {
  }

  /** After one failure the next poll finds no token: the page keeps going to login. */
  lemma FailureThenNoToken(v: View, items: map<string, string>, o1: FetchOutcome, o2: FetchOutcome, now: string)
    requires HasToken(items) && !o1.Ok?
    ensures var s1 := FetchStatsStep(v, items, o1, now);
      FetchStatsStep(s1.view, s1.items, o2, now) == Step(s1.view, s1.items, Some(LoginPath))
  {
  }

  /**
   * The toggle negates the flag, stores it under "darkMode" so that it reads back as the
   * new value, and changes no other key; toggling twice restores the flag.
   */
  lemma ToggleDarkModeEffect(v: View, items: map<string, string>)
    ensures var s := ToggleDarkModeStep(v, items);
      && s.view == v.(darkMode := !v.darkMode)
      && (StoredTrue(s.items, DarkMode) <==> s.view.darkMode)
      && InitialView(s.items).darkMode == s.view.darkMode
      && (forall k :: k != DarkMode ==> (k in s.items <==> k in items))
      && (forall k :: k != DarkMode && k in items ==> s.items[k] == items[k])
      && s.navigate == None
    ensures var s := ToggleDarkModeStep(v, items);
      ToggleDarkModeStep(s.view, s.items).view == v
  {
  }

  /** The exported file holds the records of the table, so after a success the first five. */
  lemma ExportAfterSuccess(v: View, items: map<string, string>, ts: seq<Threat>, now: string)
    requires HasToken(items)
    ensures var r := FetchStatsStep(v, items, Ok(ts), now).view.recentThreats;
      |r| == (if |ts| < 5 then |ts| else 5) && (forall i :: 0 <= i < |r| ==> r[i] == ts[i])
  {
  }

  /** The page object: its state variables and the shared `localStorage`. */
  class DashboardPage {
    var threatCount: nat
    var recentThreats: seq<Threat>
    var severityDistribution: Option<SeverityBuckets>
    var threatTypes: Tally.Histogram
    var lastUpdate: string
    var systemHealth: Health
    var loading: bool
    var darkMode: bool
    const store: LocalStorage

    function Current(): View
      reads this
    {
      View(threatCount, recentThreats, severityDistribution, threatTypes, lastUpdate,
           systemHealth, loading, darkMode)
    }

    /** Mounting: the initial state, dark mode read back from storage. */
    constructor (store: LocalStorage)
      ensures this.store == store
      ensures Current() == InitialView(store.items)
    {
      this.store := store;
      threatCount := 0;
      recentThreats := [];
      severityDistribution := None;
      threatTypes := Tally.EmptyHistogram;
      lastUpdate := "N/A";
      systemHealth := Health.Checking;
      loading := true;
      darkMode := store.GetItem(DarkMode) == Some("true");
    }

    /** `fetchStats`, given how the request ends and what the clock reads. */
    method FetchStats(outcome: FetchOutcome, now: string) returns (navigate: Option<string>)
      modifies this, store
      ensures var s := FetchStatsStep(old(Current()), old(store.items), outcome, now);
        Current() == s.view && store.items == s.items && navigate == s.navigate
    {
      var token := store.GetItem(AuthToken);
      if token.None? || token.value == "" {
        navigate := Some(LoginPath);
        return;
      }
      match outcome {
        case Ok(threats) =>
          threatCount := |threats|;
          lastUpdate := now;
          recentThreats := RecentThreats(threats);
          var severityCounts := SeverityCounts(threats);
          severityDistribution := Some(severityCounts);
          threatTypes := ThreatTypeCounts(threats);
          if severityCounts.critical > 5 {
            systemHealth := Health.Critical;
          } else if severityCounts.critical > 2 {
            systemHealth := Health.Warning;
          } else {
            systemHealth := Health.Normal;
          }
          navigate := None;
        case _ =>
          store.RemoveItem(AuthToken);
          navigate := Some(LoginPath);
      }
      loading := false;
    }

    /** `handleDarkModeToggle`. */
    method ToggleDarkMode()
      modifies this, store
      ensures var s := ToggleDarkModeStep(old(Current()), old(store.items));
        Current() == s.view && store.items == s.items
    {
      var newDarkMode := !darkMode;
      darkMode := newDarkMode;
      store.SetItem(DarkMode, BoolString(newDarkMode));
    }

    /** `handleExportData`: the records written to "threat_data.json". */
    method ExportData() returns (records: seq<Threat>)
      ensures records == recentThreats
    {
      records := recentThreats;
    }
  }
}
