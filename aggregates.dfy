/**
 * The figures the dashboard derives from one fetched threat list (src/pages/Dashboard.js):
 * the total, the five most recent records, four fixed severity buckets, a per-type
 * histogram and a three-level system health.
 */
module Aggregates {
  import opened Records
  import Tally

  /** How many records the "Recent Threats" table shows. */
  const RecentLimit: nat := 5

  /** `threats.slice(0, 5)`. */
  function RecentThreats(ts: seq<Threat>): (r: seq<Threat>)
    ensures |r| == if |ts| < RecentLimit then |ts| else RecentLimit
    ensures forall i :: 0 <= i < |r| ==> r[i] == ts[i]
  {
    if |ts| <= RecentLimit then ts else ts[..RecentLimit]
  }

  const SeverityCritical := "Critical"
  const SeverityHigh := "High"
  const SeverityMedium := "Medium"
  const SeverityLow := "Low"

  predicate IsStandardSeverity(s: string)
  {
    s == SeverityCritical || s == SeverityHigh || s == SeverityMedium || s == SeverityLow
  }

  /** The object `{Critical, High, Medium, Low}` of filter counts. */
  datatype SeverityBuckets = SeverityBuckets(critical: nat, high: nat, medium: nat, low: nat)

  function BucketTotal(b: SeverityBuckets): nat
  {
    b.critical + b.high + b.medium + b.low
  }

  function SeverityCounts(ts: seq<Threat>): SeverityBuckets
  {
    SeverityBuckets(CountSeverity(ts, SeverityCritical), CountSeverity(ts, SeverityHigh),
                    CountSeverity(ts, SeverityMedium), CountSeverity(ts, SeverityLow))
  }

  /** The number of records whose severity is none of the four bucket names. */
  function CountNonStandard(ts: seq<Threat>): nat
  {
    if ts == [] then 0
    else CountNonStandard(ts[..|ts| - 1]) + (if IsStandardSeverity(ts[|ts| - 1].severity) then 0 else 1)
  }

  /** Every record falls into exactly one bucket or into none of them. */
  lemma {:induction false} BucketsPartition(ts: seq<Threat>)
    ensures BucketTotal(SeverityCounts(ts)) + CountNonStandard(ts) == |ts|
  {
    if ts != [] { BucketsPartition(ts[..|ts| - 1]); }
  }

  lemma {:induction false} NonStandardZero(ts: seq<Threat>)
    ensures CountNonStandard(ts) == 0 <==> forall i :: 0 <= i < |ts| ==> IsStandardSeverity(ts[i].severity)
  {
    if ts != [] {
      var p := ts[..|ts| - 1];
      NonStandardZero(p);
      assert forall i :: 0 <= i < |p| ==> p[i] == ts[i];
    }
  }

  /**
   * The four buckets never add up to more than the number of records, and add up to
   * exactly that number if and only if every severity is one of the four names.
   */
  lemma BucketsSum(ts: seq<Threat>)
    ensures BucketTotal(SeverityCounts(ts)) <= |ts|
    ensures BucketTotal(SeverityCounts(ts)) == |ts| <==>
      forall i :: 0 <= i < |ts| ==> IsStandardSeverity(ts[i].severity)
  {
    BucketsPartition(ts);
    NonStandardZero(ts);
  }

  /** Each bucket counts the records with exactly that severity string. */
  lemma {:induction false} BucketCountsRecords(ts: seq<Threat>, s: string)
    ensures CountSeverity(ts, s) == |set i | 0 <= i < |ts| && ts[i].severity == s|
  {
    if ts != [] {
      var n := |ts| - 1;
      BucketCountsRecords(ts[..n], s);
      var before := set i | 0 <= i < n && ts[i].severity == s;
      assert (set i | 0 <= i < n && ts[..n][i].severity == s) == before by {
        assert forall i :: 0 <= i < n ==> ts[..n][i] == ts[i];
      }
      var all := set i | 0 <= i < |ts| && ts[i].severity == s;
      if ts[n].severity == s {
        assert all == before + {n};
      } else {
        assert all == before;
      }
    }
  }

  /** `threats.reduce(...)` keyed by `threat_type`. */
  function ThreatTypeCounts(ts: seq<Threat>): Tally.Histogram
  {
    Tally.Tally(ThreatTypes(ts))
  }

  /**
   * Every type present in the list, and no other, is a key; its count is the number of
   * records of that type (so at least one); the keys are listed once each; the counts add
   * up to the length of the list.
   */
  lemma ThreatTypeCountsCorrect(ts: seq<Threat>)
    ensures var h := ThreatTypeCounts(ts);
      && Tally.WellFormed(h)
      && (forall k :: k in h.counts <==> exists i :: 0 <= i < |ts| && ts[i].threatType == k)
      && (forall k :: k in h.counts ==> h.counts[k] == CountThreatType(ts, k) >= 1)
      && Tally.Sum(Tally.Values(h.order, h.counts)) == |ts|
  {
    var keys := ThreatTypes(ts);
    var h := ThreatTypeCounts(ts);
    Tally.TallyWellFormed(keys);
    forall k ensures (k in h.counts <==> exists i :: 0 <= i < |ts| && ts[i].threatType == k)
      && (k in h.counts ==> h.counts[k] == CountThreatType(ts, k) >= 1)
    {
      ThreatTypeCountAt(ts, k);
    }
    Tally.TallySum(keys);
  }

  /** The keys of the threat-type histogram are listed in order of first appearance. */
  lemma ThreatTypeCountsOrder(ts: seq<Threat>)
    ensures var o := ThreatTypeCounts(ts).order;
      && (forall k :: k in o ==> k in ThreatTypes(ts))
      && forall i, j :: 0 <= i < j < |o| ==>
           Tally.FirstIndex(ThreatTypes(ts), o[i]) < Tally.FirstIndex(ThreatTypes(ts), o[j])
  {
    Tally.HistogramOrder(ThreatTypes(ts), ThreatTypeCounts(ts));
  }

  /** The count of one key of the threat-type histogram. */
  lemma ThreatTypeCountAt(ts: seq<Threat>, k: string)
    ensures var h := ThreatTypeCounts(ts);
      && (k in h.counts <==> exists i :: 0 <= i < |ts| && ts[i].threatType == k)
      && (k in h.counts ==> h.counts[k] == CountThreatType(ts, k) >= 1)
  {
    var keys := ThreatTypes(ts);
    Tally.TallyCounts(keys, k);
    CountThreatTypeIsOccurrences(ts, k);
    if k in keys {
      var i :| 0 <= i < |keys| && keys[i] == k;
      assert ts[i].threatType == k;
    }
  }

  /** The system-health reading shown on the dashboard. */
  datatype Health = Checking | Normal | Warning | Critical

  /** The classification from the number of Critical records. */
  function HealthOf(criticalCount: nat): Health
  {
    if criticalCount > 5 then Health.Critical
    else if criticalCount > 2 then Health.Warning
    else Health.Normal
  }

  /** The health from the buckets: only the Critical bucket is consulted. */
  function SystemHealth(b: SeverityBuckets): Health
  {
    HealthOf(b.critical)
  }

  /** The text the dashboard displays for each reading. */
  function HealthLabel(h: Health): string
  {
    match h
    case Checking => "Checking..."
    case Normal => "Normal ✅"
    case Warning => "Warning ⚠️"
    case Critical => "Critical \U{1F6A8}"
  }

  /** Severity order of the readings (Normal < Warning < Critical). */
  function Rank(h: Health): nat
  {
    match h
    case Checking => 0
    case Normal => 0
    case Warning => 1
    case Critical => 2
  }

  lemma HealthThresholds(c: nat)
    ensures HealthOf(c) == Health.Critical <==> c > 5
    ensures HealthOf(c) == Health.Warning <==> 2 < c <= 5
    ensures HealthOf(c) == Health.Normal <==> c <= 2
  {
  }

  /** More Critical records never give a milder reading. */
  lemma HealthMonotone(c1: nat, c2: nat)
    requires c1 <= c2
    ensures Rank(HealthOf(c1)) <= Rank(HealthOf(c2))
  {
  }

  /** The reading ignores the High, Medium and Low buckets. */
  lemma HealthIgnoresOtherBuckets(b1: SeverityBuckets, b2: SeverityBuckets)
    requires b1.critical == b2.critical
    ensures SystemHealth(b1) == SystemHealth(b2)
  {
  }

  /** The three readings have distinct labels, all different from the initial one. */
  lemma HealthLabelsDistinct(h1: Health, h2: Health)
    ensures HealthLabel(h1) == HealthLabel(h2) <==> h1 == h2
  {
  }
}
