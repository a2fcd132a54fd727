/**
 * The threat record returned by the threats endpoint, and counting over lists of them.
 */
module Records {

  /**
   * One threat record `{id, threat_type, severity, detected_at}`. The timestamp is kept
   * as the server's text; it is only ever formatted for display.
   */
  datatype Threat = Threat(id: int, threatType: string, severity: string, detectedAt: string)

  /**
   * How one authenticated `GET /api/threats/` ends: the decoded list, a rejection with
   * HTTP status 401, or any other failure (another status, no response, a bad body).
   */
  datatype FetchOutcome = Ok(records: seq<Threat>) | Unauthorized | OtherError

  /** The severity fields of `ts`, in order (`threats.map(t => t.severity)`). */
  function Severities(ts: seq<Threat>): (r: seq<string>)
    ensures |r| == |ts|
    ensures forall i :: 0 <= i < |ts| ==> r[i] == ts[i].severity
  {
    if ts == [] then [] else Severities(ts[..|ts| - 1]) + [ts[|ts| - 1].severity]
  }

  /** The threat-type fields of `ts`, in order. */
  function ThreatTypes(ts: seq<Threat>): (r: seq<string>)
    ensures |r| == |ts|
    ensures forall i :: 0 <= i < |ts| ==> r[i] == ts[i].threatType
  {
    if ts == [] then [] else ThreatTypes(ts[..|ts| - 1]) + [ts[|ts| - 1].threatType]
  }

  /** The number of occurrences of `k` in `keys`. */
  function Occurrences(keys: seq<string>, k: string): nat
  {
    if keys == [] then 0
    else Occurrences(keys[..|keys| - 1], k) + (if keys[|keys| - 1] == k then 1 else 0)
  }

  /** `threats.filter(t => t.severity === s).length`. */
  function CountSeverity(ts: seq<Threat>, s: string): nat
  {
    if ts == [] then 0
    else CountSeverity(ts[..|ts| - 1], s) + (if ts[|ts| - 1].severity == s then 1 else 0)
  }

  lemma {:induction false} OccurrencesBound(keys: seq<string>, k: string)
    ensures Occurrences(keys, k) <= |keys|
    ensures Occurrences(keys, k) > 0 <==> k in keys
  {
    if keys != [] {
      OccurrencesBound(keys[..|keys| - 1], k);
      assert keys == keys[..|keys| - 1] + [keys[|keys| - 1]];
    }
  }

  /** Counting a severity over the records is counting it over their severity list. */
  lemma {:induction false} CountSeverityIsOccurrences(ts: seq<Threat>, s: string)
    ensures CountSeverity(ts, s) == Occurrences(Severities(ts), s)
  {
    if ts != [] {
      CountSeverityIsOccurrences(ts[..|ts| - 1], s);
      assert Severities(ts)[..|ts| - 1] == Severities(ts[..|ts| - 1]);
    }
  }

  /** The number of records of type `k`: the reference count that specifies the per-type reducer. */
  function CountThreatType(ts: seq<Threat>, k: string): nat
  {
    if ts == [] then 0
    else CountThreatType(ts[..|ts| - 1], k) + (if ts[|ts| - 1].threatType == k then 1 else 0)
  }

  lemma {:induction false} CountThreatTypeIsOccurrences(ts: seq<Threat>, k: string)
    ensures CountThreatType(ts, k) == Occurrences(ThreatTypes(ts), k)
  {
    if ts != [] {
      CountThreatTypeIsOccurrences(ts[..|ts| - 1], k);
      assert ThreatTypes(ts)[..|ts| - 1] == ThreatTypes(ts[..|ts| - 1]);
    }
  }
}
