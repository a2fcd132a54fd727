/**
 * The threats page (src/pages/Threats.js): a table of the fetched records with a
 * severity chip per row, and a change detector that raises an alert, with a sound,
 * when the newest record's id differs from the last one seen, unless alerts are muted.
 */
module ThreatsPage {
  import opened Wrappers
  import opened Records
  import opened BrowserStorage

  const LoginPath := "/login"

  /** The chip drawn for a severity: its text and its colour. */
  datatype Chip = Chip(text: string, color: string)

  /** `categorizeThreat`: the three named severities keep their name, anything else is "Low". */
  function CategorizeThreat(severity: string): Chip
  {
    match severity
    case "Critical" => Chip("Critical", "error")
    case "High" => Chip("High", "warning")
    case "Medium" => Chip("Medium", "primary")
    case _ => Chip("Low", "success")
  }

  lemma CategorizeThreatLabels(severity: string)
    ensures var c := CategorizeThreat(severity);
      && (severity in {"Critical", "High", "Medium"} ==> c.text == severity)
      && (severity !in {"Critical", "High", "Medium"} ==> c.text == "Low")
      && c.text in {"Critical", "High", "Medium", "Low"}
    ensures CategorizeThreat(CategorizeThreat(severity).text) == CategorizeThreat(severity)
  {
  }

  /** The empty severity, and "low" in lower case, fall to the default chip. */
  lemma CategorizeThreatDefault()
    ensures CategorizeThreat("").text == "Low"
    ensures CategorizeThreat("low").text == "Low"
    ensures CategorizeThreat("critical").text == "Low"
  {
  }

  /** The page's state variables. */
  datatype View = View(
    threats: seq<Threat>,
    loading: bool,
    alertOpen: bool,
    newThreat: Option<Threat>,
    muteAlerts: bool,
    lastThreatId: Option<int>)    // `null` until a record has been seen

  /** The state when the page mounts: mute read back from storage, nothing seen yet. */
  function InitialView(items: map<string, string>): View
  {
    View([], true, false, None, StoredTrue(items, MuteAlerts), None)
  }

  /** The change detector: the list is non-empty and its first id is not the last one seen. */
  predicate IsNewThreat(records: seq<Threat>, lastThreatId: Option<int>)
  {
    |records| > 0 && Some(records[0].id) != lastThreatId
  }

  /**
   * What one step produces: the new state, the new storage contents, where it navigates,
   * and whether the alert sound was played.
   */
  datatype Step = Step(view: View, items: map<string, string>, navigate: Option<string>, soundPlayed: bool)

  /** One run of `fetchThreats`. */
  function FetchThreatsStep(v: View, items: map<string, string>, outcome: FetchOutcome): Step
  {
    if !HasToken(items) then Step(v, items, Some(LoginPath), false)
    else match outcome
      case Ok(records) =>
        var detected := IsNewThreat(records, v.lastThreatId);
        var alert := detected && !v.muteAlerts;
        var v1 := if detected then v.(newThreat := Some(records[0]), lastThreatId := Some(records[0].id)) else v;
        var v2 := if alert then v1.(alertOpen := true) else v1;
        Step(v2.(threats := records, loading := false), items, None, alert)
      case Unauthorized =>
        Step(v.(loading := false), items - {AuthToken}, Some(LoginPath), false)
      case OtherError =>
        Step(v.(loading := false), items, None, false)
  }

  /** `handleMuteToggle`. */
  function ToggleMuteStep(v: View, items: map<string, string>): Step
  {
    Step(v.(muteAlerts := !v.muteAlerts), items[MuteAlerts := BoolString(!v.muteAlerts)], None, false)
  }

  /** Without a token nothing changes, `loading` included, and the page goes to login. */
  lemma FetchWithoutToken(v: View, items: map<string, string>, outcome: FetchOutcome)
    requires !HasToken(items)
    ensures FetchThreatsStep(v, items, outcome) == Step(v, items, Some(LoginPath), false)
  {
  }

  /**
   * A successful fetch replaces the table wholesale and leaves storage alone. A new
   * threat is detected exactly when the list is non-empty and its first id differs from
   * the last one seen; then that record and its id are remembered, and the alert opens
   * and the sound plays exactly when alerts are not muted. Without a detection the
   * remembered record, the id and the alert are untouched.
   */
  lemma FetchSuccess(v: View, items: map<string, string>, records: seq<Threat>)
    requires HasToken(items)
    ensures var s := FetchThreatsStep(v, items, Ok(records));
      && s.view.threats == records
      && !s.view.loading
      && s.items == items
      && s.navigate == None
      && s.view.muteAlerts == v.muteAlerts
      && (s.soundPlayed <==> IsNewThreat(records, v.lastThreatId) && !v.muteAlerts)
      && (IsNewThreat(records, v.lastThreatId) ==>
            s.view.newThreat == Some(records[0]) && s.view.lastThreatId == Some(records[0].id))
      && (!IsNewThreat(records, v.lastThreatId) ==>
            s.view.newThreat == v.newThreat && s.view.lastThreatId == v.lastThreatId)
      && s.view.alertOpen == (v.alertOpen || s.soundPlayed)
      && (records != [] ==> s.view.lastThreatId == Some(records[0].id))
  {
  }

  /** Muted: no alert and no sound, yet the detector's memory is still updated. */
  lemma MutedFetch(v: View, items: map<string, string>, records: seq<Threat>)
    requires HasToken(items) && v.muteAlerts && records != []
    ensures var s := FetchThreatsStep(v, items, Ok(records));
      && !s.soundPlayed
      && s.view.alertOpen == v.alertOpen
      && s.view.lastThreatId == Some(records[0].id)
      && (IsNewThreat(records, v.lastThreatId) ==> s.view.newThreat == Some(records[0]))
  {
  }

  /** An empty list empties the table and stops the spinner; the remembered record, the id, storage and the page stay. */
  lemma EmptyFetch(v: View, items: map<string, string>)
    requires HasToken(items)
    ensures var s := FetchThreatsStep(v, items, Ok([]));
      && !s.soundPlayed
      && s.view == v.(threats := [], loading := false)
      && s.items == items
      && s.navigate == None
  {
  }

  /** Since no id has been seen at mount, the first non-empty fetch always counts as new. */
  lemma FirstFetchIsNew(items: map<string, string>, records: seq<Threat>)
    requires HasToken(items) && records != []
    ensures IsNewThreat(records, InitialView(items).lastThreatId)
    ensures var s := FetchThreatsStep(InitialView(items), items, Ok(records));
      s.view.newThreat == Some(records[0]) && (s.soundPlayed <==> !StoredTrue(items, MuteAlerts))
  {
  }

  /**
   * Polling twice with the same outcome: the second step plays no sound and changes
   * nothing, whatever the outcome was; so a response repeated on the next tick raises at
   * most one alert.
   */
  lemma FetchIdempotent(v: View, items: map<string, string>, outcome: FetchOutcome)
    ensures var s1 := FetchThreatsStep(v, items, outcome);
      var s2 := FetchThreatsStep(s1.view, s1.items, outcome);
      && !s2.soundPlayed
      && s2.view == s1.view
      && s2.items == s1.items
  {
  }

  /** The same list twice: at most one of the two steps detects a new threat. */
  lemma DetectedAtMostOnce(v: View, items: map<string, string>, records: seq<Threat>)
    requires HasToken(items)
    ensures var s1 := FetchThreatsStep(v, items, Ok(records));
      !IsNewThreat(records, s1.view.lastThreatId)
  {
  }

  /**
   * A 401 removes only the token and goes to login; any other failure leaves the table
   * and storage alone and stays on the page. Both stop the spinner and raise no alert.
   */
  lemma FetchFailure(v: View, items: map<string, string>, outcome: FetchOutcome)
    requires HasToken(items) && !outcome.Ok?
    ensures var s := FetchThreatsStep(v, items, outcome);
      && s.view == v.(loading := false)
      && !s.soundPlayed
      && (outcome.Unauthorized? ==>
            && AuthToken !in s.items
            && (forall k :: k != AuthToken ==> (k in s.items <==> k in items))
            && (forall k :: k in s.items ==> s.items[k] == items[k])
            && s.navigate == Some(LoginPath))
      && (outcome.OtherError? ==> s.items == items && s.navigate == None)
  {
  }

  /**
   * The mute toggle negates the flag and stores it so that a remount reads it back;
   * no other key changes.
   */
  lemma ToggleMuteEffect(v: View, items: map<string, string>)
    ensures var s := ToggleMuteStep(v, items);
      && s.view == v.(muteAlerts := !v.muteAlerts)
      && InitialView(s.items).muteAlerts == s.view.muteAlerts
      && (forall k :: k != MuteAlerts ==> (k in s.items <==> k in items))
      && (forall k :: k != MuteAlerts && k in items ==> s.items[k] == items[k])
  {
  }

  /** At mount, alerts are muted exactly when the stored string is "true". */
  lemma InitialMute(items: map<string, string>)
    ensures InitialView(items).muteAlerts <==> MuteAlerts in items && items[MuteAlerts] == "true"
    ensures !InitialView(items[MuteAlerts := "TRUE"]).muteAlerts
  {
  }

  /** The page object: its state variables and the shared `localStorage`. */
  class ThreatsView {
    var threats: seq<Threat>
    var loading: bool
    var alertOpen: bool
    var newThreat: Option<Threat>
    var muteAlerts: bool
    var lastThreatId: Option<int>
    const store: LocalStorage

    function Current(): View
      reads this
    {
      View(threats, loading, alertOpen, newThreat, muteAlerts, lastThreatId)
    }

    constructor (store: LocalStorage)
      ensures this.store == store
      ensures Current() == InitialView(store.items)
    {
      this.store := store;
      threats := [];
      loading := true;
      alertOpen := false;
      newThreat := None;
      muteAlerts := store.GetItem(MuteAlerts) == Some("true");
      lastThreatId := None;
    }

    /** `fetchThreats`, given how the request ends; reports whether the sound played. */
    method FetchThreats(outcome: FetchOutcome) returns (navigate: Option<string>, soundPlayed: bool)
      modifies this, store
      ensures var s := FetchThreatsStep(old(Current()), old(store.items), outcome);
        && Current() == s.view && store.items == s.items
        && navigate == s.navigate && soundPlayed == s.soundPlayed
    {
      navigate, soundPlayed := None, false;
      var token := store.GetItem(AuthToken);
      if token.None? || token.value == "" {
        navigate := Some(LoginPath);
        return;
      }
      match outcome {
        case Ok(newThreats) =>
          if |newThreats| > 0 && Some(newThreats[0].id) != lastThreatId {
            newThreat := Some(newThreats[0]);
            lastThreatId := Some(newThreats[0].id);
            if !muteAlerts {
              alertOpen := true;
              soundPlayed := true;
            }
          }
          threats := newThreats;
        case Unauthorized =>
          store.RemoveItem(AuthToken);
          navigate := Some(LoginPath);
        case OtherError =>
      }
      loading := false;
    }

    /** `handleMuteToggle`. */
    method ToggleMute()
      modifies this, store
      ensures var s := ToggleMuteStep(old(Current()), old(store.items));
        Current() == s.view && store.items == s.items
    {
      var newMuteState := !muteAlerts;
      muteAlerts := newMuteState;
      store.SetItem(MuteAlerts, BoolString(newMuteState));
    }

    /** The snackbar's `onClose`: the alert is dismissed, nothing else changes. */
    method CloseAlert()
      modifies this
      ensures Current() == old(Current()).(alertOpen := false)
    {
      alertOpen := false;
    }
  }
}
