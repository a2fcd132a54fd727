# Threat-detection dashboard: a Dafny model of its page logic

The threat-detection dashboard is a React front end. It polls a threats endpoint every five seconds and has three protected pages: a summary dashboard (with its own severity pie chart and threat-type bar chart), a threats table with new-threat alerts, and a settings page. The repository also holds a severity bar-chart component, `ThreatsChart`, which none of these pages mounts; it is modelled on its own. Preferences and the session token live in the browser's `localStorage`. This project models the logic that the pages run on each poll and on each click, and proves what that logic guarantees.

The modules follow the program:

- **Records**: the threat record `{id, threat_type, severity, detected_at}` and the three ways a fetch can end (`Ok(records)`, `Unauthorized` for HTTP 401, `OtherError`). It also counts records by severity and by type.
- **BrowserStorage**: the `LocalStorage` class, a mutable `map<string, string>` with `getItem`, `setItem` and `removeItem`, and the fixed keys.
  - Booleans are stored as the text "true" or "false" and read back by comparing with "true".
  - A token is "missing" when the key is absent or its value is the empty string, because both are falsy.
- **ObjectKeys**: the order in which `Object.keys` lists an object's own keys. Canonical array-index strings ("0" to "4294967294") come first, in ascending numeric order. All other keys follow, in creation order.
- **Tally**: what the reducer `acc[k] = (acc[k] || 0) + 1`, folded from `{}`, is meant to compute: counts plus key-creation order. It treats every key as absent until first counted, which is what JavaScript does for every key except the twelve names a plain object inherits from `Object.prototype`; for those it differs from the code, as module JsObjectFold and the Findings show.
- **Aggregates**: what the dashboard derives from one fetched list:
  - the total;
  - `slice(0, 5)`;
  - the four `filter(...).length` buckets;
  - the per-type histogram;
  - the Critical-count thresholds of the system-health reading.
- **ThreatsChart**: the chart's empty guard, and its labels and data (`Object.keys` and `Object.values` of the severity tally).
- **Dashboard, ThreatsPage, Settings**: each page is a class. Its fields mirror the component's `useState` variables, and it shares one `LocalStorage`.
  - Each handler is a method.
  - The methods of Dashboard and ThreatsPage are tied to a pure step function (`FetchStatsStep`, `FetchThreatsStep`, and so on) by their postconditions. The properties of a poll are proved as lemmas about those step functions.
  - The Settings methods state their new state directly.
- **App**: the route table and `ProtectedRoute` as a total function from a path and whether a user is signed in to a page or a redirect. The sidebar is shown exactly when a user is signed in.
- **JsObjectFold**: the reducer as JavaScript actually runs it on a plain `{}`, including the names inherited from `Object.prototype` (see Findings).

Inputs from outside are parameters:
- how a request ends (a `FetchOutcome`);
- the clock reading shown as "Last Update";
- whether a user is signed in;
- the theme context's dark-mode flag when the settings page mounts.

Behaviours of the code that are easy to misread, and that the model follows:

- **The first non-empty fetch notifies.** `lastThreatId` starts as `null` and never equals a record id (`ThreatsPage.FirstFetchIsNew`).
- **The dashboard logs out on every failure.** It removes the token and goes to login on any error, not only on a rejected token. A network failure does not keep the user on the page (`Dashboard.FetchFailure`). The threats page does distinguish 401 from other errors.
- **The buckets need not add up to the total.** Their sum is at most the number of records, and equals it only when every severity is one of Critical, High, Medium and Low (`Aggregates.BucketsSum`).
- **Only the token is cleared.** An authorization failure, and logout, remove `authToken` alone. `refreshToken` and `user` stay (`Settings.LogoutKeepsSession`).
- **A cleared e-mail does not survive a remount.** Clearing the field stores "", but mounting reads `getItem("userEmail") || "user@example.com"`, so the exported e-mail "" comes back as the default (`Settings.ExportedValuesPersist`).
- **The settings page does not read dark mode from storage.** It takes the flag from the theme context, which starts as `false` (`src/context/ThemeProvider.js:8`); the "darkMode" key it writes is not read back when that page mounts (`Settings.SettingsPage.constructor`).
- **The login page's target is not a route.** `src/pages/Login.js:29` navigates to "/dashboard", which falls through to the `*` route and redirects to "/" (`App.DashboardAliasRedirects`).

## Model

| member | source | states |
|---|---|---|
| BrowserStorage.BoolString | src/pages/Dashboard.js:104 | a boolean is stored as exactly "true" or "false" |
| BrowserStorage.BoolRoundTrip | src/pages/Settings.js:17-33 | a boolean written with `setItem` reads back as itself under `=== "true"` |
| BrowserStorage.LocalStorage.GetItem | src/pages/Dashboard.js:43 | `getItem` is the stored string when the key is present and `null` otherwise |
| BrowserStorage.LocalStorage.SetItem | src/pages/Dashboard.js:104 | `setItem` overwrites one key, all others are kept |
| BrowserStorage.LocalStorage.RemoveItem | src/pages/Dashboard.js:87 | `removeItem` deletes one key, all others are kept |
| Aggregates.RecentThreats | src/pages/Dashboard.js:59 | the table holds the first min(5, N) records, in the order returned |
| Aggregates.BucketsPartition | src/pages/Dashboard.js:62-67 | the four buckets plus the records with any other severity account for every record exactly once |
| Aggregates.BucketsSum | src/pages/Dashboard.js:62-67 | the buckets sum to at most N, and to exactly N iff every severity is Critical, High, Medium or Low |
| Aggregates.BucketCountsRecords | src/pages/Dashboard.js:63-66 | a bucket is the size of the set of record positions with exactly that severity |
| Aggregates.ThreatTypeCountsCorrect | src/pages/Dashboard.js:71-74 | exactly the present types are keys, listed once each; each count is that type's number of records, so at least 1; the counts sum to N |
| Aggregates.ThreatTypeCountsOrder | src/pages/Dashboard.js:71-74 | the types are listed in the order of their first appearance in the fetched list |
| Aggregates.ThreatTypeCountAt | src/pages/Dashboard.js:71-74 | one type is a key iff some record has it, and then its count is its number of records |
| Aggregates.HealthThresholds | src/pages/Dashboard.js:78-84 | Critical iff more than 5 Critical records, Warning iff 3 to 5, Normal iff at most 2 |
| Aggregates.HealthMonotone | src/pages/Dashboard.js:78-84 | more Critical records never give a milder reading |
| Aggregates.HealthIgnoresOtherBuckets | src/pages/Dashboard.js:78-84 | the reading depends on the Critical bucket alone |
| Aggregates.HealthLabelsDistinct | src/pages/Dashboard.js:78-84 | the displayed texts of the readings ("Checking...", "Normal ✅", …) are pairwise distinct |
| Tally.TallyWellFormed | src/components/ThreatsChart.js:14-17 | the accumulator lists each created key once, and exactly the keys that have a count |
| Tally.TallyCounts | src/components/ThreatsChart.js:14-17 | a key has a count iff it occurs in the input, and the count is its number of occurrences (at least 1) |
| Tally.TallyFirstOccurrenceOrder | src/components/ThreatsChart.js:14-17 | keys are created in the order of their first occurrence in the input |
| Tally.TallySum | src/components/ThreatsChart.js:14-17 | the counts, in creation order, sum to the length of the input |
| Tally.SumEnumerationOrder | src/components/ThreatsChart.js:20-24 | listing the counts in `Object.keys` order does not change their sum |
| ObjectKeys.EnumerationOrderProperties | src/components/ThreatsChart.js:20 | `Object.keys` lists every created key and no other, each once, array indices first and ascending, then the other keys in creation order |
| ObjectKeys.EnumerationWithoutIndices | src/components/ThreatsChart.js:20 | without array-index keys, `Object.keys` is creation order |
| ObjectKeys.EnumerationExample | src/components/ThreatsChart.js:20 | keys created as "b", "10", "a", "2" are listed as "2", "10", "b", "a" |
| ThreatsChart.NoDataExactly | src/components/ThreatsChart.js:9-11 | "No data available" exactly when the prop is missing or empty |
| ThreatsChart.TallyChartLabels | src/components/ThreatsChart.js:19-25 | labels and data have equal length; the labels are the distinct severity strings present, each once |
| ThreatsChart.TallyChartData | src/components/ThreatsChart.js:14-24 | bar i is the number of occurrences of label i (at least 1), and the bars sum to the length of the input |
| ThreatsChart.ChartCounts | src/components/ThreatsChart.js:9-25 | for a non-empty list: index-aligned labels and data, labels exactly the severities present, each bar the number of records with that severity, bars summing to N |
| ThreatsChart.TallyChartCreationOrder | src/components/ThreatsChart.js:14-20 | with no numeric severity strings the labels are the keys in creation order |
| ThreatsChart.ChartFirstOccurrenceOrder | src/components/ThreatsChart.js:14-20 | with no numeric severity strings the bars follow the first occurrence of each severity |
| ThreatsChart.ChartExample | src/components/ThreatsChart.js:14-24 | severities High, Critical, High give labels ["High", "Critical"] with data [2, 1] |
| Dashboard.FetchWithoutToken | src/pages/Dashboard.js:43-49 | without a token the poll changes no state and no storage and navigates to "/login" |
| Dashboard.NoTokenKeepsLoading | src/pages/Dashboard.js:36-49 | a first poll without a token leaves `loading` true |
| Dashboard.FetchSuccess | src/pages/Dashboard.js:56-91 | a success sets the total to N, the table to the first min(5, N) records, each bucket to its count, the exact type histogram (the reducer's result, with its key order), the health by the thresholds, the time stamp, and `loading` false; storage and dark mode are untouched and nothing navigates |
| Dashboard.FetchFailure | src/pages/Dashboard.js:85-91 | any failure removes `authToken`, keeps every other key and value, navigates to "/login", sets `loading` false and keeps the figures |
| Dashboard.FailureThenNoToken | src/pages/Dashboard.js:43-89 | after a failure, the next poll finds no token and only navigates to login |
| Dashboard.ToggleDarkModeEffect | src/pages/Dashboard.js:101-105 | the toggle negates `darkMode`, stores it so that a remount reads the new value, changes no other key, and a second toggle restores the flag |
| Dashboard.ExportAfterSuccess | src/pages/Dashboard.js:108-109 | after a success, the exported records are the first min(5, N) fetched |
| Dashboard.DashboardPage.constructor | src/pages/Dashboard.js:30-37 | the initial state, with dark mode true iff storage holds "true" |
| Dashboard.DashboardPage.FetchStats | src/pages/Dashboard.js:42-92 | the new fields, storage and navigation are those of the poll step |
| Dashboard.DashboardPage.ToggleDarkMode | src/pages/Dashboard.js:101-105 | the new field and storage are those of the toggle step |
| Dashboard.DashboardPage.ExportData | src/pages/Dashboard.js:108-114 | the exported records are the table's records |
| ThreatsPage.CategorizeThreatLabels | src/pages/Threats.js:29-39 | "Critical", "High" and "Medium" keep their name, every other string shows "Low"; applying it to its own label changes nothing |
| ThreatsPage.CategorizeThreatDefault | src/pages/Threats.js:37-38 | the empty string and differently-cased names fall to "Low" |
| ThreatsPage.FetchWithoutToken | src/pages/Threats.js:53-58 | without a token nothing changes, no sound plays and the page goes to "/login" |
| ThreatsPage.FetchSuccess | src/pages/Threats.js:66-81 | the table is replaced wholesale; a new threat is detected iff the list is non-empty and its head id differs from the last seen; then the head and its id are remembered; the alert opens and the sound plays iff also not muted; storage is untouched |
| ThreatsPage.MutedFetch | src/pages/Threats.js:69-79 | when muted, no alert and no sound, yet the last seen id and the new threat are still updated |
| ThreatsPage.EmptyFetch | src/pages/Threats.js:69-81 | an empty list empties the table, stops `loading`, plays no sound and changes nothing else in the view; storage is untouched and nothing navigates |
| ThreatsPage.FirstFetchIsNew | src/pages/Threats.js:48-79 | the first non-empty fetch after mounting always counts as new, and sounds iff alerts are not muted |
| ThreatsPage.FetchIdempotent | src/pages/Threats.js:61-91 | the same outcome twice: the second step plays no sound and changes neither state nor storage |
| ThreatsPage.DetectedAtMostOnce | src/pages/Threats.js:69-71 | after a successful step, the same list is no longer new |
| ThreatsPage.FetchFailure | src/pages/Threats.js:82-91 | a 401 removes only `authToken` and goes to login; any other error keeps table and storage and stays; both stop `loading` and raise no alert |
| ThreatsPage.ToggleMuteEffect | src/pages/Threats.js:101-105 | the toggle negates `muteAlerts`, stores it so that a remount reads it back, and changes no other key |
| ThreatsPage.InitialMute | src/pages/Threats.js:47 | alerts start muted iff the stored string is exactly "true" |
| ThreatsPage.ThreatsView.constructor | src/pages/Threats.js:43-48 | the initial state, with no id seen yet |
| ThreatsPage.ThreatsView.FetchThreats | src/pages/Threats.js:52-92 | the new fields, storage, navigation and sound are those of the fetch step |
| ThreatsPage.ThreatsView.ToggleMute | src/pages/Threats.js:101-105 | the new field and storage are those of the toggle step |
| ThreatsPage.ThreatsView.CloseAlert | src/pages/Threats.js:160 | dismissing closes the alert and changes nothing else |
| Settings.ReadNotificationsExact | src/pages/Settings.js:17 | notifications start on iff the stored text is exactly "true" |
| Settings.ReadEmailDefault | src/pages/Settings.js:18 | the stored e-mail is read back verbatim unless missing or empty, which give "user@example.com" |
| Settings.ResetEffect | src/pages/Settings.js:59-66 | reset writes the three defaults, keeps every other key, reads back as the defaults, and is idempotent |
| Settings.ExportedValuesPersist | src/pages/Settings.js:30-48 | re-entering the exported notifications flag and e-mail reads back the same values from storage, except that an empty e-mail reads back as "user@example.com" |
| Settings.SettingsPage.constructor | src/pages/Settings.js:16-18 | dark mode from the theme context, notifications and e-mail read from storage |
| Settings.SettingsPage.ToggleDarkMode | src/pages/Settings.js:23-27 | negates `darkMode`, writes only "darkMode", which reads back as the new flag |
| Settings.SettingsPage.ToggleNotifications | src/pages/Settings.js:30-34 | negates `notifications`, writes only "notifications", which a remount reads back |
| Settings.SettingsPage.ChangeEmail | src/pages/Settings.js:37-40 | keeps the typed value and stores it verbatim under "userEmail" alone |
| Settings.SettingsPage.ExportData | src/pages/Settings.js:43-48 | the export holds exactly dark mode, notifications and e-mail from the current state |
| Settings.SettingsPage.ResetSettings | src/pages/Settings.js:59-66 | the page state and storage take the defaults |
| Settings.SettingsPage.Logout | src/pages/Settings.js:72-75 | only `authToken` is removed, and the page goes to "/login" |
| Settings.ToggleTwice | src/pages/Settings.js:23-34 | toggling each switch twice restores both flags; storage then holds their string forms, every other key unchanged |
| Settings.ResetTwice | src/pages/Settings.js:59-66 | resetting twice equals resetting once |
| Settings.LogoutKeepsSession | src/pages/Settings.js:72-75 | logout keeps `refreshToken` and `user` |
| App.SidebarIffUser | src/App.js:24 | the sidebar is drawn iff a user is present |
| App.PublicPathsRender | src/App.js:27-29 | "/login", "/register" and "/forgot-password" render their page with or without a user |
| App.ProtectedPathsGuarded | src/App.js:13-32 | "/", "/threats" and "/settings" render their page iff a user is present, and redirect to "/login" otherwise |
| App.UnknownPathsFallBack | src/App.js:33 | every other path redirects to "/" |
| App.DashboardAliasRedirects | src/App.js:27-33 | "/dashboard" redirects to "/", then reaches the dashboard or login |
| App.RedirectsSettle | src/App.js:13-33 | at most two redirects reach a page: the path's own page when allowed, login without a user, the dashboard for an unknown path with a user |
| JsObjectFold.AgreesWithoutInheritedNames | src/components/ThreatsChart.js:14-17 | when no key is an `Object.prototype` name, the reducer as JavaScript runs it computes exactly the counts of Tally |
| JsObjectFold.ConstructorKeyCounterexample | src/pages/Dashboard.js:71-74 | a record of type "constructor" gets the string "function Object() { [native code] }1" instead of 1 |
| JsObjectFold.ProtoKeyDropped | src/components/ThreatsChart.js:14-17 | a record of severity "__proto__" leaves the object empty, while the intended tally has a key for it |

## Left out

- Network requests, HTTP status handling and JSON decoding are foreign. How a request ends is the `FetchOutcome` parameter. A response body that is not a list of records is not modelled.
- "No token" is not a fetch outcome. It is read from the model's storage map, as the code reads it before any request.
- `setInterval` polling, clearing the timer on unmount, overlapping in-flight requests and the re-created effect when `lastThreatId` or `muteAlerts` change are timing and scheduling. The model takes one step at a time.
- Audio playback is reduced to the `soundPlayed` flag of a step. The snackbar's five-second auto-hide is timing; only its close handler is modelled.
- `alert()` after reset, `console.error`, and the download mechanics (data URL, Blob, anchor click) are side effects with no state. Only the exported record contents are modelled, not their `JSON.stringify` text.
- `new Date().toLocaleTimeString()` depends on the clock and locale, so "Last Update" is the `now` parameter. `detected_at` is kept as text and never formatted.
- Rendering (JSX, MUI, chart.js options and bar colours), the chip icons, `src/theme.js`, `src/index.js` and `src/components/DarkModeToggle.js` are presentation.
- `src/context/ThemeProvider.js` is not part of this model. The settings page's dark-mode value comes from it as a constructor parameter, and `setDarkMode` is that field's assignment.
- `AuthContext` is not part of this model: whether a user is present is a parameter of the route function.
- React Router is modelled as exact, case-sensitive string matching. Its tolerance of a trailing slash and its case-insensitive matching are not modelled, so `App.Route` treats "/threats/" as an unknown path.
- These files are form handlers around network calls, or depend on a context that is not shown, and are not part of this model: `src/pages/Login.js`, `src/auth/Login.js`, `src/pages/Register.js`, `src/pages/ForgotPassword.js`, `src/components/Sidebar.js` and `src/services/api.js`.
- Record ids are integers, compared with `!==`. Ids of mixed JSON types are not modelled.
- JsObjectFold.InheritedText: the text of a built-in function is engine-defined. The usual form is assumed, and only "constructor" is used in the counterexample.

## Findings

| source | as written | input that shows it | evidently intended | confidence | as-written member | corrected member |
|---|---|---|---|---|---|---|
| src/pages/Dashboard.js:71-74 | `acc[k] = (acc[k] \|\| 0) + 1` on `{}` reads the inherited `Object.prototype.constructor` when a type is "constructor", and `+ 1` concatenates text | one record with `threat_type` "constructor" | a count of 1 for that type, as for any other type | not executed | JsObjectFold.ConstructorKeyCounterexample | Aggregates.ThreatTypeCountsCorrect |
| src/components/ThreatsChart.js:14-17 | the same reducer on severities: for "__proto__" the read finds the prototype, `+ 1` yields a string, and the `__proto__` setter ignores it, so the record is never counted | one record with `severity` "__proto__" | one bar labelled "__proto__" with count 1 | not executed | JsObjectFold.ProtoKeyDropped | ThreatsChart.ChartCounts |
