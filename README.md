# Aura Secure mobile defense — a verified model of the threat and privacy core

This project models the behavioural core of the Aura Secure mobile-security app in
Dafny:

- the **`threat-detection` edge function**, which scores reported threats, lists a
  user's threat log newest first and resolves threats;
- the **`realtime-threats` socket endpoint**, a per-connection state machine. It
  binds a socket to a user, records and echoes threat alerts, and polls for recent
  threats and threat patterns on a timer;
- the **`privacy-manager` edge function**, which manages the privacy settings row,
  VPN sessions, the secure-file vault record and the fixed blocklist;
- the client hooks **`useThreatDetection`** and **`usePrivacySettings`**;
- the **`ThreatMonitor`** and **`Dashboard`** displays;
- the device-state machines of **`SecurityProvider`**, **`SafeZonePage`** and
  **`AntivirusPage`**.

How the model represents the system:

- **Tables.** The hosted database is a set of in-memory tables: sequences of rows
  held by the `Store.ThreatDb` and `Store.PrivacyDb` classes. The edge functions
  insert into them and update them in place.
- **Requests and messages.** Request bodies and socket messages are JSON values, so
  that JavaScript truthiness (`severity || 5`) and reading a member of `null` (which
  throws) are modelled exactly.
- **Environment.** Token resolution is a partial map from token to user id. The
  clock, the store-assigned row id and store failures are parameters.
- **Sockets and timers.** A socket send is an append to an outbox. A timer tick is
  an explicit method call.

Modules, one per source file plus four shared ones:

| module | file | models |
|---|---|---|
| `Js` | js.dfy | JSON values, truthiness, `\|\|`, `String.replace` with a string pattern |
| `Schema` | schema.dfy | the enums and rows of `src/integrations/supabase/types.ts` |
| `Store` | store.dfy | filtered selects, the insert constraints of `threat_logs`, the table classes |
| `Edge` | edge.dfy | the Authorization, token and body gate both edge functions share |
| `ThreatDetection` | threat_detection.dfy | `supabase/functions/threat-detection/index.ts` |
| `RealtimeThreats` | realtime_threats.dfy | `supabase/functions/realtime-threats/index.ts` |
| `PrivacyManager` | privacy_manager.dfy | `supabase/functions/privacy-manager/index.ts` |
| `UseThreatDetection` | use_threat_detection.dfy | `src/hooks/useThreatDetection.tsx` |
| `UsePrivacySettings` | use_privacy_settings.dfy | `src/hooks/usePrivacySettings.tsx` |
| `ThreatMonitor` | threat_monitor.dfy | `src/components/ThreatMonitor.tsx` |
| `SecurityProvider` | security_provider.dfy | `src/components/SecurityProvider.tsx` |
| `Dashboard` | dashboard.dfy | `src/components/Dashboard.tsx` |
| `SafeZone` | safe_zone.dfy | `src/components/pages/SafeZonePage.tsx` |
| `Antivirus` | antivirus.dfy | `src/components/pages/AntivirusPage.tsx` |

## Model

| member | source | states |
|---|---|---|
| Js.Or | supabase/functions/threat-detection/index.ts:50 | `a \|\| b` yields `a` when `a` is truthy and `b` otherwise; with a truthy `b` the result is always truthy |
| Js.ReplaceFirstChar | src/components/ThreatMonitor.tsx:88 | replacing one character by another keeps the length |
| Js.ReplaceFirstCharAgrees | src/components/ThreatMonitor.tsx:88 | the character-wise replacement is `replace` with a one-character pattern and replacement |
| Js.ReplaceFirstClearsSingle | src/components/ThreatMonitor.tsx:88 | replacing the first `_` of a string that has at most one `_` leaves none |
| Js.ReplaceFirstAbsent | src/components/ThreatMonitor.tsx:88 | a string without the pattern character comes back unchanged |
| Schema.ParseThreatType | src/integrations/supabase/types.ts:352-356 | a `threat_type` value is accepted exactly when it is one of the four enum labels, and the label maps back to its enum value |
| Schema.SettingNamed | src/integrations/supabase/types.ts:57-67 | a column name maps to a setting exactly when it is one of the five boolean columns, and back |
| Store.Select | supabase/functions/realtime-threats/index.ts:88-93 | a filtered select keeps exactly the rows that match every filter, each as often as it is stored, and nothing else |
| Store.SeverityColumn | src/integrations/supabase/types.ts:230 | `severity_level` accepts any number or NULL and rejects every other JSON value; there is no 1–10 bound |
| Store.NewThreatRow | supabase/functions/threat-detection/index.ts:44-53 | the insert succeeds iff the type is an enum label, `threat_data` is not null and the severity is numeric or null; the row carries the caller, the data, the severity, the insert time and the status default |
| Edge.BearerTokenOfScheme | supabase/functions/threat-detection/index.ts:29 | stripping "Bearer " from "Bearer &lt;token&gt;" gives back exactly the token |
| Edge.CheckGate | supabase/functions/threat-detection/index.ts:21-37 | a missing or empty header gives 401 `Unauthorized`; an unresolved token gives 401 `Invalid token`; a null or non-JSON body throws; otherwise the caller is the token's user |
| Edge.GateRejections | supabase/functions/threat-detection/index.ts:21-135 | a request the gate stops gets 401 exactly when the header is missing or empty or the token is unknown, with `Unauthorized` or `Invalid token`; otherwise 500 `Internal server error`, and only for a missing or null body |
| ThreatDetection.Score | supabase/functions/threat-detection/index.ts:141-148 | the additive score is always between 1 and 10 |
| ThreatDetection.AnalyzeThreat | supabase/functions/threat-detection/index.ts:139-149 | `analyzeThreat` of any non-null threat data is between 1 and 10 |
| ThreatDetection.ScoreWithoutFlags | supabase/functions/threat-detection/index.ts:141-144 | without flags malware scores 6, phishing 5 and the two other types 1 |
| ThreatDetection.ScoreWithBothFlags | supabase/functions/threat-detection/index.ts:143-148 | with both flags malware (11) is clamped to 10 and phishing is exactly 10 |
| ThreatDetection.ScoreMonotoneInFlags | supabase/functions/threat-detection/index.ts:145-148 | raising a flag never lowers the score |
| ThreatDetection.StoredSeverity | supabase/functions/threat-detection/index.ts:50 | the stored severity is the caller's when truthy, unvalidated, and the computed score otherwise |
| ThreatDetection.ReportRow | supabase/functions/threat-detection/index.ts:42-53 | the reported row is the caller's, with the data, the forwarded address, `threatData.type` as its type, `threatData.deviceFingerprint`, the store's id, insert time and status default; it succeeds exactly when the store answers, the type is an enum label and `severity \|\| score` is numeric; without a caller severity the stored level is the computed score in 1..10 |
| ThreatDetection.InsertByNewest | supabase/functions/threat-detection/index.ts:81 | inserting into a newest-first list keeps it newest first and adds exactly that row |
| ThreatDetection.SortNewestFirst | supabase/functions/threat-detection/index.ts:81 | the result is newest first and a permutation of the input |
| ThreatDetection.DroppedAreOlder | supabase/functions/threat-detection/index.ts:81-82 | in a newest-first list, every row past position k is no newer than any row before it |
| ThreatDetection.PrefixOfNewestFirst | supabase/functions/threat-detection/index.ts:82 | a prefix of a newest-first list is newest first and a sub-multiset |
| ThreatDetection.OwnedRows | supabase/functions/threat-detection/index.ts:80 | every selected row is the caller's and is in the table |
| ThreatDetection.ThreatsPage | supabase/functions/threat-detection/index.ts:76-94 | `get-threats` returns only the caller's rows, newest first, at most 50 (all of them when fewer); every row left out is no newer than any row returned |
| ThreatDetection.PageIsCompleteWhenSmall | supabase/functions/threat-detection/index.ts:82 | with at most 50 rows of the caller's, the page holds all of them |
| ThreatDetection.ResolveRows | supabase/functions/threat-detection/index.ts:97-101 | the update marks resolved, at `now`, exactly the rows with that id owned by the caller; every other row is unchanged |
| ThreatDetection.ResolveKeepsIdentity | supabase/functions/threat-detection/index.ts:99 | resolving changes no column but the status and the resolution time |
| ThreatDetection.ResolveTwice | supabase/functions/threat-detection/index.ts:97-101 | resolving the same threat twice leaves what the second call wrote |
| ThreatDetection.Route | supabase/functions/threat-detection/index.ts:37-128 | the gate comes first; an unknown action gives 400 `Invalid action`; report and scan with missing or null `threatData` throw (500); each action runs for the gate's user with the body's fields |
| ThreatDetection.ReportThreat | supabase/functions/threat-detection/index.ts:40-74 | a refused insert answers 400 and changes no table; otherwise one row and one audit entry are appended and the response carries the row and the computed score |
| ThreatDetection.ListThreats | supabase/functions/threat-detection/index.ts:76-94 | a store failure answers 400; otherwise the answer is the caller's page |
| ThreatDetection.ResolveThreat | supabase/functions/threat-detection/index.ts:96-113 | with a string id, success is answered whether or not a row matched, and the table becomes the resolved update; a store failure or a missing id answers 400 and changes nothing |
| ThreatDetection.HandleRequest | supabase/functions/threat-detection/index.ts:10-137 | end to end: rejected, listing and scanning requests change no table; a 401 changes nothing; a report appends its row and its audit entry, or answers 400 and changes neither; a resolve or list with a store fault, or a resolve with a non-string id, answers 400 and changes nothing; otherwise each action's answer and effect |
| RealtimeThreats.CountMalware | supabase/functions/realtime-threats/index.ts:141 | the malware subset is never larger than the rows |
| RealtimeThreats.DetectThreatPatterns | supabase/functions/realtime-threats/index.ts:122-152 | `high_activity` (7, total) appears iff more than 5 rows, and first; `malware_cluster` (9, malware count) appears iff more than 2 malware rows, and last; nothing else; a failed query gives none |
| RealtimeThreats.Classify | supabase/functions/realtime-threats/index.ts:31-35 | a frame that fails to parse or is `null` is malformed; `auth` and `threat_alert` frames are recognised by their `type`; all else is ignored |
| RealtimeThreats.ResolveToken | supabase/functions/realtime-threats/index.ts:36-37 | only a string token known to the identity provider resolves, to its user |
| RealtimeThreats.AlertInsert | supabase/functions/realtime-threats/index.ts:48-57 | an alert adds at most one row, exactly when the store answers, the type is an enum label, `data` is non-null and `severity \|\| 5` is numeric; the row is the bound user's and carries the alert's truthy severity, else 5 |
| RealtimeThreats.PollFrames | supabase/functions/realtime-threats/index.ts:95-110 | given the two query results, a tick sends `new_threats` (first) iff the recent query returned rows, with count equal to their number, and `threat_patterns` (last) iff there are patterns; any `new_threats` frame is that one |
| RealtimeThreats.RecentRowsMatch | supabase/functions/realtime-threats/index.ts:88-93 | every row of the last-minute query belongs to the user, is active and was created in the last 60 000 ms |
| RealtimeThreats.PolledThreatsAreRecentActive | supabase/functions/realtime-threats/index.ts:88-100 | whatever patterns are found, a `new_threats` frame is non-empty, its count is its length, and it holds only the user's active rows of the last 60 000 ms |
| RealtimeThreats.Connection.OnMessage | supabase/functions/realtime-threats/index.ts:31-70 | malformed: one error frame, nothing else changes; good auth: binds the user, one `auth_success`, one more timer; bad auth: one `auth_error`, binding kept; unbound alert: nothing; bound alert: the row with the bound user and `severity \|\| 5` is inserted if accepted, then the message is echoed either way |
| RealtimeThreats.Connection.StartThreatMonitoring | supabase/functions/realtime-threats/index.ts:83-85 | one more timer for the user |
| RealtimeThreats.Connection.Tick | supabase/functions/realtime-threats/index.ts:85-114 | a live timer sends the poll frames of its user's two queries on the current table; a cleared one sends nothing |
| RealtimeThreats.Connection.Close | supabase/functions/realtime-threats/index.ts:116-119 | closing clears every timer of the connection |
| RealtimeThreats.ClassifyAuthMessage | supabase/functions/realtime-threats/index.ts:35-36 | an `auth` frame is classified as an auth request carrying its token |
| RealtimeThreats.AlertBeforeAuth | supabase/functions/realtime-threats/index.ts:25-50 | on a fresh connection an alert inserts nothing and sends nothing |
| RealtimeThreats.CloseBeforeFirstTick | supabase/functions/realtime-threats/index.ts:117-119 | after close no timer is left and a tick sends nothing |
| RealtimeThreats.TwoAlertsInOrder | supabase/functions/realtime-threats/index.ts:59-63 | alerts are echoed unmodified, in order, after the `auth_success` |
| RealtimeThreats.ReauthKeepsEarlierTimer | supabase/functions/realtime-threats/index.ts:36-45 | re-authenticating rebinds the socket and leaves the first user's timer running; a failed re-auth keeps the binding |
| PrivacyManager.AllSettingsComplete | src/integrations/supabase/types.ts:57-67 | every setting is one of the five columns |
| PrivacyManager.ParsePatch | supabase/functions/privacy-manager/index.ts:60-63 | an object of settings columns holding booleans or null is accepted; the patch holds exactly the supplied columns with their values (stricter than the source, see Left out) |
| PrivacyManager.ApplyPatch | supabase/functions/privacy-manager/index.ts:62 | supplied columns take the new value (NULL clears), all others keep theirs |
| PrivacyManager.ApplyPatchIdempotent | supabase/functions/privacy-manager/index.ts:60-63 | applying the same update twice is the same as once |
| PrivacyManager.UpdateSettingsRows | supabase/functions/privacy-manager/index.ts:60-63 | only the caller's rows change, and only in their setting values (the non-setting columns are not modelled, see Left out) |
| PrivacyManager.NewSession | supabase/functions/privacy-manager/index.ts:79-87 | `connect-vpn` inserts the session `{user, location, is_active: true}`; a location that is not a string is refused |
| PrivacyManager.DisconnectRows | supabase/functions/privacy-manager/index.ts:102-109 | every active session of the caller becomes inactive with `disconnected_at` set; other users' and inactive sessions are untouched |
| PrivacyManager.NoActiveAfterDisconnect | supabase/functions/privacy-manager/index.ts:108-109 | after a disconnect the caller has no active session |
| PrivacyManager.DisconnectTwice | supabase/functions/privacy-manager/index.ts:102-109 | a repeat disconnect matches nothing and changes nothing |
| PrivacyManager.NewSecureFile | supabase/functions/privacy-manager/index.ts:127-138 | the vault record carries the caller, the file's name, size and type, and the key hash and path; a missing name is refused |
| PrivacyManager.Route | supabase/functions/privacy-manager/index.ts:37-166 | the gate comes first; an unknown action gives 400 `Invalid action`; a missing or null `fileData` throws (500); each action runs for the gate's user with the body's fields |
| PrivacyManager.RowsOf | supabase/functions/privacy-manager/index.ts:41-45 | the caller's settings rows and no others, each as often as it is stored |
| PrivacyManager.GetSettingsOf | supabase/functions/privacy-manager/index.ts:40-57 | exactly one row of the caller's is answered; zero or several answer 400 |
| PrivacyManager.UpdateSettingsOf | supabase/functions/privacy-manager/index.ts:59-75 | a refused patch or store failure answers 400 and changes nothing; otherwise the caller's rows are patched |
| PrivacyManager.ConnectVpnFor | supabase/functions/privacy-manager/index.ts:77-99 | exactly one session is appended and every existing one, active or not, is left as it was |
| PrivacyManager.DisconnectVpnFor | supabase/functions/privacy-manager/index.ts:101-121 | the sessions become the disconnected update |
| PrivacyManager.UploadSecureFileFor | supabase/functions/privacy-manager/index.ts:123-150 | one vault record is appended, or 400 and nothing changes |
| PrivacyManager.HandleRequest | supabase/functions/privacy-manager/index.ts:10-174 | end to end: each action touches at most its own table; `get-blocklist` answers the same six domains whatever the caller or state; every failure is 400, 401 or 500 |
| UseThreatDetection.Critical | src/hooks/useThreatDetection.tsx:83-87 | exactly the patterns of severity at least 8 |
| UseThreatDetection.CriticalDistributes | src/hooks/useThreatDetection.tsx:83-87 | the filter of a concatenation is the concatenation of the filters, so critical patterns keep their order |
| UseThreatDetection.CriticalAlerts | src/hooks/useThreatDetection.tsx:83-87 | one alert per critical pattern, in order, each with that pattern's description |
| UseThreatDetection.NoAlertWithoutCritical | src/hooks/useThreatDetection.tsx:83-87 | no alert iff every pattern is below 8 |
| UseThreatDetection.Dispatch | src/hooks/useThreatDetection.tsx:67-90 | `threat_detected` and `new_threats` trigger exactly one refetch; `threat_patterns` raises the critical alerts; `auth_success`, `auth_error` and `error` do nothing |
| UseThreatDetection.OnlyMalwareClusterAlerts | src/hooks/useThreatDetection.tsx:82-87 | with the server's patterns, `malware_cluster` alerts and `high_activity` never does |
| UseThreatDetection.ClientSeverity | src/hooks/useThreatDetection.tsx:105 | the report severity is the data's own when truthy and 5 otherwise, so always truthy |
| UseThreatDetection.ReportedSeverityIsClients | src/hooks/useThreatDetection.tsx:99-106 | a report sent by the hook is always stored with the client's severity, never the server's score |
| UseThreatDetection.AlertTexts | src/hooks/useThreatDetection.tsx:85 | one toast per alert, carrying that alert's description |
| UseThreatDetection.PatternToasts | src/hooks/useThreatDetection.tsx:83-87 | a `threat_patterns` frame raises exactly the critical patterns' descriptions, in order |
| UseThreatDetection.ThreatDetectionHook.OnSession | src/hooks/useThreatDetection.tsx:22-26 | with a session one fetch and a socket; without, nothing |
| UseThreatDetection.ThreatDetectionHook.OnSocketOpen | src/hooks/useThreatDetection.tsx:60-65 | the socket sends the auth frame with the access token |
| UseThreatDetection.ThreatDetectionHook.OnSocketMessage | src/hooks/useThreatDetection.tsx:67-90 | the dispatcher's refetch becomes one `get-threats` call; its alerts are raised in order |
| UseThreatDetection.ThreatDetectionHook.FetchCompleted | src/hooks/useThreatDetection.tsx:35-52 | on success `threats` becomes the returned list when truthy and `[]` otherwise; a failed call or a null `data` leaves it unchanged; loading ends either way |
| UseThreatDetection.ThreatDetectionHook.ReportThreat | src/hooks/useThreatDetection.tsx:99-122 | one report call, then a refetch only on success; null data throws before any call |
| UseThreatDetection.ThreatDetectionHook.ResolveThreat | src/hooks/useThreatDetection.tsx:124-140 | one resolve call, then a refetch only on success |
| UseThreatDetection.ThreatDetectionHook.ScanFile | src/hooks/useThreatDetection.tsx:142-145 | one scan call and no refetch |
| UseThreatDetection.NoSessionNoTraffic | src/hooks/useThreatDetection.tsx:23-26 | without a session nothing is fetched and no socket is opened |
| UseThreatDetection.FirstFrameAuthenticates | src/hooks/useThreatDetection.tsx:60-65 | the first frame on the socket is `{type: 'auth', token}` |
| UseThreatDetection.FailedFetchEndsLoading | src/hooks/useThreatDetection.tsx:46-51 | a failed first fetch leaves the list empty and ends loading |
| ThreatMonitor.SeverityColor | src/components/ThreatMonitor.tsx:14-18 | at least 8 is `destructive`, 5 to 7 `secondary`, below 5 `default` (null counts as 0) |
| ThreatMonitor.SeverityIcon | src/components/ThreatMonitor.tsx:20-24 | the icon uses the same thresholds |
| ThreatMonitor.IconMatchesColor | src/components/ThreatMonitor.tsx:14-24 | icon and colour always agree |
| ThreatMonitor.BandMonotone | src/components/ThreatMonitor.tsx:15-17 | a higher severity never maps to a milder band |
| ThreatMonitor.StatusBadge | src/components/ThreatMonitor.tsx:94 | the status badge is `destructive` iff the threat is active |
| ThreatMonitor.TypeLabel | src/components/ThreatMonitor.tsx:88 | the label has the stored name's length |
| ThreatMonitor.TypeLabelClears | src/components/ThreatMonitor.tsx:88 | no underscore remains when the stored name had at most one |
| ThreatMonitor.SecondUnderscoreSurvives | src/components/ThreatMonitor.tsx:88 | `replace('_', ' ')` replaces only the first underscore: `a_b_c` keeps its second one |
| ThreatMonitor.FirstUnderscore | src/components/ThreatMonitor.tsx:88 | in `head + "_" + tail` with no underscore in `head`, that underscore becomes a space and both sides are kept, so `suspicious_activity` reads "suspicious activity" |
| ThreatMonitor.TwoWords | src/components/ThreatMonitor.tsx:88 | two underscore-free words joined by `_` contain exactly that one underscore |
| ThreatMonitor.EnumLabelsClean | src/components/ThreatMonitor.tsx:88 | every `threat_type` value has at most one underscore |
| ThreatMonitor.CardOf | src/components/ThreatMonitor.tsx:88 | no card's type label contains an underscore |
| ThreatMonitor.Render | src/components/ThreatMonitor.tsx:45-133 | loading shows the skeleton; "All Clear" iff the list is empty; otherwise one card per threat, in order, with that threat's severity colour and icon, its type label, and a resolve action iff active |
| SecurityProvider.SecurityState.constructor | src/components/SecurityProvider.tsx:19-23 | battery 85, low-power off, threat level low, never scanned, VPN off |
| SecurityProvider.SecurityState.SetBatteryLevel | src/components/SecurityProvider.tsx:35-39 | a change to a level below 15 forces low-power on; anything else leaves the mode as it was |
| SecurityProvider.SecurityState.ToggleLowPowerMode | src/components/SecurityProvider.tsx:30-32 | the mode flips and nothing else changes |
| SecurityProvider.SecurityState.SetVpnActive | src/components/SecurityProvider.tsx:23-49 | only the VPN flag changes |
| SecurityProvider.SecurityState.RunQuickScan | src/components/SecurityProvider.tsx:25-28 | only the last-scan time changes |
| SecurityProvider.LowPowerCanBeOffAtLowBattery | src/components/SecurityProvider.tsx:30-39 | low-power toggled off below 15 stays off when the same level is set again, and comes back on when the level changes to another value below 15 |
| SecurityProvider.ThreatLevelStaysLow | src/components/SecurityProvider.tsx:21-52 | any sequence of battery changes, toggles, VPN changes and scans, in any order, leaves the threat level low |
| Dashboard.BatteryColor | src/components/Dashboard.tsx:12-16 | below 15 red, 15 to 29 yellow, 30 and above green |
| Dashboard.BatteryColorMonotone | src/components/Dashboard.tsx:13-15 | more battery never gives a worse colour |
| Dashboard.ThreatColor | src/components/Dashboard.tsx:18-24 | high red, medium yellow, low green |
| Dashboard.LastScanHeadline | src/components/Dashboard.tsx:73 | "Never" iff never scanned, "Today" otherwise |
| Dashboard.Render | src/components/Dashboard.tsx:26-77 | the battery tone is the battery band (red below 15, yellow below 30, green otherwise) and the threat-level tone its colour; the low-power notice iff low-power mode; the VPN shown iff active; the scan headline per scan |
| Dashboard.RedBatteryShowsLowPower | src/components/Dashboard.tsx:13-49 | after any battery level is set on a fresh provider, the red band and the low-power notice go together |
| Dashboard.ScanHeadlines | src/components/Dashboard.tsx:73 | "Never" before the first scan and "Today" after it |
| SafeZone.SafeZonePage.constructor | src/components/pages/SafeZonePage.tsx:9-12 | all four flags start off |
| SafeZone.SafeZonePage.ActivateEmergencyMode | src/components/pages/SafeZonePage.tsx:14-20 | emergency, kill switch, lockdown and isolation all on |
| SafeZone.SafeZonePage.PressEmergencyButton | src/components/pages/SafeZonePage.tsx:49-52 | the button acts only outside emergency mode |
| SafeZone.SafeZonePage.SetKillSwitch | src/components/pages/SafeZonePage.tsx:78-81 | only the kill switch changes |
| SafeZone.SafeZonePage.SetDeviceLocked | src/components/pages/SafeZonePage.tsx:99-102 | only the lockdown flag changes |
| SafeZone.SafeZonePage.SetNetworkIsolated | src/components/pages/SafeZonePage.tsx:120-123 | only the isolation flag changes |
| SafeZone.SafeZonePage.ResponseIndicator | src/components/pages/SafeZonePage.tsx:176 | the indicator is red iff emergency mode is on |
| SafeZone.EmergencyIsOneWay | src/components/pages/SafeZonePage.tsx:12-20 | after any presses, emergency mode is on iff the button was ever pressed, and the indicator is red exactly then |
| SafeZone.SwitchAfterEmergency | src/components/pages/SafeZonePage.tsx:78-81 | a switch can turn a protection off during emergency mode |
| Antivirus.AntivirusPage.constructor | src/components/pages/AntivirusPage.tsx:11-15 | not scanning, progress 0, no type, empty link, no timer |
| Antivirus.AntivirusPage.StartScan | src/components/pages/AntivirusPage.tsx:17-22 | sets the type, starts scanning from 0 with one timer |
| Antivirus.AntivirusPage.Tick | src/components/pages/AntivirusPage.tsx:22-32 | below 100 adds 10; at 100 stops the timer, ends scanning and records a quick scan; progress stays a multiple of 10 in [0,100] |
| Antivirus.AntivirusPage.SetLink | src/components/pages/AntivirusPage.tsx:155 | the link input holds the typed text |
| Antivirus.AntivirusPage.CheckLink | src/components/pages/AntivirusPage.tsx:35-40 | a non-empty link is checked once; an empty link is not checked |
| Antivirus.WholeScan | src/components/pages/AntivirusPage.tsx:17-32 | a scan finishes on the 11th tick at 100, not scanning, with the scan time recorded |
| Antivirus.ClicksCheckLink | src/components/pages/AntivirusPage.tsx:35-158 | a typed link is checked once per click, in order; an empty link is never checked |
| UsePrivacySettings.SettingNameInjective | src/integrations/supabase/types.ts:57-67 | distinct settings have distinct column names |
| UsePrivacySettings.PatchJson | src/hooks/usePrivacySettings.tsx:48-50 | the partial settings are sent as one boolean member per supplied setting |
| UsePrivacySettings.PatchRoundTrip | src/hooks/usePrivacySettings.tsx:48-50 | the edge function reads back exactly the settings the client sent |
| UsePrivacySettings.Merge | src/hooks/usePrivacySettings.tsx:56 | supplied keys are overwritten, all others keep their values |
| UsePrivacySettings.MergeMatchesServer | src/hooks/usePrivacySettings.tsx:56 | the client merge equals the server's update of the row |
| UsePrivacySettings.PrivacySettingsHook.OnSession | src/hooks/usePrivacySettings.tsx:21-25 | fetch only with a session |
| UsePrivacySettings.PrivacySettingsHook.FetchCompleted | src/hooks/usePrivacySettings.tsx:27-44 | success sets the settings, failure keeps them; loading ends either way |
| UsePrivacySettings.PrivacySettingsHook.UpdateSettings | src/hooks/usePrivacySettings.tsx:46-62 | on success the settings are merged, null stays null; on failure unchanged |
| UsePrivacySettings.PrivacySettingsHook.ConnectVpn | src/hooks/usePrivacySettings.tsx:64-80 | the location defaults to "US-East"; the flag turns on only on success |
| UsePrivacySettings.PrivacySettingsHook.DisconnectVpn | src/hooks/usePrivacySettings.tsx:82-98 | the flag turns off only on success |
| UsePrivacySettings.LastSuccess | src/hooks/usePrivacySettings.tsx:70-97 | the VPN flag is the outcome of the last successful call, whatever failed after it, or its initial value when none succeeded |
| UsePrivacySettings.VpnFlagFollowsLastSuccess | src/hooks/usePrivacySettings.tsx:70-97 | over any run of connect and disconnect calls, the flag follows the last successful one |
| UsePrivacySettings.UpdateBeforeFetch | src/hooks/usePrivacySettings.tsx:56 | before the first fetch an update leaves the settings null |

## Left out

- HTTP and socket transport are not modelled: `serve`, CORS preflight and headers, the WebSocket upgrade and framing. Sends are appends to an outbox.
- `createClient` and `auth.getUser` are not modelled. Token lookup is a partial map; the store's error message text is represented by a `StoreError` value.
- Clocks and timers are parameters: `Date.now`, ISO timestamp strings, the 30 s and 200 ms intervals. Ticks are explicit calls; time is integer milliseconds.
- Await interleavings are not modelled. Each socket message, tick and hook callback is handled atomically. This includes a close that lands while an `auth` lookup is pending, which would start a timer after the close.
- Concurrency between sockets or requests is not modelled. Each connection is independent.
- Toasts, `console` output and JSX layout beyond the decisions listed in the table are not modelled.
- Numbers are integers only. Floating-point severities and scores are not represented.
- Numeric strings are not coerced into numeric columns. A string severity is refused as a type error.
- `created_at` is never null: the store sets it to the insert time. Rows with a null `created_at` are not modelled.
- `ThreatDetection.ThreatsPage`: the order of rows with equal `created_at` is left open, where the store fixes one.
- Column defaults other than `threat_status` are not modelled: `updated_at`, `connected_at`, `bytes_transferred`, `is_deleted`. The `threat_status` default is a parameter of `ThreatDb`.
- The `security_audit` insert in report-threat is assumed to succeed. The source ignores its result, so a failed audit write is not modelled.
- PrivacyManager.ParsePatch: the source forwards the client's `settings` object to `.update()` unchanged, and the table also has `id`, `user_id`, `created_at` and `updated_at` columns. The model refuses any member that is not one of the five setting columns with 400, including these four real columns. A request naming them is not modelled as the source runs it, where it would rewrite those columns. Non-object `settings` are refused as a whole.
- PrivacyManager.UpdateSettingsRows: "owner and id unchanged" holds because the patch can only name settings. It is not a guarantee of the program, where a `user_id` member moves the caller's row to another user.
- PrivacyManager.UpdateSettingsOf: answers 400 for a `settings` object naming a non-setting column, where the source applies it.
- `PrivacyManager.NewSecureFile` checks only that `file_name` is a string. The types of `file_size` and `mime_type` are passed through unchecked.
- `encryptFile` is not modelled: its SHA-256 digest and random UUID are the `keyHash` and `storagePath` parameters.
- The `scanFileWithVirusTotal` placeholder is a constant (`ThreatDetection.ScanFileStub`).
- `uploadSecureFile` and `getBlocklist` in the privacy hook are not modelled. They only forward the call and return the data.
- The `ThreatMonitor` quick-scan button is not modelled: its toast and `scanning` flag are UI only.
- The `capitalize` CSS class on the type label is not modelled; it is presentation only. The label is the text after `replace`.
- React effect scheduling is not modelled: double-invoked updaters under StrictMode, and the cleanup closure of the socket effect.
- `UseThreatDetection.ThreatDetectionHook.FetchCompleted`: the returned `threats` value is kept as JSON. Its rows are not checked against the row type.
