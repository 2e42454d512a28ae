/**
 * The tables and enums of the hosted store, as the generated declarations in
 * src/integrations/supabase/types.ts describe them. Only the columns that the edge
 * functions and hooks read or write are kept.
 */
module Schema {
  import opened Js

  /** The identity provider's user ids are UUIDs, so never the empty (falsy) string. */
  type UserId = s: string | s != "" witness "user"

  datatype ThreatType = Malware | Phishing | SuspiciousActivity | NetworkAnomaly

  datatype ThreatStatus = Active | Resolved | Investigating

  /** The label the store uses for each `threat_type` enum value. */
  function ThreatTypeName(t: ThreatType): string {
    match t
    case Malware => "malware"
    case Phishing => "phishing"
    case SuspiciousActivity => "suspicious_activity"
    case NetworkAnomaly => "network_anomaly"
  }

  /** How the store reads a JSON value written into the `threat_type` column. */
  function ParseThreatType(v: Option<Json>): (r: Option<ThreatType>)
    ensures r.Some? ==> v == Some(JStr(ThreatTypeName(r.value)))
    ensures forall t :: v == Some(JStr(ThreatTypeName(t))) ==> r == Some(t)
  {
    if v == Some(JStr("malware")) then Some(Malware)
    else if v == Some(JStr("phishing")) then Some(Phishing)
    else if v == Some(JStr("suspicious_activity")) then Some(SuspiciousActivity)
    else if v == Some(JStr("network_anomaly")) then Some(NetworkAnomaly)
    else None
  }

  /** A row of `threat_logs`. Nullable columns are `Option`s; times are milliseconds. */
  datatype ThreatRow = ThreatRow(
    id: string,
    userId: Option<UserId>,
    threatType: ThreatType,
    threatData: Json,
    severityLevel: Option<int>,
    status: Option<ThreatStatus>,
    createdAt: int,
    resolvedAt: Option<int>,
    sourceIp: Option<string>,
    deviceFingerprint: Option<Json>)

  /** A row of `security_audit` as the threat-report path writes it. */
  datatype AuditEntry = AuditEntry(
    userId: UserId,
    eventType: string,
    threatId: string,
    threatType: Option<Json>,
    severity: Json)

  /** The five boolean columns of `privacy_settings`. */
  datatype Setting =
    | VpnEnabled
    | AdBlockerEnabled
    | TrackerBlockerEnabled
    | SecureDnsEnabled
    | DataCollectionConsent

  function SettingName(s: Setting): string {
    match s
    case VpnEnabled => "vpn_enabled"
    case AdBlockerEnabled => "ad_blocker_enabled"
    case TrackerBlockerEnabled => "tracker_blocker_enabled"
    case SecureDnsEnabled => "secure_dns_enabled"
    case DataCollectionConsent => "data_collection_consent"
  }

  /** The five boolean columns of `privacy_settings`. */
  const ColumnNames: set<string> :=
    {"vpn_enabled", "ad_blocker_enabled", "tracker_blocker_enabled", "secure_dns_enabled", "data_collection_consent"}

  function SettingNamed(name: string): (r: Option<Setting>)
    ensures r.Some? ==> SettingName(r.value) == name
    ensures forall s :: SettingName(s) == name ==> r == Some(s)
  {
    if name == "vpn_enabled" then Some(VpnEnabled)
    else if name == "ad_blocker_enabled" then Some(AdBlockerEnabled)
    else if name == "tracker_blocker_enabled" then Some(TrackerBlockerEnabled)
    else if name == "secure_dns_enabled" then Some(SecureDnsEnabled)
    else if name == "data_collection_consent" then Some(DataCollectionConsent)
    else None
  }

  /**
   * Values of the settings columns, or the keys of a partial settings object. A
   * column that is absent from the map is NULL (or, in a patch, not supplied).
   */
  type Settings = map<Setting, bool>

  /** A row of `privacy_settings`. */
  datatype PrivacyRow = PrivacyRow(id: string, userId: Option<UserId>, values: Settings)

  /** A row of `vpn_sessions`. */
  datatype VpnSession = VpnSession(
    id: string,
    userId: Option<UserId>,
    serverLocation: string,
    isActive: Option<bool>,
    disconnectedAt: Option<int>)

  /** A row of `secure_files`. */
  datatype SecureFile = SecureFile(
    id: string,
    userId: UserId,
    fileName: Option<Json>,
    fileSize: Option<Json>,
    mimeType: Option<Json>,
    keyHash: string,
    storagePath: string)

  /** Why the store refused a call. Its message text is the store's own. */
  datatype StoreError =
    | Unavailable(message: string)  // the store or the network failed the call
    | Violation(column: string)     // the written value broke the column's type or NOT NULL constraint
    | NotSingle                     // `.single()` matched zero rows or several
}
