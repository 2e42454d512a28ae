/**
 * The hosted store reduced to in-memory tables: each table is a sequence of rows
 * that the edge functions insert into and update in place. Queries are the
 * equality and lower-bound filters the sources chain with `.eq` and `.gte`.
 */
module Store {
  import opened Js
  import opened Schema

  /** One `.eq(...)` or `.gte(...)` filter over `threat_logs`. */
  datatype Filter =
    | UserIs(user: UserId)
    | StatusIs(status: ThreatStatus)
    | IdIs(id: string)
    | CreatedSince(since: int)

  predicate Matches(row: ThreatRow, f: Filter) {
    match f
    case UserIs(u) => row.userId == Some(u)
    case StatusIs(s) => row.status == Some(s)
    case IdIs(id) => row.id == id
    case CreatedSince(t) => row.createdAt >= t
  }

  predicate MatchesAll(row: ThreatRow, fs: seq<Filter>) {
    forall i :: 0 <= i < |fs| ==> Matches(row, fs[i])
  }

  /** `select('*')` with the filters `fs`: the matching rows, in table order, each as often as stored. */
  function Select(rows: seq<ThreatRow>, fs: seq<Filter>): (r: seq<ThreatRow>)
    ensures |r| <= |rows|
    ensures forall x :: multiset(r)[x] == if MatchesAll(x, fs) then multiset(rows)[x] else 0
    ensures forall x :: x in r ==> x in rows && MatchesAll(x, fs)
  {
    if rows == [] then []
    else
      assert rows == [rows[0]] + rows[1..];
      (if MatchesAll(rows[0], fs) then [rows[0]] else []) + Select(rows[1..], fs)
  }

  /** The `severity_level` column read from a JSON value: a number, NULL, or a type error. */
  function SeverityColumn(v: Json): (r: Result<Option<int>, StoreError>)
    ensures v.JNum? ==> r == Ok(Some(v.n))
    ensures v.JNull? <==> r == Ok(None)
    ensures r.Err? <==> !v.JNum? && !v.JNull?
  {
    match v
    case JNum(n) => Ok(Some(n))
    case JNull => Ok(None)
    case _ => Err(Violation("severity_level"))
  }

  /**
   * The row the store builds for an insert into `threat_logs`, or the constraint it
   * rejects: `threat_type` must be an enum label, `threat_data` is NOT NULL and
   * `severity_level` is numeric. The store fills in `id`, `created_at` and the
   * status default.
   */
  function NewThreatRow(
    id: string, user: UserId, kind: Option<Json>, data: Option<Json>, severity: Json,
    now: int, status: Option<ThreatStatus>, sourceIp: Option<string>,
    fingerprint: Option<Json>): (r: Result<ThreatRow, StoreError>)
    ensures r.Ok? <==>
      ParseThreatType(kind).Some? && data.Some? && data.value != JNull && SeverityColumn(severity).Ok?
    ensures r.Ok? ==>
      && r.value.id == id
      && r.value.userId == Some(user)
      && ThreatTypeName(r.value.threatType) == kind.value.s
      && r.value.threatData == data.value
      && SeverityColumn(severity) == Ok(r.value.severityLevel)
      && r.value.status == status
      && r.value.createdAt == now
      && r.value.resolvedAt == None
      && r.value.sourceIp == sourceIp
      && r.value.deviceFingerprint == fingerprint
  {
    match ParseThreatType(kind)
    case None => Err(Violation("threat_type"))
    case Some(t) =>
      if data.None? || data.value == JNull then Err(Violation("threat_data"))
      else
        match SeverityColumn(severity)
        case Err(e) => Err(e)
        case Ok(level) =>
          Ok(ThreatRow(id, Some(user), t, data.value, level, status, now, None, sourceIp, fingerprint))
  }

  /** The `threat_logs` and `security_audit` tables. */
  class ThreatDb {
    var threats: seq<ThreatRow>
    var audit: seq<AuditEntry>
    /** The column default the store gives `threat_status` on insert. */
    const defaultStatus: Option<ThreatStatus>

    constructor (defaultStatus: Option<ThreatStatus>)
      ensures threats == [] && audit == [] && this.defaultStatus == defaultStatus
    {
      threats := [];
      audit := [];
      this.defaultStatus := defaultStatus;
    }

    method InsertThreat(row: ThreatRow)
      modifies this`threats
      ensures threats == old(threats) + [row]
    {
      threats := threats + [row];
    }

    method InsertAudit(entry: AuditEntry)
      modifies this`audit
      ensures audit == old(audit) + [entry]
    {
      audit := audit + [entry];
    }
  }

  /** The `privacy_settings`, `vpn_sessions` and `secure_files` tables. */
  class PrivacyDb {
    var settings: seq<PrivacyRow>
    var sessions: seq<VpnSession>
    var files: seq<SecureFile>

    constructor (settings: seq<PrivacyRow>)
      ensures this.settings == settings && sessions == [] && files == []
    {
      this.settings := settings;
      sessions := [];
      files := [];
    }
  }
}
