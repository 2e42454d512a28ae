/**
 * The `threat-detection` edge function: report a threat with an advisory score,
 * list the caller's threats newest first, resolve one of them, or run the file-scan
 * placeholder. All actions pass the shared gate first.
 */
module ThreatDetection {
  import opened Js
  import opened Schema
  import opened Store
  import opened Edge

  const MaxScore := 10
  const PageSize := 50

  // ---------------------------------------------------------------------------
  // Report-time scoring

  /** Base 1, +5 for malware, +4 for phishing, +3 and +2 for the two flags, at most 10. */
  function Score(kind: Option<Json>, suspiciousNetwork: bool, unknownSource: bool): (score: int)
    ensures 1 <= score <= MaxScore
  {
    var raw := 1
      + (if kind == Some(JStr("malware")) then 5 else 0)
      + (if kind == Some(JStr("phishing")) then 4 else 0)
      + (if suspiciousNetwork then 3 else 0)
      + (if unknownSource then 2 else 0);
    if raw < MaxScore then raw else MaxScore
  }

  /** `analyzeThreat`: the score of a non-null `threatData` object, read through JS truthiness. */
  function AnalyzeThreat(threatData: Json): (score: int)
    ensures 1 <= score <= MaxScore
  {
    Score(Field(threatData, "type"),
          Truthy(Field(threatData, "suspicious_network_activity")),
          Truthy(Field(threatData, "unknown_source")))
  }

  /** Without flags: 6 for malware, 5 for phishing, 1 for the other two types. */
  lemma ScoreWithoutFlags(t: ThreatType)
    ensures Score(Some(JStr(ThreatTypeName(t))), false, false)
      == match t
         case Malware => 6
         case Phishing => 5
         case SuspiciousActivity => 1
         case NetworkAnomaly => 1
  {
  }

  /** Both flags: malware would reach 11 and is clamped to 10; phishing reaches exactly 10. */
  lemma ScoreWithBothFlags()
    ensures Score(Some(JStr("malware")), true, true) == MaxScore
    ensures Score(Some(JStr("phishing")), true, true) == MaxScore
    ensures 1 + 5 + 3 + 2 > MaxScore && 1 + 4 + 3 + 2 == MaxScore
  {
  }

  /** Raising a flag never lowers the score. */
  lemma ScoreMonotoneInFlags(kind: Option<Json>, n1: bool, u1: bool, n2: bool, u2: bool)
    requires n1 ==> n2
    requires u1 ==> u2
    ensures Score(kind, n1, u1) <= Score(kind, n2, u2)
  {
  }

  /** `severity || threatScore`: the caller's severity when truthy, unvalidated; the score otherwise. */
  function StoredSeverity(severity: Option<Json>, score: int): (v: Json)
    ensures Truthy(severity) ==> Some(v) == severity
    ensures !Truthy(severity) ==> v == JNum(score)
  {
    Or(severity, JNum(score))
  }

  // ---------------------------------------------------------------------------
  // get-threats: the caller's rows, newest first, at most 50

  ghost predicate NewestFirst(s: seq<ThreatRow>) {
    forall i, j :: 0 <= i < j < |s| ==> s[i].createdAt >= s[j].createdAt
  }

  /** A row no older than every row of a newest-first list can go in front of it. */
  lemma {:induction false} ConsNewestFirst(x: ThreatRow, rest: seq<ThreatRow>)
    requires NewestFirst(rest)
    requires forall y :: y in rest ==> x.createdAt >= y.createdAt
    ensures NewestFirst([x] + rest)
  {
    var r := [x] + rest;
    forall i, j | 0 <= i < j < |r| ensures r[i].createdAt >= r[j].createdAt {
      assert r[j] == rest[j - 1];
      if i == 0 {
        assert rest[j - 1] in rest;
      } else {
        assert r[i] == rest[i - 1];
      }
    }
  }

  /** The head of a newest-first list is no older than its tail, which is newest first too. */
  lemma {:induction false} TailOfNewestFirst(s: seq<ThreatRow>)
    requires NewestFirst(s) && s != []
    ensures NewestFirst(s[1..])
    ensures forall y :: y in s ==> s[0].createdAt >= y.createdAt
  {
    forall i, j | 0 <= i < j < |s[1..]| ensures s[1..][i].createdAt >= s[1..][j].createdAt {
      assert s[1..][i] == s[i + 1] && s[1..][j] == s[j + 1];
    }
    forall y | y in s ensures s[0].createdAt >= y.createdAt {
      var j :| 0 <= j < |s| && s[j] == y;
    }
  }

  /** A row no older than the head of a newest-first list can go in front of it. */
  lemma {:induction false} FrontOfNewestFirst(x: ThreatRow, s: seq<ThreatRow>)
    requires NewestFirst(s)
    requires s == [] || x.createdAt >= s[0].createdAt
    ensures NewestFirst([x] + s)
  {
    if s != [] {
      TailOfNewestFirst(s);
    }
    ConsNewestFirst(x, s);
  }

  /** The head of the list stays in front of the tail after `x` was inserted into it. */
  lemma {:induction false} HeadOverInserted(s: seq<ThreatRow>, x: ThreatRow, rest: seq<ThreatRow>)
    requires NewestFirst(s) && s != [] && s[0].createdAt >= x.createdAt
    requires NewestFirst(rest)
    requires multiset(rest) == multiset(s[1..]) + multiset{x}
    ensures NewestFirst([s[0]] + rest)
    ensures multiset([s[0]] + rest) == multiset(s) + multiset{x}
  {
    TailOfNewestFirst(s);
    forall y | y in rest ensures s[0].createdAt >= y.createdAt {
      assert y in multiset(rest);
      if y != x {
        assert y in s[1..];
      }
    }
    ConsNewestFirst(s[0], rest);
    assert s == [s[0]] + s[1..];
  }

  function InsertByNewest(x: ThreatRow, s: seq<ThreatRow>): (r: seq<ThreatRow>)
    requires NewestFirst(s)
    ensures NewestFirst(r)
    ensures multiset(r) == multiset(s) + multiset{x}
    ensures |r| == |s| + 1
  {
    if s == [] || x.createdAt >= s[0].createdAt then
      FrontOfNewestFirst(x, s);
      [x] + s
    else
      TailOfNewestFirst(s);
      var rest := InsertByNewest(x, s[1..]);
      HeadOverInserted(s, x, rest);
      [s[0]] + rest
  }

  /** `order('created_at', { ascending: false })` as an insertion sort. */
  function SortNewestFirst(s: seq<ThreatRow>): (r: seq<ThreatRow>)
    ensures NewestFirst(r)
    ensures multiset(r) == multiset(s)
    ensures |r| == |s|
  {
    if s == [] then []
    else
      assert s == [s[0]] + s[1..];
      InsertByNewest(s[0], SortNewestFirst(s[1..]))
  }

  function Min(a: int, b: int): int {
    if a < b then a else b
  }

  /** What a prefix leaves out of a list is the rest of the list. */
  lemma {:induction false} DroppedIsSuffix(sorted: seq<ThreatRow>, k: nat)
    requires k <= |sorted|
    ensures multiset(sorted) - multiset(sorted[..k]) == multiset(sorted[k..])
  {
    assert sorted == sorted[..k] + sorted[k..];
  }

  /** Every row left out of a prefix of a newest-first list is no newer than any row kept. */
  lemma {:induction false} DroppedAreOlder(sorted: seq<ThreatRow>, k: nat)
    requires NewestFirst(sorted)
    requires k <= |sorted|
    ensures forall x :: x in multiset(sorted) - multiset(sorted[..k]) ==>
      forall y :: y in sorted[..k] ==> x.createdAt <= y.createdAt
  {
    DroppedIsSuffix(sorted, k);
    forall x: ThreatRow, y: ThreatRow | x in sorted[k..] && y in sorted[..k] ensures x.createdAt <= y.createdAt {
      var j :| k <= j < |sorted| && sorted[j] == x;
      var i :| 0 <= i < k && sorted[i] == y;
    }
  }

  /** A prefix of a newest-first list is newest first and a sub-multiset of the list. */
  lemma {:induction false} PrefixOfNewestFirst(sorted: seq<ThreatRow>, k: nat)
    requires NewestFirst(sorted)
    requires k <= |sorted|
    ensures NewestFirst(sorted[..k])
    ensures multiset(sorted[..k]) <= multiset(sorted)
  {
    assert sorted == sorted[..k] + sorted[k..];
  }

  /** The rows of `user`, as the first filter of get-threats selects them. */
  lemma OwnedRows(rows: seq<ThreatRow>, user: UserId)
    ensures forall x :: x in multiset(Select(rows, [UserIs(user)])) ==> x in rows && x.userId == Some(user)
  {
    forall x | x in multiset(Select(rows, [UserIs(user)])) ensures x in rows && x.userId == Some(user) {
      assert Matches(x, [UserIs(user)][0]);
    }
  }

  /** The `threats` the get-threats action returns for `user`. */
  function ThreatsPage(rows: seq<ThreatRow>, user: UserId): (page: seq<ThreatRow>)
    ensures |page| == Min(PageSize, |Select(rows, [UserIs(user)])|)
    ensures forall x :: x in page ==> x in rows && x.userId == Some(user)
    ensures NewestFirst(page)
    ensures multiset(page) <= multiset(Select(rows, [UserIs(user)]))
    ensures forall x :: x in multiset(Select(rows, [UserIs(user)])) - multiset(page) ==>
      forall y :: y in page ==> x.createdAt <= y.createdAt
  {
    var mine := Select(rows, [UserIs(user)]);
    var sorted := SortNewestFirst(mine);
    var k := Min(PageSize, |sorted|);
    PrefixOfNewestFirst(sorted, k);
    DroppedAreOlder(sorted, k);
    OwnedRows(rows, user);
    assert forall x :: x in sorted[..k] ==> x in multiset(mine);
    sorted[..k]
  }

  /** Every row of `user` is listed whenever the user has at most 50 of them. */
  lemma PageIsCompleteWhenSmall(rows: seq<ThreatRow>, user: UserId)
    requires |Select(rows, [UserIs(user)])| <= PageSize
    ensures multiset(ThreatsPage(rows, user)) == multiset(Select(rows, [UserIs(user)]))
  {
    var mine := Select(rows, [UserIs(user)]);
    var page := ThreatsPage(rows, user);
    assert |multiset(page)| == |multiset(mine)|;
    assert multiset(mine) == multiset(page) + (multiset(mine) - multiset(page));
  }

  // ---------------------------------------------------------------------------
  // resolve-threat: a filtered update of the caller's row with that id

  function MarkResolved(row: ThreatRow, now: int): ThreatRow {
    row.(status := Some(Resolved), resolvedAt := Some(now))
  }

  /** `update({threat_status: 'resolved', resolved_at: now}).eq('id', id).eq('user_id', user)`. */
  function ResolveRows(rows: seq<ThreatRow>, id: string, user: UserId, now: int): (r: seq<ThreatRow>)
    ensures |r| == |rows|
    ensures forall i :: 0 <= i < |rows| ==>
      r[i] == if rows[i].id == id && rows[i].userId == Some(user) then MarkResolved(rows[i], now) else rows[i]
  {
    if rows == [] then []
    else
      var head := if rows[0].id == id && rows[0].userId == Some(user) then MarkResolved(rows[0], now) else rows[0];
      [head] + ResolveRows(rows[1..], id, user, now)
  }

  /** Resolving never changes which rows exist, their owners, ids or any column but the two it sets. */
  lemma ResolveKeepsIdentity(rows: seq<ThreatRow>, id: string, user: UserId, now: int, i: nat)
    requires i < |rows|
    ensures var r := ResolveRows(rows, id, user, now);
      r[i].(status := rows[i].status, resolvedAt := rows[i].resolvedAt) == rows[i]
  {
  }

  /** Resolving the same threat twice leaves what the second call wrote. */
  lemma ResolveTwice(rows: seq<ThreatRow>, id: string, user: UserId, t1: int, t2: int)
    ensures ResolveRows(ResolveRows(rows, id, user, t1), id, user, t2) == ResolveRows(rows, id, user, t2)
  {
    var once := ResolveRows(rows, id, user, t1);
    var a := ResolveRows(once, id, user, t2);
    var b := ResolveRows(rows, id, user, t2);
    forall i | 0 <= i < |rows| ensures a[i] == b[i] {
      assert once[i].id == rows[i].id && once[i].userId == rows[i].userId;
    }
  }

  // ---------------------------------------------------------------------------
  // The action switch

  /** The fixed answer of `scanFileWithVirusTotal`. */
  datatype ScanResult = ScanResult(hash: Option<Json>, malicious: bool, scanned: bool, engines: int, detections: int)

  function ScanFileStub(hash: Option<Json>): ScanResult {
    ScanResult(hash, false, true, 70, 0)
  }

  datatype Action =
    | ReportAction(user: UserId, threatData: Json, severity: Option<Json>)
    | ListAction(user: UserId)
    | ResolveAction(user: UserId, threatId: Option<Json>)
    | ScanAction(user: UserId, fileHash: Option<Json>)

  datatype Routed = Rejected(response: Response<ThreatBody>) | Run(action: Action)

  datatype ThreatBody =
    | Reported(threat: ThreatRow, riskScore: int)
    | Threats(threats: seq<ThreatRow>)
    | Success
    | Scanned(scanResult: ScanResult)

  const Actions: set<Option<Json>> :=
    {Some(JStr("report-threat")), Some(JStr("get-threats")), Some(JStr("resolve-threat")), Some(JStr("scan-file"))}

  /**
   * The action switch after the gate. `threatData` is dereferenced by the report and
   * scan branches, so a missing or null one throws there and ends in the 500 answer.
   */
  function Route(g: Gate): (r: Routed)
    ensures !g.Admitted? ==> r == Rejected(GateResponse(g))
    ensures g.Admitted? && Field(g.body, "action") !in Actions ==> r == Rejected(Fail(400, Text("Invalid action")))
    ensures r.Run? ==> g.Admitted? && r.action.user == g.user && Field(g.body, "action") in Actions
    ensures r.Run? && r.action.ReportAction? ==>
      Field(g.body, "action") == Some(JStr("report-threat"))
      && Some(r.action.threatData) == Field(g.body, "threatData")
      && r.action.severity == Field(g.body, "severity")
    ensures r.Run? && r.action.ResolveAction? ==>
      Field(g.body, "action") == Some(JStr("resolve-threat")) && r.action.threatId == Field(g.body, "threatId")
    ensures g.Admitted? && Field(g.body, "action") == Some(JStr("get-threats")) ==> r == Run(ListAction(g.user))
    ensures g.Admitted? && Field(g.body, "action") in {Some(JStr("report-threat")), Some(JStr("scan-file"))} ==>
      (r.Rejected? <==> Field(g.body, "threatData") in {None, Some(JNull)})
    ensures r.Rejected? && g.Admitted? ==> r.response.Fail? && r.response.status in {400, 500}
  {
    match g
    case Denied(_, _) => Rejected(GateResponse(g))
    case Crashed => Rejected(GateResponse(g))
    case Admitted(user, body) =>
      var action := Field(body, "action");
      var threatData := Field(body, "threatData");
      if action == Some(JStr("report-threat")) then
        if threatData.None? || threatData.value == JNull then Rejected(Fail(500, InternalError))
        else Run(ReportAction(user, threatData.value, Field(body, "severity")))
      else if action == Some(JStr("get-threats")) then Run(ListAction(user))
      else if action == Some(JStr("resolve-threat")) then Run(ResolveAction(user, Field(body, "threatId")))
      else if action == Some(JStr("scan-file")) then
        if threatData.None? || threatData.value == JNull then Rejected(Fail(500, InternalError))
        else Run(ScanAction(user, Field(threatData.value, "fileHash")))
      else Rejected(Fail(400, Text("Invalid action")))
  }

  // ---------------------------------------------------------------------------
  // The handlers, over the in-memory tables

  datatype ThreatRequest = ThreatRequest(
    authorization: Option<string>,  // the Authorization header
    forwardedFor: Option<string>,   // the x-forwarded-for header
    body: Option<Json>)             // the parsed body; None when it is not JSON

  /**
   * What the environment decides: token resolution, the clock, the id the store
   * assigns to a new row, and whether the store fails the action's call.
   */
  datatype Env = Env(tokens: map<string, UserId>, now: int, freshId: string, fault: Option<StoreError>)

  /** The row report-threat inserts, or the store's refusal. */
  function ReportRow(db: ThreatDb, user: UserId, threatData: Json, severity: Option<Json>,
                     sourceIp: Option<string>, env: Env): (r: Result<ThreatRow, StoreError>)
    reads db
    ensures env.fault.Some? ==> r == Err(env.fault.value)
    ensures r.Ok? ==>
      && r.value.userId == Some(user) && r.value.threatData == threatData && r.value.sourceIp == sourceIp
      && SeverityColumn(StoredSeverity(severity, AnalyzeThreat(threatData))) == Ok(r.value.severityLevel)
    ensures r.Ok? && !Truthy(severity) ==>
      r.value.severityLevel.Some? && 1 <= r.value.severityLevel.value <= MaxScore
    ensures env.fault.None? && !Truthy(severity) && threatData != JNull ==>
      (r.Ok? <==> ParseThreatType(Field(threatData, "type")).Some?)
    ensures env.fault.None? && threatData != JNull ==>
      (r.Ok? <==> ParseThreatType(Field(threatData, "type")).Some?
                  && SeverityColumn(StoredSeverity(severity, AnalyzeThreat(threatData))).Ok?)
    ensures r.Ok? ==>
      && Field(threatData, "type") == Some(JStr(ThreatTypeName(r.value.threatType)))
      && r.value.deviceFingerprint == Field(threatData, "deviceFingerprint")
      && r.value.id == env.freshId && r.value.createdAt == env.now
      && r.value.status == db.defaultStatus && r.value.resolvedAt == None
  {
    if env.fault.Some? then Err(env.fault.value)
    else NewThreatRow(env.freshId, user, Field(threatData, "type"), Some(threatData),
                      StoredSeverity(severity, AnalyzeThreat(threatData)), env.now,
                      db.defaultStatus, sourceIp, Field(threatData, "deviceFingerprint"))
  }

  function ReportAudit(row: ThreatRow, threatData: Json, severity: Option<Json>): AuditEntry
    requires row.userId.Some?
  {
    AuditEntry(row.userId.value, "threat_detected", row.id, Field(threatData, "type"),
               StoredSeverity(severity, AnalyzeThreat(threatData)))
  }

  /** report-threat: insert one row, then the audit entry; the response carries the computed score. */
  method ReportThreat(db: ThreatDb, user: UserId, threatData: Json, severity: Option<Json>,
                      sourceIp: Option<string>, env: Env) returns (resp: Response<ThreatBody>)
    modifies db
    ensures var row := old(ReportRow(db, user, threatData, severity, sourceIp, env));
      && (row.Err? ==>
            resp == Fail(400, StoreMessage(row.error)) && db.threats == old(db.threats) && db.audit == old(db.audit))
      && (row.Ok? ==>
            && row.value.userId == Some(user)
            && resp == Reply(Reported(row.value, AnalyzeThreat(threatData)))
            && db.threats == old(db.threats) + [row.value]
            && db.audit == old(db.audit) + [ReportAudit(row.value, threatData, severity)])
  {
    var row := ReportRow(db, user, threatData, severity, sourceIp, env);
    if row.Err? {
      return Fail(400, StoreMessage(row.error));
    }
    db.InsertThreat(row.value);
    db.InsertAudit(ReportAudit(row.value, threatData, severity));
    resp := Reply(Reported(row.value, AnalyzeThreat(threatData)));
  }

  /** get-threats reads the table and changes nothing. */
  method ListThreats(db: ThreatDb, user: UserId, env: Env) returns (resp: Response<ThreatBody>)
    ensures env.fault.Some? ==> resp == Fail(400, StoreMessage(env.fault.value))
    ensures env.fault.None? ==> resp == Reply(Threats(ThreatsPage(db.threats, user)))
  {
    if env.fault.Some? {
      return Fail(400, StoreMessage(env.fault.value));
    }
    resp := Reply(Threats(ThreatsPage(db.threats, user)));
  }

  /**
   * resolve-threat: the update matches on id and owner; success is answered even when
   * it matched nothing. A `threatId` that is not a string is refused by the `id` column.
   */
  method ResolveThreat(db: ThreatDb, user: UserId, threatId: Option<Json>, env: Env) returns (resp: Response<ThreatBody>)
    modifies db`threats
    ensures env.fault.Some? ==> resp == Fail(400, StoreMessage(env.fault.value)) && db.threats == old(db.threats)
    ensures env.fault.None? && !(threatId.Some? && threatId.value.JStr?) ==>
      resp == Fail(400, StoreMessage(Violation("id"))) && db.threats == old(db.threats)
    ensures env.fault.None? && threatId.Some? && threatId.value.JStr? ==>
      resp == Reply(Success) && db.threats == ResolveRows(old(db.threats), threatId.value.s, user, env.now)
  {
    if env.fault.Some? {
      return Fail(400, StoreMessage(env.fault.value));
    }
    if !(threatId.Some? && threatId.value.JStr?) {
      return Fail(400, StoreMessage(Violation("id")));
    }
    db.threats := ResolveRows(db.threats, threatId.value.s, user, env.now);
    resp := Reply(Success);
  }

  /** One request to the edge function, end to end. */
  method HandleRequest(db: ThreatDb, req: ThreatRequest, env: Env) returns (resp: Response<ThreatBody>)
    modifies db
    ensures var r := Route(CheckGate(req.authorization, env.tokens, req.body));
      && (r.Rejected? ==> resp == r.response && db.threats == old(db.threats) && db.audit == old(db.audit))
      && (r.Run? && (r.action.ListAction? || r.action.ScanAction?) ==>
            db.threats == old(db.threats) && db.audit == old(db.audit))
      && (r.Run? && r.action.ScanAction? ==> resp == Reply(Scanned(ScanFileStub(r.action.fileHash))))
      && (r.Run? && r.action.ListAction? && env.fault.Some? ==> resp == Fail(400, StoreMessage(env.fault.value)))
      && (r.Run? && r.action.ListAction? && env.fault.None? ==>
            resp == Reply(Threats(ThreatsPage(old(db.threats), r.action.user))))
      && (r.Run? && r.action.ResolveAction? ==> db.audit == old(db.audit))
      && (r.Run? && r.action.ResolveAction? && env.fault.Some? ==>
            resp == Fail(400, StoreMessage(env.fault.value)) && db.threats == old(db.threats))
      && (r.Run? && r.action.ResolveAction? && env.fault.None? && !(r.action.threatId.Some? && r.action.threatId.value.JStr?) ==>
            resp == Fail(400, StoreMessage(Violation("id"))) && db.threats == old(db.threats))
      && (r.Run? && r.action.ResolveAction? && env.fault.None? && r.action.threatId.Some? && r.action.threatId.value.JStr? ==>
            resp == Reply(Success)
            && db.threats == ResolveRows(old(db.threats), r.action.threatId.value.s, r.action.user, env.now))
      && (r.Run? && r.action.ReportAction? ==>
            var row := old(ReportRow(db, r.action.user, r.action.threatData, r.action.severity, req.forwardedFor, env));
            && (row.Err? ==>
                  resp == Fail(400, StoreMessage(row.error)) && db.threats == old(db.threats) && db.audit == old(db.audit))
            && (row.Ok? ==>
                  && resp == Reply(Reported(row.value, AnalyzeThreat(r.action.threatData)))
                  && db.threats == old(db.threats) + [row.value]
                  && db.audit == old(db.audit) + [ReportAudit(row.value, r.action.threatData, r.action.severity)]))
    ensures resp.Fail? && resp.status == 401 ==> db.threats == old(db.threats) && db.audit == old(db.audit)
  {
    var r := Route(CheckGate(req.authorization, env.tokens, req.body));
    match r
    case Rejected(response) =>
      resp := response;
    case Run(action) =>
      match action
      case ReportAction(user, threatData, severity) =>
        resp := ReportThreat(db, user, threatData, severity, req.forwardedFor, env);
      case ListAction(user) =>
        resp := ListThreats(db, user, env);
      case ResolveAction(user, threatId) =>
        resp := ResolveThreat(db, user, threatId, env);
      case ScanAction(_, fileHash) =>
        resp := Reply(Scanned(ScanFileStub(fileHash)));
  }
}
