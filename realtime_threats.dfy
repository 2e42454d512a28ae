/**
 * The `realtime-threats` socket endpoint: a per-connection state machine that binds
 * the socket to a user on a successful `auth` frame, records `threat_alert` frames
 * and echoes them, and runs a polling timer per successful auth that pushes recent
 * active threats and pattern diagnostics. Sends are appends to the connection's
 * outbox; timers are a multiset of the users they poll for.
 */
module RealtimeThreats {
  import opened Js
  import opened Schema
  import opened Store

  const PollIntervalMs := 30000
  const RecentWindowMs := 60000
  const PatternWindowMs := 3600000
  const DefaultAlertSeverity := 5

  // ---------------------------------------------------------------------------
  // detectThreatPatterns

  datatype PatternKind = HighActivity | MalwareCluster

  /** A transient diagnostic over the last hour of one user's threats. */
  datatype Pattern = Pattern(kind: PatternKind, description: string, severity: int, count: nat)

  const HighActivityPattern := 5
  const MalwareClusterPattern := 2

  function CountMalware(rows: seq<ThreatRow>): (n: nat)
    ensures n <= |rows|
  {
    if rows == [] then 0
    else (if rows[0].threatType == Malware then 1 else 0) + CountMalware(rows[1..])
  }

  function HighActivityOf(total: nat): Pattern {
    Pattern(HighActivity, "Unusually high threat activity detected", 7, total)
  }

  function MalwareClusterOf(malware: nat): Pattern {
    Pattern(MalwareCluster, "Multiple malware threats detected", 9, malware)
  }

  predicate HasKind(ps: seq<Pattern>, k: PatternKind) {
    exists i :: 0 <= i < |ps| && ps[i].kind == k
  }

  /**
   * The two threshold rules over the window's rows; `None` is a failed query, which
   * behaves as no rows. `high_activity` comes first when both fire.
   */
  function DetectThreatPatterns(threats: Option<seq<ThreatRow>>): (ps: seq<Pattern>)
    ensures threats.None? ==> ps == []
    ensures threats.Some? ==>
      && (HasKind(ps, HighActivity) <==> |threats.value| > HighActivityPattern)
      && (HasKind(ps, MalwareCluster) <==> CountMalware(threats.value) > MalwareClusterPattern)
      && (|threats.value| > HighActivityPattern ==> ps[0] == HighActivityOf(|threats.value|))
      && (CountMalware(threats.value) > MalwareClusterPattern ==>
            ps[|ps| - 1] == MalwareClusterOf(CountMalware(threats.value)))
      && |ps| == (if |threats.value| > HighActivityPattern then 1 else 0)
               + (if CountMalware(threats.value) > MalwareClusterPattern then 1 else 0)
      && forall i :: 0 <= i < |ps| ==> ps[i].count <= |threats.value|
  {
    if threats.None? then []
    else
      var rows := threats.value;
      var high := if |rows| > HighActivityPattern then [HighActivityOf(|rows|)] else [];
      var malware := CountMalware(rows);
      var cluster := if malware > MalwareClusterPattern then [MalwareClusterOf(malware)] else [];
      var ps := high + cluster;
      assert HasKind(ps, HighActivity) ==> |rows| > HighActivityPattern by {
        if HasKind(ps, HighActivity) {
          var i :| 0 <= i < |ps| && ps[i].kind == HighActivity;
          assert i < |high|;
        }
      }
      assert HasKind(ps, MalwareCluster) ==> malware > MalwareClusterPattern by {
        if HasKind(ps, MalwareCluster) {
          var i :| 0 <= i < |ps| && ps[i].kind == MalwareCluster;
          assert i >= |high|;
        }
      }
      assert |rows| > HighActivityPattern ==> ps[0].kind == HighActivity;
      assert malware > MalwareClusterPattern ==> ps[|ps| - 1].kind == MalwareCluster;
      ps
  }

  // ---------------------------------------------------------------------------
  // Frames

  /** An incoming text frame after `JSON.parse`. */
  datatype Frame = Unparseable | Parsed(value: Json)

  /** What `onmessage` does with a frame. */
  datatype Inbound =
    | Malformed                   // the parse threw, or the message is null and reading `.type` threw
    | AuthRequest(token: Option<Json>)
    | AlertRequest(message: Json)
    | Ignored                     // any other `type`

  datatype ServerFrame =
    | AuthSuccess(userId: UserId)
    | AuthError(message: string)
    | ThreatDetected(threat: Json, timestamp: int)
    | NewThreats(threats: seq<ThreatRow>, count: nat)
    | ThreatPatterns(patterns: seq<Pattern>)
    | ErrorFrame(message: string)

  function Classify(f: Frame): (r: Inbound)
    ensures r.Malformed? <==> f == Unparseable || f == Parsed(JNull)
    ensures r.AuthRequest? <==>
      f.Parsed? && f.value != JNull && Field(f.value, "type") == Some(JStr("auth"))
    ensures r.AuthRequest? ==> r.token == Field(f.value, "token")
    ensures r.AlertRequest? <==>
      f.Parsed? && f.value != JNull && Field(f.value, "type") == Some(JStr("threat_alert"))
    ensures r.AlertRequest? ==> r.message == f.value
  {
    match f
    case Unparseable => Malformed
    case Parsed(m) =>
      if m == JNull then Malformed
      else if Field(m, "type") == Some(JStr("auth")) then AuthRequest(Field(m, "token"))
      else if Field(m, "type") == Some(JStr("threat_alert")) then AlertRequest(m)
      else Ignored
  }

  /** `auth.getUser(token)`: the user of a known token string, nothing otherwise. */
  function ResolveToken(token: Option<Json>, tokens: map<string, UserId>): (u: Option<UserId>)
    ensures u.Some? <==> token.Some? && token.value.JStr? && token.value.s in tokens
    ensures u.Some? ==> u.value == tokens[token.value.s]
  {
    if token.Some? && token.value.JStr? && token.value.s in tokens then Some(tokens[token.value.s]) else None
  }

  /** The row a `threat_alert` from `user` asks the store to insert, with `message.severity || 5`. */
  function AlertRow(message: Json, user: UserId, id: string, now: int, status: Option<ThreatStatus>): Result<ThreatRow, StoreError> {
    NewThreatRow(id, user, Field(message, "threatType"), Field(message, "data"),
                 Or(Field(message, "severity"), JNum(DefaultAlertSeverity)), now, status, None, None)
  }

  /** The rows an insert adds: one on success, none when the store refuses or fails. */
  function Inserted(row: Result<ThreatRow, StoreError>, fault: Option<StoreError>): seq<ThreatRow> {
    if row.Ok? && fault.None? then [row.value] else []
  }

  /**
   * A `threat_alert` from the bound user adds at most one row: exactly when the store
   * answers, the type is an enum label, `data` is present and not null, and the severity
   * read through `severity || 5` is a number. The row is the user's, active from the
   * column default, without source address or fingerprint, and carries the alert's own
   * severity when that is truthy and 5 otherwise.
   */
  lemma AlertInsert(message: Json, user: UserId, id: string, now: int, status: Option<ThreatStatus>,
                    fault: Option<StoreError>)
    ensures var added := Inserted(AlertRow(message, user, id, now, status), fault);
      && |added| <= 1
      && (added != [] <==>
            && fault.None?
            && ParseThreatType(Field(message, "threatType")).Some?
            && Field(message, "data").Some? && Field(message, "data").value != JNull
            && (Truthy(Field(message, "severity")) ==> Field(message, "severity").value.JNum?))
      && (added != [] ==>
            && added[0].id == id && added[0].userId == Some(user) && added[0].status == status
            && added[0].threatData == Field(message, "data").value && added[0].createdAt == now
            && added[0].sourceIp == None && added[0].deviceFingerprint == None
            && (Truthy(Field(message, "severity")) ==> added[0].severityLevel == Some(Field(message, "severity").value.n))
            && (!Truthy(Field(message, "severity")) ==> added[0].severityLevel == Some(DefaultAlertSeverity)))
  {
    var sev := Or(Field(message, "severity"), JNum(DefaultAlertSeverity));
    assert Truthy(Field(message, "severity")) ==> Some(sev) == Field(message, "severity");
    assert !Truthy(Field(message, "severity")) ==> sev == JNum(DefaultAlertSeverity);
  }

  // ---------------------------------------------------------------------------
  // One poll tick

  /** The user's active threats created in the last minute; `None` when the query failed. */
  function RecentThreats(rows: seq<ThreatRow>, user: UserId, now: int, fails: bool): Option<seq<ThreatRow>> {
    if fails then None else Some(Select(rows, [UserIs(user), StatusIs(Active), CreatedSince(now - RecentWindowMs)]))
  }

  /** All of the user's threats created in the last hour; `None` when the query failed. */
  function WindowThreats(rows: seq<ThreatRow>, user: UserId, now: int, fails: bool): Option<seq<ThreatRow>> {
    if fails then None else Some(Select(rows, [UserIs(user), CreatedSince(now - PatternWindowMs)]))
  }

  /**
   * What one tick sends, in order, given what its two queries returned: new threats
   * first, then patterns.
   */
  function PollFrames(recent: Option<seq<ThreatRow>>, ps: seq<Pattern>): (out: seq<ServerFrame>)
    ensures var sendsNew := recent.Some? && recent.value != [];
      && |out| == (if sendsNew then 1 else 0) + (if ps != [] then 1 else 0)
      && (sendsNew ==> out[0] == NewThreats(recent.value, |recent.value|))
      && (ps != [] ==> out[|out| - 1] == ThreatPatterns(ps))
    ensures forall i :: 0 <= i < |out| && out[i].NewThreats? ==>
      recent.Some? && recent.value != [] && out[i] == NewThreats(recent.value, |recent.value|)
  {
    var first: seq<ServerFrame> := if recent.Some? && recent.value != [] then [NewThreats(recent.value, |recent.value|)] else [];
    var second: seq<ServerFrame> := if ps != [] then [ThreatPatterns(ps)] else [];
    assert forall i :: |first| <= i < |first + second| ==> (first + second)[i] == second[i - |first|];
    first + second
  }

  /** The frames one tick of a timer for `user` sends. */
  function TickFrames(rows: seq<ThreatRow>, user: UserId, now: int, recentFails: bool, windowFails: bool): seq<ServerFrame> {
    PollFrames(RecentThreats(rows, user, now, recentFails), DetectThreatPatterns(WindowThreats(rows, user, now, windowFails)))
  }

  /** The rows of the last-minute query are the user's active rows of the last minute. */
  lemma RecentRowsMatch(rows: seq<ThreatRow>, user: UserId, now: int)
    ensures forall x :: x in Select(rows, [UserIs(user), StatusIs(Active), CreatedSince(now - RecentWindowMs)]) ==>
      x in rows && x.userId == Some(user) && x.status == Some(Active) && x.createdAt >= now - RecentWindowMs
  {
    var fs := [UserIs(user), StatusIs(Active), CreatedSince(now - RecentWindowMs)];
    forall x | x in Select(rows, fs)
      ensures x.userId == Some(user) && x.status == Some(Active) && x.createdAt >= now - RecentWindowMs
    {
      assert MatchesAll(x, fs);
      assert Matches(x, fs[0]) && Matches(x, fs[1]) && Matches(x, fs[2]);
    }
  }

  /**
   * Whatever patterns a tick finds, its `new_threats` frame is never empty, its count
   * is its length, and it carries only the polled user's active rows of the last minute.
   */
  lemma PolledThreatsAreRecentActive(rows: seq<ThreatRow>, user: UserId, now: int, recentFails: bool, ps: seq<Pattern>)
    ensures var out := PollFrames(RecentThreats(rows, user, now, recentFails), ps);
      forall i :: 0 <= i < |out| && out[i].NewThreats? ==>
        && out[i].count == |out[i].threats| > 0
        && forall x :: x in out[i].threats ==>
             x in rows && x.userId == Some(user) && x.status == Some(Active) && x.createdAt >= now - RecentWindowMs
  {
    RecentRowsMatch(rows, user, now);
  }

  // ---------------------------------------------------------------------------
  // The connection

  class Connection {
    /** The bound user; null until an `auth` frame succeeds. */
    var userId: Option<UserId>
    /** The live polling intervals, each by the user it was started for. */
    var timers: multiset<UserId>
    var closed: bool
    /** Everything sent on the socket, in order. */
    var outbox: seq<ServerFrame>

    ghost predicate Valid()
      reads this
    {
      && (closed ==> timers == multiset{})
      && (timers != multiset{} ==> userId.Some?)
    }

    constructor ()
      ensures Valid()
      ensures userId == None && timers == multiset{} && !closed && outbox == []
    {
      userId := None;
      timers := multiset{};
      closed := false;
      outbox := [];
    }

    /**
     * `socket.onmessage`. The runtime delivers frames only to an open socket. The
     * insert for a `threat_alert` may fail (`fault`, or a row the store refuses); the
     * echo is sent either way.
     */
    method OnMessage(frame: Frame, tokens: map<string, UserId>, db: ThreatDb, now: int, freshId: string,
                     fault: Option<StoreError>)
      requires Valid() && !closed
      modifies this, db`threats
      ensures Valid() && !closed
      ensures var c := Classify(frame);
        && (c.Malformed? ==>
              && outbox == old(outbox) + [ErrorFrame("Invalid message format")]
              && userId == old(userId) && timers == old(timers) && db.threats == old(db.threats))
        && (c.Ignored? ==>
              outbox == old(outbox) && userId == old(userId) && timers == old(timers) && db.threats == old(db.threats))
        && (c.AuthRequest? ==>
              db.threats == old(db.threats)
              && match ResolveToken(c.token, tokens)
                 case Some(u) =>
                   userId == Some(u) && outbox == old(outbox) + [AuthSuccess(u)] && timers == old(timers) + multiset{u}
                 case None =>
                   userId == old(userId) && outbox == old(outbox) + [AuthError("Invalid token")] && timers == old(timers))
        && (c.AlertRequest? ==>
              && userId == old(userId) && timers == old(timers)
              && (old(userId).None? ==> outbox == old(outbox) && db.threats == old(db.threats))
              && (old(userId).Some? ==>
                    && outbox == old(outbox) + [ThreatDetected(c.message, now)]
                    && db.threats == old(db.threats)
                         + Inserted(AlertRow(c.message, old(userId).value, freshId, now, db.defaultStatus), fault)))
    {
      match Classify(frame)
      case Malformed =>
        outbox := outbox + [ErrorFrame("Invalid message format")];
      case Ignored =>
      case AuthRequest(token) =>
        var user := ResolveToken(token, tokens);
        if user.Some? {
          userId := user;
          outbox := outbox + [AuthSuccess(user.value)];
          StartThreatMonitoring(user.value);
        } else {
          outbox := outbox + [AuthError("Invalid token")];
        }
      case AlertRequest(message) =>
        if userId.Some? {
          var row := AlertRow(message, userId.value, freshId, now, db.defaultStatus);
          if row.Ok? && fault.None? {
            db.InsertThreat(row.value);
          }
          outbox := outbox + [ThreatDetected(message, now)];
        }
    }

    /** `startThreatMonitoring`: one more interval for `user`, cleared when the socket closes. */
    method StartThreatMonitoring(user: UserId)
      requires !closed
      modifies this`timers
      ensures timers == old(timers) + multiset{user}
    {
      timers := timers + multiset{user};
    }

    /**
     * One firing of an interval started for `timer`. A cleared interval never fires.
     * The two queries may fail independently; a failed query counts as no rows.
     */
    method Tick(timer: UserId, db: ThreatDb, now: int, recentFails: bool, windowFails: bool)
      requires Valid()
      modifies this`outbox
      ensures Valid()
      ensures timer !in old(timers) ==> outbox == old(outbox)
      ensures timer in old(timers) ==> outbox == old(outbox) + TickFrames(db.threats, timer, now, recentFails, windowFails)
    {
      if timer in timers {
        outbox := outbox + TickFrames(db.threats, timer, now, recentFails, windowFails);
      }
    }

    /** The socket's close event: every close listener clears its interval. */
    method Close()
      requires Valid()
      modifies this`closed, this`timers
      ensures Valid()
      ensures closed && timers == multiset{}
    {
      closed := true;
      timers := multiset{};
    }
  }

  // ---------------------------------------------------------------------------
  // Scenarios on a fresh connection

  function AuthMessage(token: string): Json {
    JObj(map["type" := JStr("auth"), "token" := JStr(token)])
  }

  function AlertMessage(kind: string, data: Json): Json {
    JObj(map["type" := JStr("threat_alert"), "threatType" := JStr(kind), "data" := data])
  }

  lemma ClassifyAuthMessage(token: string)
    ensures Classify(Parsed(AuthMessage(token))) == AuthRequest(Some(JStr(token)))
  {
    assert Field(AuthMessage(token), "type") == Some(JStr("auth"));
  }

  /** A `threat_alert` before any auth inserts nothing and sends nothing. */
  method AlertBeforeAuth(kind: string, data: Json, tokens: map<string, UserId>, now: int)
    returns (sent: seq<ServerFrame>, stored: seq<ThreatRow>)
    ensures sent == [] && stored == []
  {
    var c := new Connection();
    var db := new ThreatDb(Some(Active));
    c.OnMessage(Parsed(AlertMessage(kind, data)), tokens, db, now, "t1", None);
    sent, stored := c.outbox, db.threats;
  }

  /**
   * Closing the socket before the first tick leaves no interval to fire: a tick
   * afterwards sends nothing, however many threats the user has.
   */
  method CloseBeforeFirstTick(token: string, tokens: map<string, UserId>, now: int)
    returns (sent: seq<ServerFrame>, live: multiset<UserId>)
    requires token in tokens
    ensures sent == [AuthSuccess(tokens[token])] && live == multiset{}
  {
    var c := new Connection();
    var db := new ThreatDb(Some(Active));
    ClassifyAuthMessage(token);
    c.OnMessage(Parsed(AuthMessage(token)), tokens, db, now, "t1", None);
    c.Close();
    c.Tick(tokens[token], db, now + PollIntervalMs, false, false);
    sent, live := c.outbox, c.timers;
  }

  /** Two alerts back to back are echoed in order, each with its own message unmodified. */
  method TwoAlertsInOrder(token: string, tokens: map<string, UserId>, m1: Json, m2: Json, t1: int, t2: int)
    returns (sent: seq<ServerFrame>)
    requires token in tokens
    requires Field(m1, "type") == Some(JStr("threat_alert")) && Field(m2, "type") == Some(JStr("threat_alert"))
    ensures sent == [AuthSuccess(tokens[token]), ThreatDetected(m1, t1), ThreatDetected(m2, t2)]
  {
    var c := new Connection();
    var db := new ThreatDb(Some(Active));
    ClassifyAuthMessage(token);
    c.OnMessage(Parsed(AuthMessage(token)), tokens, db, t1, "t0", None);
    c.OnMessage(Parsed(m1), tokens, db, t1, "t1", None);
    c.OnMessage(Parsed(m2), tokens, db, t2, "t2", None);
    sent := c.outbox;
  }

  /**
   * Authenticating again as another user rebinds the socket but leaves the first
   * user's interval running, so both users' threats are polled on this socket.
   * A failed re-auth keeps the binding.
   */
  method ReauthKeepsEarlierTimer(tokenA: string, tokenB: string, bad: string, tokens: map<string, UserId>, now: int)
    returns (bound: Option<UserId>, live: multiset<UserId>, sent: seq<ServerFrame>)
    requires tokenA in tokens && tokenB in tokens && bad !in tokens
    ensures bound == Some(tokens[tokenB])
    ensures live == multiset{tokens[tokenA], tokens[tokenB]}
    ensures sent == [AuthSuccess(tokens[tokenA]), AuthSuccess(tokens[tokenB]), AuthError("Invalid token")]
  {
    var c := new Connection();
    var db := new ThreatDb(Some(Active));
    ClassifyAuthMessage(tokenA);
    ClassifyAuthMessage(tokenB);
    ClassifyAuthMessage(bad);
    c.OnMessage(Parsed(AuthMessage(tokenA)), tokens, db, now, "t0", None);
    assert c.timers == multiset{tokens[tokenA]};
    c.OnMessage(Parsed(AuthMessage(tokenB)), tokens, db, now, "t0", None);
    assert c.timers == multiset{tokens[tokenA], tokens[tokenB]};
    assert c.outbox == [AuthSuccess(tokens[tokenA]), AuthSuccess(tokens[tokenB])];
    c.OnMessage(Parsed(AuthMessage(bad)), tokens, db, now, "t0", None);
    bound, live, sent := c.userId, c.timers, c.outbox;
  }
}
