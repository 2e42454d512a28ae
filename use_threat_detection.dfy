/**
 * The `useThreatDetection` hook: the client side of the threat channel. It fetches
 * the caller's threats, opens the socket and authenticates on it, reacts to server
 * frames by refetching or raising critical alerts, and wraps the report and resolve
 * calls. Calls to the edge function are recorded as the request bodies sent, in order.
 */
module UseThreatDetection {
  import opened Js
  import opened Schema
  import RealtimeThreats
  import ThreatDetection

  type ServerFrame = RealtimeThreats.ServerFrame
  type Pattern = RealtimeThreats.Pattern

  /** Critical toasts are raised for patterns at or above this severity. */
  const CriticalSeverity := 8
  const DefaultReportSeverity := 5

  // ---------------------------------------------------------------------------
  // The ws.onmessage dispatcher

  datatype Effect = Refetch | CriticalAlert(description: string)

  /** The patterns of severity at least 8, in the order they came. */
  function Critical(ps: seq<Pattern>): (c: seq<Pattern>)
    ensures |c| <= |ps|
    ensures forall p :: p in c <==> p in ps && p.severity >= CriticalSeverity
  {
    if ps == [] then []
    else
      assert ps == [ps[0]] + ps[1..];
      (if ps[0].severity >= CriticalSeverity then [ps[0]] else []) + Critical(ps[1..])
  }

  /**
   * Filtering a concatenation filters each part and keeps them in order, so the
   * critical patterns of a list come out in the list's order.
   */
  lemma {:induction false} CriticalDistributes(a: seq<Pattern>, b: seq<Pattern>)
    ensures Critical(a + b) == Critical(a) + Critical(b)
  {
    if a == [] {
      assert a + b == b;
    } else {
      assert (a + b)[0] == a[0];
      assert (a + b)[1..] == a[1..] + b;
      CriticalDistributes(a[1..], b);
    }
  }

  /** One critical alert per pattern of severity at least 8, in order. */
  function CriticalAlerts(ps: seq<Pattern>): (r: seq<Effect>)
    ensures |r| == |Critical(ps)|
    ensures forall i :: 0 <= i < |r| ==> r[i] == CriticalAlert(Critical(ps)[i].description)
  {
    if ps == [] then []
    else
      var rest := CriticalAlerts(ps[1..]);
      if ps[0].severity >= CriticalSeverity then
        assert Critical(ps) == [ps[0]] + Critical(ps[1..]);
        [CriticalAlert(ps[0].description)] + rest
      else
        rest
  }

  /** No alert exactly when no pattern reaches severity 8. */
  lemma NoAlertWithoutCritical(ps: seq<Pattern>)
    ensures CriticalAlerts(ps) == [] <==> forall j :: 0 <= j < |ps| ==> ps[j].severity < CriticalSeverity
  {
    if CriticalAlerts(ps) == [] {
      forall j | 0 <= j < |ps| ensures ps[j].severity < CriticalSeverity {
        assert ps[j] in ps;
      }
    } else {
      var p := Critical(ps)[0];
      assert p in Critical(ps);
      var j :| 0 <= j < |ps| && ps[j] == p;
    }
  }

  /** What the client does with one server frame; `auth_success`, `auth_error` and `error` do nothing. */
  function Dispatch(frame: ServerFrame): (effects: seq<Effect>)
    ensures Refetch in effects <==> frame.ThreatDetected? || frame.NewThreats?
    ensures Refetch in effects ==> effects == [Refetch]
    ensures frame.ThreatPatterns? ==> effects == CriticalAlerts(frame.patterns)
    ensures frame.AuthSuccess? || frame.AuthError? || frame.ErrorFrame? ==> effects == []
  {
    match frame
    case ThreatDetected(_, _) => [Refetch]
    case NewThreats(_, _) => [Refetch]
    case ThreatPatterns(ps) =>
      var r := CriticalAlerts(ps);
      assert Refetch !in r by {
        forall i | 0 <= i < |r| ensures r[i] != Refetch { assert r[i].CriticalAlert?; }
      }
      r
    case _ => []
  }

  /**
   * With the server's own pattern severities, a `threat_patterns` frame raises exactly
   * one alert, the malware cluster's, when that pattern is present, and none otherwise:
   * `high_activity` (7) never alerts.
   */
  lemma OnlyMalwareClusterAlerts(threats: Option<seq<ThreatRow>>)
    ensures var ps := RealtimeThreats.DetectThreatPatterns(threats);
      Dispatch(RealtimeThreats.ThreatPatterns(ps)) ==
        if RealtimeThreats.HasKind(ps, RealtimeThreats.MalwareCluster)
        then [CriticalAlert("Multiple malware threats detected")]
        else []
  {
    var ps := RealtimeThreats.DetectThreatPatterns(threats);
    if threats.Some? {
      var rows := threats.value;
      var high := |rows| > RealtimeThreats.HighActivityPattern;
      var cluster := RealtimeThreats.CountMalware(rows) > RealtimeThreats.MalwareClusterPattern;
      if high && cluster {
        assert ps == [RealtimeThreats.HighActivityOf(|rows|), RealtimeThreats.MalwareClusterOf(RealtimeThreats.CountMalware(rows))];
        assert ps[1..] == [ps[1]];
        assert ps[1..][1..] == [];
      } else if high {
        assert ps == [RealtimeThreats.HighActivityOf(|rows|)];
        assert ps[1..] == [];
      } else if cluster {
        assert ps == [RealtimeThreats.MalwareClusterOf(RealtimeThreats.CountMalware(rows))];
        assert ps[1..] == [];
      }
    }
  }

  // ---------------------------------------------------------------------------
  // Request bodies

  function Obj2(k1: string, v1: Json, k2: string, v2: Json): Json {
    JObj(map[k1 := v1, k2 := v2])
  }

  const GetThreatsBody: Json := JObj(map["action" := JStr("get-threats")])

  /** `threatData.severity || 5`. */
  function ClientSeverity(threatData: Json): (v: Json)
    ensures Truthy(Some(v))
    ensures Truthy(Field(threatData, "severity")) ==> Some(v) == Field(threatData, "severity")
    ensures !Truthy(Field(threatData, "severity")) ==> v == JNum(DefaultReportSeverity)
  {
    Or(Field(threatData, "severity"), JNum(DefaultReportSeverity))
  }

  function ReportBody(threatData: Json): Json {
    JObj(map["action" := JStr("report-threat"), "threatData" := threatData, "severity" := ClientSeverity(threatData)])
  }

  function ResolveBody(threatId: string): Json {
    Obj2("action", JStr("resolve-threat"), "threatId", JStr(threatId))
  }

  function ScanBody(fileHash: string): Json {
    Obj2("action", JStr("scan-file"), "threatData", JObj(map["fileHash" := JStr(fileHash)]))
  }

  function AuthFrame(token: string): Json {
    Obj2("type", JStr("auth"), "token", JStr(token))
  }

  /**
   * A report sent through the hook always carries a truthy severity, so the edge
   * function stores the client's severity and never its own computed score.
   */
  lemma ReportedSeverityIsClients(threatData: Json, score: int)
    ensures var body := ReportBody(threatData);
      ThreatDetection.StoredSeverity(Field(body, "severity"), score) == ClientSeverity(threatData)
  {
    var body := ReportBody(threatData);
    assert Field(body, "severity") == Some(ClientSeverity(threatData));
  }

  // ---------------------------------------------------------------------------
  // The hook's state

  class ThreatDetectionHook {
    /** `threats`: the last list the edge function returned. */
    var threats: Json
    var loading: bool
    /** The access token the open socket's `onopen` handler sends; None while there is no socket. */
    var socketToken: Option<string>
    /** Frames sent on the socket, in order. */
    var sent: seq<Json>
    /** Bodies of the edge-function calls, in order. */
    var calls: seq<Json>
    /** Descriptions of the critical-pattern alerts raised, in order. */
    var alerts: seq<string>

    constructor ()
      ensures threats == JArr([]) && loading && socketToken.None?
      ensures sent == [] && calls == [] && alerts == []
    {
      threats := JArr([]);
      loading := true;
      socketToken := None;
      sent := [];
      calls := [];
      alerts := [];
    }

    /** The effect on a session change: with a session, fetch and open the socket; without, nothing. */
    method OnSession(session: Option<string>)
      modifies this`calls, this`socketToken
      ensures session.None? ==> calls == old(calls) && socketToken == old(socketToken)
      ensures session.Some? ==> calls == old(calls) + [GetThreatsBody] && socketToken == session
    {
      if session.Some? {
        calls := calls + [GetThreatsBody];
        socketToken := session;
      }
    }

    /** `ws.onopen`: authenticate with the session's access token. */
    method OnSocketOpen()
      requires socketToken.Some?
      modifies this`sent
      ensures sent == old(sent) + [AuthFrame(socketToken.value)]
    {
      sent := sent + [AuthFrame(socketToken.value)];
    }

    /** `ws.onmessage`: run the dispatcher's effects. */
    method OnSocketMessage(frame: ServerFrame)
      modifies this`calls, this`alerts
      ensures Refetch in Dispatch(frame) ==> calls == old(calls) + [GetThreatsBody] && alerts == old(alerts)
      ensures Refetch !in Dispatch(frame) ==> calls == old(calls)
      ensures frame.ThreatPatterns? ==> alerts == old(alerts) + AlertTexts(CriticalAlerts(frame.patterns))
      ensures !frame.ThreatPatterns? ==> alerts == old(alerts)
    {
      var effects := Dispatch(frame);
      if Refetch in effects {
        calls := calls + [GetThreatsBody];
      } else if frame.ThreatPatterns? {
        alerts := alerts + AlertTexts(effects);
      }
    }

    /**
     * A `get-threats` call completes. `response` is the returned `data`, None when the
     * call failed; a null `data` throws on `.threats` and counts as a failure.
     */
    method FetchCompleted(response: Option<Json>)
      modifies this`threats, this`loading
      ensures !loading
      ensures response.None? || response == Some(JNull) ==> threats == old(threats)
      ensures response.Some? && response.value != JNull ==>
        if Truthy(Field(response.value, "threats")) then Some(threats) == Field(response.value, "threats")
        else threats == JArr([])
    {
      if response.Some? && response.value != JNull {
        threats := Or(Field(response.value, "threats"), JArr([]));
      }
      loading := false;
    }

    /**
     * `reportThreat`; `ok` is whether the call succeeded. Reading `.severity` of a null
     * `threatData` throws before anything is sent. Returns whether the call threw.
     */
    method ReportThreat(threatData: Json, ok: bool) returns (threw: bool)
      modifies this`calls
      ensures threatData == JNull ==> threw && calls == old(calls)
      ensures threatData != JNull ==>
        threw == !ok && calls == old(calls) + [ReportBody(threatData)] + (if ok then [GetThreatsBody] else [])
    {
      if threatData == JNull {
        return true;
      }
      calls := calls + [ReportBody(threatData)];
      if ok {
        calls := calls + [GetThreatsBody];
      }
      threw := !ok;
    }

    /** `resolveThreat`: refetch only after a successful call; failures are swallowed. */
    method ResolveThreat(threatId: string, ok: bool)
      modifies this`calls
      ensures calls == old(calls) + [ResolveBody(threatId)] + (if ok then [GetThreatsBody] else [])
    {
      calls := calls + [ResolveBody(threatId)];
      if ok {
        calls := calls + [GetThreatsBody];
      }
    }

    /** `scanFile`: one call, no refetch. */
    method ScanFile(fileHash: string)
      modifies this`calls
      ensures calls == old(calls) + [ScanBody(fileHash)]
    {
      calls := calls + [ScanBody(fileHash)];
    }
  }

  /** The toast texts of a run of effects: each critical alert's description, in order. */
  function AlertTexts(effects: seq<Effect>): (r: seq<string>)
    ensures |r| == |effects|
    ensures forall i :: 0 <= i < |effects| && effects[i].CriticalAlert? ==> r[i] == effects[i].description
  {
    if effects == [] then [] else [if effects[0].CriticalAlert? then effects[0].description else ""] + AlertTexts(effects[1..])
  }

  /** The toasts a `threat_patterns` frame raises are the critical patterns' descriptions, in order. */
  lemma PatternToasts(ps: seq<Pattern>)
    ensures var texts := AlertTexts(CriticalAlerts(ps));
      && |texts| == |Critical(ps)|
      && forall i :: 0 <= i < |texts| ==> texts[i] == Critical(ps)[i].description
  {
    var effects := CriticalAlerts(ps);
    assert forall i :: 0 <= i < |effects| ==> effects[i].CriticalAlert?;
  }

  // ---------------------------------------------------------------------------
  // Scenarios on a fresh hook

  /** Without a session nothing is fetched and no socket is opened. */
  method NoSessionNoTraffic() returns (calls: seq<Json>, socket: Option<string>)
    ensures calls == [] && socket == None
  {
    var h := new ThreatDetectionHook();
    h.OnSession(None);
    calls, socket := h.calls, h.socketToken;
  }

  /** With a session, the first frame on the socket is the auth frame carrying the access token. */
  method FirstFrameAuthenticates(token: string) returns (first: Json, calls: seq<Json>)
    ensures first == AuthFrame(token)
    ensures calls == [GetThreatsBody]
  {
    var h := new ThreatDetectionHook();
    h.OnSession(Some(token));
    h.OnSocketOpen();
    first, calls := h.sent[0], h.calls;
  }

  /** A failed initial fetch leaves the list empty and still ends loading. */
  method FailedFetchEndsLoading() returns (threats: Json, loading: bool)
    ensures threats == JArr([]) && !loading
  {
    var h := new ThreatDetectionHook();
    h.FetchCompleted(None);
    threats, loading := h.threats, h.loading;
  }
}
