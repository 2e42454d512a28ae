/**
 * The `privacy-manager` edge function: the caller's privacy settings row, VPN
 * sessions, the secure-file vault record and the fixed ad/tracker blocklist. All
 * actions pass the shared gate first; store refusals are answered with 400.
 */
module PrivacyManager {
  import opened Js
  import opened Schema
  import opened Store
  import opened Edge

  /** The domains `getBlocklist` returns, in order. */
  const Blocklist: seq<string> := [
    "doubleclick.net",
    "googleadservices.com",
    "googlesyndication.com",
    "facebook.com/tr",
    "analytics.google.com",
    "googletagmanager.com"
  ]

  const AllSettings: set<Setting> :=
    {VpnEnabled, AdBlockerEnabled, TrackerBlockerEnabled, SecureDnsEnabled, DataCollectionConsent}

  lemma AllSettingsComplete()
    ensures forall s: Setting :: s in AllSettings
  {
    forall s: Setting ensures s in AllSettings {
      match s
      case VpnEnabled =>
      case AdBlockerEnabled =>
      case TrackerBlockerEnabled =>
      case SecureDnsEnabled =>
      case DataCollectionConsent =>
    }
  }

  // ---------------------------------------------------------------------------
  // update-settings: a partial update of the caller's row

  /** A settings patch: each supplied column with its new value; None writes NULL. */
  type Patch = map<Setting, Option<bool>>

  predicate PatchEntry(key: string, v: Json) {
    SettingNamed(key).Some? && (v.JBool? || v.JNull?)
  }

  /**
   * The `settings` member as the store reads it for `.update(settings)`: an object
   * whose members are settings columns holding booleans or null. Anything else is
   * refused as a whole.
   */
  function ParsePatch(settings: Option<Json>): (r: Result<Patch, StoreError>)
    ensures r.Ok? <==>
      settings.Some? && settings.value.JObj?
      && forall k :: k in settings.value.fields ==> PatchEntry(k, settings.value.fields[k])
    ensures r.Err? ==> r.error == Violation("settings")
    ensures r.Ok? ==> forall s: Setting ::
      && (s in r.value <==> SettingName(s) in settings.value.fields)
      && (s in r.value ==>
            var v := settings.value.fields[SettingName(s)];
            r.value[s] == if v.JBool? then Some(v.b) else None)
  {
    if settings.Some? && settings.value.JObj?
       && forall k | k in settings.value.fields :: PatchEntry(k, settings.value.fields[k])
    then
      var fields := settings.value.fields;
      AllSettingsComplete();
      Ok(map s | s in AllSettings && SettingName(s) in fields ::
           if fields[SettingName(s)].JBool? then Some(fields[SettingName(s)].b) else None)
    else Err(Violation("settings"))
  }

  /** The row's values after the patch: supplied columns take the new value, the rest keep theirs. */
  function ApplyPatch(values: Settings, patch: Patch): (r: Settings)
    ensures forall s :: s in patch ==> (s in r <==> patch[s].Some?) && (patch[s].Some? ==> r[s] == patch[s].value)
    ensures forall s :: s !in patch ==> (s in r <==> s in values) && (s in values ==> r[s] == values[s])
  {
    map s | s in values.Keys + patch.Keys && (s in patch ==> patch[s].Some?) ::
      if s in patch then patch[s].value else values[s]
  }

  /** Applying the same patch twice is the same as applying it once. */
  lemma ApplyPatchIdempotent(values: Settings, patch: Patch)
    ensures ApplyPatch(ApplyPatch(values, patch), patch) == ApplyPatch(values, patch)
  {
    var once := ApplyPatch(values, patch);
    var twice := ApplyPatch(once, patch);
    assert forall s :: s in twice <==> s in once;
    assert forall s :: s in twice ==> twice[s] == once[s];
  }

  /** `update(settings).eq('user_id', user)` on `privacy_settings`. */
  function UpdateSettingsRows(rows: seq<PrivacyRow>, user: UserId, patch: Patch): (r: seq<PrivacyRow>)
    ensures |r| == |rows|
    ensures forall i :: 0 <= i < |rows| ==>
      && r[i].id == rows[i].id && r[i].userId == rows[i].userId
      && (rows[i].userId == Some(user) ==> r[i].values == ApplyPatch(rows[i].values, patch))
      && (rows[i].userId != Some(user) ==> r[i] == rows[i])
  {
    if rows == [] then []
    else
      var head := if rows[0].userId == Some(user) then rows[0].(values := ApplyPatch(rows[0].values, patch)) else rows[0];
      [head] + UpdateSettingsRows(rows[1..], user, patch)
  }

  // ---------------------------------------------------------------------------
  // connect-vpn and disconnect-vpn

  /** The session `connect-vpn` inserts, or the refusal of a location that is not a string. */
  function NewSession(id: string, user: UserId, serverLocation: Option<Json>): (r: Result<VpnSession, StoreError>)
    ensures r.Ok? <==> serverLocation.Some? && serverLocation.value.JStr?
    ensures r.Ok? ==> r.value == VpnSession(id, Some(user), serverLocation.value.s, Some(true), None)
    ensures r.Err? ==> r.error == Violation("server_location")
  {
    if serverLocation.Some? && serverLocation.value.JStr? then Ok(VpnSession(id, Some(user), serverLocation.value.s, Some(true), None))
    else Err(Violation("server_location"))
  }

  predicate ActiveFor(s: VpnSession, user: UserId) {
    s.userId == Some(user) && s.isActive == Some(true)
  }

  /** `update({is_active: false, disconnected_at: now}).eq('user_id', user).eq('is_active', true)`. */
  function DisconnectRows(sessions: seq<VpnSession>, user: UserId, now: int): (r: seq<VpnSession>)
    ensures |r| == |sessions|
    ensures forall i :: 0 <= i < |sessions| ==>
      && r[i].id == sessions[i].id && r[i].userId == sessions[i].userId && r[i].serverLocation == sessions[i].serverLocation
      && (ActiveFor(sessions[i], user) ==> r[i].isActive == Some(false) && r[i].disconnectedAt == Some(now))
      && (!ActiveFor(sessions[i], user) ==> r[i] == sessions[i])
  {
    if sessions == [] then []
    else
      var s := sessions[0];
      var head := if ActiveFor(s, user) then s.(isActive := Some(false), disconnectedAt := Some(now)) else s;
      [head] + DisconnectRows(sessions[1..], user, now)
  }

  /** After a disconnect the caller has no active session left. */
  lemma NoActiveAfterDisconnect(sessions: seq<VpnSession>, user: UserId, now: int)
    ensures forall s :: s in DisconnectRows(sessions, user, now) ==> !ActiveFor(s, user)
  {
    var r := DisconnectRows(sessions, user, now);
    forall s | s in r ensures !ActiveFor(s, user) {
      var i :| 0 <= i < |r| && r[i] == s;
      assert i < |sessions|;
    }
  }

  /** A second disconnect matches nothing, whenever it happens. */
  lemma DisconnectTwice(sessions: seq<VpnSession>, user: UserId, t1: int, t2: int)
    ensures DisconnectRows(DisconnectRows(sessions, user, t1), user, t2) == DisconnectRows(sessions, user, t1)
  {
    var once := DisconnectRows(sessions, user, t1);
    var twice := DisconnectRows(once, user, t2);
    forall i | 0 <= i < |once| ensures twice[i] == once[i] {
      assert !ActiveFor(once[i], user);
    }
  }

  // ---------------------------------------------------------------------------
  // upload-secure-file

  /**
   * The vault record for `fileData`; `keyHash` and `storagePath` are what the
   * encryption placeholder produced. `file_name` is NOT NULL text.
   */
  function NewSecureFile(id: string, user: UserId, fileData: Json, keyHash: string, storagePath: string)
    : (r: Result<SecureFile, StoreError>)
    ensures r.Ok? <==> Field(fileData, "name").Some? && Field(fileData, "name").value.JStr?
    ensures r.Ok? ==>
      && r.value.userId == user
      && r.value.fileName == Field(fileData, "name")
      && r.value.fileSize == Field(fileData, "size")
      && r.value.mimeType == Field(fileData, "type")
      && r.value.keyHash == keyHash && r.value.storagePath == storagePath
  {
    var name := Field(fileData, "name");
    if name.Some? && name.value.JStr? then
      Ok(SecureFile(id, user, name, Field(fileData, "size"), Field(fileData, "type"), keyHash, storagePath))
    else Err(Violation("file_name"))
  }

  // ---------------------------------------------------------------------------
  // The action switch

  datatype PrivacyAction =
    | GetSettings(user: UserId)
    | UpdateSettings(user: UserId, settings: Option<Json>)
    | ConnectVpn(user: UserId, serverLocation: Option<Json>)
    | DisconnectVpn(user: UserId)
    | UploadSecureFile(user: UserId, fileData: Json)
    | GetBlocklist

  datatype PrivacyBody =
    | SettingsOf(settings: PrivacyRow)
    | Done
    | SessionOf(session: VpnSession)
    | FileOf(file: SecureFile)
    | BlocklistOf(blocklist: seq<string>)

  datatype Routed = Rejected(response: Response<PrivacyBody>) | Run(action: PrivacyAction)

  const Actions: set<Option<Json>> := {
    Some(JStr("get-settings")), Some(JStr("update-settings")), Some(JStr("connect-vpn")),
    Some(JStr("disconnect-vpn")), Some(JStr("upload-secure-file")), Some(JStr("get-blocklist"))}

  /**
   * The action switch after the gate. The encryption placeholder reads `fileData.name`
   * first, so a missing or null `fileData` throws and ends in the 500 answer.
   */
  function Route(g: Gate): (r: Routed)
    ensures !g.Admitted? ==> r == Rejected(GateResponse(g))
    ensures g.Admitted? && Field(g.body, "action") !in Actions ==> r == Rejected(Fail(400, Text("Invalid action")))
    ensures g.Admitted? && Field(g.body, "action") == Some(JStr("upload-secure-file")) ==>
      (r.Rejected? <==> Field(g.body, "fileData") in {None, Some(JNull)})
    ensures r.Rejected? && g.Admitted? ==> r.response.Fail? && r.response.status in {400, 500}
    ensures r.Run? ==> g.Admitted? && Field(g.body, "action") in Actions
    ensures r.Run? ==> match r.action
      case GetSettings(u) => u == g.user && Field(g.body, "action") == Some(JStr("get-settings"))
      case UpdateSettings(u, s) =>
        u == g.user && Field(g.body, "action") == Some(JStr("update-settings")) && s == Field(g.body, "settings")
      case ConnectVpn(u, loc) =>
        u == g.user && Field(g.body, "action") == Some(JStr("connect-vpn")) && loc == Field(g.body, "serverLocation")
      case DisconnectVpn(u) => u == g.user && Field(g.body, "action") == Some(JStr("disconnect-vpn"))
      case UploadSecureFile(u, f) =>
        u == g.user && Field(g.body, "action") == Some(JStr("upload-secure-file")) && Field(g.body, "fileData") == Some(f)
      case GetBlocklist => Field(g.body, "action") == Some(JStr("get-blocklist"))
  {
    match g
    case Denied(_, _) => Rejected(GateResponse(g))
    case Crashed => Rejected(GateResponse(g))
    case Admitted(user, body) =>
      var action := Field(body, "action");
      if action == Some(JStr("get-settings")) then Run(GetSettings(user))
      else if action == Some(JStr("update-settings")) then Run(UpdateSettings(user, Field(body, "settings")))
      else if action == Some(JStr("connect-vpn")) then Run(ConnectVpn(user, Field(body, "serverLocation")))
      else if action == Some(JStr("disconnect-vpn")) then Run(DisconnectVpn(user))
      else if action == Some(JStr("upload-secure-file")) then
        var fileData := Field(body, "fileData");
        if fileData.None? || fileData.value == JNull then Rejected(Fail(500, InternalError))
        else Run(UploadSecureFile(user, fileData.value))
      else if action == Some(JStr("get-blocklist")) then Run(GetBlocklist)
      else Rejected(Fail(400, Text("Invalid action")))
  }

  // ---------------------------------------------------------------------------
  // The handlers, over the in-memory tables

  datatype PrivacyRequest = PrivacyRequest(authorization: Option<string>, body: Option<Json>)

  /**
   * What the environment decides: token resolution, the clock, the id of a new row,
   * the encryption placeholder's key hash and storage path, and whether the store
   * fails the action's call.
   */
  datatype PrivacyEnv = PrivacyEnv(
    tokens: map<string, UserId>, now: int, freshId: string,
    keyHash: string, storagePath: string, fault: Option<StoreError>)

  predicate OwnedBy(row: PrivacyRow, user: UserId) {
    row.userId == Some(user)
  }

  /** The caller's rows of `privacy_settings`, in table order. */
  function RowsOf(rows: seq<PrivacyRow>, user: UserId): (r: seq<PrivacyRow>)
    ensures |r| <= |rows|
    ensures forall x :: x in r <==> x in rows && OwnedBy(x, user)
    ensures forall x :: multiset(r)[x] == if OwnedBy(x, user) then multiset(rows)[x] else 0
  {
    if rows == [] then []
    else
      assert rows == [rows[0]] + rows[1..];
      (if OwnedBy(rows[0], user) then [rows[0]] else []) + RowsOf(rows[1..], user)
  }

  /** get-settings: `.single()` wants exactly one row of the caller's. */
  method GetSettingsOf(db: PrivacyDb, user: UserId, env: PrivacyEnv) returns (resp: Response<PrivacyBody>)
    ensures env.fault.Some? ==> resp == Fail(400, StoreMessage(env.fault.value))
    ensures env.fault.None? ==>
      var mine := RowsOf(db.settings, user);
      && (|mine| == 1 ==> resp == Reply(SettingsOf(mine[0])) && mine[0] in db.settings && OwnedBy(mine[0], user))
      && (|mine| != 1 ==> resp == Fail(400, StoreMessage(NotSingle)))
  {
    if env.fault.Some? {
      return Fail(400, StoreMessage(env.fault.value));
    }
    var mine := RowsOf(db.settings, user);
    if |mine| == 1 {
      resp := Reply(SettingsOf(mine[0]));
    } else {
      resp := Fail(400, StoreMessage(NotSingle));
    }
  }

  /** update-settings: only the caller's rows, only the supplied columns. */
  method UpdateSettingsOf(db: PrivacyDb, user: UserId, settings: Option<Json>, env: PrivacyEnv)
    returns (resp: Response<PrivacyBody>)
    modifies db`settings
    ensures var patch := ParsePatch(settings);
      && (env.fault.Some? ==> resp == Fail(400, StoreMessage(env.fault.value)) && db.settings == old(db.settings))
      && (env.fault.None? && patch.Err? ==> resp == Fail(400, StoreMessage(patch.error)) && db.settings == old(db.settings))
      && (env.fault.None? && patch.Ok? ==>
            resp == Reply(Done) && db.settings == UpdateSettingsRows(old(db.settings), user, patch.value))
  {
    if env.fault.Some? {
      return Fail(400, StoreMessage(env.fault.value));
    }
    var patch := ParsePatch(settings);
    if patch.Err? {
      return Fail(400, StoreMessage(patch.error));
    }
    db.settings := UpdateSettingsRows(db.settings, user, patch.value);
    resp := Reply(Done);
  }

  /** connect-vpn: one new active session; existing sessions, active or not, are left as they are. */
  method ConnectVpnFor(db: PrivacyDb, user: UserId, serverLocation: Option<Json>, env: PrivacyEnv)
    returns (resp: Response<PrivacyBody>)
    modifies db`sessions
    ensures var session := NewSession(env.freshId, user, serverLocation);
      && (env.fault.Some? ==> resp == Fail(400, StoreMessage(env.fault.value)) && db.sessions == old(db.sessions))
      && (env.fault.None? && session.Err? ==>
            resp == Fail(400, StoreMessage(session.error)) && db.sessions == old(db.sessions))
      && (env.fault.None? && session.Ok? ==>
            resp == Reply(SessionOf(session.value)) && db.sessions == old(db.sessions) + [session.value])
  {
    if env.fault.Some? {
      return Fail(400, StoreMessage(env.fault.value));
    }
    var session := NewSession(env.freshId, user, serverLocation);
    if session.Err? {
      return Fail(400, StoreMessage(session.error));
    }
    db.sessions := db.sessions + [session.value];
    resp := Reply(SessionOf(session.value));
  }

  /** disconnect-vpn: every active session of the caller is closed at `now`. */
  method DisconnectVpnFor(db: PrivacyDb, user: UserId, env: PrivacyEnv) returns (resp: Response<PrivacyBody>)
    modifies db`sessions
    ensures env.fault.Some? ==> resp == Fail(400, StoreMessage(env.fault.value)) && db.sessions == old(db.sessions)
    ensures env.fault.None? ==> resp == Reply(Done) && db.sessions == DisconnectRows(old(db.sessions), user, env.now)
  {
    if env.fault.Some? {
      return Fail(400, StoreMessage(env.fault.value));
    }
    db.sessions := DisconnectRows(db.sessions, user, env.now);
    resp := Reply(Done);
  }

  /** upload-secure-file: one vault record for the caller. */
  method UploadSecureFileFor(db: PrivacyDb, user: UserId, fileData: Json, env: PrivacyEnv)
    returns (resp: Response<PrivacyBody>)
    modifies db`files
    ensures var file := NewSecureFile(env.freshId, user, fileData, env.keyHash, env.storagePath);
      && (env.fault.Some? ==> resp == Fail(400, StoreMessage(env.fault.value)) && db.files == old(db.files))
      && (env.fault.None? && file.Err? ==> resp == Fail(400, StoreMessage(file.error)) && db.files == old(db.files))
      && (env.fault.None? && file.Ok? ==> resp == Reply(FileOf(file.value)) && db.files == old(db.files) + [file.value])
  {
    if env.fault.Some? {
      return Fail(400, StoreMessage(env.fault.value));
    }
    var file := NewSecureFile(env.freshId, user, fileData, env.keyHash, env.storagePath);
    if file.Err? {
      return Fail(400, StoreMessage(file.error));
    }
    db.files := db.files + [file.value];
    resp := Reply(FileOf(file.value));
  }

  /** One request to the edge function, end to end. Each action touches at most its own table. */
  method HandleRequest(db: PrivacyDb, req: PrivacyRequest, env: PrivacyEnv) returns (resp: Response<PrivacyBody>)
    modifies db
    ensures var r := Route(CheckGate(req.authorization, env.tokens, req.body));
      && (r.Rejected? ==> resp == r.response)
      && (r.Rejected? || r.action.GetSettings? || r.action.GetBlocklist? ==>
            db.settings == old(db.settings) && db.sessions == old(db.sessions) && db.files == old(db.files))
      && (r.Run? && r.action.GetBlocklist? ==> resp == Reply(BlocklistOf(Blocklist)))
      && (r.Run? && r.action.UpdateSettings? ==> db.sessions == old(db.sessions) && db.files == old(db.files))
      && (r.Run? && (r.action.ConnectVpn? || r.action.DisconnectVpn?) ==>
            db.settings == old(db.settings) && db.files == old(db.files))
      && (r.Run? && r.action.UploadSecureFile? ==> db.settings == old(db.settings) && db.sessions == old(db.sessions))
      && (r.Run? && r.action.DisconnectVpn? && env.fault.None? ==>
            resp == Reply(Done) && db.sessions == DisconnectRows(old(db.sessions), r.action.user, env.now))
      && (r.Run? && r.action.ConnectVpn? && env.fault.None? ==>
            var session := NewSession(env.freshId, r.action.user, r.action.serverLocation);
            session.Ok? ==> resp == Reply(SessionOf(session.value)) && db.sessions == old(db.sessions) + [session.value])
      && (r.Run? && r.action.UpdateSettings? && env.fault.None? ==>
            var patch := ParsePatch(r.action.settings);
            patch.Ok? ==> resp == Reply(Done) && db.settings == UpdateSettingsRows(old(db.settings), r.action.user, patch.value))
    ensures resp.Fail? ==> resp.status in {400, 401, 500}
  {
    var r := Route(CheckGate(req.authorization, env.tokens, req.body));
    match r
    case Rejected(response) =>
      resp := response;
    case Run(action) =>
      match action
      case GetSettings(user) =>
        resp := GetSettingsOf(db, user, env);
      case UpdateSettings(user, settings) =>
        resp := UpdateSettingsOf(db, user, settings, env);
      case ConnectVpn(user, serverLocation) =>
        resp := ConnectVpnFor(db, user, serverLocation, env);
      case DisconnectVpn(user) =>
        resp := DisconnectVpnFor(db, user, env);
      case UploadSecureFile(user, fileData) =>
        resp := UploadSecureFileFor(db, user, fileData, env);
      case GetBlocklist =>
        resp := Reply(BlocklistOf(Blocklist));
  }
}
