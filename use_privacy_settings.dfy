/**
 * The `usePrivacySettings` hook: the client's copy of the caller's privacy settings,
 * a loading flag and a VPN-connected flag, each updated after the matching call to
 * the `privacy-manager` edge function. Calls are recorded as the request bodies sent.
 */
module UsePrivacySettings {
  import opened Js
  import opened Schema
  import PrivacyManager

  const DefaultServerLocation := "US-East"

  /** Distinct settings have distinct column names. */
  lemma SettingNameInjective(a: Setting, b: Setting)
    ensures SettingName(a) == SettingName(b) ==> a == b
  {
    assert SettingNamed(SettingName(a)) == Some(a);
    assert SettingNamed(SettingName(b)) == Some(b);
  }

  /** The column name of a setting is one of the five and names that setting back. */
  lemma ColumnOf(s: Setting)
    ensures SettingName(s) in ColumnNames && SettingNamed(SettingName(s)) == Some(s)
  {
    match s
    case VpnEnabled =>
    case AdBlockerEnabled =>
    case TrackerBlockerEnabled =>
    case SecureDnsEnabled =>
    case DataCollectionConsent =>
  }

  /** A partial settings object as JSON: one boolean member per supplied setting. */
  function PatchJson(patch: Settings): (j: Json)
    ensures j.JObj?
    ensures forall s :: s in patch <==> SettingName(s) in j.fields
    ensures forall s :: s in patch ==> j.fields[SettingName(s)] == JBool(patch[s])
    ensures forall k :: k in j.fields ==> SettingNamed(k).Some? && j.fields[k].JBool?
  {
    forall s ensures SettingName(s) in ColumnNames && SettingNamed(SettingName(s)) == Some(s) {
      ColumnOf(s);
    }
    JObj(map k | k in ColumnNames && SettingNamed(k).Some? && SettingNamed(k).value in patch ::
           JBool(patch[SettingNamed(k).value]))
  }

  /** The server reads each setting back as the client sent it. */
  lemma PatchRoundTripAt(patch: Settings, s: Setting)
    ensures var r := PrivacyManager.ParsePatch(Some(PatchJson(patch)));
      && r.Ok?
      && (s in r.value <==> s in patch)
      && (s in patch ==> r.value[s] == Some(patch[s]))
  {
  }

  /**
   * What the client sends is what the edge function applies: the server reads the
   * patch back as exactly the client's settings.
   */
  lemma PatchRoundTrip(patch: Settings)
    ensures var r := PrivacyManager.ParsePatch(Some(PatchJson(patch)));
      r.Ok? && r.value == map s | s in patch :: Some(patch[s])
  {
    var r := PrivacyManager.ParsePatch(Some(PatchJson(patch)));
    var expected := map s | s in patch :: Some(patch[s]);
    forall s ensures (s in r.value <==> s in expected) && (s in expected ==> r.value[s] == expected[s]) {
      PatchRoundTripAt(patch, s);
    }
    assert r.value == expected;
  }

  const GetSettingsBody: Json := JObj(map["action" := JStr("get-settings")])
  const DisconnectBody: Json := JObj(map["action" := JStr("disconnect-vpn")])

  function UpdateBody(patch: Settings): Json {
    JObj(map["action" := JStr("update-settings"), "settings" := PatchJson(patch)])
  }

  function ConnectBody(serverLocation: string): Json {
    JObj(map["action" := JStr("connect-vpn"), "serverLocation" := JStr(serverLocation)])
  }

  /** `{ ...prev, ...newSettings }`: the supplied keys overwritten, the others kept. */
  function Merge(prev: Settings, patch: Settings): (r: Settings)
    ensures forall s :: s in patch ==> s in r && r[s] == patch[s]
    ensures forall s :: s !in patch ==> (s in r <==> s in prev) && (s in prev ==> r[s] == prev[s])
  {
    prev + patch
  }

  /** The client merge agrees with the server's update of the caller's row. */
  lemma MergeMatchesServer(prev: Settings, patch: Settings)
    ensures Merge(prev, patch) == PrivacyManager.ApplyPatch(prev, map s | s in patch :: Some(patch[s]))
  {
    var a := Merge(prev, patch);
    var b := PrivacyManager.ApplyPatch(prev, map s | s in patch :: Some(patch[s]));
    assert forall s :: s in a <==> s in b;
  }

  class PrivacySettingsHook {
    /** The caller's settings as last fetched; None until fetched, or when none were returned. */
    var settings: Option<Settings>
    var loading: bool
    var vpnConnected: bool
    /** Bodies of the edge-function calls, in order. */
    var calls: seq<Json>

    constructor ()
      ensures settings == None && loading && !vpnConnected && calls == []
    {
      settings := None;
      loading := true;
      vpnConnected := false;
      calls := [];
    }

    /** The effect on a session change: fetch only with a session. */
    method OnSession(session: Option<string>)
      modifies this`calls
      ensures session.None? ==> calls == old(calls)
      ensures session.Some? ==> calls == old(calls) + [GetSettingsBody]
    {
      if session.Some? {
        calls := calls + [GetSettingsBody];
      }
    }

    /**
     * A `get-settings` call completes: `response` is the returned settings (None for
     * a null row), or None for a failed call. Loading ends either way.
     */
    method FetchCompleted(response: Option<Option<Settings>>)
      modifies this`settings, this`loading
      ensures !loading
      ensures response.None? ==> settings == old(settings)
      ensures response.Some? ==> settings == response.value
    {
      if response.Some? {
        settings := response.value;
      }
      loading := false;
    }

    /** `updateSettings`; `ok` is whether the call succeeded. */
    method UpdateSettings(patch: Settings, ok: bool)
      modifies this`settings, this`calls
      ensures calls == old(calls) + [UpdateBody(patch)]
      ensures !ok ==> settings == old(settings)
      ensures ok && old(settings).None? ==> settings.None?
      ensures ok && old(settings).Some? ==> settings == Some(Merge(old(settings).value, patch))
    {
      calls := calls + [UpdateBody(patch)];
      if ok {
        settings := if settings.Some? then Some(Merge(settings.value, patch)) else None;
      }
    }

    /** `connectVPN`, whose location defaults to "US-East" when none is passed. */
    method ConnectVpn(serverLocation: Option<string>, ok: bool)
      modifies this`vpnConnected, this`calls
      ensures calls == old(calls) + [ConnectBody(serverLocation.GetOr(DefaultServerLocation))]
      ensures vpnConnected == (ok || old(vpnConnected))
    {
      var location := serverLocation.GetOr(DefaultServerLocation);
      calls := calls + [ConnectBody(location)];
      if ok {
        vpnConnected := true;
      }
    }

    /** `disconnectVPN`. */
    method DisconnectVpn(ok: bool)
      modifies this`vpnConnected, this`calls
      ensures calls == old(calls) + [DisconnectBody]
      ensures vpnConnected == (!ok && old(vpnConnected))
    {
      calls := calls + [DisconnectBody];
      if ok {
        vpnConnected := false;
      }
    }
  }

  /** One completed call to the VPN controls. */
  datatype VpnCall = Connect(ok: bool) | Disconnect(ok: bool)

  /** Call `j` succeeded and every later call failed. */
  predicate IsLastSuccess(calls: seq<VpnCall>, j: int) {
    0 <= j < |calls| && calls[j].ok && forall k :: j < k < |calls| ==> !calls[k].ok
  }

  /** The flag after a run of calls: set by the last successful call, unchanged by failures. */
  function LastSuccess(calls: seq<VpnCall>, initial: bool): (connected: bool)
    ensures (forall i :: 0 <= i < |calls| ==> !calls[i].ok) ==> connected == initial
    ensures forall j :: IsLastSuccess(calls, j) ==> connected == calls[j].Connect?
  {
    if calls == [] then initial
    else
      var last := calls[|calls| - 1];
      if last.ok then last.Connect?
      else
        var prefix := calls[..|calls| - 1];
        assert forall i :: 0 <= i < |prefix| ==> prefix[i] == calls[i];
        assert forall j :: IsLastSuccess(calls, j) ==> IsLastSuccess(prefix, j);
        LastSuccess(prefix, initial)
  }

  /** One more call: a success decides the flag, a failure leaves it as it was. */
  lemma LastSuccessStep(calls: seq<VpnCall>, i: nat, initial: bool)
    requires i < |calls|
    ensures LastSuccess(calls[..i + 1], initial) ==
      if calls[i].ok then calls[i].Connect? else LastSuccess(calls[..i], initial)
  {
    assert calls[..i + 1][|calls[..i + 1]| - 1] == calls[i];
    assert calls[..i + 1][..i] == calls[..i];
  }

  /** `vpnConnected` follows the last successful call, whatever the failures in between. */
  method VpnFlagFollowsLastSuccess(calls: seq<VpnCall>) returns (connected: bool)
    ensures connected == LastSuccess(calls, false)
  {
    var hook := new PrivacySettingsHook();
    var i := 0;
    while i < |calls|
      invariant 0 <= i <= |calls|
      invariant hook.vpnConnected == LastSuccess(calls[..i], false)
    {
      LastSuccessStep(calls, i, false);
      match calls[i] {
        case Connect(ok) => hook.ConnectVpn(None, ok);
        case Disconnect(ok) => hook.DisconnectVpn(ok);
      }
      i := i + 1;
    }
    assert calls[..i] == calls;
    connected := hook.vpnConnected;
  }

  /** Before the first fetch there is nothing to merge into: an update leaves `settings` null. */
  method UpdateBeforeFetch(patch: Settings) returns (settings: Option<Settings>, sent: seq<Json>)
    ensures settings == None
    ensures sent == [UpdateBody(patch)]
  {
    var hook := new PrivacySettingsHook();
    hook.UpdateSettings(patch, true);
    settings, sent := hook.settings, hook.calls;
  }
}
