/**
 * The installation synchronizer as functions over the persisted preferences.
 * The functions here specify the methods of `Synchronizer.InstallationSynchronizer` and the
 * helpers those methods use.
 */
module SyncSpec {
  import opened Wrappers
  import opened Strings
  import opened Installations

  /** The persisted preferences the synchronizer reads and writes. */
  datatype Prefs = Prefs(
    pushRegId: Option<string>,                      // the local device's registration id
    cloudToken: Option<string>,                     // the push token obtained from the platform
    cloudTokenReported: bool,
    applicationUserId: Option<string>,
    applicationUserIdReported: bool,
    pushServiceTypeReported: bool,
    unreportedPrimary: Option<bool>,                // the primary setting still to be sent
    primary: bool,                                  // the saved primary setting
    regEnabled: bool,                               // push registration enabled
    customAtts: Option<CustomAttributes>,           // reported custom attributes
    unreportedCustomAtts: Option<CustomAttributes>, // custom attributes still to be acknowledged
    reportSystemInfo: bool,                         // the user allows reporting device details
    reportedSystemDataHash: int,
    unreportedSystemData: Option<SystemData>)       // the snapshot staged for reporting

  /** What the synchronizer takes from the platform: OS name, push transport, and `SystemData.hashCode`. */
  datatype Env = Env(os: string, pushServiceType: string, hashOf: SystemData -> int)

  datatype Exception = NullPointerException

  /** The remote call a cycle issues. A patch target may be null. */
  datatype Call =
    | NoCall
    | CreateCall(payload: Installation)
    | PatchCall(target: Option<string>, payload: Installation)
    | GetCall(id: string)

  /** What the caller's listener receives; `Thrown` is an exception out of the call itself. */
  datatype Reply = Silent | OnSuccess(installation: Installation) | OnError(error: string) | Thrown(exception: Exception)

  /** How the registry answers a create: an error, a null record, or the created record. */
  datatype CreateOutcome = CreateFailed(error: string) | CreatedNull | Created(instance: Installation)

  datatype PatchOutcome = PatchFailed(error: string) | Patched

  datatype FetchOutcome = FetchFailed(error: string) | Fetched(instance: Installation)

  /** The preferences after a cycle, the remote call it made and the listener's reply. */
  datatype Step = Step(state: Prefs, call: Call, reply: Reply)

  datatype Decision = DoCreate | DoPatch | DoNothing

  /** The delta sync builds, the preferences after staging the snapshot, and the decision taken. */
  datatype Plan = Plan(staged: Prefs, delta: Installation, decision: Decision)

  // ---------------------------------------------------------------- change detection

  /**
   * The snapshot for the readings `device`. With reporting disabled, the fields that identify
   * the user's device are blanked and the device is not reported as secure.
   */
  function Snapshot(reportEnabled: bool, device: SystemData): (d: SystemData)
    ensures d.sdkVersion == device.sdkVersion && d.geofencing == device.geofencing
    ensures d.notificationsEnabled == device.notificationsEnabled
    ensures reportEnabled ==> d == device
    ensures !reportEnabled ==>
              && d.osVersion == "" && d.deviceManufacturer == "" && d.deviceModel == ""
              && d.applicationVersion == "" && d.osLanguage == "" && d.deviceName == ""
              && !d.deviceSecure
  {
    SystemData(
      device.sdkVersion,
      if reportEnabled then device.osVersion else "",
      if reportEnabled then device.deviceManufacturer else "",
      if reportEnabled then device.deviceModel else "",
      if reportEnabled then device.applicationVersion else "",
      device.geofencing,
      device.notificationsEnabled,
      reportEnabled && device.deviceSecure,
      if reportEnabled then device.osLanguage else "",
      if reportEnabled then device.deviceName else "")
  }

  /** The snapshot to report: present exactly when its hash differs from the last one reported. */
  function ReportableSystemData(s: Prefs, device: SystemData, env: Env): (r: Option<SystemData>)
    ensures r.Some? <==> s.reportedSystemDataHash != env.hashOf(Snapshot(s.reportSystemInfo, device))
    ensures r.Some? ==> r.value == Snapshot(s.reportSystemInfo, device)
  {
    var data := Snapshot(s.reportSystemInfo, device);
    if s.reportedSystemDataHash != env.hashOf(data) then Some(data) else None
  }

  /** Persists a snapshot that is to be reported; only the staged snapshot changes. */
  function StageSystemData(s: Prefs, data: Option<SystemData>): (t: Prefs)
    ensures t.unreportedSystemData == if data.Some? then data else s.unreportedSystemData
    ensures t.(unreportedSystemData := s.unreportedSystemData) == s
  {
    if data.Some? then s.(unreportedSystemData := data) else s
  }

  /** The installation that carries `data`: the whole snapshot, the OS name, and nothing else. */
  function From(data: SystemData, os: string): (d: Installation)
    ensures SystemDataOf(d) == Some(data)
    ensures d.os == Some(os)
    ensures WithoutSystemData(d) == Empty
  {
    Empty.(sdkVersion := Some(data.sdkVersion), osVersion := Some(data.osVersion),
           deviceManufacturer := Some(data.deviceManufacturer), deviceModel := Some(data.deviceModel),
           appVersion := Some(data.applicationVersion), geoEnabled := Some(data.geofencing),
           notificationsEnabled := Some(data.notificationsEnabled), deviceSecure := Some(data.deviceSecure),
           osLanguage := Some(data.osLanguage), deviceName := Some(data.deviceName), os := Some(os))
  }

  /** A usable token exists and has not been reported. */
  function TokenPresentAndUnreported(s: Prefs): (r: bool)
    ensures r <==> !s.cloudTokenReported && s.cloudToken.Some?
                   && exists i :: 0 <= i < |s.cloudToken.value| && !IsWhitespace(s.cloudToken.value[i])
  {
    !s.cloudTokenReported && IsNotBlank(s.cloudToken)
  }

  /** Some marker says a field still has to reach the registry. */
  predicate SomethingUnreported(s: Prefs, sys: Option<SystemData>) {
    || sys.Some?
    || TokenPresentAndUnreported(s)
    || !s.pushServiceTypeReported
    || s.unreportedPrimary.Some?
    || !s.applicationUserIdReported
  }

  /**
   * The delta sync builds from the markers, given the snapshot to report (if any).
   * Each field is present exactly when its marker says it is unreported; the registration
   * flag only ever accompanies another field.
   */
  function PendingDelta(s: Prefs, sys: Option<SystemData>, env: Env): (d: Installation)
    ensures d.pushRegId.None? && d.customAttributes.None?
    ensures SystemDataOf(d) == sys && d.os == (if sys.Some? then Some(env.os) else None)
    ensures sys.None? ==> WithoutSystemData(d) == d
    ensures d.pushServiceToken == if TokenPresentAndUnreported(s) then s.cloudToken else None
    ensures d.pushServiceType == if s.pushServiceTypeReported then None else Some(env.pushServiceType)
    ensures d.primary == s.unreportedPrimary
    ensures d.applicationUserId == if s.applicationUserIdReported then None else Some(s.applicationUserId)
    ensures d.regEnabled.Some? <==> HasDataToReport(d.(regEnabled := None))
    ensures d.regEnabled.Some? ==> d.regEnabled == Some(s.regEnabled)
    ensures HasDataToReport(d) <==> SomethingUnreported(s, sys)
  {
    var d0 := if sys.Some? then From(sys.value, env.os) else Empty;
    var d1 := if TokenPresentAndUnreported(s) then d0.(pushServiceToken := s.cloudToken) else d0;
    var d2 := if !s.pushServiceTypeReported then d1.(pushServiceType := Some(env.pushServiceType)) else d1;
    var d3 := if s.unreportedPrimary.Some? then d2.(primary := s.unreportedPrimary) else d2;
    var d4 := if !s.applicationUserIdReported then d3.(applicationUserId := Some(s.applicationUserId)) else d3;
    if HasDataToReport(d4) then d4.(regEnabled := Some(s.regEnabled)) else d4
  }

  /** Create when there is no identity and a fresh token; otherwise patch when there is data. */
  function Decide(s: Prefs, d: Installation): (r: Decision)
    ensures r == DoCreate <==> s.pushRegId.None? && TokenPresentAndUnreported(s)
    ensures r == DoPatch <==> s.pushRegId.Some? && HasDataToReport(d)
  {
    if s.pushRegId.None? then
      if TokenPresentAndUnreported(s) then DoCreate else DoNothing
    else
      if HasDataToReport(d) then DoPatch else DoNothing
  }

  /**
   * Change detection and the decision of one sync. With no identity, only a fresh token leads
   * to a create and nothing leads to a patch; with an identity, a patch is issued exactly when
   * something is unreported.
   */
  function PlanSync(s: Prefs, device: SystemData, env: Env): (p: Plan)
    ensures p.staged.(unreportedSystemData := s.unreportedSystemData) == s
    ensures p.staged.unreportedSystemData ==
              if ReportableSystemData(s, device, env).Some? then ReportableSystemData(s, device, env)
              else s.unreportedSystemData
    ensures p.delta == PendingDelta(s, ReportableSystemData(s, device, env), env)
    ensures s.pushRegId.None? ==> p.decision != DoPatch
    ensures s.pushRegId.None? ==> (p.decision == DoCreate <==> TokenPresentAndUnreported(s))
    ensures s.pushRegId.Some? ==> p.decision != DoCreate
    ensures s.pushRegId.Some? ==>
              (p.decision == DoPatch <==> SomethingUnreported(s, ReportableSystemData(s, device, env)))
  {
    var sys := ReportableSystemData(s, device, env);
    var staged := StageSystemData(s, sys);
    var d := PendingDelta(staged, sys, env);
    Plan(staged, d, Decide(staged, d))
  }

  // ---------------------------------------------------------------- device identity

  /** The patch concerns the local device: it names no device, or names the local one. */
  predicate OwnDevice(d: Installation, localId: Option<string>) {
    d.pushRegId.None? || d.pushRegId == localId
  }

  /**
   * `isMyDevice`: comparing a named device with a missing local id throws; otherwise the
   * answer is whether the installation concerns the local device.
   */
  function IsMyDevice(installation: Installation, myPushRegId: Option<string>): (r: Result<bool, Exception>)
    ensures r.Failure? <==> installation.pushRegId.Some? && myPushRegId.None?
    ensures r.Success? ==> (r.value <==> OwnDevice(installation, myPushRegId))
  {
    match installation.pushRegId
    case None => Success(true)
    case Some(id) =>
      if myPushRegId.None? then Failure(NullPointerException) else Success(myPushRegId.value == id)
  }

  // ---------------------------------------------------------------- commit and rollback

  /** Custom attributes after `putAll`: every unreported entry, then reported ones not overridden. */
  function MergeCustomAttributes(reported: Option<CustomAttributes>, unreported: CustomAttributes): (m: CustomAttributes)
    ensures m.Keys == unreported.Keys + (if reported.Some? then reported.value.Keys else {})
    ensures forall k :: k in unreported ==> m[k] == unreported[k]
    ensures forall k :: k in m && k !in unreported ==> reported.Some? && k in reported.value && m[k] == reported.value[k]
  {
    (if reported.Some? then reported.value else map[]) + unreported
  }

  /** Resetting the token marker after a failure; nothing else is touched, so all else is retried. */
  function Rollback(s: Prefs): (t: Prefs)
    ensures !t.cloudTokenReported
    ensures t.(cloudTokenReported := s.cloudTokenReported) == s
  {
    s.(cloudTokenReported := false)
  }

  /** Saving a registration id; a null id leaves the stored one. */
  function SavePushRegistrationId(s: Prefs, id: Option<string>): (t: Prefs)
    ensures t.pushRegId == if id.Some? then id else s.pushRegId
    ensures t.(pushRegId := s.pushRegId) == s
  {
    if id.Some? then s.(pushRegId := id) else s
  }

  /** Saving the registration-enabled flag; a null flag leaves the stored one. */
  function SavePushRegistrationEnabled(s: Prefs, enabled: Option<bool>): (t: Prefs)
    ensures t.regEnabled == enabled.GetOr(s.regEnabled)
    ensures t.(regEnabled := s.regEnabled) == s
  {
    if enabled.Some? then s.(regEnabled := enabled.value) else s
  }

  /**
   * Success for another device: the local primary marker is dropped and the local device is
   * demoted; nothing else changes.
   */
  function CommitForeign(s: Prefs): (t: Prefs)
    ensures t.unreportedPrimary.None? && !t.primary
    ensures t.(unreportedPrimary := s.unreportedPrimary, primary := s.primary) == s
  {
    s.(unreportedPrimary := None, primary := false)
  }

  /** Unreported custom attributes, when there are any, are merged over the reported ones and the buffer is cleared. */
  function CommitCustomAttributes(s: Prefs): (t: Prefs)
    ensures t.unreportedCustomAtts.None?
    ensures t.customAtts ==
              if s.unreportedCustomAtts.Some? then Some(MergeCustomAttributes(s.customAtts, s.unreportedCustomAtts.value))
              else s.customAtts
    ensures t.(unreportedCustomAtts := s.unreportedCustomAtts, customAtts := s.customAtts) == s
  {
    if s.unreportedCustomAtts.Some? then
      s.(unreportedCustomAtts := None,
         customAtts := Some(MergeCustomAttributes(s.customAtts, s.unreportedCustomAtts.value)))
    else s
  }

  /** The staged snapshot becomes the reported one (its hash is recorded). */
  function MarkSystemDataReported(s: Prefs, env: Env): (t: Prefs)
    ensures t.unreportedSystemData.None?
    ensures t.reportedSystemDataHash ==
              if s.unreportedSystemData.Some? then env.hashOf(s.unreportedSystemData.value)
              else s.reportedSystemDataHash
    ensures t.(unreportedSystemData := s.unreportedSystemData, reportedSystemDataHash := s.reportedSystemDataHash) == s
  {
    if s.unreportedSystemData.Some? then
      s.(reportedSystemDataHash := env.hashOf(s.unreportedSystemData.value), unreportedSystemData := None)
    else s
  }

  /** Nothing is left to report: every marker says "reported" and no buffer is pending. */
  predicate AllReported(t: Prefs) {
    && t.unreportedPrimary.None?
    && t.cloudTokenReported
    && t.applicationUserIdReported
    && t.pushServiceTypeReported
    && t.unreportedCustomAtts.None?
    && t.unreportedSystemData.None?
  }

  /**
   * Success for the local device, with `inst` the installation acknowledged: every pending
   * marker is committed, the acknowledged primary and registration flags are saved when present,
   * and unreported custom attributes are merged over the reported ones.
   */
  function CommitOwn(s: Prefs, inst: Installation, env: Env): (t: Prefs)
    ensures AllReported(t)
    ensures t.primary == inst.primary.GetOr(s.primary)
    ensures t.regEnabled == inst.regEnabled.GetOr(s.regEnabled)
    ensures t.customAtts ==
              if s.unreportedCustomAtts.Some? then Some(MergeCustomAttributes(s.customAtts, s.unreportedCustomAtts.value))
              else s.customAtts
    ensures t.reportedSystemDataHash ==
              if s.unreportedSystemData.Some? then env.hashOf(s.unreportedSystemData.value)
              else s.reportedSystemDataHash
    ensures t.pushRegId == s.pushRegId && t.cloudToken == s.cloudToken
    ensures t.applicationUserId == s.applicationUserId && t.reportSystemInfo == s.reportSystemInfo
  {
    var s1 := s.(unreportedPrimary := None);
    var s2 := if inst.primary.Some? then s1.(primary := inst.primary.value) else s1;
    var s3 := SavePushRegistrationEnabled(s2, inst.regEnabled);
    var s4 := s3.(cloudTokenReported := true, applicationUserIdReported := true);
    MarkSystemDataReported(CommitCustomAttributes(s4), env).(pushServiceTypeReported := true)
  }

  /** `updateInstallationReported`. */
  function Commit(s: Prefs, inst: Installation, myDevice: bool, env: Env): (t: Prefs)
    ensures t.unreportedPrimary.None?
    ensures myDevice ==> AllReported(t) && t.primary == inst.primary.GetOr(s.primary)
    ensures !myDevice ==> !t.primary && t.(unreportedPrimary := s.unreportedPrimary, primary := s.primary) == s
  {
    if myDevice then CommitOwn(s, inst, env) else CommitForeign(s)
  }

  // ---------------------------------------------------------------- remote exchanges

  /**
   * One create: the token is marked reported before the call; an error or a null record
   * undoes exactly that and leaves the identity unknown, a null record without a listener
   * call; a created record stores its id (when not null) and commits as the local device.
   */
  function CreateCycle(s: Prefs, d: Installation, o: CreateOutcome, env: Env): (r: Step)
    ensures r.call == CreateCall(d)
    ensures !o.Created? ==> r.state == s.(cloudTokenReported := false)
    ensures o.CreatedNull? ==> r.reply == Silent
    ensures o.CreateFailed? ==> r.reply == OnError(o.error)
    ensures o.Created? ==>
              && r.reply == OnSuccess(o.instance)
              && r.state.pushRegId == (if o.instance.pushRegId.Some? then o.instance.pushRegId else s.pushRegId)
              && AllReported(r.state)
              && r.state.primary == o.instance.primary.GetOr(s.primary)
    ensures o.Created? ==>
              r.state == CommitOwn(SavePushRegistrationId(s.(cloudTokenReported := true), o.instance.pushRegId), o.instance, env)
  {
    var running := s.(cloudTokenReported := true);
    match o
    case CreateFailed(e) => Step(Rollback(running), CreateCall(d), OnError(e))
    case CreatedNull => Step(Rollback(running), CreateCall(d), Silent)
    case Created(inst) =>
      Step(Commit(SavePushRegistrationId(running, inst.pushRegId), inst, true, env), CreateCall(d), OnSuccess(inst))
  }

  /**
   * One patch: the target is the local id for the local device and the named id otherwise;
   * naming a device without a local id throws before any call; failure resets the token
   * marker only; success commits for the local or for the other device.
   */
  function PatchCycle(s: Prefs, d: Installation, o: PatchOutcome, env: Env): (r: Step)
    ensures r.reply.Thrown? <==> d.pushRegId.Some? && s.pushRegId.None?
    ensures r.reply.Thrown? ==> r.state == s && r.call == NoCall
    ensures !r.reply.Thrown? ==>
              r.call == PatchCall(if OwnDevice(d, s.pushRegId) then s.pushRegId else d.pushRegId, d)
    ensures !r.reply.Thrown? && o.PatchFailed? ==> r.state == Rollback(s) && r.reply == OnError(o.error)
    ensures !r.reply.Thrown? && o.Patched? ==>
              && r.reply == OnSuccess(d)
              && r.state == (if OwnDevice(d, s.pushRegId) then CommitOwn(s, d, env) else CommitForeign(s))
  {
    match IsMyDevice(d, s.pushRegId)
    case Failure(e) => Step(s, NoCall, Thrown(e))
    case Success(myDevice) =>
      var target := if myDevice then s.pushRegId else d.pushRegId;
      match o
      case PatchFailed(e) => Step(Rollback(s), PatchCall(target, d), OnError(e))
      case Patched => Step(Commit(s, d, myDevice, env), PatchCall(target, d), OnSuccess(d))
  }

  /**
   * One sync cycle. Without an identity it creates exactly when the token is fresh and never
   * patches; with one it patches the local record exactly when something is unreported.
   * It never throws, and when it makes no call it only stages the snapshot.
   */
  function SyncCycle(s: Prefs, device: SystemData, env: Env, onCreate: CreateOutcome, onPatch: PatchOutcome): (r: Step)
    ensures s.pushRegId.None? ==> !r.call.PatchCall?
    ensures r.call.CreateCall? <==> s.pushRegId.None? && TokenPresentAndUnreported(s)
    ensures r.call.PatchCall? <==> s.pushRegId.Some? && SomethingUnreported(s, ReportableSystemData(s, device, env))
    ensures r.call.PatchCall? ==> r.call.target == s.pushRegId
    ensures !r.call.GetCall? && !r.reply.Thrown?
    ensures r.call.NoCall? ==> r.reply == Silent && r.state.(unreportedSystemData := s.unreportedSystemData) == s
    ensures r.call.NoCall? ==> r.state == PlanSync(s, device, env).staged
    ensures var p := PlanSync(s, device, env);
            p.decision == DoCreate ==> r == CreateCycle(p.staged, p.delta, onCreate, env)
    ensures var p := PlanSync(s, device, env);
            p.decision == DoPatch ==> r == PatchCycle(p.staged, p.delta, onPatch, env)
  {
    var p := PlanSync(s, device, env);
    match p.decision
    case DoNothing => Step(p.staged, NoCall, Silent)
    case DoCreate => CreateCycle(p.staged, p.delta, onCreate, env)
    case DoPatch => PatchCycle(p.staged, p.delta, onPatch, env)
  }

  /** Server values for primary (when present) and custom attributes overwrite the local ones; no marker changes. */
  function ApplyFetched(s: Prefs, inst: Installation): (t: Prefs)
    ensures t.primary == inst.primary.GetOr(s.primary)
    ensures t.customAtts == inst.customAttributes
    ensures t.(primary := s.primary, customAtts := s.customAtts) == s
  {
    var s1 := if inst.primary.Some? then s.(primary := inst.primary.value) else s;
    s1.(customAtts := inst.customAttributes)
  }

  /** One fetch: nothing at all without an identity; an error changes nothing. */
  function FetchCycle(s: Prefs, o: FetchOutcome): (r: Step)
    ensures s.pushRegId.None? ==> r == Step(s, NoCall, Silent)
    ensures s.pushRegId.Some? ==> r.call == GetCall(s.pushRegId.value)
    ensures s.pushRegId.Some? && o.FetchFailed? ==> r.state == s && r.reply == OnError(o.error)
    ensures s.pushRegId.Some? && o.Fetched? ==> r.state == ApplyFetched(s, o.instance) && r.reply == OnSuccess(o.instance)
  {
    match s.pushRegId
    case None => Step(s, NoCall, Silent)
    case Some(id) =>
      match o
      case FetchFailed(e) => Step(s, GetCall(id), OnError(e))
      case Fetched(inst) => Step(ApplyFetched(s, inst), GetCall(id), OnSuccess(inst))
  }

  // ---------------------------------------------------------------- single-field updates

  /** The delta of `updateApplicationUserId`: that field and nothing else. */
  function ApplicationUserIdDelta(id: Option<string>): (d: Installation)
    ensures d.applicationUserId == Some(id) && d.(applicationUserId := None) == Empty
  {
    Empty.(applicationUserId := Some(id))
  }

  /** The delta of `updateCustomAttributes`: those attributes and nothing else. */
  function CustomAttributesDelta(atts: CustomAttributes): (d: Installation)
    ensures d.customAttributes == Some(atts) && d.(customAttributes := None) == Empty
  {
    Empty.(customAttributes := Some(atts))
  }

  /** The delta of `updatePushRegEnabledStatus`: that flag and nothing else. */
  function RegEnabledDelta(enabled: bool): (d: Installation)
    ensures d.regEnabled == Some(enabled) && d.(regEnabled := None) == Empty
  {
    Empty.(regEnabled := Some(enabled))
  }

  /** The delta of `updatePrimaryStatus`: the addressed device (or none) and the primary flag. */
  function PrimaryDelta(target: Option<string>, primary: bool): (d: Installation)
    ensures d.pushRegId == target && d.primary == Some(primary)
    ensures d.(pushRegId := None, primary := None) == Empty
  {
    Empty.(pushRegId := target, primary := Some(primary))
  }
}
