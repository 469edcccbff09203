/**
 * `InstallationSynchronizer`: an object over the persisted preference store. Every method
 * saves and removes keys in the order the Java code does; each remote exchange is one
 * sequential call whose registry outcome is a parameter.
 */
module Synchronizer {
  import opened Wrappers
  import opened Installations
  import opened SyncSpec

  class InstallationSynchronizer {
    const env: Env

    /** The persisted preference store; saving or removing a key updates one field of it. */
    var prefs: Prefs

    constructor (env: Env, initial: Prefs)
      ensures this.env.os == env.os && this.env.pushServiceType == env.pushServiceType
      ensures this.env.hashOf == env.hashOf
      ensures prefs == initial
    {
      this.env := env;
      prefs := initial;
    }

    /** One full sync: detect the delta, create or patch, then commit or roll back. */
    method Sync(device: SystemData, onCreate: CreateOutcome, onPatch: PatchOutcome) returns (call: Call, reply: Reply)
      modifies this
      ensures Step(prefs, call, reply) == SyncCycle(old(prefs), device, env, onCreate, onPatch)
    {
      var systemDataForReport := SystemDataForReport(device);
      var installation, cloudTokenPresentAndUnreported := PendingInstallation(systemDataForReport);

      if prefs.pushRegId.None? {
        if cloudTokenPresentAndUnreported {
          call, reply := CreateInstance(installation, onCreate);
        } else {
          call, reply := NoCall, Silent;
        }
      } else {
        if HasDataToReport(installation) {
          call, reply := Patch(installation, onPatch);
        } else {
          call, reply := NoCall, Silent;
        }
      }
    }

    /**
     * The setters of `sync`: starting from the snapshot's installation (or an empty one), each
     * unreported marker adds its field, and the registration flag follows when anything was added.
     */
    method PendingInstallation(systemDataForReport: Option<SystemData>) returns (installation: Installation, cloudTokenPresentAndUnreported: bool)
      ensures installation == PendingDelta(prefs, systemDataForReport, env)
      ensures cloudTokenPresentAndUnreported == TokenPresentAndUnreported(prefs)
    {
      installation := Empty;
      if systemDataForReport.Some? {
        installation := From(systemDataForReport.value, env.os);
      }
      cloudTokenPresentAndUnreported := TokenPresentAndUnreported(prefs);
      if cloudTokenPresentAndUnreported {
        installation := installation.(pushServiceToken := prefs.cloudToken);
      }
      if !prefs.pushServiceTypeReported {
        installation := installation.(pushServiceType := Some(env.pushServiceType));
      }
      if prefs.unreportedPrimary.Some? {
        installation := installation.(primary := prefs.unreportedPrimary);
      }
      if !prefs.applicationUserIdReported {
        installation := installation.(applicationUserId := Some(prefs.applicationUserId));
      }
      if HasDataToReport(installation) {
        installation := installation.(regEnabled := Some(prefs.regEnabled));
      }
    }

    /** Sends a new application user id. */
    method UpdateApplicationUserId(id: Option<string>, outcome: PatchOutcome) returns (call: Call, reply: Reply)
      modifies this
      ensures Step(prefs, call, reply) == PatchCycle(old(prefs), ApplicationUserIdDelta(id), outcome, env)
    {
      call, reply := Patch(ApplicationUserIdDelta(id), outcome);
    }

    /** Sends new custom attributes. */
    method UpdateCustomAttributes(atts: CustomAttributes, outcome: PatchOutcome) returns (call: Call, reply: Reply)
      modifies this
      ensures Step(prefs, call, reply) == PatchCycle(old(prefs), CustomAttributesDelta(atts), outcome, env)
    {
      call, reply := Patch(CustomAttributesDelta(atts), outcome);
    }

    /** Sends the push registration flag. */
    method UpdatePushRegEnabledStatus(enabled: bool, outcome: PatchOutcome) returns (call: Call, reply: Reply)
      modifies this
      ensures Step(prefs, call, reply) == PatchCycle(old(prefs), RegEnabledDelta(enabled), outcome, env)
    {
      call, reply := Patch(RegEnabledDelta(enabled), outcome);
    }

    /** Sets the primary flag of the local device (`target == None`) or of the named one. */
    method UpdatePrimaryStatus(target: Option<string>, isPrimary: bool, outcome: PatchOutcome) returns (call: Call, reply: Reply)
      modifies this
      ensures Step(prefs, call, reply) == PatchCycle(old(prefs), PrimaryDelta(target, isPrimary), outcome, env)
    {
      call, reply := Patch(PrimaryDelta(target, isPrimary), outcome);
    }

    /** Creates the registry record; the token is marked reported before the call is made. */
    method CreateInstance(installation: Installation, outcome: CreateOutcome) returns (call: Call, reply: Reply)
      modifies this
      ensures Step(prefs, call, reply) == CreateCycle(old(prefs), installation, outcome, env)
    {
      SetCloudTokenReported(true);
      call := CreateCall(installation);
      match outcome {
        case CreatedNull =>
          SetCloudTokenReported(false);
          reply := Silent;
        case Created(returned) =>
          SetPushRegistrationId(returned.pushRegId);
          UpdateInstallationReported(returned, true);
          reply := OnSuccess(returned);
        case CreateFailed(e) =>
          SetCloudTokenReported(false);
          reply := OnError(e);
      }
    }

    /** Patches the local record, or the named one when the installation addresses another device. */
    method Patch(installation: Installation, outcome: PatchOutcome) returns (call: Call, reply: Reply)
      modifies this
      ensures Step(prefs, call, reply) == PatchCycle(old(prefs), installation, outcome, env)
    {
      var myDevice := IsMyDevice(installation, prefs.pushRegId);
      if myDevice.Failure? {
        return NoCall, Thrown(myDevice.error);
      }
      var pushRegIdToUpdate := if myDevice.value then prefs.pushRegId else installation.pushRegId;
      call := PatchCall(pushRegIdToUpdate, installation);
      match outcome {
        case Patched =>
          UpdateInstallationReported(installation, myDevice.value);
          reply := OnSuccess(installation);
        case PatchFailed(e) =>
          SetCloudTokenReported(false);
          reply := OnError(e);
      }
    }

    /** Commits the markers after a successful exchange for the local device or another one. */
    method UpdateInstallationReported(installation: Installation, myDevice: bool)
      modifies this
      ensures prefs == Commit(old(prefs), installation, myDevice, env)
    {
      if !myDevice {
        prefs := prefs.(unreportedPrimary := None);
        prefs := prefs.(primary := false);
        return;
      }
      prefs := prefs.(unreportedPrimary := None);
      if installation.primary.Some? {
        prefs := prefs.(primary := installation.primary.value);
      }
      ghost var s2 := prefs;
      SetPushRegistrationEnabled(installation.regEnabled);
      SetCloudTokenReported(true);
      prefs := prefs.(applicationUserIdReported := true);
      ghost var s4 := prefs;
      MergeUnreportedCustomAttributes();
      SetSystemDataReported();
      prefs := prefs.(pushServiceTypeReported := true);
      assert s4 == SavePushRegistrationEnabled(s2, installation.regEnabled).(cloudTokenReported := true, applicationUserIdReported := true);
    }

    /** The custom-attribute block of `updateInstallationReported`: merge the unreported map over the reported one. */
    method MergeUnreportedCustomAttributes()
      modifies this
      ensures prefs == CommitCustomAttributes(old(prefs))
    {
      var unreportedCustomAttributes := prefs.unreportedCustomAtts;
      if unreportedCustomAttributes.Some? {
        prefs := prefs.(unreportedCustomAtts := None);
        var customAttsMap := if prefs.customAtts.Some? then prefs.customAtts.value else map[];
        customAttsMap := customAttsMap + unreportedCustomAttributes.value;
        prefs := prefs.(customAtts := Some(customAttsMap));
      }
    }

    /** Reads the registry record over the local primary flag and custom attributes. */
    method FetchInstance(outcome: FetchOutcome) returns (call: Call, reply: Reply)
      modifies this
      ensures Step(prefs, call, reply) == FetchCycle(old(prefs), outcome)
    {
      if prefs.pushRegId.None? {
        return NoCall, Silent;
      }
      call := GetCall(prefs.pushRegId.value);
      match outcome {
        case Fetched(installation) =>
          if installation.primary.Some? {
            prefs := prefs.(primary := installation.primary.value);
          }
          prefs := prefs.(customAtts := installation.customAttributes);
          reply := OnSuccess(installation);
        case FetchFailed(e) =>
          reply := OnError(e);
      }
    }

    /** Computes the snapshot and stages it when its hash differs from the reported one. */
    method SystemDataForReport(device: SystemData) returns (data: Option<SystemData>)
      modifies this
      ensures data == ReportableSystemData(old(prefs), device, env)
      ensures prefs == StageSystemData(old(prefs), data)
    {
      var snapshot := Snapshot(prefs.reportSystemInfo, device);
      if prefs.reportedSystemDataHash != env.hashOf(snapshot) {
        prefs := prefs.(unreportedSystemData := Some(snapshot));
        return Some(snapshot);
      }
      return None;
    }

    /** Records the staged snapshot's hash as the reported one and removes the staged snapshot. */
    method SetSystemDataReported()
      modifies this
      ensures prefs == MarkSystemDataReported(old(prefs), env)
    {
      if prefs.unreportedSystemData.Some? {
        prefs := prefs.(reportedSystemDataHash := env.hashOf(prefs.unreportedSystemData.value));
        prefs := prefs.(unreportedSystemData := None);
      }
    }

    method SetPushRegistrationEnabled(enabled: Option<bool>)
      modifies this
      ensures prefs == SavePushRegistrationEnabled(old(prefs), enabled)
    {
      if enabled.None? {
        return;
      }
      prefs := prefs.(regEnabled := enabled.value);
    }

    method SetPushRegistrationId(registrationId: Option<string>)
      modifies this
      ensures prefs == SavePushRegistrationId(old(prefs), registrationId)
    {
      if registrationId.None? {
        return;
      }
      prefs := prefs.(pushRegId := registrationId);
    }

    method SetCloudTokenReported(reported: bool)
      modifies this
      ensures prefs == old(prefs).(cloudTokenReported := reported)
    {
      prefs := prefs.(cloudTokenReported := reported);
    }
  }
}
