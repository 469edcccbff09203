# Installation synchronizer of the Mobile Messaging Android SDK, in Dafny

This project models `InstallationSynchronizer`, the component that keeps the registry's record
of one device installation in step with what the device knows. Each cycle reads the persisted
"reported/unreported" markers and builds a partial **delta** of installation fields. With no
registration id it **creates** a record, and only for a fresh push token. With an id it
**patches** the record when something is pending. It then **commits** the markers when the
registry answers and **rolls back** the token marker when it fails. It can also **fetch** the
record to refresh the local primary flag and custom attributes.

Layout:

- `wrappers.dfy` (`Wrappers`): `Option` and `Result`.
- `strings.dfy` (`Strings`): `StringUtils.isBlank` / `isNotBlank` over the ASCII subset of Java's whitespace characters.
- `installations.dfy` (`Installations`): the `Installation` delta (every field optional, `None`
  meaning "not sent"), `SystemData`, `hasDataToReport`.
- `sync_spec.dfy` (`SyncSpec`): the persisted preferences as a value `Prefs`. Every operation is a
  pure function over `Prefs`; a remote exchange is a function from an outcome to a `Step`
  (new preferences, the call issued, the listener's reply).
- `synchronizer.dfy` (`Synchronizer`): the class `InstallationSynchronizer`. Its field `prefs` is
  the preference store, which its methods update key by key in the Java code's order. The
  setters in the middle of `sync` are a method of their own, `PendingInstallation`. Each remote
  exchange and each commit step ensures that its outcome is the `SyncSpec` function of the old
  state. `PendingInstallation` computes `PendingDelta` of the current state without changing it,
  and `SetCloudTokenReported` ensures the record update it makes.
- `sync_properties.dfy` (`SyncProperties`): properties that span cycles, namely
  idempotence, retry after failure, and two concrete scenarios.

Inputs the Java code takes from the platform are parameters:

- the device readings (`SystemData`);
- the OS name, the push service type and `SystemData.hashCode` (an arbitrary function `Env.hashOf`);
- the registry's answer to each call (`CreateOutcome`, `PatchOutcome`, `FetchOutcome`).

Calls into `MobileMessagingCore` are reads and writes of `Prefs` fields:

- `isRegistrationUnavailable()` means "no registration id is stored".
- `isPushServiceTypeChanged()` means "the service type is not marked reported".
- `setSystemDataReported()` records the hash of the staged snapshot as the reported hash and
  removes the staged snapshot.
- `setReportedPushServiceType()` sets the service-type marker.

`isMyDevice` dereferences the local id. When the local id is null and the delta names a device,
the Java code throws a `NullPointerException` out of `patch` before any call is made. The model
returns `Failure(NullPointerException)` there, and the patch step ends with reply `Thrown`, no
call and no state change.

## Model

| member | source | states |
|---|---|---|
| Strings.IsBlank | infobip-mobile-messaging-android-sdk/src/main/java/org/infobip/mobile/messaging/mobile/appinstance/InstallationSynchronizer.java:309-311 | a string is blank exactly when every character is whitespace (proved by recursion on the string) |
| Strings.IsNotBlank | infobip-mobile-messaging-android-sdk/src/main/java/org/infobip/mobile/messaging/mobile/appinstance/InstallationSynchronizer.java:309-311 | a possibly null string is not blank exactly when it is present and has a non-whitespace character |
| SyncSpec.Snapshot | infobip-mobile-messaging-android-sdk/src/main/java/org/infobip/mobile/messaging/mobile/appinstance/InstallationSynchronizer.java:314-325 | SDK version, geofencing and notification flags are always the readings; with reporting disabled the OS version, manufacturer, model, app version, language and device name are empty and the device is not secure; with reporting enabled the snapshot is the readings |
| SyncSpec.ReportableSystemData | infobip-mobile-messaging-android-sdk/src/main/java/org/infobip/mobile/messaging/mobile/appinstance/InstallationSynchronizer.java:313-334 | the snapshot is returned exactly when the reported hash differs from its hash, and what is returned is the snapshot |
| SyncSpec.StageSystemData | infobip-mobile-messaging-android-sdk/src/main/java/org/infobip/mobile/messaging/mobile/appinstance/InstallationSynchronizer.java:327-330 | a returned snapshot is persisted as the unreported snapshot; no other key changes |
| SyncSpec.From | infobip-mobile-messaging-android-sdk/src/main/java/org/infobip/mobile/messaging/mobile/appinstance/InstallationSynchronizer.java:360-374 | the installation carries exactly the snapshot's fields and the OS name, and nothing else |
| SyncSpec.TokenPresentAndUnreported | infobip-mobile-messaging-android-sdk/src/main/java/org/infobip/mobile/messaging/mobile/appinstance/InstallationSynchronizer.java:309-311 | true exactly when the token is not marked reported and is present with a non-whitespace character |
| SyncSpec.PendingDelta | infobip-mobile-messaging-android-sdk/src/main/java/org/infobip/mobile/messaging/mobile/appinstance/InstallationSynchronizer.java:76-101 | each delta field is present exactly when its marker says it is unreported (snapshot, token, service type, primary, application user id); without a snapshot to report no system field is set; the OS name, when present, is the platform's; no registration id and no custom attributes are included; the registration flag is present exactly when another field is, and then carries the stored flag; the delta has data exactly when something is unreported |
| Installations.HasDataToReport | infobip-mobile-messaging-android-sdk/src/main/java/org/infobip/mobile/messaging/mobile/appinstance/InstallationSynchronizer.java:100-107 | an installation has data to report exactly when one of its payload fields (every field but the registration id) is set |
| SyncSpec.Decide | infobip-mobile-messaging-android-sdk/src/main/java/org/infobip/mobile/messaging/mobile/appinstance/InstallationSynchronizer.java:104-108 | a create is decided exactly when there is no id and the token is fresh; a patch exactly when there is an id and the delta has data; otherwise nothing |
| SyncSpec.PlanSync | infobip-mobile-messaging-android-sdk/src/main/java/org/infobip/mobile/messaging/mobile/appinstance/InstallationSynchronizer.java:75-109 | only the staged snapshot changes before the call; the delta is the pending delta; without an id no patch is decided and a create is decided exactly when the token is fresh; with an id no create is decided and a patch is decided exactly when something is unreported |
| SyncSpec.IsMyDevice | infobip-mobile-messaging-android-sdk/src/main/java/org/infobip/mobile/messaging/mobile/appinstance/InstallationSynchronizer.java:235-237 | throws exactly when the delta names a device and the local id is null; otherwise the result is true exactly when the delta names no device or names the local one |
| SyncSpec.MergeCustomAttributes | infobip-mobile-messaging-android-sdk/src/main/java/org/infobip/mobile/messaging/mobile/appinstance/InstallationSynchronizer.java:254-266 | the merged map has the keys of both maps (an absent reported map counts as empty); unreported values win on a clash; other entries come from the reported map |
| SyncSpec.Rollback | infobip-mobile-messaging-android-sdk/src/main/java/org/infobip/mobile/messaging/mobile/appinstance/InstallationSynchronizer.java:218-222 | the token becomes unreported and no other key changes |
| SyncSpec.SavePushRegistrationId | infobip-mobile-messaging-android-sdk/src/main/java/org/infobip/mobile/messaging/mobile/appinstance/InstallationSynchronizer.java:344-350 | a non-null id is stored; a null id leaves the stored id; no other key changes |
| SyncSpec.SavePushRegistrationEnabled | infobip-mobile-messaging-android-sdk/src/main/java/org/infobip/mobile/messaging/mobile/appinstance/InstallationSynchronizer.java:336-342 | a non-null flag is stored; a null flag leaves the stored flag; no other key changes |
| SyncSpec.CommitForeign | infobip-mobile-messaging-android-sdk/src/main/java/org/infobip/mobile/messaging/mobile/appinstance/InstallationSynchronizer.java:240-244 | the unreported primary marker is removed and primary is saved as false; no other key changes |
| SyncSpec.CommitCustomAttributes | infobip-mobile-messaging-android-sdk/src/main/java/org/infobip/mobile/messaging/mobile/appinstance/InstallationSynchronizer.java:254-266 | when unreported attributes exist they are merged over the reported ones and the buffer is removed; otherwise nothing changes; no other key changes |
| SyncSpec.MarkSystemDataReported | infobip-mobile-messaging-android-sdk/src/main/java/org/infobip/mobile/messaging/mobile/appinstance/InstallationSynchronizer.java:267 | a staged snapshot's hash becomes the reported hash and the staged snapshot is removed; no other key changes |
| SyncSpec.CommitOwn | infobip-mobile-messaging-android-sdk/src/main/java/org/infobip/mobile/messaging/mobile/appinstance/InstallationSynchronizer.java:246-268 | afterwards every marker reads reported and no buffer is pending; primary and the registration flag take the acknowledged values when present and keep the stored ones otherwise; custom attributes are merged; the staged snapshot's hash is recorded; id, token, application user id and the reporting setting are unchanged |
| SyncSpec.Commit | infobip-mobile-messaging-android-sdk/src/main/java/org/infobip/mobile/messaging/mobile/appinstance/InstallationSynchronizer.java:239-246 | the unreported primary marker is always removed; for the local device every marker reads reported and primary takes the acknowledged value when present; for another device primary is saved as false and nothing else changes |
| SyncSpec.CreateCycle | infobip-mobile-messaging-android-sdk/src/main/java/org/infobip/mobile/messaging/mobile/appinstance/InstallationSynchronizer.java:139-186 | the call is a create with the delta; an error or a null record leaves the preferences as before except that the token is unreported (reply onError, or no listener call for a null record); a created record stores its id when not null, commits every marker and saves its primary flag when present; the state after a created record is exactly the own-device commit of that record over the preferences with the token marked reported and the id saved |
| SyncSpec.PatchCycle | infobip-mobile-messaging-android-sdk/src/main/java/org/infobip/mobile/messaging/mobile/appinstance/InstallationSynchronizer.java:188-233 | it throws exactly when the delta names a device and the local id is null, and then makes no call and changes nothing; the target is the local id for the local device and the delta's id otherwise; failure only marks the token unreported; success replies with the delta and commits for the local device or for the other one |
| SyncSpec.SyncCycle | infobip-mobile-messaging-android-sdk/src/main/java/org/infobip/mobile/messaging/mobile/appinstance/InstallationSynchronizer.java:75-109 | without an id it never patches; it creates exactly when there is no id and the token is fresh; it patches exactly when there is an id and something is unreported, and then addresses the local id; it never fetches or throws; when it makes no call it stays silent and only stages the snapshot; a create or patch is exactly that exchange of the planned delta from the staged preferences |
| SyncSpec.ApplyFetched | infobip-mobile-messaging-android-sdk/src/main/java/org/infobip/mobile/messaging/mobile/appinstance/InstallationSynchronizer.java:284-290 | primary takes the server value when present; custom attributes take the server map; no other key changes |
| SyncSpec.FetchCycle | infobip-mobile-messaging-android-sdk/src/main/java/org/infobip/mobile/messaging/mobile/appinstance/InstallationSynchronizer.java:271-307 | without an id there is no call, no reply and no change; with one it gets that id; an error changes nothing and replies onError; a record is applied and replied |
| SyncSpec.ApplicationUserIdDelta | infobip-mobile-messaging-android-sdk/src/main/java/org/infobip/mobile/messaging/mobile/appinstance/InstallationSynchronizer.java:111-115 | the delta carries the application user id (possibly null) and nothing else |
| SyncSpec.CustomAttributesDelta | infobip-mobile-messaging-android-sdk/src/main/java/org/infobip/mobile/messaging/mobile/appinstance/InstallationSynchronizer.java:117-121 | the delta carries the custom attributes and nothing else |
| SyncSpec.RegEnabledDelta | infobip-mobile-messaging-android-sdk/src/main/java/org/infobip/mobile/messaging/mobile/appinstance/InstallationSynchronizer.java:123-127 | the delta carries the registration flag and nothing else |
| SyncSpec.PrimaryDelta | infobip-mobile-messaging-android-sdk/src/main/java/org/infobip/mobile/messaging/mobile/appinstance/InstallationSynchronizer.java:129-137 | the delta addresses the given device (or none) and carries the primary flag and nothing else |
| Synchronizer.InstallationSynchronizer.constructor | infobip-mobile-messaging-android-sdk/src/main/java/org/infobip/mobile/messaging/mobile/appinstance/InstallationSynchronizer.java:53-69 | the environment and the initial preferences are the ones given |
| Synchronizer.InstallationSynchronizer.Sync | infobip-mobile-messaging-android-sdk/src/main/java/org/infobip/mobile/messaging/mobile/appinstance/InstallationSynchronizer.java:75-109 | staging the snapshot, building the delta and then creating, patching or doing nothing ends in the state, call and reply of SyncCycle |
| Synchronizer.InstallationSynchronizer.PendingInstallation | infobip-mobile-messaging-android-sdk/src/main/java/org/infobip/mobile/messaging/mobile/appinstance/InstallationSynchronizer.java:76-101 | the setters applied one by one to the snapshot's installation yield PendingDelta, and the token test is TokenPresentAndUnreported |
| Synchronizer.InstallationSynchronizer.UpdateApplicationUserId | infobip-mobile-messaging-android-sdk/src/main/java/org/infobip/mobile/messaging/mobile/appinstance/InstallationSynchronizer.java:111-115 | the patch of the application-user-id delta, as PatchCycle |
| Synchronizer.InstallationSynchronizer.UpdateCustomAttributes | infobip-mobile-messaging-android-sdk/src/main/java/org/infobip/mobile/messaging/mobile/appinstance/InstallationSynchronizer.java:117-121 | the patch of the custom-attributes delta, as PatchCycle |
| Synchronizer.InstallationSynchronizer.UpdatePushRegEnabledStatus | infobip-mobile-messaging-android-sdk/src/main/java/org/infobip/mobile/messaging/mobile/appinstance/InstallationSynchronizer.java:123-127 | the patch of the registration-flag delta, as PatchCycle |
| Synchronizer.InstallationSynchronizer.UpdatePrimaryStatus | infobip-mobile-messaging-android-sdk/src/main/java/org/infobip/mobile/messaging/mobile/appinstance/InstallationSynchronizer.java:129-137 | the patch of the primary delta for the local or the named device, as PatchCycle |
| Synchronizer.InstallationSynchronizer.CreateInstance | infobip-mobile-messaging-android-sdk/src/main/java/org/infobip/mobile/messaging/mobile/appinstance/InstallationSynchronizer.java:139-186 | marking the token reported before the call, then rolling back or committing, ends as CreateCycle |
| Synchronizer.InstallationSynchronizer.Patch | infobip-mobile-messaging-android-sdk/src/main/java/org/infobip/mobile/messaging/mobile/appinstance/InstallationSynchronizer.java:188-233 | the identity check, the target choice and the commit or rollback end as PatchCycle |
| Synchronizer.InstallationSynchronizer.UpdateInstallationReported | infobip-mobile-messaging-android-sdk/src/main/java/org/infobip/mobile/messaging/mobile/appinstance/InstallationSynchronizer.java:239-269 | the key-by-key writes leave the preferences of CommitOwn for the local device and of CommitForeign otherwise |
| Synchronizer.InstallationSynchronizer.MergeUnreportedCustomAttributes | infobip-mobile-messaging-android-sdk/src/main/java/org/infobip/mobile/messaging/mobile/appinstance/InstallationSynchronizer.java:254-266 | the in-place putAll leaves the preferences of CommitCustomAttributes |
| Synchronizer.InstallationSynchronizer.FetchInstance | infobip-mobile-messaging-android-sdk/src/main/java/org/infobip/mobile/messaging/mobile/appinstance/InstallationSynchronizer.java:271-307 | the guard and the writes of the success callback end as FetchCycle |
| Synchronizer.InstallationSynchronizer.SystemDataForReport | infobip-mobile-messaging-android-sdk/src/main/java/org/infobip/mobile/messaging/mobile/appinstance/InstallationSynchronizer.java:313-334 | returns ReportableSystemData and stages it |
| Synchronizer.InstallationSynchronizer.SetSystemDataReported | infobip-mobile-messaging-android-sdk/src/main/java/org/infobip/mobile/messaging/mobile/appinstance/InstallationSynchronizer.java:267 | leaves the preferences of MarkSystemDataReported |
| Synchronizer.InstallationSynchronizer.SetPushRegistrationEnabled | infobip-mobile-messaging-android-sdk/src/main/java/org/infobip/mobile/messaging/mobile/appinstance/InstallationSynchronizer.java:336-342 | leaves the preferences of SavePushRegistrationEnabled |
| Synchronizer.InstallationSynchronizer.SetPushRegistrationId | infobip-mobile-messaging-android-sdk/src/main/java/org/infobip/mobile/messaging/mobile/appinstance/InstallationSynchronizer.java:344-350 | leaves the preferences of SavePushRegistrationId |
| Synchronizer.InstallationSynchronizer.SetCloudTokenReported | infobip-mobile-messaging-android-sdk/src/main/java/org/infobip/mobile/messaging/mobile/appinstance/InstallationSynchronizer.java:352-354 | the token marker takes the given value and nothing else changes |
| SyncProperties.SyncSettles | infobip-mobile-messaging-android-sdk/src/main/java/org/infobip/mobile/messaging/mobile/appinstance/InstallationSynchronizer.java:75-109 | after a sync that made no call, a second sync with the same readings decides to do nothing; likewise after a successful sync whose staged snapshot (after staging) was absent or that of the readings, which covers a retry after a failure once the readings changed and were staged anew |
| SyncProperties.StaleStagedSnapshotUnsettles | infobip-mobile-messaging-android-sdk/src/main/java/org/infobip/mobile/messaging/mobile/appinstance/InstallationSynchronizer.java:267 | the case left out of SyncSettles does not settle: with a snapshot staged for other readings, readings whose hash is the reported one and a fresh token, a successful patch records the stale hash and the next sync with the same readings patches again |
| SyncProperties.FailedCreateRetried | infobip-mobile-messaging-android-sdk/src/main/java/org/infobip/mobile/messaging/mobile/appinstance/InstallationSynchronizer.java:170-181 | after a failed or empty create, the next sync with the same readings decides the same create with the same delta, and stages nothing new |
| SyncProperties.FailedPatchRetried | infobip-mobile-messaging-android-sdk/src/main/java/org/infobip/mobile/messaging/mobile/appinstance/InstallationSynchronizer.java:218-229 | after a failed patch, the next sync with the same readings patches the same delta plus the token whenever the token is not blank |
| SyncProperties.PendingDeltaAfterRollback | infobip-mobile-messaging-android-sdk/src/main/java/org/infobip/mobile/messaging/mobile/appinstance/InstallationSynchronizer.java:83-85 | marking the token unreported keeps a non-empty delta and adds the token when it is not blank |
| SyncProperties.CreateScenario | infobip-mobile-messaging-android-sdk/src/main/java/org/infobip/mobile/messaging/mobile/appinstance/InstallationSynchronizer.java:75-109 | no id, token "T1" and the service type unreported, every other marker reported: one create with the token, the service type and registration enabled; a record returned with "ID1" stores "ID1" and the token is reported |
| SyncProperties.ForeignPrimaryScenario | infobip-mobile-messaging-android-sdk/src/main/java/org/infobip/mobile/messaging/mobile/appinstance/InstallationSynchronizer.java:133-137 | local id "ID1" and "ID2" made primary: one patch of "ID2" with only that device and the primary flag; on success the local marker is removed and the local device saved as not primary, nothing else changing |
| SyncProperties.SuccessMarksUnsentFieldsReported | infobip-mobile-messaging-android-sdk/src/main/java/org/infobip/mobile/messaging/mobile/appinstance/InstallationSynchronizer.java:246-252 | a successful local patch whose delta carries neither token nor application user id still marks both reported, so a fresh token is no longer pending |
| SyncProperties.AttributeUpdateMarksFreshTokenReported | infobip-mobile-messaging-android-sdk/src/main/java/org/infobip/mobile/messaging/mobile/appinstance/InstallationSynchronizer.java:117-121 | an attribute update that succeeds while a fresh token is pending sends no token yet marks it reported |
| SyncProperties.SyncCommitsUnsentAttributes | infobip-mobile-messaging-android-sdk/src/main/java/org/infobip/mobile/messaging/mobile/appinstance/InstallationSynchronizer.java:254-266 | a sync patch never carries custom attributes, yet its success merges the unreported attributes into the reported ones and empties the buffer |
| SyncProperties.StaleSnapshotNeverSent | infobip-mobile-messaging-android-sdk/src/main/java/org/infobip/mobile/messaging/mobile/appinstance/InstallationSynchronizer.java:267 | a snapshot staged by a failed patch is recorded as reported by a later success that did not carry it, after which a sync on those readings does nothing |

## Left out

- Two guarantees one would expect of the markers are not promised, because the Java code does not keep them: that a token marked reported is one the registry acknowledged, and that a failed exchange leaves every other pending marker to be retried. The own-device commit (lines 246-268) marks every marker reported whatever the delta carried. `SyncProperties.SuccessMarksUnsentFieldsReported`, `SyncProperties.AttributeUpdateMarksFreshTokenReported`, `SyncProperties.SyncCommitsUnsentAttributes` follow from lines 246-266 alone. `SyncProperties.StaleSnapshotNeverSent` and `SyncProperties.StaleStagedSnapshotUnsettles` also depend on reading `setSystemDataReported` as recording the staged snapshot's hash, since that method is not part of this model. No corrected commit is modelled: whether marking only the fields sent is the intended behaviour cannot be told from this code.

- Retries, the executor and threading (`MRetryableTask`, `retryWith`, `Executor`). Each exchange is one sequential call whose outcome is a parameter, so retry policy and cancellation are not modelled.
- Races between overlapping cycles: the code has no locking, and the point there is concurrency.
- `Broadcaster` events, `stats.reportError`, logging and `setLastHttpException`: these only report and never change the markers.
- JSON mapping (`InstallationMapper`, `UserDataMapper`). Custom attributes are a map to an untyped value; the string/number/date typing of `CustomUserDataValue` is not modelled.
- The platform probes, which become the `SystemData` readings and `Env`, and the real `SystemData.hashCode`, which becomes `Env.hashOf`. Each of these is an input.
- A null record from `InstallationMapper.fromBackend` in a fetch: the mapper is not part of this model.
- `Strings.IsBlank`: whitespace is the ASCII subset of Java's `Character.isWhitespace`; Unicode space separators are not modelled.
- `SyncSpec.RegEnabledDelta`, `SyncSpec.PrimaryDelta`, `Synchronizer.InstallationSynchronizer.UpdatePushRegEnabledStatus`, `Synchronizer.InstallationSynchronizer.UpdatePrimaryStatus`: a null `Boolean` argument is not modelled; the flag is a `bool`.
- `SyncSpec.CustomAttributesDelta`, `Synchronizer.InstallationSynchronizer.UpdateCustomAttributes`: a null map argument is not modelled. Java passes it on as an explicit null field (a "clear"); here the map is always present and the delta field is only present or absent.
- The preference store is one value-typed field. Its key strings, its type conversions and a missing integer key for the reported hash are not modelled.
- `MobileMessagingCore` is not part of this model; its calls are the field reads and writes described above.
- `MessagesSynchronizer`, `Event`, `BroadcastParameter`, `HttpRequest` and the logout test: these are plumbing, constants or annotations, or hold no assertions.
