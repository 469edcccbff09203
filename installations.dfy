/**
 * The registration record exchanged with the registry. Used as a delta, a field that is
 * `None` means "no change", never "clear".
 */
module Installations {
  import opened Wrappers

  /** A custom attribute value; its typing (string, number, date) is not modelled. */
  datatype CustomValue = CustomValue(text: string)

  type CustomAttributes = map<string, CustomValue>

  /** The environment snapshot reported with an installation. */
  datatype SystemData = SystemData(
    sdkVersion: string,
    osVersion: string,
    deviceManufacturer: string,
    deviceModel: string,
    applicationVersion: string,
    geofencing: bool,
    notificationsEnabled: bool,
    deviceSecure: bool,
    osLanguage: string,
    deviceName: string)

  /**
   * An installation. `pushRegId` addresses a record; every other field is payload.
   * `applicationUserId` is `Some(None)` when the field is sent with a null value.
   */
  datatype Installation = Installation(
    pushRegId: Option<string>,
    sdkVersion: Option<string>,
    osVersion: Option<string>,
    deviceManufacturer: Option<string>,
    deviceModel: Option<string>,
    appVersion: Option<string>,
    geoEnabled: Option<bool>,
    notificationsEnabled: Option<bool>,
    deviceSecure: Option<bool>,
    osLanguage: Option<string>,
    deviceName: Option<string>,
    os: Option<string>,
    pushServiceToken: Option<string>,
    pushServiceType: Option<string>,
    primary: Option<bool>,
    applicationUserId: Option<Option<string>>,
    customAttributes: Option<CustomAttributes>,
    regEnabled: Option<bool>)

  /** A freshly constructed installation: nothing set. */
  const Empty := Installation(None, None, None, None, None, None, None, None, None,
                              None, None, None, None, None, None, None, None, None)

  /** Some payload field is set. */
  function HasDataToReport(d: Installation): (r: bool)
    ensures r <==> || d.sdkVersion.Some? || d.osVersion.Some? || d.deviceManufacturer.Some? || d.deviceModel.Some?
                   || d.appVersion.Some? || d.geoEnabled.Some? || d.notificationsEnabled.Some? || d.deviceSecure.Some?
                   || d.osLanguage.Some? || d.deviceName.Some? || d.os.Some? || d.pushServiceToken.Some?
                   || d.pushServiceType.Some? || d.primary.Some? || d.applicationUserId.Some?
                   || d.customAttributes.Some? || d.regEnabled.Some?
  {
    d.(pushRegId := None) != Empty
  }

  /** The system snapshot an installation carries, when it carries all of its fields. */
  function SystemDataOf(d: Installation): Option<SystemData> {
    if d.sdkVersion.Some? && d.osVersion.Some? && d.deviceManufacturer.Some? && d.deviceModel.Some?
       && d.appVersion.Some? && d.geoEnabled.Some? && d.notificationsEnabled.Some?
       && d.deviceSecure.Some? && d.osLanguage.Some? && d.deviceName.Some?
    then Some(SystemData(d.sdkVersion.value, d.osVersion.value, d.deviceManufacturer.value,
                         d.deviceModel.value, d.appVersion.value, d.geoEnabled.value,
                         d.notificationsEnabled.value, d.deviceSecure.value,
                         d.osLanguage.value, d.deviceName.value))
    else None
  }

  /** The installation with its system fields (the snapshot and the OS name) cleared. */
  function WithoutSystemData(d: Installation): Installation {
    d.(sdkVersion := None, osVersion := None, deviceManufacturer := None, deviceModel := None,
       appVersion := None, geoEnabled := None, notificationsEnabled := None, deviceSecure := None,
       osLanguage := None, deviceName := None, os := None)
  }
}
