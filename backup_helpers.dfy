/**
 * `parseUserInfo` of backend/utils/backup.helpers.js: the same client
 * address and geolocation defaults as the primary helper, with the device
 * described by a device detector instead of the substring chain. The
 * detector's result is a record of optional strings; the detector and the
 * geolocation database are parameters.
 */
module BackupHelpers {
  import opened Wrappers
  import opened Text
  import opened RequestInfo
  import Helpers

  /** What the detector reports about an agent; each property may be missing. */
  datatype Detection = Detection(
    deviceType: Option<string>,    // device?.type
    deviceBrand: Option<string>,   // device?.brand
    deviceModel: Option<string>,   // device?.model
    clientName: Option<string>,    // client?.name
    clientVersion: Option<string>, // client?.version
    osName: Option<string>,        // os?.name
    osVersion: Option<string>)     // os?.version

  const NoDevice := "Desktop/Unknown"

  /**
   * The device shown: with a model, `brand model` with the white space at
   * both ends removed (the brand may be missing); else the type, else
   * `Desktop/Unknown`.
   */
  function DeviceDisplay(d: Detection): (r: string)
    ensures Truthy(d.deviceModel) ==>
      Trimmed(r) && exists k :: Surrounds(Or(d.deviceBrand, "") + " " + d.deviceModel.value, k, r)
    ensures !Truthy(d.deviceModel) && Truthy(d.deviceType) ==> r == d.deviceType.value
    ensures !Truthy(d.deviceModel) && !Truthy(d.deviceType) ==> r == NoDevice
  {
    if Truthy(d.deviceModel) then Trim(Or(d.deviceBrand, "") + " " + d.deviceModel.value)
    else if Truthy(d.deviceType) then d.deviceType.value
    else NoDevice
  }

  /** Without a brand the display is the model alone, with no leading blank. */
  lemma DisplayWithoutBrand(d: Detection)
    requires Truthy(d.deviceModel) && Trimmed(d.deviceModel.value)
    requires !Truthy(d.deviceBrand)
    ensures DeviceDisplay(d) == d.deviceModel.value
  {
    var model := d.deviceModel.value;
    assert "" + " " + model == [' '] + model + [];
    TrimCore([' '], model, []);
  }

  /** With a brand and a model, neither padded with white space, the display is `brand model`. */
  lemma DisplayWithBrand(d: Detection)
    requires Truthy(d.deviceModel) && Trimmed(d.deviceModel.value)
    requires Truthy(d.deviceBrand) && Trimmed(d.deviceBrand.value)
    ensures DeviceDisplay(d) == d.deviceBrand.value + " " + d.deviceModel.value
  {
    var s := d.deviceBrand.value + " " + d.deviceModel.value;
    assert s[0] == d.deviceBrand.value[0];
    assert s[|s| - 1] == d.deviceModel.value[|d.deviceModel.value| - 1];
    TrimOfTrimmed(s);
  }

  /** The descriptor this helper returns (the capture timestamp is not modelled). */
  datatype BackupInfo =
    | Detected(ip: string, isLocal: bool, geo: GeoFields,
               browser: string, browserVersion: string, os: string, osVersion: string,
               device: string, deviceBrand: string, deviceModel: string, deviceType: string,
               userAgent: string)
    | DetectError(ip: string, country: string, city: string, browser: string, os: string, device: string)

  /** The record of the catch block. */
  function ErrorRecord(ip: string): BackupInfo {
    DetectError(ip, "Unknown", "Unknown", "Error Fallback", "Unknown", NoDevice)
  }

  /** The detector's fields with their defaults, and the device display. */
  function Describe(ip: string, geo: Option<GeoRecord>, d: Detection, raw: string): (r: BackupInfo)
    ensures r.Detected? && r.ip == ip && r.isLocal == IsLocal(ip) && r.userAgent == raw
    ensures r.geo == GeoDefaults(geo) && r.device == DeviceDisplay(d)
    ensures r.browser != "" && r.os != "" && r.deviceBrand != "" && r.deviceModel != "" && r.deviceType != ""
    ensures Truthy(d.clientName) ==> r.browser == d.clientName.value
    ensures !Truthy(d.clientName) ==> r.browser == "Unknown"
    ensures Truthy(d.clientVersion) ==> r.browserVersion == d.clientVersion.value
    ensures !Truthy(d.clientVersion) ==> r.browserVersion == ""
    ensures Truthy(d.osName) ==> r.os == d.osName.value
    ensures !Truthy(d.osName) ==> r.os == "Unknown"
    ensures Truthy(d.osVersion) ==> r.osVersion == d.osVersion.value
    ensures !Truthy(d.osVersion) ==> r.osVersion == ""
    ensures Truthy(d.deviceBrand) ==> r.deviceBrand == d.deviceBrand.value
    ensures !Truthy(d.deviceBrand) ==> r.deviceBrand == "Unknown"
    ensures Truthy(d.deviceModel) ==> r.deviceModel == d.deviceModel.value
    ensures !Truthy(d.deviceModel) ==> r.deviceModel == "Unknown"
    ensures Truthy(d.deviceType) ==> r.deviceType == d.deviceType.value
    ensures !Truthy(d.deviceType) ==> r.deviceType == "desktop"
  {
    Detected(ip, IsLocal(ip), GeoDefaults(geo),
             Or(d.clientName, "Unknown"), Or(d.clientVersion, ""), Or(d.osName, "Unknown"), Or(d.osVersion, ""),
             DeviceDisplay(d), Or(d.deviceBrand, "Unknown"), Or(d.deviceModel, "Unknown"), Or(d.deviceType, "desktop"),
             raw)
  }

  function ParseUserInfo(req: Request, lookup: string -> Call<Option<GeoRecord>>,
                         detect: string -> Call<Detection>): (r: BackupInfo)
    ensures r.ip == ClientIp(req)
    ensures r.Detected? <==> lookup(LookupKey(ClientIp(req))).Returned? && detect(Or(req.userAgent, "")).Returned?
    ensures r.DetectError? ==> r == ErrorRecord(ClientIp(req))
    ensures r.Detected? ==>
      r == Describe(r.ip, lookup(LookupKey(r.ip)).value, detect(Or(req.userAgent, "")).value, Or(req.userAgent, ""))
  {
    var ip := ClientIp(req);
    match lookup(LookupKey(ip))
    case Threw => ErrorRecord(ip)
    case Returned(geo) =>
      var raw := Or(req.userAgent, "");
      match detect(raw)
      case Threw => ErrorRecord(ip)
      case Returned(d) => Describe(ip, geo, d, raw)
  }

  /** A detector that reports nothing leaves every field at its default. */
  lemma EmptyDetection(ip: string, geo: Option<GeoRecord>, raw: string)
    ensures var r := Describe(ip, geo, Detection(None, None, None, None, None, None, None), raw);
      && r.browser == "Unknown" && r.browserVersion == "" && r.os == "Unknown" && r.osVersion == ""
      && r.device == NoDevice && r.deviceBrand == "Unknown" && r.deviceModel == "Unknown"
      && r.deviceType == "desktop"
  {
  }

  /**
   * Both helpers attribute a request to the same address, the same loopback
   * verdict and the same geolocation fields, and both fall back to their
   * error record when the geolocation lookup throws.
   */
  lemma SameAddressAsPrimary(req: Request, lookup: string -> Call<Option<GeoRecord>>,
                             detect: string -> Call<Detection>, parseAgent: string -> Call<Helpers.Agent>)
    ensures var b := ParseUserInfo(req, lookup, detect);
      var h := Helpers.ParseUserInfo(req, lookup, parseAgent);
      && b.ip == h.ip
      && (b.Detected? && h.Parsed? ==> b.isLocal == h.isLocal && b.geo == h.geo && b.userAgent == h.userAgent)
      && (lookup(LookupKey(ClientIp(req))).Threw? ==> b.DetectError? && h.ParseError?)
  {
  }
}
