/** The request's context documents: app, device (with its identifiers and
    client time), network, regs, geo and consent. */
module Context {
  import opened Wrappers
  import opened Text
  import opened Numbers
  import Rtb = OpenRtb
  import opened HuaweiTypes
  import opened Country

  /** What the clock says at translation time: the milliseconds since the
      epoch, the current time in the layout "2006-01-02 15:04:05.000", and the
      current local time in RFC 822 layout with a numeric zone. */
  datatype Clock = Clock(nowMillis: int, now: string, localTime: string)

  // ---------------------------------------------------------------- app

  /** The app document: the bundle is required when an app is present; the
      language defaults to "en". The country is the request's. */
  function AppInfo(bid: Rtb.BidRequest, mccList: map<int, string>): (r: Result<App, Error>)
    ensures r.Failure? <==> bid.app.Some? && bid.app.value.bundle == ""
    ensures r.Failure? ==> r.error == AppBundleEmpty
    ensures r.Success? ==> r.value.country == GetCountryCode(bid, mccList)
    ensures r.Success? && bid.app.Some? ==>
      && r.value.pkgname == bid.app.value.bundle != ""
      && r.value.lang == (if bid.app.value.content.Some? && bid.app.value.content.value.language != ""
                          then bid.app.value.content.value.language else "en")
      && r.value.lang != ""
      && r.value.version == bid.app.value.ver && r.value.name == bid.app.value.name
    ensures r.Success? && bid.app.None? ==> r.value == EmptyApp.(country := GetCountryCode(bid, mccList))
  {
    var country := GetCountryCode(bid, mccList);
    match bid.app
    case None => Success(EmptyApp.(country := country))
    case Some(a) =>
      if a.bundle == "" then Failure(AppBundleEmpty)
      else
        var lang := if a.content.Some? && a.content.value.language != "" then a.content.value.language else "en";
        Success(App(a.ver, a.name, a.bundle, lang, country))
  }

  // ---------------------------------------------------------------- client time

  /** The shape "dddd-dd-dd dd:dd:dd.ddd", 'd' standing for a decimal digit. */
  const TimeShape := "dddd-dd-dd dd:dd:dd.ddd"

  predicate FitsShape(s: string, shape: string) {
    |s| == |shape| &&
    forall i :: 0 <= i < |s| ==> if shape[i] == 'd' then IsDigit(s[i]) else s[i] == shape[i]
  }

  /** A time without zone: `^\d{4}-\d{2}-\d{2} \d{2}:\d{2}:\d{2}\.\d{3}$`. */
  predicate IsLocalStamp(s: string) { FitsShape(s, TimeShape) }

  /** A numeric zone: a sign and four digits. */
  predicate IsZone(z: string) { |z| == 5 && (z[0] == '+' || z[0] == '-') && AllDigits(z[1..]) }

  /** A time with zone: the pattern above followed by `[+-]{1}\d{4}`. */
  predicate IsZonedStamp(s: string) { |s| == 28 && IsLocalStamp(s[..23]) && IsZone(s[23..]) }

  /** strings.IndexAny(s, "-+"): the first sign character, or -1. */
  function IndexOfSign(s: string): (k: int)
    ensures -1 <= k < |s|
    ensures k >= 0 ==> (s[k] == '-' || s[k] == '+')
    ensures forall i :: 0 <= i < |s| && (k == -1 || i < k) ==> s[i] != '-' && s[i] != '+'
  {
    if s == [] then -1
    else if s[0] == '-' || s[0] == '+' then 0
    else var k := IndexOfSign(s[1..]); if k == -1 then -1 else k + 1
  }

  /** The local zone: the tail of the RFC 822 local time from its first sign
      when that tail is five characters long and does not start the string,
      else "+0200". */
  function LocalZone(localTime: string): (zone: string)
    ensures |zone| == 5 && (zone[0] == '+' || zone[0] == '-')
  {
    var index := IndexOfSign(localTime);
    if index > 0 && |localTime| - index == 5 then localTime[index..] else DefaultTimeZone
  }

  /** The client time sent to the exchange: a well-formed zoned time passes
      unchanged, a well-formed time without zone gets the local zone, and
      anything else (the empty string included) is replaced by now. */
  function GetClientTime(clientTime: string, clock: Clock): (t: string)
    ensures IsZonedStamp(clientTime) ==> t == clientTime
    ensures IsLocalStamp(clientTime) ==> t == clientTime + LocalZone(clock.localTime)
    ensures !IsZonedStamp(clientTime) && !IsLocalStamp(clientTime) ==> t == clock.now + LocalZone(clock.localTime)
  {
    var zone := LocalZone(clock.localTime);
    if clientTime == "" then clock.now + zone
    else if IsZonedStamp(clientTime) then clientTime
    else if IsLocalStamp(clientTime) then clientTime + zone
    else clock.now + zone
  }

  /** Whatever the device sent, the client time is a zoned time, provided the
      clock's own readings are well formed. */
  lemma ClientTimeIsZoned(clientTime: string, clock: Clock)
    requires IsLocalStamp(clock.now) && IsZone(LocalZone(clock.localTime))
    ensures IsZonedStamp(GetClientTime(clientTime, clock))
  {
    var zone := LocalZone(clock.localTime);
    var t := GetClientTime(clientTime, clock);
    if !IsZonedStamp(clientTime) {
      var base := if IsLocalStamp(clientTime) then clientTime else clock.now;
      assert t == base + zone;
      assert t[..23] == base;
      assert t[23..] == zone;
    }
  }

  // ---------------------------------------------------------------- device

  /** The device document as copied from the OpenRTB device, before any
      identifier from the user extension is read. */
  function BaseDevice(bid: Rtb.BidRequest, mccList: map<int, string>): (r: Device)
    ensures bid.device.None? ==> r == EmptyDevice
    ensures bid.device.Some? ==>
      var d := bid.device.value;
      && r.deviceType == Int32(d.deviceType) && r.useragent == d.ua && r.os == d.os && r.version == d.osv
      && r.maker == d.make && r.model == (if d.model == "" then DefaultModelName else d.model)
      && r.height == Int32(d.h) && r.width == Int32(d.w) && r.language == d.language
      && r.ip == d.ip && r.gaid == d.ifa
      && r.belongCountry == r.localeCountry == GetCountryCode(bid, mccList)
      && r.imei == r.oaid == r.isTrackingEnabled == r.gaidTrackingEnabled == r.clientTime == ""
      && r.buildVersion == r.emuiVer == "" && r.dpi == 0
  {
    match bid.device
    case None => EmptyDevice
    case Some(d) =>
      var country := GetCountryCode(bid, mccList);
      EmptyDevice.(
        deviceType := Int32(d.deviceType), useragent := d.ua, os := d.os, version := d.osv,
        maker := d.make, model := if d.model == "" then DefaultModelName else d.model,
        height := Int32(d.h), width := Int32(d.w), language := d.language,
        belongCountry := country, localeCountry := country, ip := d.ip, gaid := d.ifa)
  }

  function UserExtOf(user: Option<Rtb.User>): Option<Rtb.UserExt> {
    if user.Some? then user.value.ext else None
  }

  /** The first element of a list, or `otherwise` when it is empty. */
  function FirstOr(xs: seq<string>, otherwise: string): string {
    if |xs| > 0 then xs[0] else otherwise
  }

  /** Reads OAID, GAID and IMEI (each the first of its list) and the client
      time from the user extension into the device. Without a user extension
      the device must already carry a GAID (the OpenRTB advertising id). */
  function DeviceIdFromUserExt(d: Device, user: Option<Rtb.User>, clock: Clock): (r: Result<Device, Error>)
    ensures UserExtOf(user).None? ==> (r.Success? <==> d.gaid != "") && (r.Success? ==> r.value == d)
    ensures UserExtOf(user).None? && r.Failure? ==> r.error == NoUserExtAndNoGaid
    ensures UserExtOf(user).Some? && UserExtOf(user).value.data.None? ==> r == Failure(UserExtUndecodable)
    ensures UserExtOf(user).Some? && UserExtOf(user).value.data.Some? ==>
      var ids := UserExtOf(user).value.data.value;
      && (r.Failure? <==> |ids.oaid| == 0 && |ids.gaid| == 0 && |ids.imei| == 0)
      && (r.Failure? ==> r.error == NoDeviceIdInUserExt)
      && (r.Success? ==>
            r.value.oaid == FirstOr(ids.oaid, d.oaid) && r.value.gaid == FirstOr(ids.gaid, d.gaid) &&
            r.value.imei == FirstOr(ids.imei, d.imei))
      && (r.Success? && |ids.clientTime| > 0 ==> r.value.clientTime == GetClientTime(ids.clientTime[0], clock))
      && (r.Success? && |ids.clientTime| == 0 ==> r.value.clientTime == d.clientTime)
    ensures r.Success? ==>
      r.value == d.(oaid := r.value.oaid, gaid := r.value.gaid, imei := r.value.imei, clientTime := r.value.clientTime)
  {
    match UserExtOf(user)
    case None => if |d.gaid| == 0 then Failure(NoUserExtAndNoGaid) else Success(d)
    case Some(ext) =>
      match ext.data
      case None => Failure(UserExtUndecodable)
      case Some(ids) =>
        var withIds := d.(oaid := FirstOr(ids.oaid, d.oaid), gaid := FirstOr(ids.gaid, d.gaid), imei := FirstOr(ids.imei, d.imei));
        if |ids.oaid| == 0 && |ids.gaid| == 0 && |ids.imei| == 0 then Failure(NoDeviceIdInUserExt)
        else if |ids.clientTime| > 0 then Success(withIds.(clientTime := GetClientTime(ids.clientTime[0], clock)))
        else Success(withIds)
  }

  /** The "tracking enabled" flags, 1 - DNT, each set only for an identifier
      the device document carries. */
  function WithTracking(d: Device, device: Option<Rtb.Device>): Device {
    if device.Some? && device.value.dnt.Some? then
      var flag := FormatInt(1 - device.value.dnt.value);
      d.(isTrackingEnabled := if d.oaid != "" then flag else d.isTrackingEnabled,
         gaidTrackingEnabled := if d.gaid != "" then flag else d.gaidTrackingEnabled)
    else d
  }

  /** The device document of a request, or the reason there is none. */
  function DeviceInfo(bid: Rtb.BidRequest, mccList: map<int, string>, clock: Clock): (r: Result<Device, Error>)
    ensures r.Failure? <==> DeviceIdFromUserExt(BaseDevice(bid, mccList), bid.user, clock).Failure?
    ensures r.Success? ==>
      var ids := DeviceIdFromUserExt(BaseDevice(bid, mccList), bid.user, clock).value;
      r.value == ids.(isTrackingEnabled := r.value.isTrackingEnabled, gaidTrackingEnabled := r.value.gaidTrackingEnabled)
    ensures r.Success? && (bid.device.None? || bid.device.value.dnt.None?) ==>
      r.value == DeviceIdFromUserExt(BaseDevice(bid, mccList), bid.user, clock).value
    ensures r.Success? && bid.device.Some? ==>
      var d := bid.device.value;
      && r.value.model == (if d.model == "" then DefaultModelName else d.model)
      && r.value.model != ""
      && r.value.deviceType == Int32(d.deviceType) && r.value.useragent == d.ua && r.value.os == d.os
      && r.value.version == d.osv && r.value.maker == d.make && r.value.language == d.language && r.value.ip == d.ip
      && r.value.height == Int32(d.h) && r.value.width == Int32(d.w)
      && r.value.localeCountry == r.value.belongCountry == GetCountryCode(bid, mccList)
    ensures r.Success? ==> r.value.isTrackingEnabled != "" ==> r.value.oaid != ""
    ensures r.Success? ==> r.value.gaidTrackingEnabled != "" ==> r.value.gaid != ""
    ensures r.Success? && bid.device.Some? && bid.device.value.dnt.Some? ==>
      && (r.value.oaid != "" ==> r.value.isTrackingEnabled == FormatInt(1 - bid.device.value.dnt.value))
      && (r.value.gaid != "" ==> r.value.gaidTrackingEnabled == FormatInt(1 - bid.device.value.dnt.value))
  {
    match DeviceIdFromUserExt(BaseDevice(bid, mccList), bid.user, clock)
    case Failure(e) => Failure(e)
    case Success(d) => Success(WithTracking(d, bid.device))
  }

  /** A request with neither a user extension nor an advertising id on its
      device has no device document. */
  lemma DeviceNeedsSomeId(bid: Rtb.BidRequest, mccList: map<int, string>, clock: Clock)
    requires UserExtOf(bid.user).None?
    ensures DeviceInfo(bid, mccList, clock).Success? <==> bid.device.Some? && bid.device.value.ifa != ""
  {
  }

  // ---------------------------------------------------------------- network

  /** The domestic carrier of a Chinese MCC+MNC: 2, 1 or 3, else 99. */
  function CarrierOf(code: string): (carrier: int)
    ensures carrier in {1, 2, 3, 99}
    ensures carrier == 2 <==> code in {"46000", "46002", "46007"}
    ensures carrier == 1 <==> code in {"46001", "46006"}
    ensures carrier == 3 <==> code in {"46003", "46005", "46011"}
  {
    if code == "46000" || code == "46002" || code == "46007" then 2
    else if code == "46001" || code == "46006" then 1
    else if code == "46003" || code == "46005" || code == "46011" then 3
    else 99
  }

  /** The network document: connection type (0 when unknown) and, when the
      MCC-MNC has two parts, its cell info and carrier. */
  function NetworkInfo(d: Rtb.Device): (n: Network)
    ensures n.networkType == if d.connectionType.Some? then Int32(d.connectionType.value) else DefaultUnknownNetworkType
    ensures |n.cellInfo| <= 1
    ensures |n.cellInfo| == 1 <==> '-' in d.mccmnc
    ensures n.carrier == 0 <==> '-' !in d.mccmnc
    ensures |n.cellInfo| == 1 ==> n.carrier == CarrierOf(n.cellInfo[0].mcc + n.cellInfo[0].mnc)
    ensures |n.cellInfo| == 1 ==> '-' !in n.cellInfo[0].mcc && '-' !in n.cellInfo[0].mnc
    ensures |n.cellInfo| == 1 ==>
      var k := IndexOf(d.mccmnc, '-');
      var tail := d.mccmnc[k + 1..];
      n.cellInfo[0].mcc == d.mccmnc[..k] && n.cellInfo[0].mnc == tail[..IndexOf(tail, '-')]
  {
    SplitSeveral(d.mccmnc, '-');
    SplitSecond(d.mccmnc, '-');
    var networkType := if d.connectionType.Some? then Int32(d.connectionType.value) else DefaultUnknownNetworkType;
    if d.mccmnc == "" then Network(networkType, 0, [])
    else
      var arr := Split(d.mccmnc, '-');
      if |arr| >= 2 then Network(networkType, CarrierOf(arr[0] + arr[1]), [CellInfo(arr[0], arr[1])])
      else Network(networkType, 0, [])
  }

  /** "460-00" is China Mobile's network. */
  lemma CarrierChinaMobile(d: Rtb.Device)
    ensures NetworkInfo(d.(mccmnc := "460-00")).carrier == 2
  {
    CarrierOfDashAt(d, "460-00", 3, "460", "00");
  }

  /** The two parts are compared joined, so "4600-0" is China Mobile's too. */
  lemma CarrierPartsJoined(d: Rtb.Device)
    ensures NetworkInfo(d.(mccmnc := "4600-0")).carrier == 2
  {
    CarrierOfDashAt(d, "4600-0", 4, "4600", "0");
  }

  /** Without a '-' there is no carrier, even for a listed code. */
  lemma CarrierNeedsDash(d: Rtb.Device)
    ensures NetworkInfo(d.(mccmnc := "46000")).carrier == 0
  {
    assert forall i :: 0 <= i < 5 ==> "46000"[i] != '-';
  }

  /** The carrier of an MCC-MNC written as two given parts around one '-'. */
  lemma CarrierOfDashAt(d: Rtb.Device, mccmnc: string, k: nat, mcc: string, mnc: string)
    requires k < |mccmnc| && mccmnc[k] == '-'
    requires forall i :: 0 <= i < |mccmnc| && i != k ==> mccmnc[i] != '-'
    requires mccmnc[..k] == mcc && mccmnc[k + 1..] == mnc
    ensures NetworkInfo(d.(mccmnc := mccmnc)).carrier == CarrierOf(mcc + mnc)
  {
    CarrierOfParts(d, mccmnc, k);
  }

  /** The carrier of an MCC-MNC with a single '-' at `k` is that of the
      string without it. */
  lemma CarrierOfParts(d: Rtb.Device, mccmnc: string, k: nat)
    requires k < |mccmnc| && mccmnc[k] == '-'
    requires forall i :: 0 <= i < |mccmnc| && i != k ==> mccmnc[i] != '-'
    ensures NetworkInfo(d.(mccmnc := mccmnc)).carrier == CarrierOf(mccmnc[..k] + mccmnc[k + 1..])
  {
    assert IndexOf(mccmnc, '-') == k;
    var tail := mccmnc[k + 1..];
    assert IndexOf(tail, '-') == |tail|;
    assert Split(tail, '-') == [tail];
  }
}
