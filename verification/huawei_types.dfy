/** The Huawei ADX request document (protocol version 3.4), the publisher
    credential, and the ways a translation can fail. */
module HuaweiTypes {
  import Rtb = OpenRtb

  // ad type codes
  const Banner: int := 8
  const Native: int := 3
  const Roll: int := 60
  const Interstitial: int := 12
  const Rewarded: int := 7
  const Splash: int := 1
  const Magazinelock: int := 2
  const Audio: int := 17

  const AdTypeCodes: set<int> := {Banner, Native, Roll, Interstitial, Rewarded, Splash, Magazinelock, Audio}

  const ApiVersion := "3.4"
  const DefaultCountryName := "ZA"
  const DefaultUnknownNetworkType: int := 0
  const DefaultTimeZone := "+0200"
  const DefaultModelName := "HUAWEI"

  /** One ad slot, the unit the exchange is asked to fill. */
  datatype AdSlot30 = AdSlot30(
    slotId: string, adtype: int, test: int, totalDuration: int, orientation: int,
    w: int, h: int, format: seq<Rtb.Format>, detailedCreativeTypeList: seq<string>)

  datatype App = App(version: string, name: string, pkgname: string, lang: string, country: string)

  datatype Device = Device(
    deviceType: int, useragent: string, os: string, version: string, maker: string,
    model: string, width: int, height: int, language: string, buildVersion: string,
    dpi: int, imei: string, oaid: string, isTrackingEnabled: string, emuiVer: string,
    localeCountry: string, belongCountry: string, gaidTrackingEnabled: string,
    gaid: string, clientTime: string, ip: string)

  datatype CellInfo = CellInfo(mcc: string, mnc: string)

  datatype Network = Network(networkType: int, carrier: int, cellInfo: seq<CellInfo>)

  datatype Regs = Regs(coppa: int)

  /** Geo with its integer fields; longitude and latitude are left out. */
  datatype Geo = Geo(accuracy: int, lastfix: int)

  /** Go's zero values of the sub-documents. */
  const EmptyApp := App("", "", "", "", "")
  const EmptyDevice := Device(0, "", "", "", "", "", 0, 0, "", "", 0, "", "", "", "", "", "", "", "", "", "")
  const EmptyNetwork := Network(0, 0, [])

  /** Who the request is made for, and how it is signed. */
  datatype PublishersCredential = PublishersCredential(
    slotId: string, adtype: string, publisherId: string, signKey: string,
    keyId: string, isTestAuthorization: string)

  /** Every error the translation returns. The three mismatch errors carry the
      publisher's ad-type string, as the messages do. */
  datatype Error =
    | BannerAdtypeMismatch(adtype: string)
    | NativeAdtypeMismatch(adtype: string)
    | VideoAdtypeMismatch(adtype: string)
    | AudioNotSupported
    | NoSupportedCreative
    | NativeRequestEmpty
    | NativeRequestUndecodable
    | RollMaxDurationMissing
    | AppBundleEmpty
    | UserExtUndecodable
    | NoDeviceIdInUserExt
    | NoUserExtAndNoGaid
}
