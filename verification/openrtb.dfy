/** The part of an already-decoded OpenRTB 2.x bid request that the
    translation reads. Optional objects (Go pointers) are `Option`s; a JSON
    payload the translation decodes itself (the native markup, the user
    extension) is given as the outcome of that decoding. */
module OpenRtb {
  import opened Wrappers

  /** A size, used both for a banner's format list and for the ad slot's. */
  datatype Format = Format(w: int, h: int)

  datatype Banner = Banner(w: Option<int>, h: Option<int>, format: seq<Format>)

  /** An image asset of the native markup; `imgType` 3 is the main image. */
  datatype Image = Image(imgType: int, w: int, h: int, wmin: int, hmin: int)

  /** One asset of the native markup. An asset carrying a video object counts
      as a video whatever else it holds; title and data assets are `Other`. */
  datatype Asset = VideoAsset | ImageAsset(img: Image) | OtherAsset

  /** `request` is the raw markup string; `assets` is its decoded asset list,
      or None when the markup does not decode. */
  datatype Native = Native(request: string, assets: Option<seq<Asset>>)

  datatype Video = Video(w: int, h: int, maxDuration: int)

  /** One impression: which creative objects it carries (audio only by
      presence, since nothing of it is read). */
  datatype Imp = Imp(banner: Option<Banner>, native: Option<Native>, video: Option<Video>, hasAudio: bool)

  /** Geo with its integer fields; longitude and latitude are left out. */
  datatype Geo = Geo(country: string, accuracy: int, lastFix: int)

  datatype Device = Device(
    deviceType: int, ua: string, os: string, osv: string, make: string, model: string,
    h: int, w: int, language: string, ip: string, ifa: string,
    dnt: Option<int>, geo: Option<Geo>, mccmnc: string, connectionType: Option<int>)

  /** The `data` object of the user extension: candidate device identifiers. */
  datatype DeviceIdLists = DeviceIdLists(imei: seq<string>, oaid: seq<string>, gaid: seq<string>, clientTime: seq<string>)

  /** The user extension as the two decodings the translation applies to it
      see it: `data` (None when it does not decode to the device-id shape) and
      `consent` (None when it does not decode to the consent shape). */
  datatype UserExt = UserExt(data: Option<DeviceIdLists>, consent: Option<string>)

  datatype User = User(geo: Option<Geo>, ext: Option<UserExt>)

  datatype Content = Content(language: string)

  datatype App = App(ver: string, name: string, bundle: string, content: Option<Content>)

  datatype Regs = Regs(coppa: int)

  datatype BidRequest = BidRequest(
    id: string, imp: seq<Imp>, app: Option<App>, device: Option<Device>,
    user: Option<User>, regs: Option<Regs>)
}
