/** Ad-slot derivation: one Huawei ad slot per OpenRTB impression, from the
    publisher's declared ad type and the impression's creative object. */
module AdSlots {
  import opened Wrappers
  import opened Text
  import opened Numbers
  import Rtb = OpenRtb
  import opened HuaweiTypes

  /** The ad type names the exchange knows, in lower case. */
  const KnownAdTypeNames: set<string> :=
    {"banner", "native", "rewarded", "interstitial", "roll", "splash", "magazinelock", "audio"}

  /** OpenRTB native image asset type 3: the main image. */
  const MainImageType: int := 3

  /** Maps the publisher's ad-type string, ignoring case, to its code; an
      unknown name means banner. */
  function GetAdtype(adtype: string): (code: int)
    ensures code in AdTypeCodes
    ensures code == Native <==> Lower(adtype) == "native"
    ensures code == Rewarded <==> Lower(adtype) == "rewarded"
    ensures code == Interstitial <==> Lower(adtype) == "interstitial"
    ensures code == Roll <==> Lower(adtype) == "roll"
    ensures code == Splash <==> Lower(adtype) == "splash"
    ensures code == Magazinelock <==> Lower(adtype) == "magazinelock"
    ensures code == Audio <==> Lower(adtype) == "audio"
    ensures code == Banner <==> Lower(adtype) == "banner" || Lower(adtype) !in KnownAdTypeNames
  {
    var name := Lower(adtype);
    if name == "banner" then Banner
    else if name == "native" then Native
    else if name == "rewarded" then Rewarded
    else if name == "interstitial" then Interstitial
    else if name == "roll" then Roll
    else if name == "splash" then Splash
    else if name == "magazinelock" then Magazinelock
    else if name == "audio" then Audio
    else Banner
  }

  /** The ad type is read case-insensitively: an upper-cased name means the
      same code as the name itself. */
  lemma AdtypeIgnoresCase(adtype: string)
    ensures GetAdtype(Upper(adtype)) == GetAdtype(adtype)
  {
    LowerOfUpper(adtype);
  }

  /** Test status 1 exactly for the string "true". */
  function GetTestStatus(testStatus: string): (r: int)
    ensures r == 0 || r == 1
    ensures r == 1 <==> testStatus == "true"
  {
    if testStatus == "true" then 1 else 0
  }

  /** The slot as it stands before the creative object is read. */
  function BaseSlot(cred: PublishersCredential): AdSlot30 {
    AdSlot30(cred.slotId, GetAdtype(cred.adtype), GetTestStatus(cred.isTestAuthorization), 0, 0, 0, 0, [], [])
  }

  /** A slot together with the error that may have stopped its filling: the
      source fills the slot through a pointer, so a slot rejected half-way
      keeps what was written before the error. */
  datatype SlotOutcome = SlotOutcome(slot: AdSlot30, err: Option<Error>)

  // ---------------------------------------------------------------- banner

  predicate NonZero(f: Rtb.Format) { f.h != 0 && f.w != 0 }

  /** The banner's formats with both dimensions non-zero, in their order. */
  function NonZeroFormats(fs: seq<Rtb.Format>): seq<Rtb.Format> {
    if fs == [] then []
    else
      var f := fs[|fs| - 1];
      NonZeroFormats(fs[..|fs| - 1]) + (if NonZero(f) then [f] else [])
  }

  /** Exactly the non-zero formats survive, and no more than there were. */
  lemma {:induction false} NonZeroFormatsMembers(fs: seq<Rtb.Format>)
    ensures |NonZeroFormats(fs)| <= |fs|
    ensures forall f :: f in NonZeroFormats(fs) <==> f in fs && NonZero(f)
  {
    if fs != [] {
      var init := fs[..|fs| - 1];
      NonZeroFormatsMembers(init);
      assert fs == init + [fs[|fs| - 1]];
    }
  }

  /** Filtering distributes over concatenation, so the survivors keep their
      relative order. */
  lemma {:induction false} NonZeroFormatsAppend(a: seq<Rtb.Format>, b: seq<Rtb.Format>)
    ensures NonZeroFormats(a + b) == NonZeroFormats(a) + NonZeroFormats(b)
    decreases |b|
  {
    if b == [] {
      assert a + b == a;
    } else {
      var binit := b[..|b| - 1];
      NonZeroFormatsAppend(a, binit);
      assert (a + b)[..|a + b| - 1] == a + binit;
    }
  }

  /** A list whose formats are all non-zero passes unchanged. */
  lemma {:induction false} NonZeroFormatsKeepsAll(fs: seq<Rtb.Format>)
    requires forall i :: 0 <= i < |fs| ==> NonZero(fs[i])
    ensures NonZeroFormats(fs) == fs
  {
    if fs != [] {
      NonZeroFormatsKeepsAll(fs[..|fs| - 1]);
      assert fs == fs[..|fs| - 1] + [fs[|fs| - 1]];
    }
  }

  /** The slot after reading a banner: width and height only when both are
      given, and the format list only when the banner declares one. */
  function BannerSlot(slot: AdSlot30, banner: Rtb.Banner): AdSlot30 {
    var sized := if banner.w.Some? && banner.h.Some? then slot.(w := banner.w.value, h := banner.h.value) else slot;
    if |banner.format| != 0 then sized.(format := NonZeroFormats(banner.format)) else sized
  }

  /** Reading a banner: the size is taken only when both dimensions are given;
      a declared format list is replaced by its entries with both dimensions
      non-zero, in their order; nothing else in the slot changes. */
  lemma BannerSlotShape(slot: AdSlot30, banner: Rtb.Banner)
    ensures var s := BannerSlot(slot, banner);
      && (banner.w.Some? && banner.h.Some? ==> s.w == banner.w.value && s.h == banner.h.value)
      && (banner.w.None? || banner.h.None? ==> s.w == slot.w && s.h == slot.h)
      && (|banner.format| == 0 ==> s.format == slot.format)
      && (|banner.format| != 0 ==> forall f :: f in s.format <==> f in banner.format && f.w != 0 && f.h != 0)
      && s == slot.(w := s.w, h := s.h, format := s.format)
  {
    NonZeroFormatsMembers(banner.format);
  }

  method GetBannerFormat(slot: AdSlot30, banner: Rtb.Banner) returns (s: AdSlot30)
    ensures s == BannerSlot(slot, banner)
  {
    s := slot;
    if banner.w.Some? && banner.h.Some? {
      s := s.(w := banner.w.value, h := banner.h.value);
    }
    if |banner.format| != 0 {
      var fs := banner.format;
      var formats := [];
      var i := 0;
      while i < |fs|
        invariant 0 <= i <= |fs|
        invariant formats == NonZeroFormats(fs[..i])
      {
        assert fs[..i + 1][..i] == fs[..i];
        var f := fs[i];
        if f.h != 0 && f.w != 0 {
          formats := formats + [f];
        }
        i := i + 1;
      }
      assert fs[..i] == fs;
      s := s.(format := formats);
    }
  }

  // ---------------------------------------------------------------- native

  predicate IsMainImage(a: Rtb.Asset) { a.ImageAsset? && a.img.imgType == MainImageType }

  function CountVideos(assets: seq<Rtb.Asset>): nat {
    if assets == [] then 0
    else CountVideos(assets[..|assets| - 1]) + (if assets[|assets| - 1].VideoAsset? then 1 else 0)
  }

  function CountMainImages(assets: seq<Rtb.Asset>): nat {
    if assets == [] then 0
    else CountMainImages(assets[..|assets| - 1]) + (if IsMainImage(assets[|assets| - 1]) then 1 else 0)
  }

  /** The size recorded by the last main image that gives one: its exact
      width and height when both are non-zero, else its minimum width and
      height when both of those are non-zero; (0, 0) when none does. */
  function MainImageSize(assets: seq<Rtb.Asset>): Rtb.Format {
    if assets == [] then Rtb.Format(0, 0)
    else
      var before := MainImageSize(assets[..|assets| - 1]);
      var a := assets[|assets| - 1];
      if !IsMainImage(a) then before
      else if a.img.h != 0 && a.img.w != 0 then Rtb.Format(a.img.w, a.img.h)
      else if a.img.wmin != 0 && a.img.hmin != 0 then Rtb.Format(a.img.wmin, a.img.hmin)
      else before
  }

  /** The detailed creative types asked for, from the asset counts. */
  function DetailedCreativeTypes(numVideo: nat, numMainImage: nat): (r: seq<string>)
    ensures 1 <= |r| <= 2
    ensures r == ["903"] <==> numVideo >= 1
    ensures r == ["904"] <==> numVideo == 0 && numMainImage > 1
    ensures r == ["901"] <==> numVideo == 0 && numMainImage == 1
    ensures r == ["913", "914"] <==> numVideo == 0 && numMainImage == 0
  {
    if numVideo >= 1 then ["903"]
    else if numMainImage > 1 then ["904"]
    else if numMainImage == 1 then ["901"]
    else ["913", "914"]
  }

  /** The video count is positive exactly when some asset is a video. */
  lemma {:induction false} CountVideosPositive(assets: seq<Rtb.Asset>)
    ensures CountVideos(assets) >= 1 <==> exists i :: 0 <= i < |assets| && assets[i].VideoAsset?
  {
    if assets != [] {
      var init := assets[..|assets| - 1];
      CountVideosPositive(init);
      if exists i :: 0 <= i < |init| && init[i].VideoAsset? {
        var i :| 0 <= i < |init| && init[i].VideoAsset?;
        assert assets[i] == init[i];
      }
      if exists i :: 0 <= i < |assets| && assets[i].VideoAsset? {
        var i :| 0 <= i < |assets| && assets[i].VideoAsset?;
        if i < |init| {
          assert init[i] == assets[i];
        }
      }
    }
  }

  /** A main image that gives a size: exact size or minimum size non-zero. */
  predicate HasUsableSize(a: Rtb.Asset) {
    IsMainImage(a) && ((a.img.h != 0 && a.img.w != 0) || (a.img.wmin != 0 && a.img.hmin != 0))
  }

  /** The size such an image gives: the exact one when usable, else the minimum. */
  function UsableSize(a: Rtb.Asset): Rtb.Format
    requires a.ImageAsset?
  {
    if a.img.h != 0 && a.img.w != 0 then Rtb.Format(a.img.w, a.img.h) else Rtb.Format(a.img.wmin, a.img.hmin)
  }

  /** With no main image giving a usable size, the native size is (0, 0). */
  lemma {:induction false} MainImageSizeNone(assets: seq<Rtb.Asset>)
    requires forall i :: 0 <= i < |assets| ==> !HasUsableSize(assets[i])
    ensures MainImageSize(assets) == Rtb.Format(0, 0)
  {
    if assets != [] {
      var init := assets[..|assets| - 1];
      assert forall i :: 0 <= i < |init| ==> init[i] == assets[i];
      MainImageSizeNone(init);
    }
  }

  /** The native size is that of the last main image giving a usable size. */
  lemma {:induction false} MainImageSizeLast(assets: seq<Rtb.Asset>, i: nat)
    requires i < |assets| && HasUsableSize(assets[i])
    requires forall j :: i < j < |assets| ==> !HasUsableSize(assets[j])
    ensures MainImageSize(assets) == UsableSize(assets[i])
  {
    var init := assets[..|assets| - 1];
    if i < |assets| - 1 {
      assert forall j :: 0 <= j < |init| ==> init[j] == assets[j];
      MainImageSizeLast(init, i);
    }
  }

  /** The classification of a native request by its assets: video first,
      then several main images, then one, then none. */
  lemma NativeClassification(assets: seq<Rtb.Asset>)
    ensures var types := DetailedCreativeTypes(CountVideos(assets), CountMainImages(assets));
      && (types == ["903"] <==> exists i :: 0 <= i < |assets| && assets[i].VideoAsset?)
      && (types == ["904"] <==> (forall i :: 0 <= i < |assets| ==> !assets[i].VideoAsset?) && CountMainImages(assets) > 1)
      && (types == ["901"] <==> (forall i :: 0 <= i < |assets| ==> !assets[i].VideoAsset?) && CountMainImages(assets) == 1)
      && (types == ["913", "914"] <==> (forall i :: 0 <= i < |assets| ==> !assets[i].VideoAsset?) && CountMainImages(assets) == 0)
  {
    CountVideosPositive(assets);
  }

  /** The slot after reading a native object: an empty or undecodable markup
      is an error that leaves the slot as it was; otherwise the size of the
      last sized main image and the detailed creative types. */
  function NativeSlot(slot: AdSlot30, native: Rtb.Native): SlotOutcome {
    if native.request == "" then SlotOutcome(slot, Some(NativeRequestEmpty))
    else if native.assets.None? then SlotOutcome(slot, Some(NativeRequestUndecodable))
    else
      var assets := native.assets.value;
      var size := MainImageSize(assets);
      SlotOutcome(slot.(w := size.w, h := size.h,
        detailedCreativeTypeList := DetailedCreativeTypes(CountVideos(assets), CountMainImages(assets))), None)
  }

  /** Reading a native object fails exactly on an empty or undecodable
      markup, leaving the slot as it was; otherwise only the size and the
      detailed creative types change: the types classify the assets (video,
      several, one or no main images) and the size is that of the last main
      image that gives one, or (0, 0). */
  lemma NativeSlotShape(slot: AdSlot30, native: Rtb.Native)
    ensures var o := NativeSlot(slot, native);
      && (o.err.Some? <==> native.request == "" || native.assets.None?)
      && (native.request == "" ==> o == SlotOutcome(slot, Some(NativeRequestEmpty)))
      && (native.request != "" && native.assets.None? ==> o == SlotOutcome(slot, Some(NativeRequestUndecodable)))
      && (o.err.None? ==>
            o.slot == slot.(w := o.slot.w, h := o.slot.h, detailedCreativeTypeList := o.slot.detailedCreativeTypeList))
      && (o.err.None? ==> 1 <= |o.slot.detailedCreativeTypeList| <= 2)
      && (o.err.None? ==> var assets := native.assets.value; var types := o.slot.detailedCreativeTypeList;
            && (types == ["903"] <==> exists i :: 0 <= i < |assets| && assets[i].VideoAsset?)
            && (types == ["904"] <==> (forall i :: 0 <= i < |assets| ==> !assets[i].VideoAsset?) && CountMainImages(assets) > 1)
            && (types == ["901"] <==> (forall i :: 0 <= i < |assets| ==> !assets[i].VideoAsset?) && CountMainImages(assets) == 1)
            && (types == ["913", "914"] <==> (forall i :: 0 <= i < |assets| ==> !assets[i].VideoAsset?) && CountMainImages(assets) == 0))
      && (o.err.None? && (forall i :: 0 <= i < |native.assets.value| ==> !HasUsableSize(native.assets.value[i])) ==>
            o.slot.w == 0 && o.slot.h == 0)
      && (o.err.None? ==> forall i :: 0 <= i < |native.assets.value| ==>
            (HasUsableSize(native.assets.value[i]) &&
             (forall j :: i < j < |native.assets.value| ==> !HasUsableSize(native.assets.value[j])))
            ==> Rtb.Format(o.slot.w, o.slot.h) == UsableSize(native.assets.value[i]))
  {
    if native.request != "" && native.assets.Some? {
      var assets := native.assets.value;
      NativeClassification(assets);
      if forall i :: 0 <= i < |assets| ==> !HasUsableSize(assets[i]) {
        MainImageSizeNone(assets);
      }
      forall i | 0 <= i < |assets| && HasUsableSize(assets[i]) && (forall j :: i < j < |assets| ==> !HasUsableSize(assets[j]))
        ensures MainImageSize(assets) == UsableSize(assets[i])
      {
        MainImageSizeLast(assets, i);
      }
    }
  }

  method GetNativeFormat(slot: AdSlot30, native: Rtb.Native) returns (o: SlotOutcome)
    ensures o == NativeSlot(slot, native)
  {
    if native.request == "" {
      return SlotOutcome(slot, Some(NativeRequestEmpty));
    }
    if native.assets.None? {
      return SlotOutcome(slot, Some(NativeRequestUndecodable));
    }
    var assets := native.assets.value;
    var numMainImage, numVideo := 0, 0;
    var width, height := 0, 0;
    var i := 0;
    while i < |assets|
      invariant 0 <= i <= |assets|
      invariant numVideo == CountVideos(assets[..i])
      invariant numMainImage == CountMainImages(assets[..i])
      invariant Rtb.Format(width, height) == MainImageSize(assets[..i])
    {
      assert assets[..i + 1][..i] == assets[..i];
      match assets[i] {
        case VideoAsset =>
          numVideo := numVideo + 1;
        case ImageAsset(img) =>
          if img.imgType == MainImageType {
            numMainImage := numMainImage + 1;
            if img.h != 0 && img.w != 0 {
              width, height := img.w, img.h;
            } else if img.wmin != 0 && img.hmin != 0 {
              width, height := img.wmin, img.hmin;
            }
          }
        case OtherAsset =>
      }
      i := i + 1;
    }
    assert assets[..i] == assets;
    var s := slot.(w := width, h := height);
    o := SlotOutcome(s.(detailedCreativeTypeList := DetailedCreativeTypes(numVideo, numMainImage)), None);
  }

  // ---------------------------------------------------------------- video

  /** The slot after reading a video object: the size is always copied; a
      roll slot needs a non-zero maximum duration, which becomes (cut to 32
      bits) its total duration. */
  function VideoSlot(slot: AdSlot30, adtype: int, video: Rtb.Video): (o: SlotOutcome)
    ensures o.slot.w == video.w && o.slot.h == video.h
    ensures o.slot == slot.(w := video.w, h := video.h, totalDuration := o.slot.totalDuration)
    ensures adtype == Roll ==> (o.err.Some? <==> video.maxDuration == 0)
    ensures o.err.Some? ==> o.err.value == RollMaxDurationMissing
    ensures adtype == Roll && o.err.None? ==> o.slot.totalDuration == Int32(video.maxDuration)
    ensures adtype != Roll ==> o.err.None? && o.slot.totalDuration == slot.totalDuration
  {
    var sized := slot.(w := video.w, h := video.h);
    if adtype == Roll then
      if video.maxDuration == 0 then SlotOutcome(sized, Some(RollMaxDurationMissing))
      else SlotOutcome(sized.(totalDuration := Int32(video.maxDuration)), None)
    else SlotOutcome(sized, None)
  }

  // ---------------------------------------------------------------- dispatch

  /** The creative object an impression is read by: the first present of
      banner, native, video and audio. */
  datatype CreativeKind = BannerKind | NativeKind | VideoKind | AudioKind | NoCreative

  function KindOf(imp: Rtb.Imp): CreativeKind {
    if imp.banner.Some? then BannerKind
    else if imp.native.Some? then NativeKind
    else if imp.video.Some? then VideoKind
    else if imp.hasAudio then AudioKind
    else NoCreative
  }

  /** Which ad-type codes each creative object is compatible with. */
  function AllowedAdtypes(kind: CreativeKind): set<int> {
    match kind
    case BannerKind => {Banner, Interstitial}
    case NativeKind => {Native}
    case VideoKind => {Banner, Interstitial, Rewarded, Roll}
    case AudioKind => {}
    case NoCreative => {}
  }

  predicate IsMismatch(err: Option<Error>) {
    err.Some? && (err.value.BannerAdtypeMismatch? || err.value.NativeAdtypeMismatch? || err.value.VideoAdtypeMismatch?)
  }

  /** Checks the impression's creative object against the ad-type code and
      reads it into the slot. */
  function ExtractFormat(slot: AdSlot30, adtype: int, yourAdtype: string, imp: Rtb.Imp): (o: SlotOutcome)
    ensures KindOf(imp) == NoCreative ==> o == SlotOutcome(slot, Some(NoSupportedCreative))
    ensures KindOf(imp) == AudioKind ==> o == SlotOutcome(slot, Some(AudioNotSupported))
    ensures IsMismatch(o.err) <==> KindOf(imp) in {BannerKind, NativeKind, VideoKind} && adtype !in AllowedAdtypes(KindOf(imp))
    ensures IsMismatch(o.err) ==> o.slot == slot && o.err.value.adtype == yourAdtype
    ensures KindOf(imp) == BannerKind && adtype !in {Banner, Interstitial} ==>
      o == SlotOutcome(slot, Some(BannerAdtypeMismatch(yourAdtype)))
    ensures KindOf(imp) == NativeKind && adtype != Native ==>
      o == SlotOutcome(slot, Some(NativeAdtypeMismatch(yourAdtype)))
    ensures KindOf(imp) == VideoKind && adtype !in {Banner, Interstitial, Rewarded, Roll} ==>
      o == SlotOutcome(slot, Some(VideoAdtypeMismatch(yourAdtype)))
    ensures o.err.None? ==> adtype in AllowedAdtypes(KindOf(imp))
    ensures o.slot.slotId == slot.slotId && o.slot.adtype == slot.adtype && o.slot.test == slot.test
    ensures imp.banner.Some? && adtype in {Banner, Interstitial} ==> o == SlotOutcome(BannerSlot(slot, imp.banner.value), None)
    ensures imp.banner.None? && imp.native.Some? && adtype == Native ==> o == NativeSlot(slot, imp.native.value)
    ensures imp.banner.None? && imp.native.None? && imp.video.Some? && adtype in {Banner, Interstitial, Rewarded, Roll} ==>
      o == VideoSlot(slot, adtype, imp.video.value)
  {
    if imp.banner.Some? then
      if adtype != Banner && adtype != Interstitial then SlotOutcome(slot, Some(BannerAdtypeMismatch(yourAdtype)))
      else SlotOutcome(BannerSlot(slot, imp.banner.value), None)
    else if imp.native.Some? then
      if adtype != Native then SlotOutcome(slot, Some(NativeAdtypeMismatch(yourAdtype)))
      else NativeSlot(slot, imp.native.value)
    else if imp.video.Some? then
      if adtype != Banner && adtype != Interstitial && adtype != Rewarded && adtype != Roll then
        SlotOutcome(slot, Some(VideoAdtypeMismatch(yourAdtype)))
      else VideoSlot(slot, adtype, imp.video.value)
    else if imp.hasAudio then SlotOutcome(slot, Some(AudioNotSupported))
    else SlotOutcome(slot, Some(NoSupportedCreative))
  }

  method CheckAndExtractOpenrtbFormat(slot: AdSlot30, adtype: int, yourAdtype: string, imp: Rtb.Imp)
    returns (o: SlotOutcome)
    ensures o == ExtractFormat(slot, adtype, yourAdtype, imp)
  {
    if imp.banner.Some? {
      if adtype != Banner && adtype != Interstitial {
        return SlotOutcome(slot, Some(BannerAdtypeMismatch(yourAdtype)));
      }
      var s := GetBannerFormat(slot, imp.banner.value);
      o := SlotOutcome(s, None);
    } else if imp.native.Some? {
      if adtype != Native {
        return SlotOutcome(slot, Some(NativeAdtypeMismatch(yourAdtype)));
      }
      o := GetNativeFormat(slot, imp.native.value);
    } else if imp.video.Some? {
      if adtype != Banner && adtype != Interstitial && adtype != Rewarded && adtype != Roll {
        return SlotOutcome(slot, Some(VideoAdtypeMismatch(yourAdtype)));
      }
      o := VideoSlot(slot, adtype, imp.video.value);
    } else if imp.hasAudio {
      o := SlotOutcome(slot, Some(AudioNotSupported));
    } else {
      o := SlotOutcome(slot, Some(NoSupportedCreative));
    }
  }

  /** The slot for one impression under one credential: the base slot of the
      credential, with the impression's creative read into it by the format
      check, and the format check's error. */
  function Adslot30(cred: PublishersCredential, imp: Rtb.Imp): (o: SlotOutcome)
    ensures o == ExtractFormat(BaseSlot(cred), GetAdtype(cred.adtype), cred.adtype, imp)
    ensures o.slot.slotId == cred.slotId
    ensures o.slot.adtype == GetAdtype(cred.adtype) && o.slot.test == GetTestStatus(cred.isTestAuthorization)
    ensures IsMismatch(o.err) ==> o.slot == BaseSlot(cred)
  {
    ExtractFormat(BaseSlot(cred), GetAdtype(cred.adtype), cred.adtype, imp)
  }

  method GetReqAdslot30(cred: PublishersCredential, imp: Rtb.Imp) returns (o: SlotOutcome)
    ensures o == Adslot30(cred, imp)
  {
    var adtype := GetAdtype(cred.adtype);
    var testStatus := GetTestStatus(cred.isTestAuthorization);
    var slot := AdSlot30(cred.slotId, adtype, testStatus, 0, 0, 0, 0, [], []);
    o := CheckAndExtractOpenrtbFormat(slot, adtype, cred.adtype, imp);
  }
}
