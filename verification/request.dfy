/** The translation of a whole bid request: one ad slot per impression, the
    context documents, the endpoint and the signed headers. The exchange
    request is an object that the builders fill in field by field. */
module Request {
  import opened Wrappers
  import opened Numbers
  import Rtb = OpenRtb
  import opened HuaweiTypes
  import opened AdSlots
  import opened Country
  import opened Context
  import opened Endpoint
  import opened Auth

  // ------------------------------------------------------------ credentials

  /** The credential of an impression. The bidder extension is not read: every
      impression gets the same fixed credential, which never fails. Its fields
      are all non-empty except the test flag, its ad type names no ad type
      (so it means banner), and it never asks for test authorization. */
  function GetPublishersCredentials(imp: Rtb.Imp): (cred: PublishersCredential)
    ensures cred.slotId != "" && cred.adtype != "" && cred.publisherId != "" && cred.signKey != "" && cred.keyId != ""
    ensures GetAdtype(cred.adtype) == Banner
    ensures cred.isTestAuthorization != "true"
    ensures cred == PublishersCredential("1", "2", "3", "4", "5", "")
  {
    assert Text.Lower("2") == "2";
    assert "2" !in KnownAdTypeNames;
    PublishersCredential("1", "2", "3", "4", "5", "")
  }

  /** The slot and the error (if any) that one impression yields. */
  function SlotOf(imp: Rtb.Imp): SlotOutcome {
    Adslot30(GetPublishersCredentials(imp), imp)
  }

  /** Under the fixed credential every slot has id "1", is a banner slot ("2"
      is no ad-type name) and is not a test slot. */
  lemma FixedCredentialSlot(imp: Rtb.Imp)
    ensures SlotOf(imp).slot.slotId == "1"
    ensures SlotOf(imp).slot.adtype == Banner
    ensures SlotOf(imp).slot.test == 0
  {
  }

  /** The credential left over after the impression loop: the last
      impression's, or none when there are no impressions. */
  function LastCredential(imps: seq<Rtb.Imp>): (cred: Option<PublishersCredential>)
    ensures cred.Some? <==> |imps| > 0
  {
    if imps == [] then None else Some(GetPublishersCredentials(imps[|imps| - 1]))
  }

  /** Test authorization is on exactly when a credential asks for it with "true". */
  function IsTestAuthorization(cred: Option<PublishersCredential>): bool {
    cred.Some? && cred.value.isTestAuthorization == "true"
  }

  /** The fixed credential never asks for test authorization, so the digest
      nonce is always the clock. */
  lemma NeverTestAuthorization(imps: seq<Rtb.Imp>)
    ensures !IsTestAuthorization(LastCredential(imps))
  {
  }

  // ------------------------------------------------------------ slots

  /** The slots as the impression loop collects them: one per impression, in
      order, whether or not deriving it failed. */
  function SlotsAsWritten(imps: seq<Rtb.Imp>): (slots: seq<AdSlot30>)
    ensures |slots| == |imps|
    ensures forall i :: 0 <= i < |imps| ==> slots[i] == SlotOf(imps[i]).slot
  {
    if imps == [] then [] else SlotsAsWritten(imps[..|imps| - 1]) + [SlotOf(imps[|imps| - 1]).slot]
  }

  /** The slots when a failing impression ends the translation with its error:
      the first impression (in order) that fails decides the error. */
  function SlotsChecked(imps: seq<Rtb.Imp>): (r: Result<seq<AdSlot30>, Error>)
    ensures r.Success? <==> forall i :: 0 <= i < |imps| ==> SlotOf(imps[i]).err.None?
    ensures r.Success? ==> r.value == SlotsAsWritten(imps)
    ensures r.Failure? ==>
      exists i :: 0 <= i < |imps| && SlotOf(imps[i]).err == Some(r.error)
        && forall j :: 0 <= j < i ==> SlotOf(imps[j]).err.None?
  {
    if imps == [] then Success([])
    else
      var prefix := imps[..|imps| - 1];
      var last := SlotOf(imps[|imps| - 1]);
      match SlotsChecked(prefix)
      case Failure(e) =>
        assert forall i :: 0 <= i < |prefix| ==> prefix[i] == imps[i];
        Failure(e)
      case Success(slots) =>
        assert forall i :: 0 <= i < |prefix| ==> prefix[i] == imps[i];
        if last.err.Some? then Failure(last.err.value) else Success(slots + [last.slot])
  }

  /** The impression loop as written: each slot is appended whatever its error,
      and the credential of the last impression is kept. */
  method CollectSlots(imps: seq<Rtb.Imp>) returns (slots: seq<AdSlot30>, cred: Option<PublishersCredential>)
    ensures slots == SlotsAsWritten(imps)
    ensures cred == LastCredential(imps)
  {
    slots := [];
    cred := None;
    var i := 0;
    while i < |imps|
      invariant 0 <= i <= |imps|
      invariant slots == SlotsAsWritten(imps[..i])
      invariant cred == LastCredential(imps[..i])
    {
      var c := GetPublishersCredentials(imps[i]);
      cred := Some(c);
      var o := GetReqAdslot30(c, imps[i]);
      slots := slots + [o.slot];
      assert imps[..i + 1][..i] == imps[..i];
      i := i + 1;
    }
    assert imps[..i] == imps;
  }

  /** The impression loop when a slot error ends it. */
  method CollectSlotsChecked(imps: seq<Rtb.Imp>) returns (r: Result<seq<AdSlot30>, Error>, cred: Option<PublishersCredential>)
    ensures r == SlotsChecked(imps)
    ensures r.Success? ==> cred == LastCredential(imps)
  {
    var slots := [];
    cred := None;
    var i := 0;
    while i < |imps|
      invariant 0 <= i <= |imps|
      invariant SlotsChecked(imps[..i]) == Success(slots)
      invariant cred == LastCredential(imps[..i])
    {
      var c := GetPublishersCredentials(imps[i]);
      cred := Some(c);
      var o := GetReqAdslot30(c, imps[i]);
      assert imps[..i + 1][..i] == imps[..i];
      if o.err.Some? {
        r := Failure(o.err.value);
        SlotsCheckedStops(imps, i + 1);
        return;
      }
      slots := slots + [o.slot];
      i := i + 1;
    }
    assert imps[..i] == imps;
    r := Success(slots);
  }

  /** Once a prefix fails, every longer prefix fails with the same error. */
  lemma {:induction false} SlotsCheckedStops(imps: seq<Rtb.Imp>, n: nat)
    requires n <= |imps| && SlotsChecked(imps[..n]).Failure?
    ensures SlotsChecked(imps) == SlotsChecked(imps[..n])
    decreases |imps| - n
  {
    if n == |imps| {
      assert imps[..n] == imps;
    } else {
      var m := n + 1;
      assert imps[..m][..n] == imps[..n];
      SlotsCheckedStops(imps, m);
    }
  }

  // ------------------------------------------------------------ request object

  /** The fields of the exchange request at one moment. */
  datatype RequestState = RequestState(
    version: string, multislot: seq<AdSlot30>, app: App, device: Device, network: Network,
    regs: Regs, geo: Geo, consent: string, clientAdRequestId: string)

  /** A request with every field at its zero value. */
  const ZeroState := RequestState("", [], EmptyApp, EmptyDevice, EmptyNetwork, Regs(0), Geo(0, 0), "", "")

  /** The network document replaces the old one only when the bid request has a device. */
  function NetworkFor(n: Network, bid: Rtb.BidRequest): (r: Network)
    ensures bid.device.None? ==> r == n
    ensures bid.device.Some? ==> r.networkType == if bid.device.value.connectionType.Some?
      then Int32(bid.device.value.connectionType.value) else DefaultUnknownNetworkType
    ensures bid.device.Some? ==> r == NetworkInfo(bid.device.value)
  {
    if bid.device.Some? then NetworkInfo(bid.device.value) else n
  }

  /** The regs document: a non-negative COPPA flag, truncated to 32 bits. */
  function RegsFor(r: Regs, bid: Rtb.BidRequest): (out: Regs)
    ensures bid.regs.None? || bid.regs.value.coppa < 0 ==> out == r
    ensures bid.regs.Some? && 0 <= bid.regs.value.coppa < TwoTo31 ==> out.coppa == bid.regs.value.coppa
    ensures bid.regs.Some? && bid.regs.value.coppa >= 0 ==> -TwoTo31 <= out.coppa < TwoTo31
  {
    if bid.regs.Some? && bid.regs.value.coppa >= 0 then Regs(Int32(bid.regs.value.coppa)) else r
  }

  /** The geo document: the device's accuracy and last fix, truncated to 32 bits. */
  function GeoFor(g: Geo, bid: Rtb.BidRequest): (out: Geo)
    ensures bid.device.None? || bid.device.value.geo.None? ==> out == g
    ensures bid.device.Some? && bid.device.value.geo.Some? ==>
      && (out.accuracy - bid.device.value.geo.value.accuracy) % TwoTo32 == 0
      && (out.lastfix - bid.device.value.geo.value.lastFix) % TwoTo32 == 0
      && -TwoTo31 <= out.accuracy < TwoTo31 && -TwoTo31 <= out.lastfix < TwoTo31
      && (-TwoTo31 <= bid.device.value.geo.value.accuracy < TwoTo31 ==> out.accuracy == bid.device.value.geo.value.accuracy)
      && (-TwoTo31 <= bid.device.value.geo.value.lastFix < TwoTo31 ==> out.lastfix == bid.device.value.geo.value.lastFix)
  {
    if bid.device.Some? && bid.device.value.geo.Some? then
      Geo(Int32(bid.device.value.geo.value.accuracy), Int32(bid.device.value.geo.value.lastFix))
    else g
  }

  /** The consent string of the user extension; an extension that does not
      decode leaves the old value. */
  function ConsentFor(c: string, bid: Rtb.BidRequest): (out: string)
    ensures UserExtOf(bid.user).None? ==> out == c
    ensures UserExtOf(bid.user).Some? && UserExtOf(bid.user).value.consent.None? ==> out == c
    ensures UserExtOf(bid.user).Some? && UserExtOf(bid.user).value.consent.Some? ==>
      out == UserExtOf(bid.user).value.consent.value
  {
    match UserExtOf(bid.user)
    case None => c
    case Some(ext) => if ext.consent.Some? then ext.consent.value else c
  }

  /** The request after the context builders, the country code they agree on,
      and the error that stopped them. */
  datatype JsonOutcome = JsonOutcome(state: RequestState, countryCode: string, err: Option<Error>)

  /** The context builders in order: version, app, device, then network, regs,
      geo and consent. An app or device error stops the sequence. */
  function ReqJson(s: RequestState, bid: Rtb.BidRequest, mccList: map<int, string>, clock: Clock): (o: JsonOutcome)
    ensures o.state.version == ApiVersion
    ensures o.state.multislot == s.multislot && o.state.clientAdRequestId == s.clientAdRequestId
    ensures o.err.None? <==> AppInfo(bid, mccList).Success? && DeviceInfo(bid, mccList, clock).Success?
    ensures AppInfo(bid, mccList).Failure? ==> o.err == Some(AppInfo(bid, mccList).error) && o.state.app == s.app
    ensures AppInfo(bid, mccList).Success? && DeviceInfo(bid, mccList, clock).Failure? ==>
      o.err == Some(DeviceInfo(bid, mccList, clock).error) && o.state.app == AppInfo(bid, mccList).value
    ensures o.err.Some? ==> o.countryCode == "" && o.state.device == s.device && o.state.network == s.network
    ensures o.err.None? ==>
      && o.countryCode == o.state.app.country == GetCountryCode(bid, mccList)
      && o.state.app == AppInfo(bid, mccList).value
      && o.state.device == DeviceInfo(bid, mccList, clock).value
      && o.state.network == NetworkFor(s.network, bid)
      && o.state.regs == RegsFor(s.regs, bid)
      && o.state.geo == GeoFor(s.geo, bid)
      && o.state.consent == ConsentFor(s.consent, bid)
    ensures o.err.None? && bid.device.Some? ==>
      o.state.device.localeCountry == o.state.device.belongCountry == o.countryCode
  {
    var s1 := s.(version := ApiVersion);
    match AppInfo(bid, mccList)
    case Failure(e) => JsonOutcome(s1, "", Some(e))
    case Success(app) =>
      var s2 := s1.(app := app);
      match DeviceInfo(bid, mccList, clock)
      case Failure(e) => JsonOutcome(s2, "", Some(e))
      case Success(device) =>
        JsonOutcome(s2.(device := device, network := NetworkFor(s.network, bid), regs := RegsFor(s.regs, bid),
                        geo := GeoFor(s.geo, bid), consent := ConsentFor(s.consent, bid)),
                    app.country, None)
  }

  /** The exchange request, filled in place by the builders. */
  class HuaweiAdsRequest {
    var version: string
    var multislot: seq<AdSlot30>
    var app: App
    var device: Device
    var network: Network
    var regs: Regs
    var geo: Geo
    var consent: string
    var clientAdRequestId: string

    function State(): RequestState
      reads this
    {
      RequestState(version, multislot, app, device, network, regs, geo, consent, clientAdRequestId)
    }

    /** A request with every field at its zero value. */
    constructor ()
      ensures State() == ZeroState
    {
      version, multislot, app, device := "", [], EmptyApp, EmptyDevice;
      network, regs, geo, consent, clientAdRequestId := EmptyNetwork, Regs(0), Geo(0, 0), "", "";
    }

    /** Sets the app document and returns the request's country, or fails
      leaving the app as it was. */
    method GetReqAppInfo(bid: Rtb.BidRequest, mccList: map<int, string>) returns (countryCode: string, err: Option<Error>)
      modifies this
      ensures AppInfo(bid, mccList).Failure? ==>
        countryCode == "" && err == Some(AppInfo(bid, mccList).error) && State() == old(State())
      ensures AppInfo(bid, mccList).Success? ==>
        && countryCode == GetCountryCode(bid, mccList) && err.None?
        && State() == old(State()).(app := AppInfo(bid, mccList).value)
    {
      var r := AppInfo(bid, mccList);
      if r.Failure? {
        return "", Some(r.error);
      }
      app := r.value;
      countryCode, err := r.value.country, None;
    }

    /** Sets the device document, or fails leaving it as it was. */
    method GetReqDeviceInfo(bid: Rtb.BidRequest, mccList: map<int, string>, clock: Clock) returns (err: Option<Error>)
      modifies this
      ensures DeviceInfo(bid, mccList, clock).Failure? ==>
        err == Some(DeviceInfo(bid, mccList, clock).error) && State() == old(State())
      ensures DeviceInfo(bid, mccList, clock).Success? ==>
        err.None? && State() == old(State()).(device := DeviceInfo(bid, mccList, clock).value)
    {
      var r := DeviceInfo(bid, mccList, clock);
      if r.Failure? {
        return Some(r.error);
      }
      device := r.value;
      err := None;
    }

    method GetReqNetWorkInfo(bid: Rtb.BidRequest)
      modifies this
      ensures State() == old(State()).(network := NetworkFor(old(network), bid))
    {
      if bid.device.Some? {
        network := NetworkInfo(bid.device.value);
      }
    }

    method GetReqRegsInfo(bid: Rtb.BidRequest)
      modifies this
      ensures State() == old(State()).(regs := RegsFor(old(regs), bid))
    {
      if bid.regs.Some? && bid.regs.value.coppa >= 0 {
        regs := Regs(Int32(bid.regs.value.coppa));
      }
    }

    method GetReqGeoInfo(bid: Rtb.BidRequest)
      modifies this
      ensures State() == old(State()).(geo := GeoFor(old(geo), bid))
    {
      if bid.device.Some? && bid.device.value.geo.Some? {
        geo := Geo(Int32(bid.device.value.geo.value.accuracy), Int32(bid.device.value.geo.value.lastFix));
      }
    }

    method GetReqConsentInfo(bid: Rtb.BidRequest)
      modifies this
      ensures State() == old(State()).(consent := ConsentFor(old(consent), bid))
    {
      var ext := UserExtOf(bid.user);
      if ext.Some? {
        if ext.value.consent.None? {
          return;
        }
        consent := ext.value.consent.value;
      }
    }

    /** Runs the context builders in order; an app or device error stops them. */
    method GetReqJson(bid: Rtb.BidRequest, mccList: map<int, string>, clock: Clock) returns (countryCode: string, err: Option<Error>)
      modifies this
      ensures JsonOutcome(State(), countryCode, err) == ReqJson(old(State()), bid, mccList, clock)
    {
      version := ApiVersion;
      countryCode, err := GetReqAppInfo(bid, mccList);
      if err.Some? {
        return "", err;
      }
      err := GetReqDeviceInfo(bid, mccList, clock);
      if err.Some? {
        return "", err;
      }
      GetReqNetWorkInfo(bid);
      GetReqRegsInfo(bid);
      GetReqGeoInfo(bid);
      GetReqConsentInfo(bid);
    }
  }

  // ------------------------------------------------------------ the whole translation

  /** The HTTP request that would be sent: method, endpoint and headers. */
  datatype RequestData = RequestData(httpMethod: string, uri: string, headers: map<string, string>)

  /** The translated request, or the error; and the HTTP request built for it. */
  datatype Outcome = Outcome(request: Option<RequestState>, err: Option<Error>, sent: Option<RequestData>)

  /** Everything after the impression loop: the context builders, then the
      endpoint for the country and the headers signed with the credential. */
  function Finish(slots: seq<AdSlot30>, cred: Option<PublishersCredential>, bid: Rtb.BidRequest,
                  mccList: map<int, string>, clock: Clock, hmac: (string, string) -> string): (o: Outcome)
    ensures o.request.None? <==> o.err.Some?
    ensures o.sent.Some? <==> o.request.Some?
    ensures o.err == ReqJson(ZeroState, bid, mccList, clock).err
    ensures o.request.Some? ==>
      o.request.value == ReqJson(ZeroState.(multislot := slots, clientAdRequestId := bid.id), bid, mccList, clock).state
    ensures o.request.Some? ==>
      && o.request.value.multislot == slots && o.request.value.clientAdRequestId == bid.id
      && o.request.value.version == ApiVersion
      && o.sent.value.httpMethod == "POST"
      && o.sent.value.uri == GetFinalEndPoint(o.request.value.app.country)
      && o.request.value.app.country == GetCountryCode(bid, mccList)
      && ("Authorization" in o.sent.value.headers <==> cred.Some?)
      && o.sent.value.headers == GetHeaders(cred, bid.device, IsTestAuthorization(cred), clock.nowMillis, hmac)
    ensures o.sent.Some? && cred.Some? ==>
      o.sent.value.headers["Authorization"] == GetDigestAuthorization(cred.value, IsTestAuthorization(cred), clock.nowMillis, hmac)
  {
    var j := ReqJson(ZeroState.(multislot := slots, clientAdRequestId := bid.id), bid, mccList, clock);
    if j.err.Some? then Outcome(None, j.err, None)
    else
      var headers := GetHeaders(cred, bid.device, IsTestAuthorization(cred), clock.nowMillis, hmac);
      Outcome(Some(j.state), None, Some(RequestData("POST", GetFinalEndPoint(j.countryCode), headers)))
  }

  /** The translation as written: slot errors do not stop it, and the headers
      are signed with the last impression's credential. */
  function Translate(bid: Rtb.BidRequest, mccList: map<int, string>, clock: Clock,
                     hmac: (string, string) -> string): (o: Outcome)
    ensures o.err.Some? <==> AppInfo(bid, mccList).Failure? || DeviceInfo(bid, mccList, clock).Failure?
    ensures o.request.Some? ==> |o.request.value.multislot| == |bid.imp|
    ensures o.request.Some? <==> o.sent.Some?
    ensures o.sent.Some? ==> ("Authorization" in o.sent.value.headers <==> |bid.imp| > 0)
    ensures o.request.Some? ==> o.request.value.multislot == SlotsAsWritten(bid.imp)
    ensures o.err == ReqJson(ZeroState, bid, mccList, clock).err
    ensures o.request.Some? ==>
      o.request.value == ReqJson(ZeroState.(multislot := SlotsAsWritten(bid.imp), clientAdRequestId := bid.id), bid, mccList, clock).state
    ensures o.sent.Some? && |bid.imp| > 0 ==>
      o.sent.value.headers["Authorization"]
        == GetDigestAuthorization(GetPublishersCredentials(bid.imp[|bid.imp| - 1]), false, clock.nowMillis, hmac)
  {
    Finish(SlotsAsWritten(bid.imp), LastCredential(bid.imp), bid, mccList, clock, hmac)
  }

  /** The translation with the slot error reported: the first impression whose
      slot fails ends it with that error. */
  function TranslateChecked(bid: Rtb.BidRequest, mccList: map<int, string>, clock: Clock,
                            hmac: (string, string) -> string): (o: Outcome)
    ensures SlotsChecked(bid.imp).Failure? ==> o == Outcome(None, Some(SlotsChecked(bid.imp).error), None)
    ensures o.request.Some? ==> forall i :: 0 <= i < |bid.imp| ==> SlotOf(bid.imp[i]).err.None?
    ensures SlotsChecked(bid.imp).Success? ==> o.err == ReqJson(ZeroState, bid, mccList, clock).err
    ensures o.request.Some? ==>
      && SlotsChecked(bid.imp).Success?
      && o.request.value == ReqJson(ZeroState.(multislot := SlotsChecked(bid.imp).value, clientAdRequestId := bid.id), bid, mccList, clock).state
  {
    match SlotsChecked(bid.imp)
    case Failure(e) => Outcome(None, Some(e), None)
    case Success(slots) => Finish(slots, LastCredential(bid.imp), bid, mccList, clock, hmac)
  }

  /** When no impression fails, the two translations agree. */
  lemma CheckedAgrees(bid: Rtb.BidRequest, mccList: map<int, string>, clock: Clock, hmac: (string, string) -> string)
    requires forall i :: 0 <= i < |bid.imp| ==> SlotOf(bid.imp[i]).err.None?
    ensures TranslateChecked(bid, mccList, clock, hmac) == Translate(bid, mccList, clock, hmac)
  {
  }

  /** An impression that only asks for audio has no slot the exchange accepts,
      yet the translation as written succeeds with a slot for it. */
  lemma AudioImpressionSwallowed(bid: Rtb.BidRequest, mccList: map<int, string>, clock: Clock,
                                 hmac: (string, string) -> string)
    requires bid.imp == [Rtb.Imp(None, None, None, true)]
    requires AppInfo(bid, mccList).Success? && DeviceInfo(bid, mccList, clock).Success?
    ensures SlotOf(bid.imp[0]).err == Some(AudioNotSupported)
    ensures Translate(bid, mccList, clock, hmac).err.None?
    ensures |Translate(bid, mccList, clock, hmac).request.value.multislot| == 1
    ensures TranslateChecked(bid, mccList, clock, hmac).err == Some(AudioNotSupported)
  {
    var imp := bid.imp[0];
    assert KindOf(imp) == AudioKind;
  }

  /** Builds the request object after the impression loop, and the HTTP request
      for it. */
  method Assemble(slots: seq<AdSlot30>, cred: Option<PublishersCredential>, bid: Rtb.BidRequest,
                  mccList: map<int, string>, clock: Clock, hmac: (string, string) -> string)
    returns (req: HuaweiAdsRequest?, err: Option<Error>, sent: Option<RequestData>)
    ensures req != null ==> fresh(req)
    ensures Outcome(if req == null then None else Some(req.State()), err, sent)
      == Finish(slots, cred, bid, mccList, clock, hmac)
  {
    var r := new HuaweiAdsRequest();
    r.multislot := slots;
    r.clientAdRequestId := bid.id;
    var countryCode;
    countryCode, err := r.GetReqJson(bid, mccList, clock);
    if err.Some? {
      return null, err, None;
    }
    var headers := GetHeaders(cred, bid.device, IsTestAuthorization(cred), clock.nowMillis, hmac);
    sent := Some(RequestData("POST", GetFinalEndPoint(countryCode), headers));
    req := r;
  }

  /** The translation as written. */
  method MakeRequest(bid: Rtb.BidRequest, mccList: map<int, string>, clock: Clock, hmac: (string, string) -> string)
    returns (req: HuaweiAdsRequest?, err: Option<Error>, sent: Option<RequestData>)
    ensures req != null ==> fresh(req)
    ensures Outcome(if req == null then None else Some(req.State()), err, sent)
      == Translate(bid, mccList, clock, hmac)
  {
    var slots, cred := CollectSlots(bid.imp);
    req, err, sent := Assemble(slots, cred, bid, mccList, clock, hmac);
  }

  /** The translation with slot errors reported. */
  method MakeRequestChecked(bid: Rtb.BidRequest, mccList: map<int, string>, clock: Clock, hmac: (string, string) -> string)
    returns (req: HuaweiAdsRequest?, err: Option<Error>, sent: Option<RequestData>)
    ensures req != null ==> fresh(req)
    ensures Outcome(if req == null then None else Some(req.State()), err, sent)
      == TranslateChecked(bid, mccList, clock, hmac)
  {
    var r, cred := CollectSlotsChecked(bid.imp);
    if r.Failure? {
      return null, Some(r.error), None;
    }
    req, err, sent := Assemble(r.value, cred, bid, mccList, clock, hmac);
  }
}
