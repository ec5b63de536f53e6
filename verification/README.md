# Huawei ADX request translation, modelled in Dafny

This project models the request side of the Huawei Ads bidder adapter
(`adapters/huaweiAdsRequest.go`). The adapter turns an already-decoded
OpenRTB bid request into a Huawei ADX request. The Huawei request has:

- one ad slot (`adslot30`) per impression;
- app, device, network, regs, geo and consent documents;
- an endpoint chosen by country;
- a header set with an HMAC-SHA256 digest authorization.

Modules, in dependency order:

| module | file | what it holds |
|---|---|---|
| `Wrappers` | wrappers.dfy | `Option` and `Result` |
| `Text` | text.dfy | the Go string operations the adapter uses: ASCII `ToLower`/`ToUpper`, `strings.Split`, and the join that inverts it |
| `Numbers` | numbers.dfy | 32-bit truncation (`int32(x)`), `strconv.FormatInt`/`Itoa`, `strconv.Atoi` on a 64-bit platform |
| `OpenRtb` | openrtb.dfy | the fields of the OpenRTB request the adapter reads |
| `HuaweiTypes` | huawei_types.dfy | the exchange's request records, ad-type codes, constants, the publisher credential and every error the translation returns |
| `AdSlots` | adslots.dfy | ad type and test status, format check, banner/native/video slot filling |
| `Country` | country.dfy | country resolution: alpha-3 table, MCC lookup, precedence |
| `Endpoint` | endpoint.dfy | the site groups and endpoint routing |
| `Context` | context.dfy | app, device (identifiers, client time, tracking flags) and network documents |
| `Auth` | auth.dfy | nonce, HMAC key and message, digest header, request headers |
| `Request` | request.dfy | the `HuaweiAdsRequest` object and its builders, the impression loop, and the whole translation |

How the model is shaped:

- **Pure code is functions.** The ad-type switch, the country conversion, the
  routing and the header concatenation are functions, each with a contract.
- **Loops are methods.** The banner format filter, the native asset scan and
  the impression loop are methods with loop invariants. Each is proved equal
  to a specification function. The function's properties are then proved as
  lemmas.
- **The request object is a class.** The Go builders assign fields of
  `*HuaweiAdsRequest`, so `Request.HuaweiAdsRequest` is a class with those
  fields.
  - `State()` reads the fields as one value.
  - Every builder method states its new `State()` in terms of the old one.
- **Slots and devices are values.** The Go `adslot30` and `device` are local
  values whose address is passed to helpers. Here the helpers return the
  updated value instead.
- **Outside the core are parameters.**
  - `hmac(message, key)` stands for HMAC-SHA256 with its hex encoding.
  - `Clock` holds the current time in milliseconds, the current time as
    text, and the current local time as RFC 822 text, from which
    `Context.LocalZone` takes the zone.
  - `mccList` is the MCC-to-country table.
- **The translation is modelled as written.** `Request.MakeRequest` /
  `Request.Translate` swallow slot errors and sign with the last
  impression's credential. `Request.MakeRequestChecked` /
  `Request.TranslateChecked` report the first slot error (see Findings).

## Model

| member | source | states |
|---|---|---|
| AdSlots.GetAdtype | adapters/huaweiAdsRequest.go:405-426 | the ad-type name, lower-cased, selects banner 8, native 3, rewarded 7, interstitial 12, roll 60, splash 1, magazinelock 2 or audio 17; any other name is banner; the result is always one of these codes |
| AdSlots.AdtypeIgnoresCase | adapters/huaweiAdsRequest.go:406 | upper-casing the name does not change the code |
| AdSlots.GetTestStatus | adapters/huaweiAdsRequest.go:428-433 | test status is 1 exactly for "true", else 0 |
| AdSlots.NonZeroFormatsMembers | adapters/huaweiAdsRequest.go:741-746 | the filtered format list keeps exactly the formats with both dimensions non-zero and is no longer than the input |
| AdSlots.NonZeroFormatsAppend | adapters/huaweiAdsRequest.go:742-746 | the filter processes formats one at a time in input order (it distributes over concatenation) |
| AdSlots.NonZeroFormatsKeepsAll | adapters/huaweiAdsRequest.go:742-746 | a list whose formats are all non-zero passes through unchanged |
| AdSlots.BannerSlotShape | adapters/huaweiAdsRequest.go:735-749 | size copied only when both W and H are present; a non-empty format list becomes its non-zero entries; otherwise the format list is kept; no other slot field changes |
| AdSlots.GetBannerFormat | adapters/huaweiAdsRequest.go:735-749 | the loop computes the banner slot of the specification function |
| AdSlots.DetailedCreativeTypes | adapters/huaweiAdsRequest.go:790-800 | ["903"] iff there is a video; else ["904"] iff more than one main image; ["901"] iff exactly one; ["913","914"] iff none; never empty, at most two entries |
| AdSlots.CountVideosPositive | adapters/huaweiAdsRequest.go:766-771 | the video count is positive exactly when some asset is a video |
| AdSlots.MainImageSizeNone | adapters/huaweiAdsRequest.go:773-788 | when no main image has a usable size (W and H, or else WMin and HMin, both non-zero) the native size is (0,0) |
| AdSlots.MainImageSizeLast | adapters/huaweiAdsRequest.go:773-788 | otherwise the last main image with a usable size decides: its W×H when both are non-zero, else its WMin×HMin |
| AdSlots.NativeClassification | adapters/huaweiAdsRequest.go:762-800 | the detailed types classify the asset list itself: video present, several, one or no main images |
| AdSlots.NativeSlotShape | adapters/huaweiAdsRequest.go:751-802 | native fails exactly on an empty or undecodable request string, with the slot unchanged in both cases; on success only W, H and the detailed types change; the types classify the assets (903 iff a video, else 904/901/913+914 by more than one, one or no main image) and the size is that of the last main image with a usable size, or (0,0) when there is none |
| AdSlots.GetNativeFormat | adapters/huaweiAdsRequest.go:751-802 | the asset-scanning loop computes the native slot of the specification function |
| AdSlots.VideoSlot | adapters/huaweiAdsRequest.go:805-816 | W/H always copied; for roll, max duration 0 is an error, otherwise the total duration is the 32-bit max duration; other codes leave the duration |
| AdSlots.ExtractFormat | adapters/huaweiAdsRequest.go:435-466 | banner, then native, then video, then audio: banner accepted only for banner/interstitial, native only for native, video only for banner/interstitial/rewarded/roll; a mismatch is reported with the error naming the creative found (banner, native or video) and the ad-type name; an accepted banner, native or video object is read into the slot by BannerSlot, NativeSlot or VideoSlot; audio and "no creative" always rejected; a slot rejected by the type check is unchanged; id, adtype and test are never changed |
| AdSlots.CheckAndExtractOpenrtbFormat | adapters/huaweiAdsRequest.go:435-466 | the method computes the format check of the specification function |
| AdSlots.Adslot30 | adapters/huaweiAdsRequest.go:391-403 | the slot is the credential's base slot (its slot id, ad-type code and test status) with the impression's creative read in by the format check, and the error is the format check's; on a mismatch it is the base slot |
| AdSlots.GetReqAdslot30 | adapters/huaweiAdsRequest.go:391-403 | the method computes the slot of the specification function |
| Country.ConvertCountryCode | adapters/huaweiAdsRequest.go:568-587 | listed alpha-3 codes map through the table; other codes of length ≥ 3 give their first two characters; shorter codes give "ZA"; the result always has length 2 |
| Country.ConvertCountryCodeAlpha2 | adapters/huaweiAdsRequest.go:582-586 | a valid alpha-2 code such as "DE" becomes "ZA"; "DEU" gives "DE"; "CHN" gives "CN" through the table |
| Country.ConvertCountryCodeTwice | adapters/huaweiAdsRequest.go:568-587 | converting an already converted code always gives "ZA" |
| Country.GetCountryCodeFromMCC | adapters/huaweiAdsRequest.go:589-602 | an MCC part that does not parse as a 64-bit integer gives "ZA" |
| Country.MccLookup | adapters/huaweiAdsRequest.go:589-602 | for "<mcc>-<mnc>", a listed MCC gives its country upper-cased, an unlisted one "ZA" |
| Country.GetCountryCode | adapters/huaweiAdsRequest.go:555-565 | device geo country, then user geo country, then the device MCC, then "ZA"; a geo-derived code has length 2 |
| Endpoint.GetFinalEndPoint | adapters/huaweiAdsRequest.go:818-841 | always one of the four site URLs; Chinese iff "CN", Russian iff "RU"; European (the default) iff the code is empty, longer than 2 or in the European group; Asian for the remaining 1–2 character codes |
| Endpoint.EndpointExamples | adapters/huaweiAdsRequest.go:818-841 | CN, RU, DE, JP, "" and "USA" route to the Chinese, Russian, European, Asian, default and default endpoints |
| Context.AppInfo | adapters/huaweiAdsRequest.go:483-510 | an app with an empty bundle is an error; otherwise version, name and bundle are copied, the language is the content language when it is non-empty and "en" otherwise, and the country is the request's; no app gives an empty app with the country |
| Context.GetClientTime | adapters/huaweiAdsRequest.go:647-664 | a stamp with a zone is kept, a stamp without one gets the local zone, anything else is replaced by the current time with the local zone |
| Context.ClientTimeIsZoned | adapters/huaweiAdsRequest.go:647-664 | with a well-formed clock the client time is always a stamp with a zone |
| Context.DeviceIdFromUserExt | adapters/huaweiAdsRequest.go:606-645 | without a user extension a device needs a GAID; an undecodable extension is an error; an extension with no OAID, GAID or IMEI list is an error; otherwise the first entry of each list replaces the identifier and the first client time is normalised, while an empty client-time list keeps the client time; nothing else changes |
| Context.BaseDevice | adapters/huaweiAdsRequest.go:513-533 | no device gives the empty device; otherwise type, height and width as 32-bit values, UA, OS, OS version, make, language, IP and IFA (as GAID) are copied, the model is the device's own or "HUAWEI" when blank, locale and belong country are the request's, and every other field (identifiers, tracking flags, client time, build version, DPI, EMUI version) stays at its zero value |
| Context.DeviceInfo | adapters/huaweiAdsRequest.go:513-553 | fails exactly when the identifier step on the base device fails; otherwise it is that step's device, with the tracking flags 1-DNT set only for an identifier that is present; the copied fields and the model ("HUAWEI" when blank, else the device's own) are stated field by field |
| Context.DeviceNeedsSomeId | adapters/huaweiAdsRequest.go:606-612 | with no user extension there is a device document iff the device has an advertising id |
| Context.CarrierOf | adapters/huaweiAdsRequest.go:685-693 | carrier 2, 1 or 3 for the listed Chinese MCC+MNC codes, 99 otherwise |
| Context.NetworkInfo | adapters/huaweiAdsRequest.go:667-700 | the connection type (32-bit) or unknown 0; one cell info iff the MCCMNC has a '-', and then its MCC is the text before the first '-' and its MNC the text between the first and the second, and the carrier is classified from MCC+MNC; carrier 0 otherwise |
| Context.CarrierChinaMobile | adapters/huaweiAdsRequest.go:677-693 | "460-00" is carrier 2 |
| Context.CarrierPartsJoined | adapters/huaweiAdsRequest.go:685-687 | the parts are compared joined, so "4600-0" is carrier 2 as well |
| Context.CarrierNeedsDash | adapters/huaweiAdsRequest.go:678-680 | "46000" without a '-' has carrier 0 |
| Auth.Nonce | adapters/huaweiAdsRequest.go:859-863 | the nonce is the fixed "1629473330823" under test authorization, else the clock in milliseconds |
| Auth.NonceIsClock | adapters/huaweiAdsRequest.go:859 | outside test authorization the nonce reads back as the clock |
| Auth.GetDigestAuthorization | adapters/huaweiAdsRequest.go:858-870 | the header is "Digest " then username, realm, nonce, response, algorithm, usertype and keyid joined by ','; the response is the HMAC of "<nonce>:POST:/ppsadx/getResult" under "<publisherId>:ppsadx/getResult:<signKey>" |
| Auth.JoinSeven | adapters/huaweiAdsRequest.go:865-869 | seven parameters join as "k=v" separated by ',' in their order |
| Auth.TestDigestIgnoresClock | adapters/huaweiAdsRequest.go:861-863 | under test authorization the same credential gives the same header at any time |
| Auth.GetHeaders | adapters/huaweiAdsRequest.go:843-856 | content type and accept always; Authorization exactly with a credential; User-Agent exactly with a credential and a device with a non-empty UA; no other header |
| Request.GetPublishersCredentials | adapters/huaweiAdsRequest.go:357-389 | every impression gets the fixed credential ("1", "2", "3", "4", "5", no test flag): slot id, ad type, publisher id, sign key and key id are non-empty (the commented-out checks would pass), the ad type "2" means banner, and test authorization is off |
| Request.FixedCredentialSlot | adapters/huaweiAdsRequest.go:357-389 | under the fixed credential every slot has id "1", is banner ("2" is not an ad-type name) and is not a test slot |
| Request.LastCredential | adapters/huaweiAdsRequest.go:312-315 | after the loop a credential is held exactly when there was an impression |
| Request.NeverTestAuthorization | adapters/huaweiAdsRequest.go:341-344 | the fixed credential never turns test authorization on |
| Request.SlotsAsWritten | adapters/huaweiAdsRequest.go:313-330 | one slot per impression, in order, each the slot derived for that impression whatever its error |
| Request.CollectSlots | adapters/huaweiAdsRequest.go:313-330 | the impression loop as written collects exactly those slots and keeps the last credential |
| Request.SlotsChecked | adapters/huaweiAdsRequest.go:324-327 | (corrected) succeeds iff no slot fails, and then gives the same slots; otherwise the error of the first failing impression |
| Request.SlotsCheckedStops | adapters/huaweiAdsRequest.go:324-327 | (corrected) once a prefix of impressions fails, the whole list fails with that error |
| Request.CollectSlotsChecked | adapters/huaweiAdsRequest.go:313-330 | (corrected) the loop that stops at the first slot error computes the checked slots |
| Request.NetworkFor | adapters/huaweiAdsRequest.go:667-700 | with a device the network document is replaced by the one NetworkInfo builds (connection type or 0, carrier and cell info from the MCCMNC); without one it is kept |
| Request.RegsFor | adapters/huaweiAdsRequest.go:703-709 | a non-negative COPPA replaces the regs document, as a 32-bit value; a negative one leaves it |
| Request.GeoFor | adapters/huaweiAdsRequest.go:712-721 | a device geo replaces the geo document with its accuracy and last fix truncated to 32 bits: both land in the 32-bit range, agree with the input modulo 2^32, and equal it when it is in range; no device geo keeps the document |
| Request.ConsentFor | adapters/huaweiAdsRequest.go:724-733 | a decodable user extension sets the consent string; otherwise it is kept |
| Request.ReqJson | adapters/huaweiAdsRequest.go:468-481 | the version is set first; an app error stops with that error before the app is set; a device error stops with the device error, after the app is set and before the device is; otherwise every document is built and the returned country is the app's and the device's country |
| Request.HuaweiAdsRequest.constructor | adapters/huaweiAdsRequest.go:310 | a request starts with every field at its zero value |
| Request.HuaweiAdsRequest.GetReqAppInfo | adapters/huaweiAdsRequest.go:483-510 | on error returns "" and leaves the request; else sets only the app and returns the country |
| Request.HuaweiAdsRequest.GetReqDeviceInfo | adapters/huaweiAdsRequest.go:513-553 | on error leaves the request; else sets only the device |
| Request.HuaweiAdsRequest.GetReqNetWorkInfo | adapters/huaweiAdsRequest.go:667-700 | sets only the network, as NetworkFor says |
| Request.HuaweiAdsRequest.GetReqRegsInfo | adapters/huaweiAdsRequest.go:703-709 | sets only the regs, as RegsFor says |
| Request.HuaweiAdsRequest.GetReqGeoInfo | adapters/huaweiAdsRequest.go:712-721 | sets only the geo, as GeoFor says |
| Request.HuaweiAdsRequest.GetReqConsentInfo | adapters/huaweiAdsRequest.go:724-733 | sets only the consent, as ConsentFor says |
| Request.HuaweiAdsRequest.GetReqJson | adapters/huaweiAdsRequest.go:468-481 | the builders in order leave the request and return the country and error that ReqJson describes |
| Request.Finish | adapters/huaweiAdsRequest.go:331-354 | fails exactly with the error the document builders give (ReqJson); a returned request is exactly the state ReqJson builds from the slots and the bid id, version "3.4"; the HTTP request is a POST to the endpoint of the app's country, with the headers GetHeaders gives, so its Authorization header is present iff there is a credential and is then the digest of that credential |
| Request.Translate | adapters/huaweiAdsRequest.go:309-355 | (as written) fails only on an app or device error, with ReqJson's error; otherwise the request is the state ReqJson builds from the slots derived per impression, in order, and the Authorization header is present iff there is an impression and is then the digest of the last impression's credential |
| Request.TranslateChecked | adapters/huaweiAdsRequest.go:309-355 | (corrected) a failing slot ends the translation with its error; otherwise it fails with ReqJson's error or returns the state ReqJson builds from the checked slots, none of which fails |
| Request.CheckedAgrees | adapters/huaweiAdsRequest.go:324-327 | when no slot fails, the corrected and as-written translations agree |
| Request.AudioImpressionSwallowed | adapters/huaweiAdsRequest.go:324-327 | an audio-only impression fails its slot, yet the translation as written succeeds with one slot; the corrected one fails with AudioNotSupported |
| Request.Assemble | adapters/huaweiAdsRequest.go:331-354 | the request object and HTTP request built after the loop are what Finish describes |
| Request.MakeRequest | adapters/huaweiAdsRequest.go:309-355 | (as written) the method returns what Translate describes, with a fresh request object |
| Request.MakeRequestChecked | adapters/huaweiAdsRequest.go:309-355 | (corrected) the method returns what TranslateChecked describes |
| Text.JoinSplit | adapters/huaweiAdsRequest.go:678 | splitting on a separator and joining back gives the original string |
| Text.SplitSeveral | adapters/huaweiAdsRequest.go:678-680 | a split has more than one part exactly when the separator occurs |
| Text.SplitSecond | adapters/huaweiAdsRequest.go:678-684 | when the separator occurs, the second part is the text between its first and second occurrence (or the end) |
| Numbers.AtoiFormatInt | adapters/huaweiAdsRequest.go:591 | every 64-bit integer printed in decimal parses back to itself |
| Numbers.Int32 | adapters/huaweiAdsRequest.go:706 | the 32-bit conversion lands in range, agrees with the input modulo 2^32, and keeps values already in range |

## Left out

- JSON. Decoding the user extension, the native markup and the consent extension is not modelled; each arrives already decoded as an `Option`, where `None` means it does not decode. Encoding the request body (`json.Marshal`) is not modelled either, so `RequestData` has no body. Its error (adapters/huaweiAdsRequest.go:337-340) is not modelled: it is reachable only through the floating-point fields left out below, when the pixel ratio (line 528) or the geo longitude or latitude (lines 715-716) become ±Inf on conversion to `float32`.
- HMAC-SHA256 and its hex encoding are the parameter `hmac(message, key)`, about which nothing is assumed.
- The clock is a parameter (`Clock`). The client-time shape check stands in for the regular expressions of `getClientTime`; it is applied to ASCII layouts only.
- Floating-point fields (pixel ratio, geo longitude and latitude) are not modelled.
- The contents of the MCC table (`constants.MccList`) are not part of this model; the table is the parameter `mccList`.
- Logging. The built HTTP request is only logged by the source; the model returns it as `sent` so its contents can be stated.
- `main.go` and the response-side types are not part of this model.
- Case mapping and slicing are ASCII, character by character. Go's `ToLower`/`ToUpper` are Unicode-aware, and `country[0:2]` slices bytes, as do the length tests `len(country) >= 3` (adapters/huaweiAdsRequest.go:582) and `len(countryCode) > 2` (line 819), which count bytes where the model counts characters. The two agree on ASCII country codes and ad-type names.
- AdSlots.AdtypeIgnoresCase: holds for the ASCII case mapping only. Under Go's Unicode `ToUpper`, 'ı' becomes 'I' and 'ſ' becomes 'S', so "natıve" is banner (8) while its upper-casing "NATIVE" is native (3).
- Request.GetPublishersCredentials: modelled as the fixed credential it returns; its error result and the `nil` check in the impression loop are never taken, so they are not modelled.
- Context.DeviceIdFromUserExt, AdSlots.GetBannerFormat and AdSlots.GetNativeFormat: the source writes through a pointer to a local slot or device; the model returns the updated value instead.
- Country.Alpha3ToAlpha2 and Endpoint.InEuropeanSiteGroup: the source's map and set literals are written as character-by-character lookups with the same entries.

## Findings

| source | as written | input that shows it | evidently intended | confidence | as-written member | corrected member |
|---|---|---|---|---|---|---|
| adapters/huaweiAdsRequest.go:324-327 | after deriving a slot, the loop tests the credential's error `err` (always nil at that point) instead of the slot's `err1`, so a slot error is dropped and the failed slot is still appended | one impression carrying only an audio object (no banner, native or video), with an app bundle and a device advertising id | return the slot error and stop the translation | high (not executed) | Request.AudioImpressionSwallowed | Request.TranslateChecked |
