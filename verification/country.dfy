/** Country resolution: a two-letter code from the device's geo, the user's
    geo, or the mobile network code, in that order, else "ZA". */
module Country {
  import opened Wrappers
  import opened Text
  import opened Numbers
  import Rtb = OpenRtb
  import opened HuaweiTypes

  /** The alpha-3 codes whose alpha-2 code is not their first two letters,
      looked up letter by letter. */
  function Alpha3ToAlpha2(code: string): (r: Option<string>)
    ensures r.Some? ==> |code| == 3 && |r.value| == 2
  {
    if |code| != 3 then None
    else match (code[0], code[1], code[2])
    case ('A', 'N', 'D') => Some("AD")
    case ('A', 'G', 'O') => Some("AO")
    case ('A', 'U', 'T') => Some("AT")
    case ('B', 'G', 'D') => Some("BD")
    case ('B', 'L', 'R') => Some("BY")
    case ('C', 'A', 'F') => Some("CF")
    case ('T', 'C', 'D') => Some("TD")
    case ('C', 'H', 'L') => Some("CL")
    case ('C', 'H', 'N') => Some("CN")
    case ('C', 'O', 'G') => Some("CG")
    case ('C', 'O', 'D') => Some("CD")
    case ('D', 'N', 'K') => Some("DK")
    case ('G', 'N', 'Q') => Some("GQ")
    case ('E', 'S', 'T') => Some("EE")
    case ('G', 'I', 'N') => Some("GN")
    case ('G', 'N', 'B') => Some("GW")
    case ('G', 'U', 'Y') => Some("GY")
    case ('I', 'R', 'Q') => Some("IQ")
    case ('I', 'R', 'L') => Some("IE")
    case ('I', 'S', 'R') => Some("IL")
    case ('K', 'A', 'Z') => Some("KZ")
    case ('L', 'B', 'Y') => Some("LY")
    case ('M', 'D', 'G') => Some("MG")
    case ('M', 'D', 'V') => Some("MV")
    case ('M', 'E', 'X') => Some("MX")
    case ('M', 'N', 'E') => Some("ME")
    case ('M', 'O', 'Z') => Some("MZ")
    case ('P', 'A', 'K') => Some("PK")
    case ('P', 'N', 'G') => Some("PG")
    case ('P', 'R', 'Y') => Some("PY")
    case ('P', 'O', 'L') => Some("PL")
    case ('P', 'R', 'T') => Some("PT")
    case ('S', 'R', 'B') => Some("RS")
    case ('S', 'V', 'K') => Some("SK")
    case ('S', 'V', 'N') => Some("SI")
    case ('S', 'W', 'E') => Some("SE")
    case ('T', 'U', 'N') => Some("TN")
    case ('T', 'U', 'R') => Some("TR")
    case ('T', 'K', 'M') => Some("TM")
    case ('U', 'K', 'R') => Some("UA")
    case ('A', 'R', 'E') => Some("AE")
    case ('U', 'R', 'Y') => Some("UY")
    case _ => None
  }

  /** Normalises a geo country code: a listed alpha-3 code maps through the
      table, any other code of three or more characters is cut to its first
      two, and anything shorter (a valid alpha-2 code included) gives "ZA". */
  function ConvertCountryCode(country: string): (out: string)
    ensures |out| == 2
    ensures Alpha3ToAlpha2(country).Some? ==> out == Alpha3ToAlpha2(country).value
    ensures Alpha3ToAlpha2(country).None? && |country| >= 3 ==> out == country[..2]
    ensures |country| < 3 ==> out == DefaultCountryName
  {
    if country == "" then DefaultCountryName
    else if Alpha3ToAlpha2(country).Some? then Alpha3ToAlpha2(country).value
    else if |country| >= 3 then country[..2]
    else DefaultCountryName
  }

  /** An alpha-2 code is not passed through: "DE" becomes "ZA", while its
      alpha-3 form "DEU" becomes "DE". */
  lemma ConvertCountryCodeAlpha2()
    ensures ConvertCountryCode("DE") == "ZA"
    ensures ConvertCountryCode("DEU") == "DE"
    ensures ConvertCountryCode("CHN") == "CN" && ConvertCountryCode("CHE") == "CH"
  {
  }

  /** Normalising is not idempotent: a second pass turns every result into
      the default code. */
  lemma ConvertCountryCodeTwice(country: string)
    ensures ConvertCountryCode(ConvertCountryCode(country)) == DefaultCountryName
  {
  }

  /** The country of the mobile network code "MCC-MNC": the part before the
      first '-' read as an integer and looked up in `mccList`, upper-cased;
      "ZA" when it does not parse or is not listed. */
  function GetCountryCodeFromMCC(mccmnc: string, mccList: map<int, string>): (out: string)
    ensures Atoi(mccmnc[..IndexOf(mccmnc, '-')]).None? ==> out == DefaultCountryName
  {
    var countryMcc := Split(mccmnc, '-')[0];
    match Atoi(countryMcc)
    case None => DefaultCountryName
    case Some(mcc) => if mcc in mccList then Upper(mccList[mcc]) else DefaultCountryName
  }

  /** A network code written as a mobile country code, a '-' and anything
      resolves to that country's listed name, upper-cased. */
  lemma MccLookup(mcc: int, mnc: string, mccList: map<int, string>)
    requires 0 <= mcc <= MaxInt64
    ensures GetCountryCodeFromMCC(FormatInt(mcc) + "-" + mnc, mccList)
      == if mcc in mccList then Upper(mccList[mcc]) else DefaultCountryName
  {
    var digits := FormatInt(mcc);
    var s := digits + "-" + mnc;
    IndexOfPrefix(digits, mnc);
    assert s[..|digits|] == digits;
    AtoiFormatInt(mcc);
  }

  /** The first '-' of `digits + "-" + rest` is the one after the digits. */
  lemma IndexOfPrefix(digits: string, rest: string)
    requires AllDigits(digits)
    ensures IndexOf(digits + "-" + rest, '-') == |digits|
    decreases |digits|
  {
    var s := digits + "-" + rest;
    if digits != [] {
      assert s[1..] == digits[1..] + "-" + rest;
      IndexOfPrefix(digits[1..], rest);
    }
  }

  function DeviceGeoCountry(bid: Rtb.BidRequest): string {
    if bid.device.Some? && bid.device.value.geo.Some? then bid.device.value.geo.value.country else ""
  }

  function UserGeoCountry(bid: Rtb.BidRequest): string {
    if bid.user.Some? && bid.user.value.geo.Some? then bid.user.value.geo.value.country else ""
  }

  function DeviceMccmnc(bid: Rtb.BidRequest): string {
    if bid.device.Some? then bid.device.value.mccmnc else ""
  }

  /** The request's country, first source that is present winning. */
  function GetCountryCode(bid: Rtb.BidRequest, mccList: map<int, string>): (out: string)
    ensures DeviceGeoCountry(bid) != "" ==> out == ConvertCountryCode(DeviceGeoCountry(bid))
    ensures DeviceGeoCountry(bid) == "" && UserGeoCountry(bid) != "" ==> out == ConvertCountryCode(UserGeoCountry(bid))
    ensures DeviceGeoCountry(bid) == "" && UserGeoCountry(bid) == "" && DeviceMccmnc(bid) != "" ==>
      out == GetCountryCodeFromMCC(DeviceMccmnc(bid), mccList)
    ensures DeviceGeoCountry(bid) == "" && UserGeoCountry(bid) == "" && DeviceMccmnc(bid) == "" ==> out == DefaultCountryName
    ensures DeviceGeoCountry(bid) != "" || UserGeoCountry(bid) != "" ==> |out| == 2
  {
    if bid.device.Some? && bid.device.value.geo.Some? && bid.device.value.geo.value.country != "" then
      ConvertCountryCode(bid.device.value.geo.value.country)
    else if bid.user.Some? && bid.user.value.geo.Some? && bid.user.value.geo.value.country != "" then
      ConvertCountryCode(bid.user.value.geo.value.country)
    else if bid.device.Some? && bid.device.value.mccmnc != "" then
      GetCountryCodeFromMCC(bid.device.value.mccmnc, mccList)
    else DefaultCountryName
  }
}
