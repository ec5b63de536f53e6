/** Endpoint routing: the regional Huawei ADX site a request is sent to. */
module Endpoint {

  const DefaultEndpoint := "https://adx-dre.op.hicloud.com/ppsadx/getResult"
  const ChineseSiteEndPoint := "https://acd.op.hicloud.com/ppsadx/getResult"
  const EuropeanSiteEndPoint := "https://adx-dre.op.hicloud.com/ppsadx/getResult"
  const AsianSiteEndPoint := "https://adx-dra.op.hicloud.com/ppsadx/getResult"
  const RussianSiteEndPoint := "https://adx-drru.op.hicloud.com/ppsadx/getResult"

  /** The countries served by the European site, checked letter by letter. */
  predicate InEuropeanSiteGroup(countryCode: string) {
    if |countryCode| != 2 then false
    else match (countryCode[0], countryCode[1])
    case ('A', 'X') => true
    case ('A', 'L') => true
    case ('A', 'D') => true
    case ('A', 'U') => true
    case ('A', 'T') => true
    case ('B', 'E') => true
    case ('B', 'A') => true
    case ('B', 'G') => true
    case ('C', 'A') => true
    case ('H', 'R') => true
    case ('C', 'Y') => true
    case ('C', 'Z') => true
    case ('D', 'K') => true
    case ('E', 'E') => true
    case ('F', 'O') => true
    case ('F', 'I') => true
    case ('F', 'R') => true
    case ('D', 'E') => true
    case ('G', 'I') => true
    case ('G', 'R') => true
    case ('G', 'L') => true
    case ('G', 'G') => true
    case ('V', 'A') => true
    case ('H', 'U') => true
    case ('I', 'S') => true
    case ('I', 'E') => true
    case ('I', 'M') => true
    case ('I', 'L') => true
    case ('I', 'T') => true
    case ('J', 'E') => true
    case ('Y', 'K') => true
    case ('L', 'V') => true
    case ('L', 'I') => true
    case ('L', 'T') => true
    case ('L', 'U') => true
    case ('M', 'T') => true
    case ('M', 'D') => true
    case ('M', 'C') => true
    case ('M', 'E') => true
    case ('N', 'L') => true
    case ('A', 'N') => true
    case ('N', 'Z') => true
    case ('N', 'O') => true
    case ('P', 'L') => true
    case ('P', 'T') => true
    case ('R', 'O') => true
    case ('M', 'F') => true
    case ('V', 'C') => true
    case ('S', 'M') => true
    case ('R', 'S') => true
    case ('S', 'X') => true
    case ('S', 'K') => true
    case ('S', 'I') => true
    case ('E', 'S') => true
    case ('S', 'E') => true
    case ('C', 'H') => true
    case ('T', 'R') => true
    case ('U', 'A') => true
    case ('G', 'B') => true
    case ('U', 'S') => true
    case ('M', 'K') => true
    case ('S', 'J') => true
    case ('B', 'Q') => true
    case ('P', 'M') => true
    case ('C', 'W') => true
    case _ => false
  }

  predicate InRussianSiteGroup(countryCode: string) { countryCode == "RU" }

  predicate InChineseSiteGroup(countryCode: string) { countryCode == "CN" }

  /** The four sites are distinct addresses (the default is the European). */
  lemma SitesDistinct()
    ensures DefaultEndpoint == EuropeanSiteEndPoint
    ensures ChineseSiteEndPoint != EuropeanSiteEndPoint && ChineseSiteEndPoint != AsianSiteEndPoint
    ensures ChineseSiteEndPoint != RussianSiteEndPoint && EuropeanSiteEndPoint != AsianSiteEndPoint
    ensures EuropeanSiteEndPoint != RussianSiteEndPoint && AsianSiteEndPoint != RussianSiteEndPoint
  {
    assert ChineseSiteEndPoint[9] == 'c' && EuropeanSiteEndPoint[9] == 'd' && AsianSiteEndPoint[9] == 'd';
    assert RussianSiteEndPoint[9] == 'd';
    assert EuropeanSiteEndPoint[14] == 'e' && AsianSiteEndPoint[14] == 'a' && RussianSiteEndPoint[14] == 'r';
  }

  /** The site for a country code. The default site is the European one. */
  function GetFinalEndPoint(countryCode: string): (url: string)
    ensures url in {ChineseSiteEndPoint, RussianSiteEndPoint, EuropeanSiteEndPoint, AsianSiteEndPoint}
    ensures url == ChineseSiteEndPoint <==> countryCode == "CN"
    ensures url == RussianSiteEndPoint <==> countryCode == "RU"
    ensures url == EuropeanSiteEndPoint <==>
      countryCode == "" || |countryCode| > 2 || InEuropeanSiteGroup(countryCode)
    ensures url == AsianSiteEndPoint <==>
      1 <= |countryCode| <= 2 && !InChineseSiteGroup(countryCode) && !InRussianSiteGroup(countryCode) &&
      !InEuropeanSiteGroup(countryCode)
  {
    SitesDistinct();
    if countryCode == "" || |countryCode| > 2 then DefaultEndpoint
    else if InChineseSiteGroup(countryCode) then ChineseSiteEndPoint
    else if InRussianSiteGroup(countryCode) then RussianSiteEndPoint
    else if InEuropeanSiteGroup(countryCode) then EuropeanSiteEndPoint
    else AsianSiteEndPoint
  }

  /** Routing of CN, RU, DE, JP, the empty code and a three-letter code. */
  lemma EndpointExamples()
    ensures GetFinalEndPoint("CN") == ChineseSiteEndPoint
    ensures GetFinalEndPoint("RU") == RussianSiteEndPoint
    ensures GetFinalEndPoint("DE") == EuropeanSiteEndPoint
    ensures GetFinalEndPoint("JP") == AsianSiteEndPoint
    ensures GetFinalEndPoint("") == DefaultEndpoint
    ensures GetFinalEndPoint("USA") == DefaultEndpoint
  {
    assert "DE"[0] == 'D' && "DE"[1] == 'E';
    assert "DE" != "CN" && "DE" != "RU" by { assert "CN"[0] == 'C' && "RU"[0] == 'R'; }
    assert "JP"[0] == 'J' && "JP"[1] == 'P';
    assert "JP" != "CN" && "JP" != "RU" by { assert "CN"[0] == 'C' && "RU"[0] == 'R'; }
  }
}
