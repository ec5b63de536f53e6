/** Digest authentication for the exchange: an HMAC-SHA256 signature of the
    nonce, keyed by the publisher's id and signing key. The HMAC itself (with
    its hex encoding) is a parameter `hmac(message, key)`. */
module Auth {
  import opened Wrappers
  import opened Numbers
  import Rtb = OpenRtb
  import opened HuaweiTypes

  const Realm := "ppsadx/getResult"
  /** The fixed nonce of test authorization (2021-08-20 19:30). */
  const TestNonce := "1629473330823"

  /** The nonce: the current time in milliseconds, or the fixed test nonce. */
  function Nonce(isTestAuthorization: bool, nowMillis: int): (nonce: string)
    ensures isTestAuthorization ==> nonce == TestNonce
    ensures !isTestAuthorization ==> nonce == FormatInt(nowMillis)
  {
    if isTestAuthorization then TestNonce else FormatInt(nowMillis)
  }

  /** Outside test authorization the nonce reads back as the clock's time. */
  lemma NonceIsClock(nowMillis: int)
    requires MinInt64 <= nowMillis <= MaxInt64
    ensures Atoi(Nonce(false, nowMillis)) == Some(nowMillis)
  {
    AtoiFormatInt(nowMillis);
  }

  /** The HMAC key: "<publisherId>:ppsadx/getResult:<signKey>". */
  function ApiKey(cred: PublishersCredential): string {
    cred.publisherId + ":" + Realm + ":" + cred.signKey
  }

  /** The signed message: "<nonce>:POST:/ppsadx/getResult". */
  function SignedMessage(nonce: string): string {
    nonce + ":POST:/" + Realm
  }

  /** A digest header as its list of named parameters. */
  function DigestParams(cred: PublishersCredential, nonce: string, hmac: (string, string) -> string)
    : seq<(string, string)>
  {
    [("username", cred.publisherId), ("realm", Realm), ("nonce", nonce),
     ("response", hmac(SignedMessage(nonce), ApiKey(cred))), ("algorithm", "HmacSHA256"),
     ("usertype", "1"), ("keyid", cred.keyId)]
  }

  /** "k1=v1,k2=v2,...": parameters joined by ',' in their order. */
  function JoinParams(params: seq<(string, string)>): string {
    if params == [] then ""
    else if |params| == 1 then params[0].0 + "=" + params[0].1
    else params[0].0 + "=" + params[0].1 + "," + JoinParams(params[1..])
  }

  function RenderDigest(params: seq<(string, string)>): string {
    "Digest " + JoinParams(params)
  }

  /** One step of the join: a parameter that is not the last is followed by ','. */
  lemma JoinStep(params: seq<(string, string)>, i: nat)
    requires i + 1 < |params|
    ensures JoinParams(params[i..]) == params[i].0 + "=" + params[i].1 + "," + JoinParams(params[i + 1..])
  {
    assert params[i..][1..] == params[i + 1..];
  }

  /** The Authorization header value, concatenated in the exchange's order:
      the digest scheme followed by username, realm, nonce, response,
      algorithm, usertype and keyid; the response is the HMAC of the signed
      message under the API key. */
  function GetDigestAuthorization(cred: PublishersCredential, isTestAuthorization: bool, nowMillis: int,
                                  hmac: (string, string) -> string): (r: string)
    ensures r == RenderDigest(DigestParams(cred, Nonce(isTestAuthorization, nowMillis), hmac))
  {
    var nonce := Nonce(isTestAuthorization, nowMillis);
    var response := hmac(SignedMessage(nonce), ApiKey(cred));
    var ps := DigestParams(cred, nonce, hmac);
    JoinSeven(ps);
    ParamSpelling();
    LiteralJoin(cred.publisherId, nonce, response, cred.keyId);
    "Digest username=" + cred.publisherId + "," +
    "realm=ppsadx/getResult," +
    "nonce=" + nonce + "," +
    "response=" + response + "," +
    "algorithm=HmacSHA256,usertype=1,keyid=" + cred.keyId
  }

  /** Each parameter name followed by '=' (and its constant value and ','). */
  lemma ParamSpelling()
    ensures "username" + "=" == "username="
    ensures "realm" + "=" + Realm + "," == "realm=ppsadx/getResult,"
    ensures "nonce" + "=" == "nonce="
    ensures "response" + "=" == "response="
    ensures "algorithm" + "=" + "HmacSHA256" + "," == "algorithm=HmacSHA256,"
    ensures "usertype" + "=" + "1" + "," == "usertype=1,"
    ensures "keyid" + "=" == "keyid="
  {
  }

  /** Seven parameters joined, written out. */
  lemma JoinSeven(ps: seq<(string, string)>)
    requires |ps| == 7
    ensures JoinParams(ps)
      == ps[0].0 + "=" + ps[0].1 + "," + (ps[1].0 + "=" + ps[1].1 + "," + (ps[2].0 + "=" + ps[2].1 + "," +
        (ps[3].0 + "=" + ps[3].1 + "," + (ps[4].0 + "=" + ps[4].1 + "," + (ps[5].0 + "=" + ps[5].1 + "," +
        (ps[6].0 + "=" + ps[6].1))))))
  {
    assert ps[6..] == [ps[6]];
    JoinStep(ps, 5);
    JoinStep(ps, 4);
    JoinStep(ps, 3);
    JoinStep(ps, 2);
    JoinStep(ps, 1);
    JoinStep(ps, 0);
    assert ps[0..] == ps;
  }

  /** The flat concatenation re-associated around the parameters. */
  lemma LiteralJoin(pid: string, nonce: string, response: string, kid: string)
    ensures "Digest username=" + pid + "," + "realm=ppsadx/getResult," + "nonce=" + nonce + "," +
        "response=" + response + "," + "algorithm=HmacSHA256,usertype=1,keyid=" + kid
      == "Digest " + ("username=" + pid + "," + ("realm=ppsadx/getResult," + ("nonce=" + nonce + "," +
        ("response=" + response + "," + ("algorithm=HmacSHA256," + ("usertype=1," + ("keyid=" + kid)))))))
  {
    assert "algorithm=HmacSHA256,usertype=1,keyid=" == "algorithm=HmacSHA256," + "usertype=1," + "keyid=";
    assert "Digest username=" == "Digest " + "username=";
  }

  /** Under test authorization the header does not depend on the clock, so
      the same credential always gives the same header. */
  lemma TestDigestIgnoresClock(cred: PublishersCredential, t1: int, t2: int, hmac: (string, string) -> string)
    ensures GetDigestAuthorization(cred, true, t1, hmac) == GetDigestAuthorization(cred, true, t2, hmac)
  {
  }

  /** The request headers: content type and accept always; with a credential
      the digest Authorization, and then the device's user agent if any. */
  function GetHeaders(cred: Option<PublishersCredential>, device: Option<Rtb.Device>, isTestAuthorization: bool,
                      nowMillis: int, hmac: (string, string) -> string): (headers: map<string, string>)
    ensures "Content-Type" in headers && headers["Content-Type"] == "application/json;charset=utf-8"
    ensures "Accept" in headers && headers["Accept"] == "application/json"
    ensures "Authorization" in headers <==> cred.Some?
    ensures cred.Some? ==> headers["Authorization"] == GetDigestAuthorization(cred.value, isTestAuthorization, nowMillis, hmac)
    ensures "User-Agent" in headers <==> cred.Some? && device.Some? && |device.value.ua| > 0
    ensures "User-Agent" in headers ==> headers["User-Agent"] == device.value.ua
    ensures headers.Keys <= {"Content-Type", "Accept", "Authorization", "User-Agent"}
  {
    var base := map["Content-Type" := "application/json;charset=utf-8", "Accept" := "application/json"];
    if cred.None? then base
    else
      var signed := base["Authorization" := GetDigestAuthorization(cred.value, isTestAuthorization, nowMillis, hmac)];
      if device.Some? && |device.value.ua| > 0 then signed["User-Agent" := device.value.ua] else signed
  }
}
