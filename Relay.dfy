/** The payment relay (server.js): the gateway payload of `/stkpush`, the
    HTTP Basic and Bearer credentials, and the three routes, each a function
    from the outcomes of its outbound HTTP calls to the calls it made and the
    reply it sent.

    Nothing here performs I/O: what axios came back with is a parameter
    (`CallOutcome`), the clock is a parameter (`UtcFields`), and the
    environment's configuration is a value (`Config`). */
module Relay {
  import opened Text
  import opened Base64
  import opened IsoTimestamp

  // ---------------------------------------------------------------------------
  // JSON values and the JavaScript operations the relay applies to them

  /** A JSON value. A number carries the text `String(n)` gives it in
      JavaScript; members of an object keep their order. */
  datatype Json =
    | JNull
    | JBool(b: bool)
    | JNumber(text: string)
    | JString(s: string)
    | JArray(elems: seq<Json>)
    | JObject(members: seq<(string, Json)>)

  /** JavaScript truthiness of a parsed JSON value (`x || y` keeps `x` when it
      is truthy). `0` and `-0` both print "0"; JSON cannot hold `NaN`. */
  predicate Truthy(j: Json) {
    match j
    case JNull => false
    case JBool(b) => b
    case JNumber(t) => t != "0"
    case JString(s) => s != ""
    case _ => true
  }

  /** Reading `obj.key` from a parsed object: of duplicate keys the last wins. */
  function Member(members: seq<(string, Json)>, key: string): (r: Option<Json>)
    ensures r.None? <==> forall i :: 0 <= i < |members| ==> members[i].0 != key
    ensures r.Some? ==> exists i :: 0 <= i < |members| && members[i] == (key, r.value)
                          && forall k :: i < k < |members| ==> members[k].0 != key
  {
    if members == [] then None
    else if members[|members| - 1].0 == key then Some(members[|members| - 1].1)
    else Member(members[..|members| - 1], key)
  }

  function Join(parts: seq<string>, sep: string): string {
    if |parts| == 0 then ""
    else if |parts| == 1 then parts[0]
    else parts[0] + sep + Join(parts[1..], sep)
  }

  /** What a template literal `${v}` makes of a JSON value: arrays join their
      elements with commas (null elements print as nothing), objects print
      as `[object Object]`. */
  function Interpolate(j: Json): string
    decreases j
  {
    match j
    case JNull => "null"
    case JBool(b) => if b then "true" else "false"
    case JNumber(t) => t
    case JString(s) => s
    case JObject(_) => "[object Object]"
    case JArray(es) =>
      Join(seq(|es|, i requires 0 <= i < |es| => if es[i].JNull? then "" else Interpolate(es[i])), ",")
  }

  // ---------------------------------------------------------------------------
  // Configuration, request and payload

  /** The environment variables of server.js:9-16 (the port is left out). */
  datatype Config = Config(
    consumerKey: string, consumerSecret: string,
    shortCode: string, passKey: string, callbackUrl: string)

  /** The body of a `POST /stkpush`. */
  datatype StkRequest = StkRequest(phoneNumber: string, amount: real)

  /** The body sent to the gateway's process-request endpoint. */
  datatype StkPayload = StkPayload(
    businessShortCode: string,
    password: string,
    timestamp: string,
    transactionType: string,
    amount: int,
    partyA: string,
    partyB: string,
    phoneNumber: string,
    callBackUrl: string,
    accountReference: string,
    transactionDesc: string)

  const CountryCode: string := "254"
  const TransactionType: string := "CustomerPayBillOnline"
  const AccountReference: string := "TestOrder"
  const TransactionDesc: string := "Test Payment"
  const TokenUrl: string := "https://sandbox.safaricom.co.ke/oauth/v1/generate?grant_type=client_credentials"
  const StkPushUrl: string := "https://sandbox.safaricom.co.ke/mpesa/stkpush/v1/processrequest"

  /** `Math.round`: the nearest integer, halves rounded towards +infinity. */
  function JsRound(x: real): (r: int)
    ensures x - 0.5 < r as real <= x + 0.5
  {
    (x + 0.5).Floor
  }

  /** `254${phoneNumber}` */
  function FormattedPhone(phone: string): (r: string)
    ensures |r| == |phone| + 3 && r[..3] == CountryCode && r[3..] == phone
  {
    CountryCode + phone
  }

  /** Base64 of the UTF-8 bytes of short code, passkey and timestamp. */
  function Password(cfg: Config, timestamp: string): (r: string)
    ensures Decode(r) == Some(Utf8(cfg.shortCode + cfg.passKey + timestamp))
  {
    DecodeEncode(Utf8(cfg.shortCode + cfg.passKey + timestamp));
    Encode(Utf8(cfg.shortCode + cfg.passKey + timestamp))
  }

  /** The payload of server.js:51-69 for the instant `now`. */
  function BuildPayload(req: StkRequest, cfg: Config, now: UtcFields): StkPayload
    requires Valid(now)
  {
    var timestamp := GatewayTimestamp(now);
    var phone := FormattedPhone(req.phoneNumber);
    StkPayload(
      businessShortCode := cfg.shortCode,
      password := Password(cfg, timestamp),
      timestamp := timestamp,
      transactionType := TransactionType,
      amount := JsRound(req.amount),
      partyA := phone,
      partyB := cfg.shortCode,
      phoneNumber := phone,
      callBackUrl := cfg.callbackUrl,
      accountReference := AccountReference,
      transactionDesc := TransactionDesc)
  }

  // ---------------------------------------------------------------------------
  // Credentials

  /** The credential of HTTP Basic (section 2 of RFC 7617): Base64 of
      `key:secret`. */
  function BasicCredential(cfg: Config): (r: string)
    ensures Decode(r) == Some(Utf8(cfg.consumerKey + ":" + cfg.consumerSecret))
  {
    DecodeEncode(Utf8(cfg.consumerKey + ":" + cfg.consumerSecret));
    Encode(Utf8(cfg.consumerKey + ":" + cfg.consumerSecret))
  }

  function BasicAuthorization(cfg: Config): string {
    "Basic " + BasicCredential(cfg)
  }

  /** The Authorization header of section 2.1 of RFC 6750. */
  function BearerAuthorization(token: string): string {
    "Bearer " + token
  }

  // ---------------------------------------------------------------------------
  // Outbound calls and replies

  datatype OutboundCall =
    | GetToken(url: string, authorization: string)
    | PostStkPush(url: string, authorization: string, payload: StkPayload)

  /** What an awaited axios call produced: the body of a 2xx response, or a
      thrown error with the body of the error response if there was one. */
  datatype CallOutcome =
    | Responded(data: Json)
    | Threw(responseData: Option<Json>, message: string)

  datatype Reply = Reply(status: int, body: Json)

  /** The outbound calls a route made, in order, and its reply. */
  datatype Exchange = Exchange(calls: seq<OutboundCall>, reply: Reply)

  const NullTokenMessage: string := "Cannot read properties of null (reading 'access_token')"

  /** `${tokenResponse.data.access_token}`, or the message of the TypeError
      that reading a property of `null` throws. */
  function AccessToken(data: Json): (r: Result<string>)
    ensures r.Failure? <==> data.JNull?
  {
    match data
    case JNull => Failure(NullTokenMessage)
    case JObject(ms) =>
      (match Member(ms, "access_token")
       case None => Success("undefined")
       case Some(v) => Success(Interpolate(v)))
    case _ => Success("undefined")
  }

  datatype Result<T> = Success(value: T) | Failure(message: string)

  /** `error.response?.data || error.message` */
  function ErrorDetail(responseData: Option<Json>, message: string): (r: Json)
    ensures responseData.Some? && Truthy(responseData.value) ==> r == responseData.value
    ensures !(responseData.Some? && Truthy(responseData.value)) ==> r == JString(message)
  {
    match responseData
    case Some(d) => if Truthy(d) then d else JString(message)
    case None => JString(message)
  }

  function SuccessReply(response: Json): Reply {
    Reply(200, JObject([("success", JBool(true)), ("response", response)]))
  }

  function FailureReply(detail: Json): Reply {
    Reply(500, JObject([("success", JBool(false)), ("message", detail)]))
  }

  /** `POST /stkpush` (server.js:33-90): token first; only with a token the
      payment request; any failure ends in a 500 reply. */
  function StkPush(req: StkRequest, cfg: Config, now: UtcFields,
                   token: CallOutcome, push: CallOutcome): (x: Exchange)
    requires Valid(now)
    ensures 1 <= |x.calls| <= 2 && x.calls[0] == GetToken(TokenUrl, BasicAuthorization(cfg))
    ensures |x.calls| == 2 <==> token.Responded? && !token.data.JNull?
    ensures x.reply.status == 200 || x.reply.status == 500
    ensures x.reply.status == 200 <==> |x.calls| == 2 && push.Responded?
  {
    var tokenCall := GetToken(TokenUrl, BasicAuthorization(cfg));
    match token
    case Threw(data, message) =>
      Exchange([tokenCall], FailureReply(ErrorDetail(data, message)))
    case Responded(data) =>
      match AccessToken(data)
      case Failure(message) =>
        Exchange([tokenCall], FailureReply(JString(message)))
      case Success(accessToken) =>
        var pushCall := PostStkPush(StkPushUrl, BearerAuthorization(accessToken), BuildPayload(req, cfg, now));
        match push
        case Threw(data, message) =>
          Exchange([tokenCall, pushCall], FailureReply(ErrorDetail(data, message)))
        case Responded(body) =>
          Exchange([tokenCall, pushCall], SuccessReply(body))
  }

  /** `GET /token` (server.js:19-30): the gateway's token response as it came,
      or a 500 with the error's message. */
  function TokenRoute(cfg: Config, token: CallOutcome): (x: Exchange)
    ensures x.calls == [GetToken(TokenUrl, BasicAuthorization(cfg))]
    ensures token.Responded? ==> x.reply == Reply(200, token.data)
    ensures token.Threw? ==> x.reply == Reply(500, JObject([("error", JString(token.message))]))
  {
    var tokenCall := GetToken(TokenUrl, BasicAuthorization(cfg));
    match token
    case Responded(data) => Exchange([tokenCall], Reply(200, data))
    case Threw(_, message) => Exchange([tokenCall], Reply(500, JObject([("error", JString(message))])))
  }

  /** `POST /callback` (server.js:93-96): every body is acknowledged alike. */
  function Callback(body: Json): (r: Reply)
    ensures r == Reply(200, JObject([("success", JBool(true))]))
  {
    Reply(200, JObject([("success", JBool(true))]))
  }

  // ---------------------------------------------------------------------------
  // Properties

  /** What the payload says, field by field. */
  lemma PayloadFields(req: StkRequest, cfg: Config, now: UtcFields)
    requires Valid(now)
    ensures var p := BuildPayload(req, cfg, now);
      && p.partyA == p.phoneNumber == CountryCode + req.phoneNumber
      && p.partyA[3..] == req.phoneNumber
      && p.businessShortCode == p.partyB == cfg.shortCode
      && p.timestamp == GatewayTimestamp(now)
      && Decode(p.password) == Some(Utf8(cfg.shortCode) + Utf8(cfg.passKey) + Utf8(p.timestamp))
      && req.amount - 0.5 < p.amount as real <= req.amount + 0.5
      && p.transactionType == "CustomerPayBillOnline"
      && p.accountReference == "TestOrder"
      && p.transactionDesc == "Test Payment"
      && p.callBackUrl == cfg.callbackUrl
  {
    var ts := GatewayTimestamp(now);
    DecodeEncode(Utf8(cfg.shortCode + cfg.passKey + ts));
    Utf8Append(cfg.shortCode + cfg.passKey, ts);
    Utf8Append(cfg.shortCode, cfg.passKey);
  }

  /** In the years 0 to 9999 the timestamp sent is `YYYYMMDDHHmmss` and the
      password is built from that same string. */
  lemma PayloadTimestamp(req: StkRequest, cfg: Config, now: UtcFields)
    requires Valid(now) && 0 <= now.year <= 9999
    ensures var p := BuildPayload(req, cfg, now);
      && |p.timestamp| == 14 && AllDigits(p.timestamp)
      && ParseTimestamp(p.timestamp)
           == Some(Fields6(now.year, now.month, now.day, now.hour, now.minute, now.second))
      && p.password == Encode(Utf8(cfg.shortCode + cfg.passKey + p.timestamp))
  {
    TimestampIsCompact(now);
    TimestampRoundTrip(now);
  }

  /** The Basic credential decodes to the bytes of `key`, a colon and
      `secret`, and both routes send it. */
  lemma BasicCredentialDecodes(cfg: Config)
    ensures Decode(BasicCredential(cfg)) == Some(Utf8(cfg.consumerKey) + [0x3A] + Utf8(cfg.consumerSecret))
  {
    var text := cfg.consumerKey + ":" + cfg.consumerSecret;
    DecodeEncode(Utf8(text));
    Utf8Append(cfg.consumerKey + ":", cfg.consumerSecret);
    Utf8Append(cfg.consumerKey, ":");
    assert Utf8(":") == [0x3A];
    assert Utf8(text) == Utf8(cfg.consumerKey) + [0x3A] + Utf8(cfg.consumerSecret);
  }

  /** A failed token call: no payment request is made, whatever the gateway
      would have answered it, and the reply carries the upstream body when
      it has one (and it is truthy), else the error message. */
  lemma TokenFailureStops(req: StkRequest, cfg: Config, now: UtcFields,
                          token: CallOutcome, push1: CallOutcome, push2: CallOutcome)
    requires Valid(now) && token.Threw?
    ensures var x := StkPush(req, cfg, now, token, push1);
      && x.calls == [GetToken(TokenUrl, BasicAuthorization(cfg))]
      && x.reply == FailureReply(ErrorDetail(token.responseData, token.message))
      && x == StkPush(req, cfg, now, token, push2)
  {
  }

  /** A token call answered with `null`: reading `access_token` throws a
      TypeError without a response, so no payment request is made and the
      reply carries that error's message. */
  lemma NullTokenStops(req: StkRequest, cfg: Config, now: UtcFields, push: CallOutcome)
    requires Valid(now)
    ensures var x := StkPush(req, cfg, now, Responded(JNull), push);
      && x.calls == [GetToken(TokenUrl, BasicAuthorization(cfg))]
      && x.reply == FailureReply(JString(NullTokenMessage))
  {
  }

  /** Both calls succeeded: the payment request carried the token as a Bearer
      credential and the payload of `BuildPayload`, and the reply wraps the
      gateway's body unchanged. */
  lemma StkPushSucceeds(req: StkRequest, cfg: Config, now: UtcFields, data: Json, body: Json)
    requires Valid(now) && !data.JNull?
    ensures var x := StkPush(req, cfg, now, Responded(data), Responded(body));
      && x.calls == [GetToken(TokenUrl, BasicAuthorization(cfg)),
                     PostStkPush(StkPushUrl, "Bearer " + AccessToken(data).value, BuildPayload(req, cfg, now))]
      && x.reply == Reply(200, JObject([("success", JBool(true)), ("response", body)]))
  {
  }

  /** The transaction call failed after a token was obtained. */
  lemma PushFailureReported(req: StkRequest, cfg: Config, now: UtcFields, data: Json,
                            responseData: Option<Json>, message: string)
    requires Valid(now) && !data.JNull?
    ensures var x := StkPush(req, cfg, now, Responded(data), Threw(responseData, message));
      && x.calls == [GetToken(TokenUrl, BasicAuthorization(cfg)),
                     PostStkPush(StkPushUrl, "Bearer " + AccessToken(data).value, BuildPayload(req, cfg, now))]
      && x.reply.status == 500
      && x.reply.body == JObject([("success", JBool(false)), ("message", ErrorDetail(responseData, message))])
  {
  }

  /** The access token is the text of the last `access_token` member,
      wherever it stands among the other members (the gateway replies
      `{"access_token": ..., "expires_in": ...}`), and `"undefined"` when
      there is none. */
  lemma AccessTokenRead(token: string, pre: seq<(string, Json)>, post: seq<(string, Json)>)
    requires forall i :: 0 <= i < |post| ==> post[i].0 != "access_token"
    ensures AccessToken(JObject(pre + [("access_token", JString(token))] + post)) == Success(token)
    ensures (forall i :: 0 <= i < |pre| ==> pre[i].0 != "access_token") ==>
              AccessToken(JObject(pre + post)) == Success("undefined")
  {
    var key := "access_token";
    var ms := pre + [(key, JString(token))] + post;
    assert ms[|pre|] == (key, JString(token));
    var r := Member(ms, key);
    assert r.Some?;
    var i :| 0 <= i < |ms| && ms[i] == (key, r.value) && forall k :: i < k < |ms| ==> ms[k].0 != key;
    if (forall i :: 0 <= i < |pre| ==> pre[i].0 != key) {
      var ns := pre + post;
      forall j | 0 <= j < |ns|
        ensures ns[j].0 != key
      {
        if j >= |pre| {
          assert ns[j] == post[j - |pre|];
        }
      }
    }
  }

  /** Any successful payment call is relayed as `success: true`, even a reply
      without a `ResponseCode`: the status of the reply decides, not its
      content. */
  lemma EmptyGatewayReplySucceeds(req: StkRequest, cfg: Config, now: UtcFields, data: Json)
    requires Valid(now) && !data.JNull?
    ensures StkPush(req, cfg, now, Responded(data), Responded(JObject([]))).reply
         == Reply(200, JObject([("success", JBool(true)), ("response", JObject([]))]))
  {
  }

  /** Whole amounts are sent unchanged, and an amount half-way between two
      integers goes to the upper one, negative amounts included. */
  lemma RoundWholeAndHalves(n: int)
    ensures JsRound(n as real) == n
    ensures JsRound(n as real + 0.5) == n + 1
    ensures JsRound(n as real - 0.5) == n
  {
  }

  /** The end-to-end scenario: a phone number for 300 against a gateway that
      grants `token` and answers `body`: the reply is a 200 wrapping `body`,
      and the payment request went to the number with the country code in
      front, for 300, with the token as a Bearer credential. */
  lemma EndToEnd(cfg: Config, now: UtcFields, phone: string, token: string, body: Json)
    requires Valid(now)
    ensures var x := StkPush(StkRequest(phone, 300.0), cfg, now,
                             Responded(JObject([("access_token", JString(token))])), Responded(body));
      && x.reply == Reply(200, JObject([("success", JBool(true)), ("response", body)]))
      && x.calls[1].payload.partyA == "254" + phone
      && x.calls[1].payload.amount == 300
      && x.calls[1].authorization == "Bearer " + token
  {
    var grant := JObject([("access_token", JString(token))]);
    AccessTokenRead(token, [], []);
    assert [] + [("access_token", JString(token))] + [] == [("access_token", JString(token))];
    StkPushSucceeds(StkRequest(phone, 300.0), cfg, now, grant, body);
  }
}
