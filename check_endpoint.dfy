/**
 * The `GET /api/v1/check?proxyip=IP[:PORT]` handler of main.py: it validates
 * the `proxyip` query value, hands `(ip, port)` to the proxy classifier and
 * turns the classifier's verdict, or the exception it raised, into an HTTP
 * status and a JSON object.
 *
 * The classifier (`process_proxy`) probes the network and is not part of
 * this model; it is a parameter of the handler.
 */
module CheckEndpoint {
  import opened Wrappers
  import opened PyText

  // ---------------------------------------------------------------------
  // Data
  // ---------------------------------------------------------------------

  /** The JSON values that appear in the handler's replies. */
  datatype Json = Null | Bool(b: bool) | Int(i: int) | Str(s: string)

  /** The 12-tuple `process_proxy` returns, field by field in its order.
      `connectionTime` is in whole milliseconds. */
  datatype Verdict = Verdict(
    isAlive: bool,
    message: string,
    countryCode: Json,
    asn: Json,
    countryName: Json,
    countryFlag: Json,
    httpProtocol: Json,
    orgName: Json,
    connectionTime: int,
    latitude: Json,
    longitude: Json,
    colo: Json)

  /** What a call of the classifier does: return a verdict, raise a
      ValueError, or raise any other exception (with its text). */
  datatype Classification =
    | Returned(verdict: Verdict)
    | RaisedValueError(text: string)
    | RaisedOther(text: string)

  /** The classifier, `process_proxy(ip, port)`. */
  type Classifier = (string, int) -> Classification

  /** The keys of the handler's JSON objects. */
  datatype Key =
    | Ip | Port | ProxyIp | AsOrganization | CountryCode | CountryName
    | CountryFlag | Asn | Colo | HttpProtocol | Ping | Latitude | Longitude
    | Message | Error | Example | ExpectedFormat

  /** The name under which a key is sent. */
  function KeyName(k: Key): string
  {
    match k
    case Ip => "ip"
    case Port => "port"
    case ProxyIp => "proxyip"
    case AsOrganization => "asOrganization"
    case CountryCode => "countryCode"
    case CountryName => "countryName"
    case CountryFlag => "countryFlag"
    case Asn => "asn"
    case Colo => "colo"
    case HttpProtocol => "httpProtocol"
    case Ping => "ping"
    case Latitude => "latitude"
    case Longitude => "longitude"
    case Message => "message"
    case Error => "error"
    case Example => "example"
    case ExpectedFormat => "expected_format"
  }

  /** Different keys are sent under different names, so the objects have
      as many JSON members as keys. */
  lemma KeyNamesDistinct(k1: Key, k2: Key)
    requires k1 != k2
    ensures KeyName(k1) != KeyName(k2)
  {
  }

  /** An HTTP status and the JSON object sent as the body. */
  datatype HttpResponse = HttpResponse(status: nat, body: map<Key, Json>)

  /** Why a `proxyip` value is refused before the classifier is called. */
  datatype InputError = BadFormat | BadPort

  /** A validated `proxyip`: the IP text, the port text as given (or the
      default) and the port number it denotes. */
  datatype Target = Target(ip: string, portText: string, port: int)

  // ---------------------------------------------------------------------
  // Fixed texts
  // ---------------------------------------------------------------------

  const DefaultPortText: string := "443"
  const MissingParamError: string := "Parameter 'proxyip' must be provided in the URL."
  const MissingParamExample: string :=
    "/api/v1/check?proxyip=1.1.1.1:443 or /api/v1/check?proxyip=8.8.8.8"
  const BadFormatError: string := "Invalid 'proxyip' format."
  const ExpectedFormatText: string := "IP:PORT"
  const BadPortError: string := "Port must be a number."
  const InternalErrorPrefix: string :=
    "An internal server error occurred while processing the proxy "
  const PingSuffix: string := " ms"

  const AliveKeys: set<Key> := {
    Ip, Port, ProxyIp, AsOrganization, CountryCode, CountryName, CountryFlag,
    Asn, Colo, HttpProtocol, Ping, Latitude, Longitude, Message }

  const DeadKeys: set<Key> := { Ip, Port, ProxyIp, Asn, Message }

  // ---------------------------------------------------------------------
  // Fixed replies
  // ---------------------------------------------------------------------

  function MissingParamResponse(): HttpResponse
  {
    HttpResponse(400, map[Error := Str(MissingParamError), Example := Str(MissingParamExample)])
  }

  function BadFormatResponse(): HttpResponse
  {
    HttpResponse(400, map[Error := Str(BadFormatError), ExpectedFormat := Str(ExpectedFormatText)])
  }

  function BadPortResponse(): HttpResponse
  {
    HttpResponse(400, map[Error := Str(BadPortError)])
  }

  // ---------------------------------------------------------------------
  // Validating proxyip
  // ---------------------------------------------------------------------

  /** The text before the first `:` (all of `s` when there is none). */
  function BeforeColon(s: string): (r: string)
    ensures ':' !in r
  {
    s[..FirstIndex(s, ':')]
  }

  /** The text after the first `:`, when there is one. */
  function AfterColon(s: string): (r: Option<string>)
    ensures r.Some? <==> ':' in s
  {
    FirstIndexAbsent(s, ':');
    if FirstIndex(s, ':') < |s| then Some(s[FirstIndex(s, ':') + 1..]) else None
  }

  /** The port text: what lies between the first and the second colon,
      or "443" when there is no colon. */
  function PortTextOf(s: string): string
  {
    match AfterColon(s)
    case None => DefaultPortText
    case Some(rest) => BeforeColon(rest)
  }

  /** The first two pieces of `s.split(':')` in terms of the colons of `s`. */
  lemma ColonPieces(s: string)
    ensures Split(s, ':')[0] == BeforeColon(s)
    ensures |Split(s, ':')| > 1 <==> AfterColon(s).Some?
    ensures AfterColon(s).Some? ==> Split(s, ':')[1] == BeforeColon(AfterColon(s).value)
  {
    SplitFirst(s, ':');
    if FirstIndex(s, ':') < |s| {
      SplitFirst(s[FirstIndex(s, ':') + 1..], ':');
    }
  }

  /**
   * Splits `proxyip` on `:`; the IP is the first piece, the port text the
   * second piece or "443" when there is none. An empty IP is a format
   * error, and only then is the port text converted to an integer.
   * The ensures describe the result without Split: the IP is the text
   * before the first colon, the port text the text between the first and
   * the second colon.
   */
  function ParseProxyIp(s: string): (r: Result<Target, InputError>)
    ensures r == Failure(BadFormat) <==> BeforeColon(s) == ""
    ensures r.Success? ==>
      && r.value.ip == BeforeColon(s) != ""
      && r.value.portText == PortTextOf(s)
      && ParseInt(r.value.portText) == Some(r.value.port)
    ensures r == Failure(BadPort) <==>
      && BeforeColon(s) != ""
      && ParseInt(PortTextOf(s)) == None
  {
    ColonPieces(s);
    var parts := Split(s, ':');
    var ip := parts[0];
    var portText := if |parts| > 1 then parts[1] else DefaultPortText;
    if ip == "" then Failure(BadFormat)
    else match ParseInt(portText)
      case None => Failure(BadPort)
      case Some(n) => Success(Target(ip, portText, n))
  }

  // ---------------------------------------------------------------------
  // Shaping the reply
  // ---------------------------------------------------------------------

  /** `f"{round(t)} ms"` for a time already in whole milliseconds, or None
      where formatting the number raises ValueError (more than
      MaxStrDigits digits). */
  function PingText(millis: int): (r: Option<string>)
    ensures r.Some? <==> DigitCount(millis) <= MaxStrDigits
    ensures r.Some? ==> r.value == IntToString(millis) + PingSuffix
    ensures r.Some? ==> |r.value| > |PingSuffix| && r.value[|r.value| - |PingSuffix|..] == PingSuffix
  {
    match DecimalText(millis)
    case None => None
    case Some(text) => Some(text + PingSuffix)
  }

  /** The value under key `k` of the reply for a working proxy. */
  function AliveField(t: Target, v: Verdict, ping: string, k: Key): Json
  {
    match k
    case Ip => Str(t.ip)
    case Port => Int(t.port)
    case ProxyIp => Bool(true)
    case AsOrganization => v.orgName
    case CountryCode => v.countryCode
    case CountryName => v.countryName
    case CountryFlag => v.countryFlag
    case Asn => v.asn
    case Colo => v.colo
    case HttpProtocol => v.httpProtocol
    case Ping => Str(ping)
    case Latitude => v.latitude
    case Longitude => v.longitude
    case Message => Str(v.message)
    case _ => Null
  }

  /** The value under key `k` of the reply for a proxy that does not work. */
  function DeadField(t: Target, v: Verdict, k: Key): Json
  {
    match k
    case Ip => Str(t.ip)
    case Port => Int(t.port)
    case ProxyIp => Bool(false)
    case Asn => v.asn
    case Message => Str(v.message)
    case _ => Null
  }

  /** The ping of an alive verdict cannot be written: its time has more
      than MaxStrDigits digits. */
  predicate PingOverflows(c: Classification)
  {
    c.Returned? && c.verdict.isAlive && DigitCount(c.verdict.connectionTime) > MaxStrDigits
  }

  /** The reply once the classifier has been called on a validated target.
      A ValueError, whether the classifier raises it or formatting the ping
      does, is answered like a bad port. */
  function Respond(t: Target, c: Classification): (r: HttpResponse)
    ensures r.status == 200 <==> c.Returned? && !PingOverflows(c)
    ensures r.status == 200 ==>
      r.body.Keys == (if c.verdict.isAlive then AliveKeys else DeadKeys)
    ensures c.RaisedValueError? || PingOverflows(c) ==> r == BadPortResponse()
    ensures c.RaisedOther? ==> r.status == 500 && r.body.Keys == {Error}
  {
    match c
    case Returned(v) =>
      if v.isAlive then
        match PingText(v.connectionTime)
        case None => BadPortResponse()
        case Some(ping) => HttpResponse(200, map k | k in AliveKeys :: AliveField(t, v, ping, k))
      else HttpResponse(200, map k | k in DeadKeys :: DeadField(t, v, k))
    case RaisedValueError(_) => BadPortResponse()
    case RaisedOther(e) =>
      HttpResponse(500, map[Error := Str(InternalErrorPrefix + t.ip + ":" + t.portText + ": " + e)])
  }

  /** The endpoint: `proxyip` is None when the query parameter is absent. */
  function Handle(proxyip: Option<string>, classify: Classifier): (r: HttpResponse)
    ensures r.status in {200, 400, 500}
  {
    match proxyip
    case None => MissingParamResponse()
    case Some(s) =>
      match ParseProxyIp(s)
      case Failure(BadFormat) => BadFormatResponse()
      case Failure(BadPort) => BadPortResponse()
      case Success(t) => Respond(t, classify(t.ip, t.port))
  }
}
