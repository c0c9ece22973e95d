/**
 * What the check endpoint promises its callers, stated over
 * CheckEndpoint.Handle for every classifier.
 */
module CheckEndpointProps {
  import opened Wrappers
  import opened PyText
  import opened CheckEndpoint

  // ---------------------------------------------------------------------
  // Rejections before the classifier
  // ---------------------------------------------------------------------

  /** Without `proxyip` the reply is a 400 carrying `error` and `example`,
      whatever the classifier would have said. */
  lemma MissingParamIsBadRequest(c1: Classifier, c2: Classifier)
    ensures Handle(None, c1).status == 400
    ensures Handle(None, c1).body.Keys == {Error, Example}
    ensures Handle(None, c1) == Handle(None, c2)
  {
  }

  /** The IP is empty exactly when `proxyip` is empty or starts with `:`. */
  lemma EmptyIpIsLeadingColon(s: string)
    ensures BeforeColon(s) == "" <==> s == "" || s[0] == ':'
  {
    if s != "" && s[0] != ':' {
      assert FirstIndex(s, ':') > 0;
      assert BeforeColon(s)[0] == s[0];
    }
  }

  /** The format error is given exactly for an empty IP, before the port is
      looked at, so it wins over a bad port (":abc" is a format error). */
  lemma FormatErrorIffEmptyIp(s: string, c: Classifier)
    ensures Handle(Some(s), c) == BadFormatResponse() <==> s == "" || s[0] == ':'
  {
    EmptyIpIsLeadingColon(s);
    assert BadPortResponse() != BadFormatResponse() by {
      assert ExpectedFormat !in BadPortResponse().body;
    }
  }

  /** A refused `proxyip` never reaches the classifier: the reply is the
      same for any two classifiers. A validated one reaches it once, with
      the target's IP and port, and nothing else the classifier would do
      matters. */
  lemma ClassifierSeesOnlyTarget(s: string, c1: Classifier, c2: Classifier)
    ensures ParseProxyIp(s).Failure? ==> Handle(Some(s), c1) == Handle(Some(s), c2)
    ensures ParseProxyIp(s).Success? ==>
      var t := ParseProxyIp(s).value;
      c1(t.ip, t.port) == c2(t.ip, t.port) ==> Handle(Some(s), c1) == Handle(Some(s), c2)
  {
  }

  /** A port text that is not an integer literal gives the 400 "Port must
      be a number." as soon as the IP is present. */
  lemma NonNumericPortIsBadRequest(ip: string, p: string, c: Classifier)
    requires ip != "" && ':' !in ip && ':' !in p
    requires !IsIntLiteral(p)
    ensures Handle(Some(ip + ":" + p), c) == BadPortResponse()
  {
    ColonAfter(ip, p);
    FirstIndexAbsent(p, ':');
    assert PortTextOf(ip + ":" + p) == p;
  }

  /** A trailing colon leaves an empty port text, which is a port error. */
  lemma TrailingColonIsBadPort(ip: string, c: Classifier)
    requires ip != "" && ':' !in ip
    ensures Handle(Some(ip + ":"), c) == BadPortResponse()
  {
    NonNumericPortIsBadRequest(ip, "", c);
  }

  /** A port of more than MaxStrDigits digits is refused like a
      non-numeric one, because `int()` raises ValueError on it. */
  lemma OverlongPortIsBadRequest(ip: string, d: string, c: Classifier)
    requires ip != "" && ':' !in ip
    requires AllDigits(d) && |d| > MaxStrDigits
    ensures Handle(Some(ip + ":" + d), c) == BadPortResponse()
  {
    assert !HasSign(d) by {
      assert IsDigit(d[0]);
    }
    assert ':' !in d by {
      assert forall i :: 0 <= i < |d| ==> IsDigit(d[i]);
    }
    NonNumericPortIsBadRequest(ip, d, c);
  }

  // ---------------------------------------------------------------------
  // The target handed to the classifier
  // ---------------------------------------------------------------------

  /** In `a:b`, with no colon in `a`, the text before the first colon is
      `a` and the text after it is `b`. */
  lemma ColonAfter(a: string, b: string)
    requires ':' !in a
    ensures BeforeColon(a + ":" + b) == a
    ensures AfterColon(a + ":" + b) == Some(b)
  {
    var s := a + ":" + b;
    var k := FirstIndex(s, ':');
    assert s[|a|] == ':';
    assert forall i :: 0 <= i < |a| ==> s[i] == a[i];
    assert k == |a|;
    assert s[..k] == a;
    assert s[k + 1..] == b;
  }

  /** Without a colon the port defaults to 443. */
  lemma DefaultPortIs443(s: string, c: Classifier)
    requires s != "" && ':' !in s
    ensures ParseProxyIp(s) == Success(Target(s, "443", 443))
    ensures Handle(Some(s), c) == Respond(Target(s, "443", 443), c(s, 443))
  {
    FirstIndexAbsent(s, ':');
    assert BeforeColon(s) == s;
    assert IntToString(443) == "443";
    ParseIntToString(443);
  }

  /** Everything from the second colon on is ignored. */
  lemma LaterSegmentsIgnored(ip: string, p: string, rest: string)
    requires ':' !in ip && ':' !in p
    ensures ParseProxyIp(ip + ":" + p + ":" + rest) == ParseProxyIp(ip + ":" + p)
  {
    var long, short := ip + ":" + p + ":" + rest, ip + ":" + p;
    assert long == ip + ":" + (p + ":" + rest);
    ColonAfter(ip, p + ":" + rest);
    ColonAfter(p, rest);
    ColonAfter(ip, p);
    FirstIndexAbsent(p, ':');
    assert BeforeColon(p) == p;
    SamePiecesSameTarget(long, short);
  }

  /** Two inputs with the same IP text and port text parse alike. */
  lemma SamePiecesSameTarget(s1: string, s2: string)
    requires BeforeColon(s1) == BeforeColon(s2)
    requires PortTextOf(s1) == PortTextOf(s2)
    ensures ParseProxyIp(s1) == ParseProxyIp(s2)
  {
    var r1, r2 := ParseProxyIp(s1), ParseProxyIp(s2);
    if r1.Success? {
      assert r2.Success?;
    }
  }

  /** `ip:n` parses to `ip` on port `n` for every integer `n` that `int()`
      reads, negative or above 65535: there is no range check. */
  lemma IntegerPortParses(ip: string, n: int)
    requires ip != "" && ':' !in ip
    requires DigitCount(n) <= MaxStrDigits
    ensures ParseProxyIp(ip + ":" + IntToString(n)) == Success(Target(ip, IntToString(n), n))
  {
    ParseIntToString(n);
    NumberHasNoColon(n);
    LiteralPortParses(ip, IntToString(n));
  }

  /** Such a port reaches the classifier and the reply unchanged. */
  lemma AnyIntegerPortAccepted(ip: string, n: int, c: Classifier)
    requires ip != "" && ':' !in ip
    requires DigitCount(n) <= MaxStrDigits
    ensures Handle(Some(ip + ":" + IntToString(n)), c) ==
            Respond(Target(ip, IntToString(n), n), c(ip, n))
  {
    IntegerPortParses(ip, n);
  }

  /** A colon-free port text that `int()` reads is the port handed on. */
  lemma LiteralPortParses(ip: string, p: string)
    requires ip != "" && ':' !in ip && ':' !in p
    requires IsIntLiteral(p)
    ensures ParseProxyIp(ip + ":" + p) == Success(Target(ip, p, ParseInt(p).value))
  {
    ColonAfter(ip, p);
    FirstIndexAbsent(p, ':');
    assert PortTextOf(ip + ":" + p) == p;
  }

  /** Leading zeros and a `+` sign in the port text do not change the port
      handed to the classifier: "080" and "+80" are both port 80. */
  lemma PortZerosAndPlusIgnored(ip: string, d: string)
    requires ip != "" && ':' !in ip
    requires AllDigits(d) && 0 < |d| < MaxStrDigits
    ensures ParseProxyIp(ip + ":" + d).Success?
    ensures ParseProxyIp(ip + ":" + ("0" + d)).Success?
    ensures ParseProxyIp(ip + ":" + ("+" + d)).Success?
    ensures ParseProxyIp(ip + ":" + ("0" + d)).value.port == ParseProxyIp(ip + ":" + d).value.port
    ensures ParseProxyIp(ip + ":" + ("+" + d)).value.port == ParseProxyIp(ip + ":" + d).value.port
  {
    var z, plus := "0" + d, "+" + d;
    assert AllDigits(z) by {
      assert forall i :: 1 <= i < |z| ==> z[i] == d[i - 1];
    }
    DigitsHaveNoColon(d);
    DigitsHaveNoColon(z);
    assert ':' !in plus by {
      assert forall i :: 1 <= i < |plus| ==> plus[i] == d[i - 1];
    }
    ParseIntLeadingZero(d);
    ParseIntSign(d);
    assert !HasSign(d) by {
      assert IsDigit(d[0]);
    }
    assert IsIntLiteral(d);
    LiteralPortParses(ip, d);
    LiteralPortParses(ip, z);
    LiteralPortParses(ip, plus);
  }

  lemma DigitsHaveNoColon(d: string)
    requires AllDigits(d)
    ensures ':' !in d
  {
    assert forall i :: 0 <= i < |d| ==> IsDigit(d[i]);
  }

  lemma NumberHasNoColon(n: int)
    ensures ':' !in IntToString(n)
  {
    var p := IntToString(n);
    if n < 0 {
      DigitsHaveNoColon(p[1..]);
      assert forall i :: 1 <= i < |p| ==> p[i] == p[1..][i - 1];
    } else {
      DigitsHaveNoColon(p);
    }
  }

  // ---------------------------------------------------------------------
  // The reply after the classifier
  // ---------------------------------------------------------------------

  /** A 200 reply happens exactly when the input is valid and the
      classifier returned, and it always names `ip`, `port` and `proxyip`. */
  lemma SuccessReplyNamesTarget(s: string, c: Classifier)
    ensures Handle(Some(s), c).status == 200 <==>
      && ParseProxyIp(s).Success?
      && c(ParseProxyIp(s).value.ip, ParseProxyIp(s).value.port).Returned?
      && !PingOverflows(c(ParseProxyIp(s).value.ip, ParseProxyIp(s).value.port))
    ensures Handle(Some(s), c).status == 200 ==>
      var body := Handle(Some(s), c).body;
      && {Ip, Port, ProxyIp} <= body.Keys
      && body[Ip] == Str(BeforeColon(s))
      && body[ProxyIp].Bool?
  {
  }

  /** Both 200 replies echo the IP text and the port number that reached
      the classifier, say whether the proxy works, and pass on the
      verdict's ASN and message. */
  lemma ReplyEchoesTarget(t: Target, v: Verdict)
    requires !PingOverflows(Returned(v))
    ensures var body := Respond(t, Returned(v)).body;
      && body[Ip] == Str(t.ip)
      && body[Port] == Int(t.port)
      && body[ProxyIp] == Bool(v.isAlive)
      && body[Asn] == v.asn
      && body[Message] == Str(v.message)
  {
  }

  /** A well-formed `ip:port` whose verdict is "dead" gets the five-key
      reply with the IP, the port number, `proxyip` false, and the
      verdict's ASN and message. */
  lemma DeadReplyFor(ip: string, n: int, c: Classifier)
    requires ip != "" && ':' !in ip
    requires DigitCount(n) <= MaxStrDigits
    requires c(ip, n).Returned? && !c(ip, n).verdict.isAlive
    ensures var r := Handle(Some(ip + ":" + IntToString(n)), c);
      && r.status == 200
      && r.body.Keys == DeadKeys
      && r.body[Ip] == Str(ip)
      && r.body[Port] == Int(n)
      && r.body[ProxyIp] == Bool(false)
      && r.body[Asn] == c(ip, n).verdict.asn
      && r.body[Message] == Str(c(ip, n).verdict.message)
  {
    AnyIntegerPortAccepted(ip, n, c);
    ReplyEchoesTarget(Target(ip, IntToString(n), n), c(ip, n).verdict);
  }

  // The alive reply's body, when the ping can be written: a helper for the
  // lemmas below, which state what each key carries.
  lemma AliveBody(t: Target, v: Verdict)
    requires v.isAlive && DigitCount(v.connectionTime) <= MaxStrDigits
    ensures PingText(v.connectionTime).Some?
    ensures Respond(t, Returned(v)).body ==
            map k | k in AliveKeys :: AliveField(t, v, PingText(v.connectionTime).value, k)
  {
  }

  /** The alive reply passes on the verdict's country code, name and flag. */
  lemma AliveReplyCountry(t: Target, v: Verdict)
    requires v.isAlive && DigitCount(v.connectionTime) <= MaxStrDigits
    ensures var body := Respond(t, Returned(v)).body;
      && body[CountryCode] == v.countryCode
      && body[CountryName] == v.countryName
      && body[CountryFlag] == v.countryFlag
  {
    AliveBody(t, v);
  }

  /** The alive reply passes on the verdict's data centre and coordinates. */
  lemma AliveReplyPlace(t: Target, v: Verdict)
    requires v.isAlive && DigitCount(v.connectionTime) <= MaxStrDigits
    ensures var body := Respond(t, Returned(v)).body;
      && body[Colo] == v.colo
      && body[Latitude] == v.latitude
      && body[Longitude] == v.longitude
  {
    AliveBody(t, v);
  }

  /** The alive reply passes on the organisation and HTTP protocol, and
      gives the ping as the time followed by " ms". */
  lemma AliveReplyNetwork(t: Target, v: Verdict)
    requires v.isAlive && DigitCount(v.connectionTime) <= MaxStrDigits
    ensures var body := Respond(t, Returned(v)).body;
      && body[AsOrganization] == v.orgName
      && body[HttpProtocol] == v.httpProtocol
      && body[Ping] == Str(PingText(v.connectionTime).value)
  {
    AliveBody(t, v);
  }

  // The alive keys are the five dead ones and nine more.
  lemma AliveKeysCount()
    ensures |AliveKeys| == 14
  {
    var extra := {AsOrganization, CountryCode, CountryName, CountryFlag,
                  Colo, HttpProtocol, Ping, Latitude, Longitude};
    assert |extra| == 9;
    assert |DeadKeys| == 5;
    assert DeadKeys !! extra;
    assert AliveKeys == DeadKeys + extra;
  }

  /** The alive reply has exactly fourteen keys, the alive ones. */
  lemma AliveReplySize(t: Target, v: Verdict)
    requires v.isAlive && DigitCount(v.connectionTime) <= MaxStrDigits
    ensures Respond(t, Returned(v)).body.Keys == AliveKeys
    ensures |Respond(t, Returned(v)).body| == 14
  {
    var body := Respond(t, Returned(v)).body;
    AliveKeysCount();
    assert |body| == |body.Keys|;
  }

  /** The dead reply has exactly five keys. */
  lemma DeadReplySize(t: Target, v: Verdict)
    requires !v.isAlive
    ensures |Respond(t, Returned(v)).body| == 5
  {
  }

  /** The ping text before " ms" is `str(t)` and reads back as the time it
      was made from. */
  lemma PingRoundTrip(millis: int)
    requires DigitCount(millis) <= MaxStrDigits
    ensures PingText(millis).Some?
    ensures var p := PingText(millis).value;
      && p[..|p| - |PingSuffix|] == IntToString(millis)
      && ParseInt(p[..|p| - |PingSuffix|]) == Some(millis)
  {
    var p := PingText(millis).value;
    assert p[..|p| - |PingSuffix|] == IntToString(millis);
    ParseIntToString(millis);
  }

  /** Any other exception gives a 500 whose text names `ip:port`, with the
      port as it was written, and ends with the exception's own text. */
  lemma InternalErrorNamesTarget(t: Target, e: string)
    ensures var r := Respond(t, RaisedOther(e));
      var m := r.body[Error].s;
      var at := |InternalErrorPrefix|;
      && r.status == 500
      && r.body[Error].Str?
      && m[..at] == InternalErrorPrefix
      && m[at..at + |t.ip| + 1 + |t.portText|] == t.ip + ":" + t.portText
      && m[|m| - |e|..] == e
  {
  }

  // ---------------------------------------------------------------------
  // Worked examples
  // ---------------------------------------------------------------------

  /** "1.2.3.4:80:99" is checked on port 80. */
  lemma ThirdSegmentExample(s: string)
    requires s == "1.2.3.4:80:99"
    ensures ParseProxyIp(s) == Success(Target("1.2.3.4", "80", 80))
  {
    var ip, port, rest := "1.2.3.4", IntToString(80), "99";
    assert port == "80";
    assert DigitCount(80) == 2;
    assert s == ip + ":" + port + ":" + rest;
    SecondSegmentIsPort(ip, 80, rest);
  }

  /** `ip:n:rest` is checked as `ip` on port `n`. */
  lemma SecondSegmentIsPort(ip: string, n: int, rest: string)
    requires ip != "" && ':' !in ip
    requires DigitCount(n) <= MaxStrDigits
    ensures ParseProxyIp(ip + ":" + IntToString(n) + ":" + rest) == Success(Target(ip, IntToString(n), n))
  {
    NumberHasNoColon(n);
    LaterSegmentsIgnored(ip, IntToString(n), rest);
    IntegerPortParses(ip, n);
  }

  /** ":abc" is a format error although "abc" is not a number either. */
  lemma LeadingColonExample(c: Classifier)
    ensures Handle(Some(":abc"), c) == BadFormatResponse()
  {
    FormatErrorIffEmptyIp(":abc", c);
  }

  /** A non-working proxy at 1.1.1.1:443 gives the five-key dead reply
      {"ip": "1.1.1.1", "port": 443, "proxyip": false, "asn": "Unknown",
       "message": "ProxyIP is Dead: 1.1.1.1:443"}. */
  lemma DeadProxyExample(s: string, c: Classifier)
    requires s == "1.1.1.1:443"
    requires c("1.1.1.1", 443).Returned?
    requires !c("1.1.1.1", 443).verdict.isAlive
    requires c("1.1.1.1", 443).verdict.asn == Str("Unknown")
    requires c("1.1.1.1", 443).verdict.message == "ProxyIP is Dead: 1.1.1.1:443"
    ensures var r := Handle(Some(s), c);
      && r.status == 200
      && r.body.Keys == {Ip, Port, ProxyIp, Asn, Message}
      && r.body[Ip] == Str("1.1.1.1")
      && r.body[Port] == Int(443)
      && r.body[ProxyIp] == Bool(false)
      && r.body[Asn] == Str("Unknown")
      && r.body[Message] == Str("ProxyIP is Dead: 1.1.1.1:443")
  {
    assert s == "1.1.1.1" + ":" + IntToString(443);
    assert DigitCount(443) == 3;
    DeadReplyFor("1.1.1.1", 443, c);
  }
}
