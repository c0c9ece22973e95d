# yumiproxy check endpoint — a Dafny model

yumiproxy answers `GET /api/v1/check?proxyip=IP[:PORT]` with whether the
given address works as a transparent HTTPS proxy. This project models the
handler of that endpoint, `check_proxy_url_endpoint` in `main.py`:

- how it validates the `proxyip` text: split on `:`, the IP is the first
  piece, the port text is the second piece or `"443"`, an empty IP is a
  format error, and the port text must convert with `int()`;
- how it turns the classifier's 12-field verdict into the 14-key "alive"
  object or the 5-key "dead" object;
- how exceptions become replies: `ValueError` gives 400 "Port must be a
  number.", any other exception gives 500 with a message naming `ip:port`.

The classifier `process_proxy` (network probes of a reference host) is not
part of this model. It is the parameter `classify` of `CheckEndpoint.Handle`:
a function from `(ip, port)` to `Returned(verdict)`, `RaisedValueError(text)`
or `RaisedOther(text)`. "The classifier is never called" is stated as "the
reply is the same for any two classifiers".

Files:

- `wrappers.dfy` — `Option` and `Result`.
- `pytext.dfy` — module `PyText`: Python's `str.split` with a one-character
  separator, `int()` on a decimal literal, and `str()` of an integer, with
  their inverses and round trips.
- `check_endpoint.dfy` — module `CheckEndpoint`: the data (verdict,
  classifier outcome, JSON keys and values, HTTP reply), `ParseProxyIp`,
  `Respond` and `Handle`.
- `check_endpoint_props.dfy` — module `CheckEndpointProps`: what the
  endpoint promises, as lemmas over `Handle` for every classifier.

A reply is an HTTP status and a JSON object. The object's keys are the enum
`CheckEndpoint.Key`; `KeyName` gives the name each one is sent under.

Behaviour worth noting:

- The 400 "Port must be a number." answers every `ValueError` raised in the
  second `try` of main.py. The classifier can raise one, and so can `int()`
  on the port text.
- A trailing colon (`"1.1.1.1:"`) leaves an empty port text, so it gets this
  port error too.
- `int()` reads leading zeros and a sign, so `080`, `+80` and `-0` are
  ports 80, 80 and 0.
- CPython (3.11 and later, and the security releases before them) refuses
  to convert between text and integers of more than 4300 decimal digits
  (`sys.get_int_max_str_digits()`). It raises ValueError. A longer port text
  therefore gets the port error. An alive verdict whose time has more
  digits than that gets the port error too, because writing the ping fails.
- `ping` is always the whole number followed by `" ms"`.
- The 500 message holds the port as it was written (for example `+80`),
  not the converted number.

## Model

| member | source | states |
|---|---|---|
| PyText.Split | main.py:21-22 | `s.split(sep)` always has at least one piece, so `parts[0]` cannot raise IndexError, and no piece contains the separator |
| PyText.SplitJoin | main.py:21 | joining the pieces of a split with the separator gives back the original text |
| PyText.JoinSplit | main.py:21 | splitting a join of separator-free pieces gives back the pieces |
| PyText.SplitCount | main.py:21 | a split has exactly one more piece than the text has separators |
| PyText.SplitFirst | main.py:21-23 | the first piece is the text before the first separator; there is a second piece exactly when a separator occurs; the rest are the pieces of the text after it |
| PyText.FirstIndex | main.py:22 | the result is the position of the first occurrence, or the length when there is none |
| PyText.FirstIndexAbsent | main.py:23 | the first index is the end of the text exactly when the character does not occur |
| PyText.ParseDigits | main.py:38 | a digit run has a value exactly when it is non-empty and all ASCII digits |
| PyText.ParseInt | main.py:38 | `int(text)` succeeds exactly on an optional sign followed by one to 4300 ASCII digits, so it fails on the empty text |
| PyText.LeadingZero | main.py:38 | a leading zero does not change the value of a digit run |
| PyText.ParseIntLeadingZero | main.py:38 | `int("0" + d) == int(d)` for a digit run within the digit limit |
| PyText.ParseIntSign | main.py:38 | `int("+" + d) == int(d)` and `int("-" + d) == -int(d)` for a digit run, so "-0" is 0 |
| PyText.NatToString | main.py:54 | `str(n)` of a natural number is a non-empty run of digits with no leading zero |
| PyText.IntToString | main.py:54 | the decimal text of an integer starts with `-` exactly when it is negative (never `+`, never `-0`), and its digits have no leading zero and number DigitCount(n) |
| PyText.DecimalText | main.py:54 | `str(n)` succeeds exactly when `n` has at most 4300 digits, and then it is the canonical text `IntToString(n)` and `int(str(n)) == n` |
| PyText.DigitChar | main.py:54 | the digit character for a value below ten has that value |
| PyText.ParseNatToString | main.py:38 | reading back the digits of a natural number gives that number |
| PyText.ParseIntToString | main.py:38 | `int(str(n)) == n` for every integer of at most 4300 digits, negative or not |
| CheckEndpoint.BeforeColon | main.py:22 | the IP text never contains a colon |
| CheckEndpoint.AfterColon | main.py:23 | there is text after a first colon exactly when the input contains a colon |
| CheckEndpoint.ColonPieces | main.py:21-23 | the first piece of `split(':')` is the text before the first colon, and the second piece (when there is one) is the text between the first and second colon |
| CheckEndpoint.ParseProxyIp | main.py:20-38 | the format error happens exactly when the IP is empty; the port error happens exactly when the IP is non-empty and the port text is not an integer; on success the IP is the text before the first colon, the port text is the segment after it or "443", and the port is its integer value |
| CheckEndpoint.PingText | main.py:54 | the ping can be written exactly when the time has at most 4300 digits, and then it is the canonical decimal text of the time followed by " ms" |
| CheckEndpoint.KeyNamesDistinct | main.py:43-66 | different keys are sent under different names, so the alive object's 14 keys and the dead object's 5 keys are 14 and 5 distinct JSON members |
| CheckEndpoint.Respond | main.py:39-75 | the reply is 200 exactly when the classifier returned and, for an alive verdict, the ping can be written; then it has the 14 alive keys or the 5 dead keys; a ValueError (from the classifier or from writing the ping) gives the 400 port error; any other exception gives a 500 whose body has only `error` |
| CheckEndpoint.Handle | main.py:8-75 | every reply has status 200, 400 or 500 |
| CheckEndpointProps.MissingParamIsBadRequest | main.py:11-18 | without `proxyip` the reply is a 400 with exactly `error` and `example`, whatever the classifier does |
| CheckEndpointProps.EmptyIpIsLeadingColon | main.py:22-26 | the IP is empty exactly when `proxyip` is empty or starts with `:` |
| CheckEndpointProps.FormatErrorIffEmptyIp | main.py:25-35 | the format error is the reply exactly for an empty or leading-colon input, whatever the port text, so it wins over a bad port |
| CheckEndpointProps.ClassifierSeesOnlyTarget | main.py:37-39 | a refused input never reaches the classifier, and for a valid one the reply depends on the classifier only through its answer for the parsed `(ip, port)` |
| CheckEndpointProps.NonNumericPortIsBadRequest | main.py:37-38 | with a non-empty IP, a port text that is not an integer literal gives the 400 "Port must be a number." |
| CheckEndpointProps.TrailingColonIsBadPort | main.py:23 | `ip:` leaves an empty port text, which gives the port error |
| CheckEndpointProps.OverlongPortIsBadRequest | main.py:37-38 | a port of more than 4300 digits gives the port error, since `int()` refuses it |
| CheckEndpointProps.ColonAfter | main.py:22-23 | in `a:b` with no colon in `a`, the IP text is `a` and the text after the colon is `b` |
| CheckEndpointProps.DefaultPortIs443 | main.py:23 | without a colon the port text is "443" and the classifier is asked about port 443 |
| CheckEndpointProps.LaterSegmentsIgnored | main.py:21-23 | whatever follows a second colon does not change the parsed target |
| CheckEndpointProps.SecondSegmentIsPort | main.py:21-23 | `ip:n:rest` parses to `ip` on port `n` |
| CheckEndpointProps.LiteralPortParses | main.py:37-38 | a colon-free port text that `int()` reads gives the target with that text and its value |
| CheckEndpointProps.IntegerPortParses | main.py:38 | `ip:str(n)` parses to `ip` on port `n` for every integer of at most 4300 digits, negative or above 65535: there is no range check |
| CheckEndpointProps.AnyIntegerPortAccepted | main.py:38-39 | every such integer port is passed unchanged to the classifier, and the reply is built from its answer |
| CheckEndpointProps.PortZerosAndPlusIgnored | main.py:38 | a leading zero or a `+` in the port text hands the classifier the same port as the bare digits |
| CheckEndpointProps.SuccessReplyNamesTarget | main.py:42-68 | a 200 reply happens exactly when the input is valid, the classifier returned and the ping (if any) can be written; it always has `ip`, `port` and a boolean `proxyip` |
| CheckEndpointProps.ReplyEchoesTarget | main.py:43-66 | both 200 replies echo the IP text and the integer port, set `proxyip` to the verdict, and carry the verdict's ASN and message |
| CheckEndpointProps.DeadReplyFor | main.py:59-66 | a valid `ip:port` with a dead verdict gets exactly the keys ip, port, proxyip (false), asn and message |
| CheckEndpointProps.AliveReplyCountry | main.py:48-50 | the alive reply passes on the country code, name and flag |
| CheckEndpointProps.AliveReplyPlace | main.py:52-56 | the alive reply passes on the colo, latitude and longitude |
| CheckEndpointProps.AliveReplyNetwork | main.py:47-54 | the alive reply passes on the organisation and HTTP protocol, and `ping` is the time followed by " ms" |
| CheckEndpointProps.AliveReplySize | main.py:43-58 | the alive reply has exactly the fourteen alive keys |
| CheckEndpointProps.DeadReplySize | main.py:60-66 | the dead reply has exactly five keys |
| CheckEndpointProps.PingRoundTrip | main.py:54 | for a time of at most 4300 digits, the ping text without its " ms" suffix is `str(t)` and reads back as the time it was made from |
| CheckEndpointProps.InternalErrorNamesTarget | main.py:72-75 | any other exception gives a 500 whose message starts with the fixed prefix, then names `ip:port` with the port text as written, and ends with the exception's text |
| CheckEndpointProps.ThirdSegmentExample | main.py:21-23 | "1.2.3.4:80:99" is checked as 1.2.3.4 on port 80 |
| CheckEndpointProps.LeadingColonExample | main.py:25-35 | ":abc" gives the format error, not the port error |
| CheckEndpointProps.DeadProxyExample | main.py:59-68 | a dead 1.1.1.1:443, with the classifier's ASN "Unknown" and message "ProxyIP is Dead: 1.1.1.1:443", gives a 200 whose object has exactly the members ip "1.1.1.1", port 443, proxyip false, asn "Unknown" and message "ProxyIP is Dead: 1.1.1.1:443" (as a map, in no particular order) |

## Left out

- FastAPI routing, `Query`, `JSONResponse` and `async` (main.py:1-10): a reply is a status plus a JSON object, and an absent query parameter is `None`.
- `process_proxy` and the whole of `helpers/proxy_checker.py` (TLS and TCP probes, JSON parsing of the remote reply, the country table): helpers/proxy_checker.py is not part of this model. The classifier is a parameter, and exceptions raised while unpacking its result are not modelled, because the verdict is a typed 12-field record.
- PyText.ParseInt: accepts only an optional sign followed by ASCII digits. Python's `int()` also allows surrounding whitespace, `_` between digits and non-ASCII digits. The digit limit is CPython's default of 4300; a limit changed with `sys.set_int_max_str_digits` is not modelled.
- CheckEndpoint.PingText: the connection time is taken as whole milliseconds, so `round` is the identity. Floating-point rounding and `OverflowError` on infinite times are not modelled.
- JSON objects are maps from key to value: the order of their members (the insertion order of the dicts in main.py:43-66) and their serialization to text are not modelled.
- The `print` of the 500 message (main.py:74): a diagnostic side effect only.
- The `IndexError` branch of the first `except` (main.py:28) is unreachable, because a split always has a piece (`PyText.Split`); it has no counterpart in the model.
- The JSON values the verdict passes through (country, ASN, coordinates, flag, colo, protocol, organisation) are null, booleans, integers or strings. Floats are not modelled.
- Exceptions that are not `Exception`s: `KeyboardInterrupt`, `SystemExit` and other bare `BaseException`s pass through the `except Exception` of main.py:72 and leave the handler without a reply. The classifier's outcomes model only ValueError (with its subclasses) and other `Exception`s.
