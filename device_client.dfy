/**
  The device side of a parameter write (`/api/set?{param}={value}`): what the
  go-eCharger answers, and how the service decides from that answer whether
  the write took effect (`_set_goe_charger_value`).

  The HTTP exchange itself is not modelled: a `Device` is an oracle that maps
  the requested write to the reply the charger gives.
 */
module DeviceClient {
  import opened PyText

  /** The value the device echoes under the parameter's key, as Python's JSON decoder yields it. */
  datatype Json = JNull | JBool(b: bool) | JInt(i: int) | JStr(s: string)

  /**
    Python's `str()` of a decoded JSON value. Only a boolean true and the
    text "True" stringify to "True", and only the text "true" to "true":
    no number, null or false passes the first two comparisons of the
    acceptance test.
   */
  function Str(j: Json): (s: string)
    ensures s == "True" <==> j == JBool(true) || j == JStr("True")
    ensures s == "true" <==> j == JStr("true")
  {
    DecimalStringIsNotBoolean(if j.JInt? then j.i else 0);
    match j
    case JNull => "None"
    case JBool(b) => if b then "True" else "False"
    case JInt(i) => DecimalString(i)
    case JStr(s) => s
  }

  /**
    The acceptance test of a write: the echo reads "true" or "True" once
    stringified, or the echo itself is the string `str(value)`. The second
    comparison is on the raw echo, so a numeric echo never confirms a value.
   */
  function Confirms(echo: Json, value: int): (ok: bool)
    ensures ok <==> echo == JBool(true) || echo == JStr("true") || echo == JStr("True")
                    || echo == JStr(DecimalString(value))
    ensures echo.JInt? || echo.JNull? || echo == JBool(false) ==> !ok
  {
    Str(echo) == "true" || Str(echo) == "True" || echo == JStr(DecimalString(value))
  }

  /** A text echo confirms at most one integer value. */
  lemma TextEchoConfirmsOneValue(s: string, a: int, b: int)
    requires s != "true" && s != "True"
    ensures Confirms(JStr(s), a) && Confirms(JStr(s), b) ==> a == b
  {
    DecimalStringInjective(a, b);
  }

  /** The device parameters the service writes. */
  datatype Param = Amp | Frc | Lmo

  function Name(p: Param): (key: string)
    ensures |key| == 3
  {
    match p
    case Amp => "amp"
    case Frc => "frc"
    case Lmo => "lmo"
  }

  /** One request `/api/set?{param}={value}` sent to the device. */
  datatype Write = Write(param: Param, value: int)

  /**
    The charger's answer to a write: no (or an unsuccessful) HTTP response,
    a body that is not a JSON object, or a decoded JSON object.
   */
  datatype HttpReply = NoResponse | NotJson | Body(fields: map<string, Json>)

  /** The charger, seen only through the reply it gives to each write. */
  type Device = (Param, int) -> HttpReply

  /** Accepted: the method returns True; Rejected: it returns False; Failed: it raises. */
  datatype WriteOutcome = Accepted | Rejected | Failed

  /**
    What `_set_goe_charger_value` makes of a reply: it raises when there is no
    response, when the body is not JSON, or when the parameter's key is
    missing; otherwise the echo under that key decides.
   */
  function Outcome(reply: HttpReply, p: Param, value: int): (o: WriteOutcome)
    ensures o == Failed <==> !(reply.Body? && Name(p) in reply.fields)
    ensures o == Accepted <==> reply.Body? && Name(p) in reply.fields
                               && Confirms(reply.fields[Name(p)], value)
  {
    match reply
    case NoResponse => Failed
    case NotJson => Failed
    case Body(fields) =>
      if Name(p) !in fields then Failed
      else if Confirms(fields[Name(p)], value) then Accepted
      else Rejected
  }

  /** The outcome of sending `Write(p, value)` to `device`. */
  function Send(device: Device, p: Param, value: int): WriteOutcome {
    Outcome(device(p, value), p, value)
  }

  /** The reply a device gives when it applies a write: `{"<param>": true}`. */
  function Acknowledge(p: Param): HttpReply {
    Body(map[Name(p) := JBool(true)])
  }

  /** A device that echoes the value back as a number is never believed. */
  lemma NumericEchoIsRejected(p: Param, value: int)
    ensures Outcome(Body(map[Name(p) := JInt(value)]), p, value) == Rejected
  {
    assert Name(p) in map[Name(p) := JInt(value)];
  }

  /** A device that acknowledges with a boolean true is believed, whatever the value. */
  lemma AcknowledgementIsAccepted(p: Param, value: int)
    ensures Outcome(Acknowledge(p), p, value) == Accepted
  {
    assert Name(p) in Acknowledge(p).fields;
  }
}
