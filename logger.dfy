/** The client's logging: the four levels, the level gate of the standard
    logger, the level names, and the client helpers that log only when a
    logger is configured. What a logger writes is reduced to the line it
    would print, or nothing. */
module Logging {
  import opened Json
  import Text

  /** LogLevel is a Go int; the named levels are 0 to 3. */
  const LevelDebug: int := 0
  const LevelInfo: int := 1
  const LevelWarn: int := 2
  const LevelError: int := 3

  /** The four methods of the Logger interface. */
  datatype Severity = DebugCall | InfoCall | WarnCall | ErrorCall

  /** The level each method is written at. */
  function LevelOf(m: Severity): (l: int)
    ensures LevelDebug <= l <= LevelError
  {
    match m
    case DebugCall => LevelDebug
    case InfoCall => LevelInfo
    case WarnCall => LevelWarn
    case ErrorCall => LevelError
  }

  function Tag(m: Severity): string
  {
    match m
    case DebugCall => "[DEBUG] "
    case InfoCall => "[INFO] "
    case WarnCall => "[WARN] "
    case ErrorCall => "[ERROR] "
  }

  /** The two Logger implementations of the package. */
  datatype Logger = NoOpLogger | StdLogger(level: int)

  function NewStdLogger(level: int): (l: Logger)
    ensures l.StdLogger? && l.level == level
  {
    StdLogger(level)
  }

  /** What one call of `m` with an already formatted message prints: only a
      standard logger prints, and only when its level is at most the
      method's level; the line carries the method's tag. */
  function Emit(l: Logger, m: Severity, message: string): (line: Option<string>)
    ensures line.Some? <==> l.StdLogger? && l.level <= LevelOf(m)
    ensures line.Some? ==> line.value == Tag(m) + message
  {
    match l
    case NoOpLogger => None
    case StdLogger(level) => if level <= LevelOf(m) then Some(Tag(m) + message) else None
  }

  /** A logger that prints a message prints every more severe message. */
  lemma EmitMonotone(l: Logger, m: Severity, n: Severity, message: string)
    requires LevelOf(m) <= LevelOf(n)
    ensures Emit(l, m, message).Some? ==> Emit(l, n, message).Some?
  {
  }

  /** The level table of the standard logger. */
  lemma StdLoggerGates(message: string)
    ensures Emit(StdLogger(LevelDebug), DebugCall, message).Some?
    ensures Emit(StdLogger(LevelInfo), DebugCall, message).None?
    ensures Emit(StdLogger(LevelInfo), InfoCall, message).Some?
    ensures Emit(StdLogger(LevelWarn), InfoCall, message).None?
    ensures Emit(StdLogger(LevelError), WarnCall, message).None?
    ensures Emit(StdLogger(LevelError), ErrorCall, message).Some?
    ensures forall m :: Emit(NoOpLogger, m, message).None?
  {
  }

  /** LogLevel.String. */
  function LevelName(l: int): (s: string)
    ensures l == LevelDebug ==> s == "DEBUG"
    ensures l == LevelInfo ==> s == "INFO"
    ensures l == LevelWarn ==> s == "WARN"
    ensures l == LevelError ==> s == "ERROR"
    ensures !(LevelDebug <= l <= LevelError) ==> s == "UNKNOWN(" + Text.Decimal(l) + ")"
  {
    if l == LevelDebug then "DEBUG"
    else if l == LevelInfo then "INFO"
    else if l == LevelWarn then "WARN"
    else if l == LevelError then "ERROR"
    else
      var s := "UNKNOWN(" + Text.Decimal(l) + ")";
      assert s[..8] == "UNKNOWN(";
      s
  }

  /** Different levels have different names, including the unnamed ones. */
  lemma LevelNamesDistinct(a: int, b: int)
    requires LevelName(a) == LevelName(b)
    ensures a == b
  {
    var s := LevelName(a);
    if !(LevelDebug <= a <= LevelError) && !(LevelDebug <= b <= LevelError) {
      assert Text.Decimal(a) == s[8..|s| - 1] == Text.Decimal(b);
      Text.DecimalRoundTrip(a);
      Text.DecimalRoundTrip(b);
    }
  }

  /** Levels outside the four named ones print their number, negative ones with a sign. */
  lemma UnknownLevelName()
    ensures LevelName(99) == "UNKNOWN(99)"
    ensures LevelName(-1) == "UNKNOWN(-1)"
  {
    assert Text.Decimal(99) == "99";
    assert Text.Decimal(-1) == "-1";
  }

  /** A call the client makes on its logger: the method and the formatted message. */
  datatype Call = Call(severity: Severity, message: string)

  /** Client.logRequest. */
  function LogRequest(logger: Option<Logger>, httpMethod: string, endpoint: string, hasPayload: bool): (c: Option<Call>)
    ensures c.Some? <==> logger.Some?
    ensures c.Some? ==> c.value.severity == DebugCall && Text.HasPrefix(c.value.message, "Request: " + httpMethod)
    ensures c.Some? ==> (Text.HasPrefix(c.value.message, "Request: " + httpMethod + " " + endpoint + " with payload") <==> hasPayload)
  {
    if logger.None? then None
    else
      var head := "Request: " + httpMethod + " " + endpoint;
      var message := if hasPayload then head + " with payload" else head;
      assert message[..|head|] == head;
      Some(Call(DebugCall, message))
  }

  /** Client.logResponse: a failure goes to Errorf with the error's text, a
      success to Debugf with the status. */
  function LogResponse(logger: Option<Logger>, httpMethod: string, endpoint: string, statusCode: int, err: Option<string>): (c: Option<Call>)
    ensures c.Some? <==> logger.Some?
    ensures c.Some? ==> (c.value.severity == ErrorCall <==> err.Some?)
    ensures c.Some? ==> (c.value.severity == DebugCall <==> err.None?)
    ensures c.Some? && err.Some? ==> |err.value| <= |c.value.message| && c.value.message[|c.value.message| - |err.value|..] == err.value
  {
    if logger.None? then None
    else if err.Some? then Some(Call(ErrorCall, "Response: " + httpMethod + " " + endpoint + " failed - " + err.value))
    else Some(Call(DebugCall, "Response: " + httpMethod + " " + endpoint + " succeeded (status " + Text.Decimal(statusCode) + ")"))
  }

  /** Client.logError. */
  function LogError(logger: Option<Logger>, message: string): (c: Option<Call>)
    ensures c.Some? <==> logger.Some?
    ensures c.Some? ==> c.value == Call(ErrorCall, message)
  {
    if logger.Some? then Some(Call(ErrorCall, message)) else None
  }

  /** Client.logDebug. */
  function LogDebug(logger: Option<Logger>, message: string): (c: Option<Call>)
    ensures c.Some? <==> logger.Some?
    ensures c.Some? ==> c.value == Call(DebugCall, message)
  {
    if logger.Some? then Some(Call(DebugCall, message)) else None
  }

  /** What a call made by a helper finally prints. */
  function Printed(logger: Option<Logger>, c: Option<Call>): Option<string>
  {
    if logger.Some? && c.Some? then Emit(logger.value, c.value.severity, c.value.message) else None
  }

  /** A logger at Info level or above never prints a request line, and an
      Error-level logger prints a failed response but not a successful one. */
  lemma HelpersThroughLevels(httpMethod: string, endpoint: string, hasPayload: bool, statusCode: int, err: string)
    ensures forall l :: LevelInfo <= l ==>
      Printed(Some(StdLogger(l)), LogRequest(Some(StdLogger(l)), httpMethod, endpoint, hasPayload)).None?
    ensures Printed(Some(StdLogger(LevelError)), LogResponse(Some(StdLogger(LevelError)), httpMethod, endpoint, statusCode, Some(err))).Some?
    ensures Printed(Some(StdLogger(LevelError)), LogResponse(Some(StdLogger(LevelError)), httpMethod, endpoint, statusCode, None)).None?
  {
  }
}
