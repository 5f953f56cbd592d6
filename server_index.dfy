/**
 * Request logging, the error handler and the session cookie of the server
 * entry point (server/index.ts).
 *
 * One `RequestLog` is the state the logging middleware keeps for one request:
 * the body of the latest `res.json` call and, once the response has finished,
 * the line handed to `log`. `JSON.stringify` is an oracle: a captured body
 * comes with its serialised text and its truthiness.
 */
module ServerIndex {
  import opened Wrappers
  import opened JsText

  const ApiPrefix := "/api"
  const MaxLineLength := 80
  /** U+2026 HORIZONTAL ELLIPSIS */
  const Ellipsis: char := 0x2026 as char

  /** A value passed to `res.json`. */
  datatype JsonBody = JsonBody(serialized: string, truthy: bool)

  /** `if (logLine.length > 80) logLine = logLine.slice(0, 79) + "…"` */
  function Truncate(line: string): (r: string)
    ensures |r| <= MaxLineLength
    ensures |line| <= MaxLineLength ==> r == line
    ensures |line| > MaxLineLength ==> |r| == MaxLineLength && r[..79] == line[..79] && r[79] == Ellipsis
  {
    if |line| > MaxLineLength then line[..79] + [Ellipsis] else line
  }

  /** A truncated line is left alone by a second truncation. */
  lemma TruncateIdempotent(line: string)
    ensures Truncate(Truncate(line)) == Truncate(line)
  {
  }

  /** The line before truncation: method, path, status and duration, then the
      captured body when it is truthy. */
  function FullLine(verb: string, path: string, status: int, duration: int, captured: Option<JsonBody>): (r: string)
    ensures r == verb + " " + path + " " + IntToString(status) + " in " + IntToString(duration) + "ms"
                 + (if captured.Some? && captured.value.truthy then " :: " + captured.value.serialized else "")
    ensures StartsWith(r, verb + " " + path + " ")
    ensures captured.Some? && captured.value.truthy ==> |r| >= |captured.value.serialized| && r[|r| - |captured.value.serialized|..] == captured.value.serialized
  {
    var base := verb + " " + path + " " + IntToString(status) + " in " + IntToString(duration) + "ms";
    assert base[..|verb + " " + path + " "|] == verb + " " + path + " ";
    StartsWithPrefix(base, verb + " " + path + " ");
    if captured.Some? && captured.value.truthy then
      var r := base + " :: " + captured.value.serialized;
      assert r[..|base|] == base;
      assert r[..|verb + " " + path + " "|] == verb + " " + path + " ";
      StartsWithPrefix(r, verb + " " + path + " ");
      r
    else base
  }

  /** The line `log` receives for a finished request, if any. */
  function LogLine(verb: string, path: string, status: int, duration: int, captured: Option<JsonBody>): (r: Option<string>)
    ensures r.Some? <==> StartsWith(path, ApiPrefix)
    ensures r.Some? ==> |r.value| <= MaxLineLength
  {
    if StartsWith(path, ApiPrefix) then Some(Truncate(FullLine(verb, path, status, duration, captured))) else None
  }

  class RequestLog {
    const start: int
    const verb: string
    const path: string
    /** `capturedJsonResponse` */
    var captured: Option<JsonBody>
    /** The lines handed to `log`, oldest first. */
    var logged: seq<string>

    constructor (start: int, verb: string, path: string)
      ensures this.start == start && this.verb == verb && this.path == path
      ensures captured == None && logged == []
    {
      this.start, this.verb, this.path := start, verb, path;
      captured, logged := None, [];
    }

    /** The wrapped `res.json`: it remembers its argument, replacing any earlier one. */
    method Json(body: JsonBody)
      modifies this
      ensures captured == Some(body) && logged == old(logged)
    {
      captured := Some(body);
    }

    /** The `finish` listener, with the clock reading and the response status. */
    method Finish(now: int, status: int)
      modifies this
      ensures captured == old(captured)
      ensures StartsWith(path, ApiPrefix) ==> logged == old(logged) + [LogLine(verb, path, status, now - start, captured).value]
      ensures !StartsWith(path, ApiPrefix) ==> logged == old(logged)
    {
      var duration := now - start;
      if StartsWith(path, ApiPrefix) {
        var logLine := verb + " " + path + " " + IntToString(status) + " in " + IntToString(duration) + "ms";
        if captured.Some? && captured.value.truthy {
          logLine := logLine + " :: " + captured.value.serialized;
        }
        if |logLine| > MaxLineLength {
          logLine := logLine[..79] + [Ellipsis];
        }
        logged := logged + [logLine];
      }
    }
  }

  /** Only the last `res.json` body reaches the log line. */
  method LastJsonWins(log: RequestLog, first: JsonBody, second: JsonBody, now: int, status: int)
    requires StartsWith(log.path, ApiPrefix)
    modifies log
    ensures log.logged == old(log.logged) + [LogLine(log.verb, log.path, status, now - log.start, Some(second)).value]
  {
    log.Json(first);
    log.Json(second);
    log.Finish(now, status);
  }

  // ---------------------------------------------------------------------------
  // Error handler

  /** The fields of a thrown value that the handler reads; `None` is undefined. */
  datatype HttpError = HttpError(status: Option<int>, statusCode: Option<int>, message: Option<string>)

  /** `err.status || err.statusCode || 500` */
  function ErrorStatus(err: HttpError): (r: int)
    ensures r != 0
    ensures err.status.Some? && err.status.value != 0 ==> r == err.status.value
    ensures (err.status.None? || err.status.value == 0) && err.statusCode.Some? && err.statusCode.value != 0
            ==> r == err.statusCode.value
    ensures (err.status.None? || err.status.value == 0) && (err.statusCode.None? || err.statusCode.value == 0)
            ==> r == 500
  {
    if err.status.Some? && err.status.value != 0 then err.status.value
    else if err.statusCode.Some? && err.statusCode.value != 0 then err.statusCode.value
    else 500
  }

  /** `err.message || "Internal Server Error"` */
  function ErrorMessage(err: HttpError): (r: string)
    ensures r != ""
    ensures err.message.Some? && err.message.value != "" ==> r == err.message.value
    ensures err.message.None? || err.message.value == "" ==> r == "Internal Server Error"
  {
    if err.message.Some? && err.message.value != "" then err.message.value else "Internal Server Error"
  }

  // ---------------------------------------------------------------------------
  // Session cookie

  datatype CookieOptions = CookieOptions(secure: bool, httpOnly: bool, maxAge: int, sameSite: string)

  /** The session cookie for the given `NODE_ENV`. */
  function SessionCookie(nodeEnv: Option<string>): (r: CookieOptions)
    ensures r.secure <==> nodeEnv == Some("production")
    ensures r.sameSite == (if nodeEnv == Some("production") then "none" else "lax")
    ensures r.httpOnly && r.maxAge == 24 * 60 * 60 * 1000
    ensures r.sameSite == "none" ==> r.secure
  {
    var production := nodeEnv == Some("production");
    CookieOptions(production, true, 24 * 60 * 60 * 1000, if production then "none" else "lax")
  }
}
