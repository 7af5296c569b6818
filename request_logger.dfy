/**
 * The request log of the server (server/src/middleware/loggerMiddleware.ts): which request parts
 * are logged, how a long body is cut, and how a finished response is classified.
 */
module RequestLogger {
  import opened Wrappers
  import opened Text
  import UserRoutes

  /** A line written to the standard or the error log. */
  datatype LogLine = Info(text: string) | Error(text: string)

  const Separator := "------------------------------------------------------------------"
  const MaxBody := 500
  const TruncationMark := "... (truncated)"

  /** The logged form of a serialised body: the first 500 characters and a mark when longer. */
  function TruncatedBody(bodyStr: string): (r: string)
    ensures |bodyStr| <= MaxBody ==> r == bodyStr
    ensures |bodyStr| > MaxBody ==> r == bodyStr[..MaxBody] + TruncationMark
    ensures |r| <= MaxBody + |TruncationMark|
    ensures Take(bodyStr, MaxBody) <= r
  {
    if |bodyStr| > MaxBody then bodyStr[..MaxBody] + TruncationMark else bodyStr
  }

  /** The request lines for `method url` with a parsed `body` and `query`; `bodyStr` and
   *  `queryStr` are their JSON serialisations. A body or query is logged only when it has at
   *  least one key. */
  function RequestLines(method_: string, url: string, body: Option<UserRoutes.Doc>, bodyStr: string,
                        query: Option<UserRoutes.Doc>, queryStr: string): (lines: seq<LogLine>)
    ensures |lines| >= 2 && lines[0] == Info(Separator) && lines[1] == Info("📝 [REQUEST] " + method_ + " " + url)
    ensures |lines| == 2 + (if body.Some? && |body.value| > 0 then 1 else 0) + (if query.Some? && |query.value| > 0 then 1 else 0)
    ensures body.Some? && |body.value| > 0 ==> lines[2] == Info("📦 [BODY]: " + TruncatedBody(bodyStr))
    ensures query.Some? && |query.value| > 0 ==> lines[|lines| - 1] == Info("🔍 [QUERY]: " + queryStr)
  {
    var bodyLine := if body.Some? && |body.value| > 0 then [Info("📦 [BODY]: " + TruncatedBody(bodyStr))] else [];
    var queryLine := if query.Some? && |query.value| > 0 then [Info("🔍 [QUERY]: " + queryStr)] else [];
    var lines := [Info(Separator), Info("📝 [REQUEST] " + method_ + " " + url)] + bodyLine + queryLine;
    assert bodyLine != [] ==> lines[2] == bodyLine[0];
    lines
  }

  /** A finished response of status 400 or above goes to the error log with ❌, any other to
   *  the standard log with ✅. */
  function ResponseLine(status: int, method_: string, url: string, durationMs: int): (line: LogLine)
    ensures line.Error? <==> status >= 400
    ensures line.text == (if status >= 400 then "❌" else "✅") + " [RESPONSE] " + IntToString(status) + " "
                         + method_ + " " + url + " - ⏱️ " + IntToString(durationMs) + "ms"
  {
    var icon := if status >= 400 then "❌" else "✅";
    var text := icon + " [RESPONSE] " + IntToString(status) + " " + method_ + " " + url + " - ⏱️ " + IntToString(durationMs) + "ms";
    if status >= 400 then Error(text) else Info(text)
  }

  /** The middleware's effect on one request: the lines it writes at once, the lines its finish
   *  callback writes, and how often it passes the request on. */
  datatype Effect = Effect(requestLines: seq<LogLine>, finishLines: seq<LogLine>, nextCalls: nat)

  /** `requestLogger`; the response `status` and the `durationMs` between `start` and `finish`
   *  are what the finish event reports. */
  method RequestLogger(method_: string, url: string, body: Option<UserRoutes.Doc>, bodyStr: string,
                       query: Option<UserRoutes.Doc>, queryStr: string, status: int, durationMs: int)
    returns (effect: Effect)
    ensures effect.requestLines == RequestLines(method_, url, body, bodyStr, query, queryStr)
    ensures effect.finishLines == [ResponseLine(status, method_, url, durationMs), Info(Separator)]
    ensures effect.nextCalls == 1
  {
    var lines := [Info(Separator), Info("📝 [REQUEST] " + method_ + " " + url)];
    if body.Some? && |body.value| > 0 {
      lines := lines + [Info("📦 [BODY]: " + TruncatedBody(bodyStr))];
    }
    if query.Some? && |query.value| > 0 {
      lines := lines + [Info("🔍 [QUERY]: " + queryStr)];
    }
    var finish := [ResponseLine(status, method_, url, durationMs), Info(Separator)];
    effect := Effect(lines, finish, 1);
  }
}
