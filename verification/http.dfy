/**
 * The part of net/http the handlers rely on, as seen on the wire.
 *
 * A handler mutates a header map and may call `WriteHeader` (directly or
 * through `Write`, `http.Error` or `http.Redirect`). The first status wins;
 * header changes made after it are not sent; later status calls are
 * superfluous and ignored. A handler that writes nothing answers 200 with its
 * header. Requests are taken to be GETs, so `http.Redirect` writes its short
 * HTML body when no Content-Type was set.
 */
module Http {
  import opened Wrappers

  datatype SameSite = SameSiteDefault | SameSiteLax | SameSiteStrict | SameSiteNone

  datatype Cookie = Cookie(
    name: string,
    value: string,
    path: string,
    maxAge: int,
    httpOnly: bool,
    secure: bool,
    sameSite: SameSite)

  /** A URL as `net/url` holds it after parsing: everything up to the query, and the query values. */
  datatype Url = Url(base: string, query: map<string, string>)

  /** A value inside a one-field JSON object body. */
  datatype JsonValue = JsonString(text: string) | JsonUrl(url: Url)

  datatype Chunk =
    | Text(text: string)
    | JsonObject(field: string, value: JsonValue)
    | Anchor(target: string)

  datatype Header = Header(contentType: Option<string>, nosniff: bool, location: Option<string>, cookies: seq<Cookie>)

  datatype Sent = Sent(status: int, header: Header)

  datatype Writer = Writer(header: Header, sent: Option<Sent>, body: seq<Chunk>)

  const OK := 200
  const Found := 302
  const BadRequest := 400
  const Unauthorized := 401
  const Forbidden := 403
  const NotFound := 404
  const InternalServerError := 500

  const TextPlain := "text/plain; charset=utf-8"
  const TextHtml := "text/html; charset=utf-8"
  const ApplicationJson := "application/json"

  const Fresh := Writer(Header(None, false, None, []), None, [])

  /** The status the client receives. */
  function Status(w: Writer): int {
    if w.sent.Some? then w.sent.value.status else OK
  }

  /** The header the client receives. */
  function WireHeader(w: Writer): Header {
    if w.sent.Some? then w.sent.value.header else w.header
  }

  function WireCookies(w: Writer): seq<Cookie> {
    WireHeader(w).cookies
  }

  function SetContentType(w: Writer, ct: string): Writer {
    w.(header := w.header.(contentType := Some(ct)))
  }

  /** `http.SetCookie`: appends a Set-Cookie line to the header map. */
  function SetCookie(w: Writer, c: Cookie): (r: Writer)
    ensures r.sent == w.sent && r.body == w.body
    ensures r.header.cookies == w.header.cookies + [c]
  {
    w.(header := w.header.(cookies := w.header.cookies + [c]))
  }

  /** `WriteHeader`: the first call sends the status and a snapshot of the header. */
  function WriteHeader(w: Writer, status: int): (r: Writer)
    ensures w.sent.None? ==> r.sent == Some(Sent(status, w.header))
    ensures w.sent.Some? ==> r == w
  {
    if w.sent.None? then w.(sent := Some(Sent(status, w.header))) else w
  }

  /** `Write`: sends 200 first if nothing was sent yet. */
  function Write(w: Writer, c: Chunk): (r: Writer)
    ensures r.sent.Some? && r.body == w.body + [c]
    ensures w.sent.Some? ==> r.sent == w.sent
  {
    var w1 := WriteHeader(w, OK);
    w1.(body := w1.body + [c])
  }

  /** `http.Error`: plain-text headers, the status, then the message and a newline. */
  function Error(w: Writer, message: string, status: int): (r: Writer)
    ensures w.sent.None? ==> Status(r) == status && WireHeader(r).contentType == Some(TextPlain)
    ensures w.sent.None? ==> WireCookies(r) == w.header.cookies && WireHeader(r).location == w.header.location
    ensures r.body == w.body + [Text(message + "\n")]
  {
    var w1 := w.(header := w.header.(contentType := Some(TextPlain), nosniff := true));
    Write(WriteHeader(w1, status), Text(message + "\n"))
  }

  /** `http.Redirect` for a GET request. */
  function Redirect(w: Writer, url: string, status: int): (r: Writer)
    ensures w.sent.None? ==> Status(r) == status && WireHeader(r).location == Some(url)
    ensures w.sent.None? ==> WireCookies(r) == w.header.cookies
    ensures w.sent.Some? ==> Status(r) == Status(w) && WireHeader(r) == WireHeader(w)
    ensures w.header.contentType.Some? ==> r.body == w.body
  {
    var hadContentType := w.header.contentType.Some?;
    var w1 := w.(header := w.header.(location := Some(url)));
    var w2 := if hadContentType then w1 else SetContentType(w1, TextHtml);
    var w3 := WriteHeader(w2, status);
    if hadContentType then w3 else Write(w3, Anchor(url))
  }

  /** Writes a one-field JSON object with status 200, as `json.NewEncoder(w).Encode` after `WriteHeader(200)`. */
  function WriteJson(w: Writer, field: string, value: JsonValue): (r: Writer)
    ensures w.sent.None? ==> Status(r) == OK && WireHeader(r).contentType == Some(ApplicationJson)
    ensures w.sent.None? ==> WireCookies(r) == w.header.cookies
    ensures r.body == w.body + [JsonObject(field, value)]
  {
    Write(WriteHeader(SetContentType(w, ApplicationJson), OK), JsonObject(field, value))
  }

  /** Once a status is sent, nothing a handler does changes the status or header on the wire. */
  lemma SentIsFinal(w: Writer, c: Cookie, url: string, message: string, status: int, code: int)
    requires w.sent.Some?
    ensures WireHeader(SetCookie(w, c)) == WireHeader(w) && Status(SetCookie(w, c)) == Status(w)
    ensures WireHeader(Redirect(w, url, code)) == WireHeader(w) && Status(Redirect(w, url, code)) == Status(w)
    ensures WireHeader(Error(w, message, status)) == WireHeader(w) && Status(Error(w, message, status)) == Status(w)
  {
  }
}
