/** The parts of net/http the request-lifecycle core touches: inbound cookies,
    the Set-Cookie attribute set, the request (whose context carries the flash
    messages) and a response recorder with a header map, the list of
    Set-Cookie values, the status line and the body. */
module Http {
  import opened Wrappers
  import opened FlashData

  /** A cookie as the client sent it in the Cookie header. */
  datatype InCookie = InCookie(name: string, value: string)

  /** http.SameSite; the zero value of the Go type means "attribute not set". */
  datatype SameSite = SameSiteUnset | SameSiteDefault | SameSiteLax | SameSiteStrict | SameSiteNone

  /** The Expires attribute: absent (a session cookie) or a moment already in
      the past (time.Now() minus one hour, kept abstract). */
  datatype Expiry = NoExpiry | InThePast

  /** A cookie written with http.SetCookie. */
  datatype Cookie = Cookie(
    name: string,
    value: string,
    path: string,
    maxAge: int,
    expires: Expiry,
    sameSite: SameSite,
    secure: bool)

  /** r.Cookie(name): the value of the first cookie called `name`, or None
      (http.ErrNoCookie) when the request carries none. */
  function FindCookie(cookies: seq<InCookie>, name: string): (v: Option<string>)
    ensures v.None? <==> forall i :: 0 <= i < |cookies| ==> cookies[i].name != name
    ensures v.Some? ==>
      exists i :: 0 <= i < |cookies| && cookies[i] == InCookie(name, v.value) &&
        forall j :: 0 <= j < i ==> cookies[j].name != name
  {
    if cookies == [] then None
    else if cookies[0].name == name then Some(cookies[0].value)
    else
      var rest := FindCookie(cookies[1..], name);
      assert forall i :: 1 <= i < |cookies| ==> cookies[i] == cookies[1..][i - 1];
      rest
  }

  /** An inbound request. Its method (`verb`) and cookies never change; the one
      context entry the core reads and replaces is the list of flash
      messages. */
  class Request {
    const verb: string
    const cookies: seq<InCookie>
    var flashes: Option<seq<Flash>>

    constructor (verb: string, cookies: seq<InCookie>, flashes: Option<seq<Flash>>)
      ensures this.verb == verb && this.cookies == cookies && this.flashes == flashes
    {
      this.verb := verb;
      this.cookies := cookies;
      this.flashes := flashes;
    }

    /** flash.FromRequest(r): the context's flash messages, empty when none. */
    function FromRequest(): (f: seq<Flash>)
      reads this
      ensures flashes.None? ==> f == []
      ensures flashes.Some? ==> f == flashes.value
    {
      flashes.GetOr([])
    }
  }

  /** The status line once written: the first WriteHeader wins. */
  function StatusAfter(status: Option<int>, code: int): (s: Option<int>)
    ensures s.Some?
    ensures status.Some? ==> s == status
    ensures status.None? ==> s.value == code
  {
    if status.None? then Some(code) else status
  }

  /** What an http.ResponseWriter records. Header values are single-valued
      (Header().Set); the Set-Cookie lines that http.SetCookie adds are kept
      in their own list, in the order they were added. */
  class Response {
    var header: map<string, string>
    var setCookies: seq<Cookie>
    var status: Option<int>
    var body: string

    constructor ()
      ensures header == map[] && setCookies == [] && status == None && body == []
    {
      header := map[];
      setCookies := [];
      status := None;
      body := [];
    }

    /** w.Header().Set(key, value). */
    method SetHeader(key: string, value: string)
      modifies this
      ensures header == old(header)[key := value]
      ensures setCookies == old(setCookies) && status == old(status) && body == old(body)
    {
      header := header[key := value];
    }

    /** http.SetCookie(w, c). */
    method SetCookie(c: Cookie)
      modifies this
      ensures setCookies == old(setCookies) + [c]
      ensures header == old(header) && status == old(status) && body == old(body)
    {
      setCookies := setCookies + [c];
    }

    /** w.WriteHeader(code); a second call is superfluous and ignored. */
    method WriteHeader(code: int)
      modifies this
      ensures status == StatusAfter(old(status), code)
      ensures header == old(header) && setCookies == old(setCookies) && body == old(body)
    {
      if status.None? {
        status := Some(code);
      }
    }

    /** w.Write(data); writing before WriteHeader sends status 200 first. */
    method Write(data: string)
      modifies this
      ensures status == StatusAfter(old(status), 200)
      ensures body == old(body) + data
      ensures header == old(header) && setCookies == old(setCookies)
    {
      WriteHeader(200);
      body := body + data;
    }
  }

  const PlainTextContentType := "text/plain; charset=utf-8"

  /** http.Error(w, msg, code): a plain-text reply whose body is the message
      followed by a newline (fmt.Fprintln). */
  method Error(w: Response, msg: string, code: int)
    modifies w
    ensures w.header == old(w.header)["Content-Type" := PlainTextContentType]["X-Content-Type-Options" := "nosniff"]
    ensures w.status == StatusAfter(old(w.status), code)
    ensures w.body == old(w.body) + msg + "\n"
    ensures w.setCookies == old(w.setCookies)
  {
    w.SetHeader("Content-Type", PlainTextContentType);
    w.SetHeader("X-Content-Type-Options", "nosniff");
    w.WriteHeader(code);
    w.Write(msg + "\n");
  }

  const HtmlContentType := "text/html; charset=utf-8"

  /** http.StatusText for the redirect codes; any other code maps to "". */
  function StatusText(code: int): string
  {
    match code
    case 300 => "Multiple Choices"
    case 301 => "Moved Permanently"
    case 302 => "Found"
    case 303 => "See Other"
    case 304 => "Not Modified"
    case 305 => "Use Proxy"
    case 307 => "Temporary Redirect"
    case 308 => "Permanent Redirect"
    case _ => ""
  }

  /** The replacement of one character by html.EscapeString's rules. */
  function EscapeChar(c: char): string
  {
    match c
    case '&' => "&amp;"
    case '<' => "&lt;"
    case '>' => "&gt;"
    case '"' => "&#34;"
    case '\'' => "&#39;"
    case _ => [c]
  }

  /** htmlEscape: every markup character replaced by its entity. */
  function HtmlEscape(s: string): (e: string)
    ensures forall i :: 0 <= i < |e| ==> e[i] != '<' && e[i] != '>' && e[i] != '"' && e[i] != '\''
    ensures |e| >= |s|
  {
    if s == [] then [] else EscapeChar(s[0]) + HtmlEscape(s[1..])
  }

  /** The note http.Redirect writes for a GET request, followed by the
      newline of fmt.Fprintln. */
  function RedirectBody(url: string, code: int): string
  {
    "<a href=\"" + HtmlEscape(url) + "\">" + StatusText(code) + "</a>.\n" + "\n"
  }

  /** http.Redirect(w, r, url, code): the Location header and the status;
      when no Content-Type was set, GET and HEAD requests also get an HTML
      Content-Type and GET requests a short HTML note as body. */
  method Redirect(w: Response, r: Request, url: string, code: int)
    modifies w
    ensures "Content-Type" !in old(w.header) && (r.verb == "GET" || r.verb == "HEAD") ==>
      w.header == old(w.header)["Location" := url]["Content-Type" := HtmlContentType]
    ensures !("Content-Type" !in old(w.header) && (r.verb == "GET" || r.verb == "HEAD")) ==>
      w.header == old(w.header)["Location" := url]
    ensures w.status == StatusAfter(old(w.status), code)
    ensures w.body == old(w.body) +
      (if "Content-Type" !in old(w.header) && r.verb == "GET" then RedirectBody(url, code) else [])
    ensures w.setCookies == old(w.setCookies)
  {
    var hadContentType := "Content-Type" in w.header;
    w.SetHeader("Location", url);
    if !hadContentType && (r.verb == "GET" || r.verb == "HEAD") {
      w.SetHeader("Content-Type", HtmlContentType);
    }
    w.WriteHeader(code);
    if !hadContentType && r.verb == "GET" {
      var body := "<a href=\"" + HtmlEscape(url) + "\">" + StatusText(code) + "</a>.\n";
      w.Write(body + "\n");
    }
  }
}
