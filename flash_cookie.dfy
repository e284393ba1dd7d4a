/** The flash-cookie protocol of esox/render.go: checkFlashCookie consumes an
    inbound "flash" cookie into the request context and deletes it on the
    client; setFlashCookie additionally writes a new one, but only on a
    redirect that did not itself consume one. */
module FlashCookie {
  import opened Wrappers
  import opened FlashData
  import opened Http

  const FlashCookieName := "flash"

  /** The deletion instruction: empty value, MaxAge -1, Expires in the past. */
  function DeletionCookie(): (c: Cookie)
    ensures c.name == FlashCookieName && c.value == [] && c.maxAge == -1 && c.expires == InThePast
    ensures c.path == "" && c.sameSite == SameSiteUnset && !c.secure
  {
    Cookie(FlashCookieName, "", "", -1, InThePast, SameSiteUnset, false)
  }

  /** The value-carrying cookie: path "/", SameSite Strict, Secure, no
      expiry (a session cookie). */
  function ValueCookie(value: string): (c: Cookie)
    ensures c.name == FlashCookieName && c.value == value
    ensures c.path == "/" && c.sameSite == SameSiteStrict && c.secure
    ensures c.maxAge == 0 && c.expires == NoExpiry
  {
    Cookie(FlashCookieName, value, "/", 0, NoExpiry, SameSiteStrict, true)
  }

  /** The value of the inbound flash cookie, if the request carries one. */
  function Inbound(r: Request): Option<string>
  {
    FindCookie(r.cookies, FlashCookieName)
  }

  /** The request's flash context after the cookie check. */
  function ContextAfterCheck(inbound: Option<string>, flashes: Option<seq<Flash>>, codec: Codec): (f: Option<seq<Flash>>)
    ensures inbound.Some? ==> f == Some(codec.decode(inbound.value))
    ensures inbound.None? ==> f == flashes
  {
    match inbound
    case Some(v) => Some(codec.decode(v))
    case None => flashes
  }

  /** The Set-Cookie lines setFlashCookie adds, in order. */
  function CookiesWritten(inbound: Option<string>, redirect: bool, flashes: seq<Flash>, codec: Codec): (cs: seq<Cookie>)
    ensures forall i :: 0 <= i < |cs| ==> cs[i].name == FlashCookieName
    ensures inbound.Some? ==> cs == [DeletionCookie()]
    ensures inbound.None? ==> (cs == [] <==> !redirect || flashes == [])
    ensures inbound.None? && cs != [] ==> cs == [ValueCookie(codec.encode(flashes))]
    ensures !redirect ==> forall i :: 0 <= i < |cs| ==> cs[i] == DeletionCookie()
  {
    if inbound.Some? then [DeletionCookie()]
    else if !redirect || |flashes| == 0 then []
    else [ValueCookie(codec.encode(flashes))]
  }

  /** checkFlashCookie. */
  method CheckFlashCookie(w: Response, r: Request, codec: Codec) returns (deleted: bool)
    modifies w, r
    ensures deleted <==> Inbound(r).Some?
    ensures r.flashes == ContextAfterCheck(Inbound(r), old(r.flashes), codec)
    ensures w.setCookies == old(w.setCookies) + (if deleted then [DeletionCookie()] else [])
    ensures w.header == old(w.header) && w.status == old(w.status) && w.body == old(w.body)
  {
    deleted := false;
    var cookie := FindCookie(r.cookies, FlashCookieName);
    if cookie.Some? {
      deleted := true;
      var flashes := codec.decode(cookie.value);
      r.flashes := Some(flashes);
      w.SetCookie(DeletionCookie());
    }
  }

  /** setFlashCookie. */
  method SetFlashCookie(w: Response, r: Request, redirect: bool, flashes: seq<Flash>, codec: Codec)
    modifies w, r
    ensures r.flashes == ContextAfterCheck(Inbound(r), old(r.flashes), codec)
    ensures w.setCookies == old(w.setCookies) + CookiesWritten(Inbound(r), redirect, flashes, codec)
    ensures w.header == old(w.header) && w.status == old(w.status) && w.body == old(w.body)
  {
    var deleted := CheckFlashCookie(w, r, codec);
    if !redirect || deleted {
      return;
    }
    if |flashes| == 0 {
      return;
    }
    w.SetCookie(ValueCookie(codec.encode(flashes)));
  }

  /** Two checks on one request carrying a flash cookie: both report the
      cookie, the context is decoded again, and a second deletion cookie is
      appended. The check is not idempotent. */
  method CheckFlashCookieTwice(value: string, codec: Codec) returns (first: bool, second: bool, cookies: seq<Cookie>, context: Option<seq<Flash>>)
    ensures first && second
    ensures cookies == [DeletionCookie(), DeletionCookie()]
    ensures context == Some(codec.decode(value))
  {
    var r := new Request("GET", [InCookie(FlashCookieName, value)], None);
    var w := new Response();
    first := CheckFlashCookie(w, r, codec);
    second := CheckFlashCookie(w, r, codec);
    cookies := w.setCookies;
    context := r.flashes;
  }
}
