# esox request lifecycle, modelled in Dafny

This project models the request-lifecycle core of the `esox` package: the
security-header stage of the middleware chain, the route table built by
`App.Handler`, the context defaults of `App.setupCtx`, the flash-cookie
protocol (`checkFlashCookie`, `setFlashCookie`), `Page.Render`, `Redirect` and
the two-file template composition of `Renderer.GetTemplate`.

Layout, one module per file:

- `wrappers.dfy` (`Wrappers`): `Option` for Go's nil pointers and `Result` for the panics of configuration code.
- `flash_data.dfy` (`FlashData`): flash messages. `flash.Encode` and `flash.Decode` are a `Codec`: a pair of uninterpreted functions passed as a parameter.
- `http.dfy` (`Http`): the parts of `net/http` the core uses.
  - Cookies and `r.Cookie`.
  - A `Request` class. Its context flash entry is overwritten in place, as `*r = *r.WithContext(...)` does.
  - A `Response` recorder with a header map, the Set-Cookie list, the status line and the body.
  - `http.Error` and `http.Redirect`.
- `security.dfy` (`Security`): the `Security` value, `DefaultSecurity` and the header writes of the security stage.
- `chain.dfy` (`Chain`): the alice chain of `App.middleware` as a list of stages. Also the header map that the route's handler sees once the stages before it have run.
- `app.dfy` (`App`): `App.Handler` and `App.setupCtx`.
  - `App.Handler` is a loop that takes the routes in an arbitrary order (Go map order is unspecified). It is proved equal to the order-free `Mux`.
  - A route at `/static/` makes it return a failure result, where the source panics.
- `flash_cookie.dfy` (`FlashCookie`): `checkFlashCookie` and `setFlashCookie` as methods on the request and response objects.
- `render.dfy` (`Render`): `GetTemplate`, `Page.Render` (`RenderPage`), `Redirect` and two end-to-end scenarios.
  - Template parsing and execution are parameters: `accepts` says whether a sequence of texts parses; `execute` gives the outcome of executing a template against the page's flashes.

Some behaviours of the code that a reader might not expect:

- Calling `checkFlashCookie` twice on one request is not idempotent. The inbound cookie is still on the request, so each call decodes it again and appends another deletion cookie (`FlashCookie.CheckFlashCookieTwice`).
- A redirect followed by a render does not show the flashes on the rendered page. `Page.Render` reads the context flashes before the cookie is decoded (see Findings).
- The deletion cookie carries no Path attribute, while the value cookie is written with `Path=/` (`FlashCookie.DeletionCookie`, `FlashCookie.ValueCookie`). How a browser matches the deletion against the stored cookie is not part of this model.
- On a failed render, `http.Error` writes the body `Internal Server Error` followed by a newline, because it uses `fmt.Fprintln`. It also sets a plain-text Content-Type and `X-Content-Type-Options: nosniff`.

## Model

| member | source | states |
|---|---|---|
| `Http.FindCookie` | esox/render.go:72-73 | `r.Cookie`: None exactly when no cookie has the name; otherwise the value of the first cookie with that name |
| `Http.Request.FromRequest` | esox/render.go:119 | `flash.FromRequest`: the context's flashes, empty when the context holds none |
| `Http.Response.SetHeader` | esox/render.go:130 | `w.Header().Set`: the key gets the value, all other keys, cookies, status and body unchanged |
| `Http.Response.SetCookie` | esox/render.go:77-81 | `http.SetCookie`: the cookie is appended after the earlier Set-Cookie lines; headers, status and body unchanged |
| `Http.Response.WriteHeader` | esox/render.go:131 | `w.WriteHeader`: the first status written wins, later calls leave it |
| `Http.Response.Write` | esox/render.go:133 | `buf.WriteTo(w)`: the data is appended to the body, and a write before any status sends 200 |
| `Http.Error` | esox/render.go:126 | `http.Error`: plain-text Content-Type, nosniff, status set if not yet written, body is the message plus newline, no cookie written |
| `Http.Redirect` | esox/render.go:141 | `http.Redirect`: Location header is the url; an HTML Content-Type exactly when none was set and the request is GET or HEAD; status is the code if not yet written; the escaped link note as body exactly when none was set and the request is GET; cookies unchanged |
| `Security.Effective` | esox/app.go:74-77 | a nil configuration means `DefaultSecurity`, otherwise the configured value |
| `Security.SecurityWrites` | esox/app.go:79-89 | only the three security headers are written; X-Frame-Options exactly when the option is non-empty, with that literal; nosniff exactly when NoSniff; CSP exactly when non-empty, verbatim |
| `Security.DefaultSecurityHeaders` | esox/app.go:36-40 | with no configuration the stage sends DENY, nosniff and `default-src 'self'` |
| `Security.ApplySecurity` | esox/app.go:72-93 | the stage's header map becomes the old map overridden by the security writes; cookies, status and body untouched |
| `Chain.Middleware` | esox/app.go:52-96 | eight stages: logger first, access log second, then the method, referer, request-id, URL and user-agent field stages in that order, the security stage appended last |
| `Chain.SecurityHeadersBeforeHandler` | esox/app.go:72-93 | whatever follows the middleware, the handler runs with every security header already written |
| `App.Register` | esox/app.go:112-117 | an entry reaches its target through the middleware chain, followed by `notFoundMiddleware(Handler404)` exactly when asked to |
| `App.Mux` | esox/app.go:98-125 | fails exactly when a route is keyed `/static/`; otherwise maps `/static/` to the static handler, every route to its handler, adds `/` exactly when Handler404 is set, wraps exactly `/` and only when Handler404 is set, gives every entry the middleware chain followed, at `/`, by the not-found wrapper of that very Handler404, synthesises a default-404 root exactly when Handler404 is set and no `/` route exists |
| `App.Handler` | esox/app.go:98-125 | the loop over the routes in any order yields exactly `Mux`, so the table does not depend on map iteration order |
| `App.SecurityOnEveryRoute` | esox/app.go:102-121 | every handler registered in the table runs after the security stage's writes |
| `App.SetupCtx` | esox/app.go:138-157 | the context gets the logger, the CSRF unit when configured, App.Location or UTC when nil, and the static file tree |
| `FlashCookie.DeletionCookie` | esox/render.go:77-81 | deletion cookie: name `flash`, empty value, MaxAge -1, Expires in the past, no Path, no SameSite, not Secure |
| `FlashCookie.ValueCookie` | esox/render.go:97-103 | value cookie: name `flash`, the given value, Path `/`, SameSite Strict, Secure, session lifetime |
| `FlashCookie.ContextAfterCheck` | esox/render.go:73-76 | with an inbound cookie the context flashes become its decoding; without, they are unchanged |
| `FlashCookie.CookiesWritten` | esox/render.go:88-103 | an inbound cookie yields exactly one deletion cookie; otherwise a value cookie carrying `Encode(flashes)` exactly when redirecting with non-empty flashes; no value cookie ever without a redirect |
| `FlashCookie.CheckFlashCookie` | esox/render.go:70-85 | returns true exactly when a `flash` cookie is present; then the context is decoded and one deletion cookie appended; otherwise request and response are unchanged |
| `FlashCookie.SetFlashCookie` | esox/render.go:87-104 | runs the check, then appends the cookies of `CookiesWritten`; header, status and body untouched |
| `FlashCookie.CheckFlashCookieTwice` | esox/render.go:70-85 | two checks on one request both report the cookie and append two deletion cookies: not idempotent |
| `Render.GetTemplate` | esox/render.go:30-68 | a missing base file fails first, then a missing child file; parsing the base comes before parsing the child, and a base parse failure is reported as such exactly when both files exist and the base alone does not parse, a child parse failure exactly when the base parses and base plus child do not; success exactly when both files exist and both parses succeed; the page and template are named `name` and hold base then child |
| `Render.RenderPage` | esox/render.go:110-137 | the data gets the flashes the context held before the cookie check; any inbound cookie is cleared; on execution failure: 500, plain-text type, fixed body, buffer discarded; on success: HTML type, status `code` if not yet written, body is the buffer |
| `Render.RenderPageAfterCheck` | esox/render.go:119-121 | corrected order: the data gets the decoded inbound cookie when there is one, else the context flashes; same cookie clearing and response as `RenderPage` |
| `Render.Redirect` | esox/render.go:139-142 | setFlashCookie on a redirect with the context flashes read before the check, then `http.Redirect`'s Location, Content-Type, status `code` and GET-only note |
| `Render.RedirectThenRender` | esox/render.go:119-121 | a redirect writes the value cookie, yet the next request's render shows no flashes and deletes the cookie |
| `Render.RedirectThenRenderAfterCheck` | esox/render.go:119-121 | with the corrected order the next render shows exactly the redirect's flashes (codec round-trip assumed) and deletes the cookie |

## Left out

- `App.Run`: the TCP listener, goroutine, signal wait, Lambda runtime switch and shutdown timeout are I/O and concurrency.
- The zerolog/hlog stages are tags in the chain. Their logging, the access-log callback and the `X-Request-ID` response header that `hlog.RequestIDHandler` may set are not modelled. They are treated as writing no headers.
- `staticHandler`, `notFoundMiddleware`, `http.NotFoundHandler` and the alice internals are opaque targets and stages. Request dispatch through the ServeMux is not modelled; only the registered table is.
- `mux.Handle`'s own panics (an empty or malformed pattern) are not modelled. Neither is the order in which entries are registered before a panic, because the panic discards the whole mux.
- The security stage carries the `Security` value it is built with, where the source's closure reads `App.Security` on every request. The two agree as long as the configuration is not changed after `App.Handler` runs.
- `Security.DefaultSecurity` is a constant, where the source has an exported package variable copied on every request: changes a program makes to it are not modelled.
- CSRF is only present or absent in the context. Its log lines and algorithm are not part of this model. `App.BaseURL` is not read by the core.
- `flash.Encode` and `flash.Decode` are uninterpreted. The end-to-end round trip assumes `Decode(Encode(F)) == F` as a precondition.
- html/template parsing and execution, `io.Copy` read errors, the byte-buffer pool and the closing of files are out of scope. `Render.GetTemplate` keeps only which file fails, in order, and that the base is parsed before the child.
- `Render.Join` does not clean paths as `filepath.Join` does.
- The cookie's Expires time (`time.Now()` minus one hour) is an abstract moment in the past.
- Cookie header parsing, validation of cookie values and the serialisation of Set-Cookie lines are not modelled.
- `Http.Response.WriteHeader` keeps the first status written. It does not model Go's panic on codes outside 100-999, informational 1xx codes, or headers being frozen once the status line is sent.
- `Http.Error` does not delete a Content-Length header as recent Go releases do; nothing in the core sets one.
- `Http.Redirect` does not resolve relative URLs against the request path, and does not hex-escape non-ASCII bytes of the Location value: the url is taken as an absolute ASCII url.
- `Http.StatusText` knows only the 3xx texts; for any other code the note in the GET body has an empty status text, where Go writes that code's text.
- `Render.RenderPage`: a failed final write to the client only logs in the source. The model treats the write as successful, because a write error cannot change the status.
- `Render.ViewData.SetFlashes` stores its argument. The `RenderData` interface lets a page's data type do anything there.
- esox/ctx.go and views/not_found.go are thin wrappers and are not part of this model.

## Findings

| source | as written | input that shows it | evidently intended | confidence | as-written member | corrected member |
|---|---|---|---|---|---|---|
| esox/render.go:119-121 | `flashes := flash.FromRequest(r)` runs before `setFlashCookie` decodes the inbound cookie into the context, so the data gets the old (usually empty) context flashes | a redirect with flashes F (non-empty) writes `flash=Encode(F)`; the next request carries that cookie and an empty context; `Render` passes `[]` to `SetFlashes` and deletes the cookie, so F is never shown | run the cookie check first and read `flash.FromRequest(r)` afterwards, so that the page shows the redirect's flashes once | medium: not executed; other code in the package, not part of this model, might decode the cookie earlier | `Render.RedirectThenRender` | `Render.RenderPageAfterCheck` |
