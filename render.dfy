/** Templates and rendering (esox/render.go): Renderer.GetTemplate composes a
    base file and a child file into one named template; Page.Render and
    Redirect tie the flash-cookie protocol to the response. Opening, parsing
    and executing templates are library calls; only their success or failure
    is modelled, through the parameters `accepts` and `execute`. */
module Render {
  import opened Wrappers
  import opened FlashData
  import opened Http
  import opened FlashCookie

  /** Renderer: a file tree (path to file content) and a path prefix. */
  datatype Renderer = Renderer(fs: map<string, string>, prefix: string)

  /** A parsed html/template: its name and the texts parsed into it, in the
      order they were parsed. */
  datatype Template = Template(name: string, sources: seq<string>)

  datatype Page = Page(tmpl: Template, name: string)

  /** The panics of GetTemplate, as failure values naming the file and, for
      a parse error, which of the two parses failed. */
  datatype TemplateError =
    | OpenFailed(path: string)
    | BaseParseFailed(path: string)
    | ChildParseFailed(path: string)

  /** filepath.Join(prefix, name) for a clean prefix and name. */
  function Join(prefix: string, name: string): string
  {
    if prefix == [] then name else prefix + "/" + name
  }

  /** Renderer.GetTemplate. `accepts(texts)` says whether html/template
      parses the texts, in this order, into one template. */
  method GetTemplate(re: Renderer, name: string, baseName: string, accepts: seq<string> -> bool)
    returns (r: Result<Page, TemplateError>)
    ensures Join(re.prefix, baseName) !in re.fs ==> r == Failure(OpenFailed(Join(re.prefix, baseName)))
    ensures Join(re.prefix, baseName) in re.fs && Join(re.prefix, name) !in re.fs ==>
      r == Failure(OpenFailed(Join(re.prefix, name)))
    ensures r == Failure(BaseParseFailed(Join(re.prefix, baseName))) <==>
      Join(re.prefix, baseName) in re.fs && Join(re.prefix, name) in re.fs &&
      !accepts([re.fs[Join(re.prefix, baseName)]])
    ensures r == Failure(ChildParseFailed(Join(re.prefix, name))) <==>
      Join(re.prefix, baseName) in re.fs && Join(re.prefix, name) in re.fs &&
      accepts([re.fs[Join(re.prefix, baseName)]]) &&
      !accepts([re.fs[Join(re.prefix, baseName)], re.fs[Join(re.prefix, name)]])
    ensures r.Success? <==>
      Join(re.prefix, baseName) in re.fs && Join(re.prefix, name) in re.fs &&
      accepts([re.fs[Join(re.prefix, baseName)]]) &&
      accepts([re.fs[Join(re.prefix, baseName)], re.fs[Join(re.prefix, name)]])
    ensures r.Success? ==> r.value.name == name && r.value.tmpl.name == name
    ensures r.Success? ==>
      r.value.tmpl.sources == [re.fs[Join(re.prefix, baseName)], re.fs[Join(re.prefix, name)]]
  {
    var basePath := Join(re.prefix, baseName);
    if basePath !in re.fs {
      return Failure(OpenFailed(basePath));
    }
    var baseFile := re.fs[basePath];
    var childPath := Join(re.prefix, name);
    if childPath !in re.fs {
      return Failure(OpenFailed(childPath));
    }
    var childFile := re.fs[childPath];

    var buf: string := [];
    buf := buf + baseFile;
    assert buf == baseFile;
    var tmpl := Template(name, []);
    assert tmpl.sources + [buf] == [baseFile];
    if !accepts(tmpl.sources + [buf]) {
      return Failure(BaseParseFailed(basePath));
    }
    tmpl := tmpl.(sources := tmpl.sources + [buf]);

    buf := [];
    buf := buf + childFile;
    assert buf == childFile;
    assert tmpl.sources + [buf] == [baseFile, childFile];
    if !accepts(tmpl.sources + [buf]) {
      return Failure(ChildParseFailed(childPath));
    }
    tmpl := tmpl.(sources := tmpl.sources + [buf]);
    return Success(Page(tmpl, name));
  }

  /** The outcome of p.tmpl.Execute into the buffer; a failed execution may
      leave partial output in the buffer. */
  datatype Execution = Executed(output: string) | ExecFailed(partial: string)

  /** The page's data (RenderData): what SetFlashes stores. */
  class ViewData {
    var flashes: seq<Flash>

    constructor ()
      ensures flashes == []
    {
      flashes := [];
    }

    method SetFlashes(f: seq<Flash>)
      modifies this
      ensures flashes == f
    {
      flashes := f;
    }
  }

  const InternalServerError := "Internal Server Error"

  /** What Render does to the response after the flash check: a 500 with a
      fixed plain-text body, or the rendered page with the given code. */
  predicate RenderedResponse(w: Response, header: map<string, string>, status: Option<int>, body: string,
                             code: int, outcome: Execution)
    reads w
  {
    match outcome
    case ExecFailed(_) =>
      && w.header == header["Content-Type" := PlainTextContentType]["X-Content-Type-Options" := "nosniff"]
      && w.status == StatusAfter(status, 500)
      && w.body == body + InternalServerError + "\n"
    case Executed(out) =>
      && w.header == header["Content-Type" := HtmlContentType]
      && w.status == StatusAfter(status, code)
      && w.body == body + out
  }

  /** Page.Render, in the source's statement order: the flashes handed to
      the data are read from the context BEFORE setFlashCookie decodes an
      inbound cookie into it. */
  method RenderPage(p: Page, w: Response, r: Request, code: int, data: ViewData,
                    codec: Codec, execute: (Template, seq<Flash>) -> Execution)
    modifies w, r, data
    ensures data.flashes == old(r.FromRequest())
    ensures r.flashes == ContextAfterCheck(Inbound(r), old(r.flashes), codec)
    ensures w.setCookies == old(w.setCookies) + CookiesWritten(Inbound(r), false, old(r.FromRequest()), codec)
    ensures RenderedResponse(w, old(w.header), old(w.status), old(w.body), code,
                             execute(p.tmpl, old(r.FromRequest())))
  {
    var flashes := r.FromRequest();
    SetFlashCookie(w, r, false, flashes, codec);
    data.SetFlashes(flashes);

    var outcome := execute(p.tmpl, data.flashes);
    if outcome.ExecFailed? {
      Error(w, InternalServerError, 500);
      return;
    }

    w.SetHeader("Content-Type", HtmlContentType);
    w.WriteHeader(code);
    w.Write(outcome.output);
  }

  /** Page.Render with the flash check moved before the context is read, so
      that the messages of an inbound cookie reach the data. */
  method RenderPageAfterCheck(p: Page, w: Response, r: Request, code: int, data: ViewData,
                              codec: Codec, execute: (Template, seq<Flash>) -> Execution)
    modifies w, r, data
    ensures Inbound(r).Some? ==> data.flashes == codec.decode(Inbound(r).value)
    ensures Inbound(r).None? ==> data.flashes == old(r.FromRequest())
    ensures r.flashes == ContextAfterCheck(Inbound(r), old(r.flashes), codec)
    ensures w.setCookies == old(w.setCookies) + CookiesWritten(Inbound(r), false, [], codec)
    ensures RenderedResponse(w, old(w.header), old(w.status), old(w.body), code,
                             execute(p.tmpl, data.flashes))
  {
    SetFlashCookie(w, r, false, [], codec);
    var flashes := r.FromRequest();
    data.SetFlashes(flashes);

    var outcome := execute(p.tmpl, data.flashes);
    if outcome.ExecFailed? {
      Error(w, InternalServerError, 500);
      return;
    }

    w.SetHeader("Content-Type", HtmlContentType);
    w.WriteHeader(code);
    w.Write(outcome.output);
  }

  /** Redirect: setFlashCookie on a redirect with the context's flashes, read
      before the check, then http.Redirect. */
  method Redirect(w: Response, r: Request, url: string, code: int, codec: Codec)
    modifies w, r
    ensures r.flashes == ContextAfterCheck(Inbound(r), old(r.flashes), codec)
    ensures w.setCookies == old(w.setCookies) + CookiesWritten(Inbound(r), true, old(r.FromRequest()), codec)
    ensures "Content-Type" !in old(w.header) && (r.verb == "GET" || r.verb == "HEAD") ==>
      w.header == old(w.header)["Location" := url]["Content-Type" := HtmlContentType]
    ensures !("Content-Type" !in old(w.header) && (r.verb == "GET" || r.verb == "HEAD")) ==>
      w.header == old(w.header)["Location" := url]
    ensures w.status == StatusAfter(old(w.status), code)
    ensures w.body == old(w.body) +
      (if "Content-Type" !in old(w.header) && r.verb == "GET" then RedirectBody(url, code) else [])
  {
    SetFlashCookie(w, r, true, r.FromRequest(), codec);
    Http.Redirect(w, r, url, code);
  }

  /** A redirect that sets flashes, followed by a request that carries the
      cookie it wrote and renders a page: with the source's statement order
      the page gets no flashes, while the cookie is deleted. */
  method RedirectThenRender(p: Page, flashes: seq<Flash>, url: string, codec: Codec,
                            execute: (Template, seq<Flash>) -> Execution)
    returns (written: seq<Cookie>, shown: seq<Flash>, cleared: seq<Cookie>)
    requires flashes != []
    ensures written == [ValueCookie(codec.encode(flashes))]
    ensures shown == []
    ensures cleared == [DeletionCookie()]
  {
    var first := new Request("POST", [], Some(flashes));
    var w1 := new Response();
    Redirect(w1, first, url, 303, codec);
    written := w1.setCookies;

    var next := new Request("GET", [InCookie(written[0].name, written[0].value)], None);
    var w2 := new Response();
    var data := new ViewData();
    RenderPage(p, w2, next, 200, data, codec, execute);
    shown := data.flashes;
    cleared := w2.setCookies;
  }

  /** The same two requests with the check done first: the page gets exactly
      the flashes of the redirect, provided the codec round-trips them. */
  method RedirectThenRenderAfterCheck(p: Page, flashes: seq<Flash>, url: string, codec: Codec,
                                      execute: (Template, seq<Flash>) -> Execution)
    returns (written: seq<Cookie>, shown: seq<Flash>, cleared: seq<Cookie>)
    requires flashes != []
    requires RoundTrips(codec, flashes)
    ensures written == [ValueCookie(codec.encode(flashes))]
    ensures shown == flashes
    ensures cleared == [DeletionCookie()]
  {
    var first := new Request("POST", [], Some(flashes));
    var w1 := new Response();
    Redirect(w1, first, url, 303, codec);
    written := w1.setCookies;

    var next := new Request("GET", [InCookie(written[0].name, written[0].value)], None);
    var w2 := new Response();
    var data := new ViewData();
    RenderPageAfterCheck(p, w2, next, 200, data, codec, execute);
    shown := data.flashes;
    cleared := w2.setCookies;
  }
}
