/** The security-header stage of the middleware chain (esox/app.go): an
    optional Security configuration, falling back to DefaultSecurity, decides
    which of three response headers are set. */
module Security {
  import opened Wrappers
  import opened Http

  /** Security. XFrameOptions is a string type in the source, so any literal
      is possible; the two named constants are the usual values. */
  datatype Security = Security(xFrameOptions: string, noSniff: bool, csp: string)

  const XFrameOptionsDeny := "DENY"
  const XFrameOptionsSameOrigin := "SAMEORIGIN"

  const DefaultSecurity := Security(XFrameOptionsDeny, true, "default-src 'self'")

  const FrameHeader := "X-Frame-Options"
  const SniffHeader := "X-Content-Type-Options"
  const CspHeader := "Content-Security-Policy"

  /** The configuration in force: App.Security when it is not nil. */
  function Effective(config: Option<Security>): (s: Security)
    ensures config.None? ==> s == DefaultSecurity
    ensures config.Some? ==> s == config.value
  {
    config.GetOr(DefaultSecurity)
  }

  /** The header writes of the stage, as a map from header name to value. */
  function SecurityWrites(config: Option<Security>): (m: map<string, string>)
    ensures m.Keys <= {FrameHeader, SniffHeader, CspHeader}
    ensures FrameHeader in m <==> Effective(config).xFrameOptions != ""
    ensures FrameHeader in m ==> m[FrameHeader] == Effective(config).xFrameOptions
    ensures SniffHeader in m <==> Effective(config).noSniff
    ensures SniffHeader in m ==> m[SniffHeader] == "nosniff"
    ensures CspHeader in m <==> Effective(config).csp != ""
    ensures CspHeader in m ==> m[CspHeader] == Effective(config).csp
  {
    var s := Effective(config);
    var frame: map<string, string> := if s.xFrameOptions != "" then map[FrameHeader := s.xFrameOptions] else map[];
    var sniff: map<string, string> := if s.noSniff then map[SniffHeader := "nosniff"] else map[];
    var csp: map<string, string> := if s.csp != "" then map[CspHeader := s.csp] else map[];
    frame + sniff + csp
  }

  /** With no configuration, all three headers are sent with the default
      values. */
  lemma DefaultSecurityHeaders()
    ensures SecurityWrites(None) ==
      map[FrameHeader := "DENY", SniffHeader := "nosniff", CspHeader := "default-src 'self'"]
  {
  }

  /** The stage's handler up to the call of next: it sets the headers in
      place and touches nothing else. */
  method ApplySecurity(w: Response, config: Option<Security>)
    modifies w
    ensures w.header == old(w.header) + SecurityWrites(config)
    ensures w.setCookies == old(w.setCookies) && w.status == old(w.status) && w.body == old(w.body)
  {
    var security := DefaultSecurity;
    if config.Some? {
      security := config.value;
    }
    ghost var h0 := w.header;
    if security.xFrameOptions != "" {
      w.SetHeader(FrameHeader, security.xFrameOptions);
    }
    if security.noSniff {
      w.SetHeader(SniffHeader, "nosniff");
    }
    if security.csp != "" {
      w.SetHeader(CspHeader, security.csp);
    }
    assert w.header == h0 + SecurityWrites(config);
  }
}
