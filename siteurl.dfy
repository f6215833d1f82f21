/**
 * The two URL helpers of the protocol client: `get_rc_site_url`, which
 * turns the page URL into the `co` origin parameter, and `get_full_url`,
 * which joins an endpoint name to the API base URL.  URL parsing itself
 * (`urlparse`) is an input: the functions take its result.
 */
module SiteUrl {
  import opened Wrappers
  import opened PyStr
  import opened Errors

  /** The `port` attribute of a parsed URL: absent, a number, or invalid (it raises ValueError). */
  datatype PortField = NoPort | Port(n: nat) | BadPort

  /** The parts of `urlparse(url)` the helper reads. */
  datatype ParsedUrl = ParsedUrl(scheme: string, hostname: Option<string>, port: PortField)

  function DefaultPort(scheme: string): nat
    requires scheme == "http" || scheme == "https"
  {
    if scheme == "http" then 80 else 443
  }

  /**
   * `get_rc_site_url`: `scheme://hostname:port`, with the scheme's default
   * port when none is given.  The checks run in the source's order: hostname,
   * scheme present, scheme allowed; then reading the port may raise.
   */
  function RcSiteUrl(u: ParsedUrl): (r: Result<string, Error>)
    ensures (u.hostname.None? || u.hostname == Some("")) ==> r == Failure(SiteUrlParseError(NoHostname))
    ensures u.hostname.Some? && u.hostname.value != "" && u.scheme == [] ==> r == Failure(SiteUrlParseError(NoScheme))
    ensures u.hostname.Some? && u.hostname.value != "" && u.scheme != [] && u.scheme != "http" && u.scheme != "https"
            ==> r == Failure(SiteUrlParseError(InvalidScheme(u.scheme)))
    ensures r.Success? <==>
            u.hostname.Some? && u.hostname.value != "" && (u.scheme == "http" || u.scheme == "https") && !u.port.BadPort?
    ensures r.Success? ==> StartsWith(r.value, u.scheme + "://" + u.hostname.value + ":")
  {
    if u.hostname.None? || u.hostname.value == "" then Failure(SiteUrlParseError(NoHostname))
    else if u.scheme == [] then Failure(SiteUrlParseError(NoScheme))
    else if u.scheme != "http" && u.scheme != "https" then Failure(SiteUrlParseError(InvalidScheme(u.scheme)))
    else if u.port.BadPort? then Failure(UrlValueError(InvalidPort))
    else
      var port := if u.port.Port? then u.port.n else DefaultPort(u.scheme);
      var prefix := u.scheme + "://" + u.hostname.value + ":";
      assert (prefix + NatToDecimal(port))[..|prefix|] == prefix;
      Success(prefix + NatToDecimal(port))
  }

  /** The text after the last ':' of `s` (all of `s` when there is none). */
  function AfterLastColon(s: string): (r: string)
    ensures ':' !in r
    decreases |s|
  {
    if s == [] then []
    else if s[|s| - 1] == ':' then []
    else AfterLastColon(s[..|s| - 1]) + [s[|s| - 1]]
  }

  lemma {:induction false} AfterLastColonOf(prefix: string, digits: string)
    requires ':' !in digits
    ensures AfterLastColon(prefix + ":" + digits) == digits
    decreases |digits|
  {
    var s := prefix + ":" + digits;
    if digits == [] {
      assert s[|s| - 1] == ':';
    } else {
      var init := digits[..|digits| - 1];
      assert s[..|s| - 1] == prefix + ":" + init;
      assert ':' !in init by {
        assert forall i :: 0 <= i < |init| ==> init[i] == digits[i];
      }
      AfterLastColonOf(prefix, init);
      assert digits == init + [digits[|digits| - 1]];
    }
  }

  /**
   * The origin always ends in an explicit port: the digits after its last
   * ':' read back as the given port, or as 80 / 443 for http / https.
   */
  lemma RcSiteUrlPort(u: ParsedUrl)
    requires RcSiteUrl(u).Success?
    ensures AllDigits(AfterLastColon(RcSiteUrl(u).value))
    ensures DigitsValue(AfterLastColon(RcSiteUrl(u).value))
         == (if u.port.Port? then u.port.n else DefaultPort(u.scheme))
  {
    var port := if u.port.Port? then u.port.n else DefaultPort(u.scheme);
    var digits := NatToDecimal(port);
    assert ':' !in digits by {
      assert forall i :: 0 <= i < |digits| ==> IsAsciiDigit(digits[i]);
    }
    var prefix := u.scheme + "://" + u.hostname.value;
    assert RcSiteUrl(u).value == prefix + ":" + digits;
    AfterLastColonOf(prefix, digits);
    DecimalRoundTrip(port);
  }

  /** Example: an http page without a port gets port 80. */
  lemma RcSiteUrlExample()
    ensures RcSiteUrl(ParsedUrl("http", Some("h"), NoPort)) == Success("http://h:80")
    ensures RcSiteUrl(ParsedUrl("ftp", Some("h"), NoPort)) == Failure(SiteUrlParseError(InvalidScheme("ftp")))
    ensures RcSiteUrl(ParsedUrl("", None, NoPort)) == Failure(SiteUrlParseError(NoHostname))
  {
    var u := ParsedUrl("http", Some("h"), NoPort);
    assert DefaultPort(u.scheme) == 80;
    assert NatToDecimal(80) == "80" by {
      assert NatToDecimal(8) == "8";
    }
    assert RcSiteUrl(u) == Success("http" + "://" + "h" + ":" + "80");
    assert "http" + "://" + "h" + ":" + "80" == "http://h:80";
  }

  /** `BASE_URL` without its trailing '/'. */
  const BaseHost: string := "https://www.google.com/recaptcha/api2"

  /** `BASE_URL`: the endpoint base of the recaptcha API. */
  const BaseUrl: string := BaseHost + "/"

  /** `get_full_url`: the endpoint name, less its leading slashes, under api2/. */
  function FullUrl(url: string): (r: string)
    ensures r == BaseUrl + LStrip(url, '/')
  {
    BaseStripped();
    RStrip(BaseUrl, '/') + "/" + LStrip(url, '/')
  }

  /** Exactly one trailing '/' is removed from the base. */
  lemma BaseStripped()
    ensures RStrip(BaseUrl, '/') == BaseHost
  {
    assert BaseUrl[..|BaseUrl| - 1] == BaseHost;
    assert BaseHost[|BaseHost| - 1] == '2';
  }

  /** Leading slashes on the endpoint make no difference. */
  lemma FullUrlIgnoresLeadingSlash(url: string)
    ensures FullUrl("/" + url) == FullUrl(url)
  {
    assert ("/" + url)[1..] == url;
  }

  /** Example: "anchor" and "/reload" both land directly under api2/. */
  lemma FullUrlExample()
    ensures FullUrl("anchor") == BaseUrl + "anchor"
    ensures FullUrl("/reload") == BaseUrl + "reload"
  {
    assert LStrip("anchor", '/') == "anchor";
    assert LStrip("reload", '/') == "reload";
    assert "/reload" == "/" + "reload";
    FullUrlIgnoresLeadingSlash("reload");
  }
}
