/**
 * The `/site-content` handler: fetch a page, and fill a result object with
 * its title, description, Open Graph properties and icon, or with an error.
 *
 * The GET itself, the body's charset decoding and the HTML selectors are not
 * modelled: the handler is given what the site answered (`FetchOutcome`),
 * the attribute values the selectors would read (`Extracted`) and the
 * protocol and host the URL parser gives for the site's URL (`UrlParts`).
 */
module SiteContent {
  import opened Wrappers
  import opened Decimal
  import opened Text

  type Headers = map<string, string>

  /** Process-wide configuration: the package version and the cookie sent to one special-cased domain. */
  datatype Config = Config(version: string, instagramCookie: string)

  /** `protocol` (e.g. "https:") and `host` of the site URL, as the URL parser gives them. */
  datatype UrlParts = UrlParts(protocol: string, host: string)

  /** What the selectors read from the page; `title` is the text of `<title>`, never absent. */
  datatype Extracted = Extracted(
    title: string, description: Option<string>,
    ogSiteName: Option<string>, ogTitle: Option<string>, ogDescription: Option<string>,
    ogImage: Option<string>, ogUrl: Option<string>, iconHref: Option<string>)

  /** The response body, decoded to text and parsed, or the decoding failure's message. */
  datatype Body = Decoded(page: Extracted) | DecodeFailed(reason: string)

  /** What the GET returned: a rejected request with its message, or a response. */
  datatype FetchOutcome =
    | NetworkFailure(message: string)
    | Responded(status: nat, statusText: string, body: Body)

  const USER_AGENT_PREFIX: string := "FloobLink/"
  const COOKIE_DOMAIN: string := "instagram.com"
  const STATUS_MESSAGE_PREFIX: string := "Response status "

  /** The response object; the handler fills its fields one by one. */
  class ScrapeResult {
    var isValid: bool
    var url: string
    var headers: Option<Headers>
    var title: Option<string>
    var description: Option<string>
    var ogSiteName: Option<string>
    var ogTitle: Option<string>
    var ogDescription: Option<string>
    var ogImage: Option<string>
    var ogUrl: Option<string>
    var iconUrl: Option<string>
    var error: Option<string>

    /** None of the page's fields has been filled in. */
    predicate NothingScraped()
      reads this
    {
      title.None? && description.None? && ogSiteName.None? && ogTitle.None?
      && ogDescription.None? && ogImage.None? && ogUrl.None? && iconUrl.None?
    }

    /** `{ isValid: false, url, headers }` built from the request body. */
    constructor (url: string, headers: Option<Headers>)
      ensures !isValid && this.url == url && this.headers == headers
      ensures NothingScraped() && error.None?
    {
      isValid := false;
      this.url := url;
      this.headers := headers;
      title, description, ogSiteName, ogTitle := None, None, None, None;
      ogDescription, ogImage, ogUrl, iconUrl := None, None, None, None;
      error := None;
    }

    /** Stores what the selectors read, making a root-relative icon absolute. */
    method Fill(page: Extracted, site: UrlParts)
      modifies this
      ensures isValid == old(isValid) && url == old(url) && headers == old(headers) && error == old(error)
      ensures title == Some(page.title) && description == page.description
      ensures ogSiteName == page.ogSiteName && ogTitle == page.ogTitle
      ensures ogDescription == page.ogDescription && ogImage == page.ogImage && ogUrl == page.ogUrl
      ensures iconUrl == NormalizeIconUrl(page.iconHref, site)
    {
      title := Some(page.title);
      description := page.description;
      ogSiteName := page.ogSiteName;
      ogTitle := page.ogTitle;
      ogDescription := page.ogDescription;
      ogImage := page.ogImage;
      ogUrl := page.ogUrl;
      iconUrl := page.iconHref;
      iconUrl := NormalizeIconUrl(iconUrl, site);
    }

    /** The catch at the end of the chain: the result becomes invalid and carries the message. */
    method Fail(message: string)
      modifies this
      ensures !isValid && error == Some(message)
      ensures url == old(url) && headers == old(headers)
      ensures title == old(title) && description == old(description)
      ensures ogSiteName == old(ogSiteName) && ogTitle == old(ogTitle)
      ensures ogDescription == old(ogDescription) && ogImage == old(ogImage)
      ensures ogUrl == old(ogUrl) && iconUrl == old(iconUrl)
    {
      isValid := false;
      error := Some(message);
    }
  }

  /** An icon path relative to the site's root: it starts with one `/` but not with `//`. */
  predicate IsRootRelative(icon: Option<string>) {
    icon.Some? && StartsWith(icon.value, "/") && !StartsWith(icon.value, "//")
  }

  /**
   * Makes a root-relative icon path absolute by putting the site's protocol
   * and host in front of it; any other value, absent ones included, is kept.
   */
  function NormalizeIconUrl(icon: Option<string>, site: UrlParts): (r: Option<string>)
    ensures IsRootRelative(icon) ==> r == Some(site.protocol + "//" + site.host + icon.value)
    ensures !IsRootRelative(icon) ==> r == icon
  {
    if icon.Some? && icon.value != ""
      && icon.value[..if |icon.value| < 2 then |icon.value| else 2] != "//"
      && icon.value[0] == '/'
    then
      Some(site.protocol + "//" + site.host + icon.value)
    else
      icon
  }

  /**
   * Normalizing twice is normalizing once, provided the protocol does not
   * itself start with `/` (a parsed protocol never does).
   */
  lemma NormalizeIconUrlIdempotent(icon: Option<string>, site: UrlParts)
    requires !StartsWith(site.protocol, "/")
    ensures NormalizeIconUrl(NormalizeIconUrl(icon, site), site) == NormalizeIconUrl(icon, site)
  {
  }

  /** The three icon cases: root-relative, protocol-relative and absolute. */
  lemma NormalizeIconUrlExamples()
    ensures NormalizeIconUrl(Some("/favicon.ico"), UrlParts("http:", "example.com"))
         == Some("http://example.com/favicon.ico")
    ensures NormalizeIconUrl(Some("//cdn.example.com/icon.png"), UrlParts("http:", "example.com"))
         == Some("//cdn.example.com/icon.png")
    ensures NormalizeIconUrl(Some("https://x.com/icon.png"), UrlParts("http:", "example.com"))
         == Some("https://x.com/icon.png")
    ensures NormalizeIconUrl(None, UrlParts("http:", "example.com")) == None
  {
    assert StartsWith("/favicon.ico", "/") && "/favicon.ico"[..2] == "/f";
    assert "http:" + "//" + "example.com" + "/favicon.ico" == "http://example.com/favicon.ico";
    assert "//cdn.example.com/icon.png"[..2] == "//";
    assert "https://x.com/icon.png"[0] == 'h';
  }

  /** The message of the error thrown for a status other than 200. */
  function StatusErrorMessage(status: nat, statusText: string): (m: string)
    ensures StartsWith(m, STATUS_MESSAGE_PREFIX + NatToString(status) + " ")
    ensures EndsWith(m, statusText + ".")
  {
    var m := STATUS_MESSAGE_PREFIX + NatToString(status) + " " + statusText + ".";
    EndsWithAppended(STATUS_MESSAGE_PREFIX + NatToString(status) + " ", statusText + ".");
    AppendAssociative(STATUS_MESSAGE_PREFIX + NatToString(status) + " ", statusText, ".");
    m
  }

  /** Reads a status error message back into the status and the reason phrase. */
  function ParseStatusErrorMessage(m: string): Option<(nat, string)> {
    if !StartsWith(m, STATUS_MESSAGE_PREFIX) then None
    else
      match ReadNumberThen(m[|STATUS_MESSAGE_PREFIX|..], " ")
      case None => None
      case Some((status, rest)) =>
        if rest != [] && rest[|rest| - 1] == '.' then Some((status, rest[..|rest| - 1])) else None
  }

  /** The error message keeps both the status and the reason phrase. */
  lemma ParseStatusErrorMessageRoundTrip(status: nat, statusText: string)
    ensures ParseStatusErrorMessage(StatusErrorMessage(status, statusText)) == Some((status, statusText))
  {
    var m := StatusErrorMessage(status, statusText);
    var tail := NatToString(status) + " " + (statusText + ".");
    assert m == STATUS_MESSAGE_PREFIX + tail by {
      AppendAssociative(STATUS_MESSAGE_PREFIX + NatToString(status) + " ", statusText, ".");
      AppendAssociative(STATUS_MESSAGE_PREFIX + NatToString(status), " ", statusText + ".");
      AppendAssociative(STATUS_MESSAGE_PREFIX, NatToString(status), " " + (statusText + "."));
      AppendAssociative(NatToString(status), " ", statusText + ".");
    }
    assert StartsWith(m, STATUS_MESSAGE_PREFIX) && m[|STATUS_MESSAGE_PREFIX|..] == tail by {
      EndsWithAppended(STATUS_MESSAGE_PREFIX, tail);
      assert (STATUS_MESSAGE_PREFIX + tail)[|STATUS_MESSAGE_PREFIX|..] == tail;
    }
    assert ReadNumberThen(tail, " ") == Some((status, statusText + ".")) by {
      ReadNumberThenOfConcat(status, " ", statusText + ".");
    }
    assert (statusText + ".")[..|statusText|] == statusText;
  }

  /** The headers of the GET: the user agent, and the cookie when the URL names the special-cased domain. */
  method RequestHeaders(siteUrl: string, config: Config) returns (requestHeaders: Headers)
    ensures "user-agent" in requestHeaders && requestHeaders["user-agent"] == USER_AGENT_PREFIX + config.version
    ensures "cookie" in requestHeaders <==> Includes(siteUrl, COOKIE_DOMAIN)
    ensures "cookie" in requestHeaders ==> requestHeaders["cookie"] == config.instagramCookie
    ensures requestHeaders.Keys <= {"user-agent", "cookie"}
  {
    requestHeaders := map["user-agent" := USER_AGENT_PREFIX + config.version];
    if Includes(siteUrl, COOKIE_DOMAIN) {
      requestHeaders := requestHeaders["cookie" := config.instagramCookie];
    }
  }

  /**
   * Handles one `/site-content` request: builds the request headers, applies
   * the site's answer, and returns the result object and the headers sent.
   */
  method ScrapeSite(siteUrl: string, bodyHeaders: Option<Headers>, config: Config,
                    site: UrlParts, outcome: FetchOutcome)
    returns (result: ScrapeResult, requestHeaders: Headers)
    ensures fresh(result)
    ensures result.url == siteUrl
    // the request headers: always the user agent, the cookie only for the special-cased domain
    ensures "user-agent" in requestHeaders && requestHeaders["user-agent"] == USER_AGENT_PREFIX + config.version
    ensures "cookie" in requestHeaders <==> Includes(siteUrl, COOKIE_DOMAIN)
    ensures "cookie" in requestHeaders ==> requestHeaders["cookie"] == config.instagramCookie
    ensures requestHeaders.Keys <= {"user-agent", "cookie"}
    ensures result.headers == if Includes(siteUrl, COOKIE_DOMAIN) then Some(requestHeaders) else bodyHeaders
    // valid exactly when the status was 200 and the page was read
    ensures result.isValid <==> outcome.Responded? && outcome.status == 200 && outcome.body.Decoded?
    ensures result.isValid <==> result.error.None?
    ensures !result.isValid ==> result.NothingScraped()
    ensures outcome.NetworkFailure? ==> result.error == Some(outcome.message)
    ensures outcome.Responded? && outcome.status != 200 ==>
              result.error == Some(StatusErrorMessage(outcome.status, outcome.statusText))
    ensures outcome.Responded? && outcome.status == 200 && outcome.body.DecodeFailed? ==>
              result.error == Some(outcome.body.reason)
    ensures result.isValid ==>
              var page := outcome.body.page;
              && result.title == Some(page.title) && result.description == page.description
              && result.ogSiteName == page.ogSiteName && result.ogTitle == page.ogTitle
              && result.ogDescription == page.ogDescription && result.ogImage == page.ogImage
              && result.ogUrl == page.ogUrl
              && result.iconUrl == NormalizeIconUrl(page.iconHref, site)
  {
    result := new ScrapeResult(siteUrl, bodyHeaders);

    requestHeaders := RequestHeaders(siteUrl, config);
    if Includes(siteUrl, COOKIE_DOMAIN) {
      result.headers := Some(requestHeaders);
    }

    // the message of whatever the promise chain throws, caught at its end
    var thrown: Option<string> := None;
    match outcome {
      case NetworkFailure(message) =>
        thrown := Some(message);
      case Responded(status, statusText, body) =>
        if status == 200 {
          result.isValid := true;
          match body {
            case DecodeFailed(reason) =>
              thrown := Some(reason);
            case Decoded(page) =>
              result.Fill(page, site);
          }
        } else {
          thrown := Some(StatusErrorMessage(status, statusText));
        }
    }

    if thrown.Some? {
      result.Fail(thrown.value);
    }
  }
}
