/** The WHOIS handler's pre-flight (validation and the query pairs it hands
    to `execute_query`) and the standalone hostname / extension helpers. */
module Whois {
  import opened Prelude
  import opened Errors
  import opened RustStr

  const EmptyDomainMessage: string := "Domain cannot be empty."

  /** `Whois::lookup` up to the call of `execute_query`: either the error it
      returns first, or the parameter list that call would receive. */
  function Lookup(domain: string): (r: Result<seq<QueryParam>, Ip2LocationError>)
    ensures r.Err? <==> IsBlank(domain)
    ensures r.Err? ==> r.error == InvalidInput(EmptyDomainMessage)
    ensures r.Ok? ==> r.value == [("domain", domain)]
  {
    if Trim(domain) == [] then Err(InvalidInput(EmptyDomainMessage))
    else Ok([("domain", domain)])
  }

  /** What `Url::parse` yields that the helpers look at: `host_str()`. */
  datatype ParsedUrl = ParsedUrl(host: Option<string>)

  /** `url::ParseError`; its detail is never inspected. */
  datatype UrlParseError = UrlParseError

  /** The `Url::parse` the helpers are given. */
  type UrlParser = string -> Result<ParsedUrl, UrlParseError>

  /** The text handed to the URL parser: the input unchanged exactly when it
      starts with "http" (case-sensitively), otherwise the input behind
      "https://"; either way it starts with "http". */
  function Candidate(urlStr: string): (c: string)
    ensures StartsWith(c, "http")
    ensures c == urlStr || c == "https://" + urlStr
    ensures c == urlStr <==> StartsWith(urlStr, "http")
  {
    if StartsWith(urlStr, "http") then urlStr
    else
      assert |"https://" + urlStr| != |urlStr|;
      "https://" + urlStr
  }

  /** The parsed host with one leading "www." removed: unchanged exactly when
      it does not start with "www.", otherwise exactly those four characters
      are gone. */
  function StripWww(host: string): (r: string)
    ensures r == host <==> !StartsWith(host, "www.")
    ensures StartsWith(host, "www.") ==> "www." + r == host
  {
    var r := StripPrefixOr(host, "www.");
    assert StartsWith(host, "www.") ==> |r| == |host| - 4;
    r
  }

  /** `get_domain_name`. */
  function GetDomainName(urlStr: string, parse: UrlParser): (r: Option<string>)
    ensures r.None? <==>
      urlStr == [] || parse(Candidate(urlStr)).Err? || parse(Candidate(urlStr)).value.host.None?
    ensures r.Some? ==>
      var h := parse(Candidate(urlStr)).value.host.value;
      if StartsWith(h, "www.") then h == "www." + r.value else h == r.value
  {
    if urlStr == [] then None
    else
      match parse(Candidate(urlStr))
      case Err(_) => None
      case Ok(u) =>
        match u.host
        case None => None
        case Some(host) => Some(StripWww(host))
  }

  /** `get_domain_extension`. */
  function GetDomainExtension(urlStr: string, parse: UrlParser): (r: Option<string>)
    ensures r.Some? <==>
      GetDomainName(urlStr, parse).Some? && '.' in GetDomainName(urlStr, parse).value
    ensures r.Some? ==>
      var d := GetDomainName(urlStr, parse).value;
      0 < |r.value| <= |d| && r.value == d[|d| - |r.value|..]
      && r.value[0] == '.' && '.' !in d[..|d| - |r.value|]
  {
    match GetDomainName(urlStr, parse)
    case None => None
    case Some(domain) =>
      match Find(domain, '.')
      case None => None
      case Some(i) => Some(domain[i..])
  }

  /** The prefix test never doubles a scheme: a candidate is its own candidate. */
  lemma CandidateIdempotent(urlStr: string)
    ensures Candidate(Candidate(urlStr)) == Candidate(urlStr)
  {
  }

  /** The prefix test is case-sensitive: an upper-case scheme gets a second one. */
  lemma CandidateCaseSensitive()
    ensures Candidate("HTTPS://example.com") == "https://HTTPS://example.com"
  {
    assert "HTTPS://example.com"[..4][0] == 'H';
  }

  /** A bare hostname beginning with "http" is handed over without a scheme. */
  lemma CandidateBareHttpHost()
    ensures Candidate("httpbin.org") == "httpbin.org"
  {
    assert "httpbin.org"[..4] == "http";
  }

  /** "www." is removed only once. */
  lemma StripWwwDoubled()
    ensures StripWww("www.www.a.b") == "www.a.b"
  {
    assert "www.www.a.b"[..4] == "www.";
  }

  lemma GetDomainNameEmpty(parse: UrlParser)
    ensures GetDomainName("", parse) == None
  {
  }

  /** A bare hostname is parsed behind "https://" and returned as is. */
  lemma GetDomainNameBareHost(parse: UrlParser)
    requires parse("https://example.com") == Ok(ParsedUrl(Some("example.com")))
    ensures GetDomainName("example.com", parse) == Some("example.com")
  {
    assert "example.com"[..4][0] == 'e';
    assert Candidate("example.com") == "https://example.com";
    assert "example.com"[..4] != "www.";
  }

  /** A full URL is parsed unchanged and its "www." is removed. */
  lemma GetDomainNameFullUrl(parse: UrlParser)
    requires parse("https://www.example.com/path") == Ok(ParsedUrl(Some("www.example.com")))
    ensures GetDomainName("https://www.example.com/path", parse) == Some("example.com")
  {
    assert "https://www.example.com/path"[..4] == "http";
    assert "www.example.com"[..4] == "www.";
  }

  lemma GetDomainNameParseFailure(parse: UrlParser)
    requires parse("https://not a url ???").Err?
    ensures GetDomainName("not a url ???", parse) == None
  {
    assert "not a url ???"[..4][0] == 'n';
    assert Candidate("not a url ???") == "https://not a url ???";
  }

  lemma GetDomainNameCoUk(parse: UrlParser)
    requires parse("https://www.example.co.uk") == Ok(ParsedUrl(Some("www.example.co.uk")))
    ensures GetDomainName("https://www.example.co.uk", parse) == Some("example.co.uk")
  {
    assert "https://www.example.co.uk"[..4] == "http";
    assert "www.example.co.uk"[..4] == "www.";
  }

  lemma GetDomainExtensionExample(parse: UrlParser)
    requires parse("https://www.example.co.uk") == Ok(ParsedUrl(Some("www.example.co.uk")))
    ensures GetDomainExtension("https://www.example.co.uk", parse) == Some(".co.uk")
  {
    GetDomainNameCoUk(parse);
    var d := "example.co.uk";
    assert d[..7] == "example";
    FindFirst(d, '.', 7);
    assert d[7..] == ".co.uk";
  }

  lemma GetDomainExtensionNoDot(parse: UrlParser)
    requires parse("https://localhost") == Ok(ParsedUrl(Some("localhost")))
    ensures GetDomainExtension("localhost", parse) == None
  {
    assert "localhost"[..4][0] == 'l';
    assert Candidate("localhost") == "https://localhost";
    assert "localhost"[..4] != "www.";
    assert '.' !in "localhost";
  }
}
