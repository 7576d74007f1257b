# ip2location-io-rust: input handling before the network call

This project models the part of the ip2location.io Rust client that runs before any network call is made:

- **Endpoint pre-flight.** `IpGeolocation::lookup`, `Whois::lookup` and `HostedDomains::lookup` each reject a required argument (`ip` or `domain`) that is empty after `str::trim`, returning `Ip2LocationError::InvalidInput`. Otherwise each builds the ordered `(name, value)` list it hands to `execute_query`: one required pair, plus an optional `lang` or `page` pair when the caller gave a non-empty value.
- **Domain-name helpers.** `get_domain_name` extracts a hostname and `get_domain_extension` extracts the part of that hostname from its first `'.'` onwards.

Each handler's result is a `Result<seq<QueryParam>, Ip2LocationError>`. It holds either the error returned before the query, or the parameter list `execute_query` would receive. `Whois::lookup` builds a fixed list, so it is a function. The other two handlers push onto a local `params` vector, so they are methods that conditionally extend a local `seq`. Each method is proved against a ghost `QueryParams` function, and lemmas about that function state the list's shape.

Modules:

- `Prelude`: `Option`, `Result` and `QueryParam`.
- `Errors`: the `Ip2LocationError` enum, including `ApiError`'s `u16` status.
- `RustStr`: the `str`/`char` operations the code relies on (`char::is_whitespace`, `trim_start`, `trim_end`, `trim`, `starts_with`, `strip_prefix(..).unwrap_or(..)`, `find`).
- `Whois`, `HostedDomains`, `IpGeolocation`: one module per source file.

Modelling choices:

- `Url::parse(..)` is foreign code. It is a function-valued parameter `parse: string -> Result<ParsedUrl, UrlParseError>`, where `ParsedUrl` carries what `host_str()` yields. Every property about the helpers holds for every such parser. Claims about particular inputs (for example, `"https://www.example.co.uk"` giving `".co.uk"`) are lemmas that state, as a `requires`, the host the parser returns for that input.
- `char::is_whitespace` is the Unicode White_Space set, written out in `RustStr.IsWhitespace`. The handler contracts are stated through `IsBlank` ("every character is whitespace"). The contract of `RustStr.Trim` connects this to the `trim().is_empty()` test that the code actually performs.
- Strings are sequences of Unicode scalar values. Rust's `find` returns a byte offset and `domain[i..]` slices at that offset. Because `'.'` is a one-byte character, the suffix is the same text as the suffix from the character index used here.
- The modelled code never inspects the payloads of the error variants that wrap foreign errors (`Http`, `Url`, `Json`). They are kept as diagnostic text.

One consequence of the code is worth noting. A bare hostname that starts with `"http"`, such as `"httpbin.org"`, is given to the URL parser without a scheme (`Whois.CandidateBareHttpHost`). What then happens depends on the parser.

## Model

| member | source | states |
|---|---|---|
| RustStr.IsWhitespace | src/whois.rs:16 | the characters `char::is_whitespace` accepts, which `trim` removes: the Unicode White_Space set (no contract; the trim functions' contracts are stated against it) |
| RustStr.TrimStart | src/whois.rs:16 | the result is a suffix of the input, everything removed is whitespace, and the result is empty or starts with a non-whitespace character |
| RustStr.TrimEnd | src/whois.rs:16 | the result is a prefix of the input, everything removed is whitespace, and the result is empty or ends with a non-whitespace character |
| RustStr.Trim | src/hosteddomains.rs:13 | `trim()` is empty exactly when every character of the input is whitespace (both directions) |
| RustStr.StartsWith | src/whois.rs:55 | `starts_with` with a string pattern: the pattern is a prefix of the text, compared character by character (no contract) |
| RustStr.StripPrefixOr | src/whois.rs:63 | with the prefix present, prefix + result is the input (the prefix is removed exactly once); otherwise the input is returned unchanged |
| RustStr.Find | src/whois.rs:74 | `None` exactly when the character does not occur; `Some(i)` gives an occurrence with no earlier occurrence |
| RustStr.FindFirst | src/whois.rs:74 | any index that holds the character and has no earlier occurrence is the index `find` returns |
| Whois.Lookup | src/whois.rs:15-22 | `InvalidInput("Domain cannot be empty.")` exactly when the domain is empty or all whitespace; otherwise the params are exactly `[("domain", domain)]` with the untrimmed domain |
| Whois.Candidate | src/whois.rs:55-59 | the text given to the parser is the input unchanged exactly when the input starts with "http", and otherwise "https://" + input; either way it starts with "http" |
| Whois.CandidateIdempotent | src/whois.rs:55-59 | the scheme is never doubled: the candidate of a candidate is the candidate itself |
| Whois.CandidateCaseSensitive | src/whois.rs:55 | the prefix test is case-sensitive: "HTTPS://example.com" gets a second "https://" |
| Whois.CandidateBareHttpHost | src/whois.rs:55 | a bare host starting with "http" ("httpbin.org") is given to the parser unchanged |
| Whois.StripWww | src/whois.rs:62-64 | a host is unchanged exactly when it does not start with "www."; otherwise exactly those four characters are removed |
| Whois.StripWwwDoubled | src/whois.rs:62-64 | only one "www." is removed: "www.www.a.b" gives "www.a.b" |
| Whois.GetDomainName | src/whois.rs:50-68 | `None` exactly when the input is empty, the parser fails, or the parsed URL has no host; otherwise the parsed host is the result, or "www." + the result when the host starts with "www." |
| Whois.GetDomainNameEmpty | src/whois.rs:51-53 | the empty input gives `None` whatever the parser |
| Whois.GetDomainNameBareHost | src/whois.rs:55-64 | "example.com" is parsed as "https://example.com" and gives "example.com" |
| Whois.GetDomainNameFullUrl | src/whois.rs:55-64 | "https://www.example.com/path" is parsed unchanged and gives "example.com" |
| Whois.GetDomainNameParseFailure | src/whois.rs:61-67 | when parsing "https://not a url ???" fails, "not a url ???" gives `None` |
| Whois.GetDomainNameCoUk | src/whois.rs:55-64 | "https://www.example.co.uk" is parsed unchanged and gives "example.co.uk" |
| Whois.GetDomainExtension | src/whois.rs:73-75 | `Some` exactly when the hostname exists and contains '.'; the result is a non-empty suffix of the hostname that begins with '.', and the part before it contains no '.' |
| Whois.GetDomainExtensionExample | src/whois.rs:70-74 | "https://www.example.co.uk" gives ".co.uk" when the parser yields host "www.example.co.uk" |
| Whois.GetDomainExtensionNoDot | src/whois.rs:74 | "localhost" gives `None` |
| HostedDomains.Lookup | src/hosteddomains.rs:12-24 | `InvalidInput("IP address cannot be empty.")` exactly when `ip` is empty or all whitespace; otherwise the params are exactly the list `QueryParams(ip, page)` whose cases and shape the lemmas below state |
| HostedDomains.QueryParamsCases | src/hosteddomains.rs:17-22 | a non-empty page gives exactly `[("ip", ip), ("page", p)]`; no page or an empty page gives exactly `[("ip", ip)]` |
| HostedDomains.QueryParamsShape | src/hosteddomains.rs:17-22 | one or two pairs, `ip` first, two exactly when a non-empty page was given, and "page" only in second position |
| HostedDomains.BlankPagePassedThrough | src/hosteddomains.rs:19 | a non-empty all-whitespace page is still passed through |
| IpGeolocation.Lookup | src/ip_geolocation.rs:12-24 | `InvalidInput("IP address cannot be empty.")` exactly when `ip` is empty or all whitespace; otherwise the params are exactly the list `QueryParams(ip, lang)` whose cases and shape the lemmas below state |
| IpGeolocation.QueryParamsCases | src/ip_geolocation.rs:17-22 | a non-empty lang gives exactly `[("ip", ip), ("lang", l)]`; no lang or an empty lang gives exactly `[("ip", ip)]` |
| IpGeolocation.QueryParamsShape | src/ip_geolocation.rs:17-22 | one or two pairs, `ip` first, two exactly when a non-empty lang was given, and "lang" only in second position |
| IpGeolocation.BlankLangPassedThrough | src/ip_geolocation.rs:19 | a non-empty all-whitespace lang is still passed through |

## Left out

- `execute_query`: URL building, appending the `key` parameter and classifying the HTTP status. Its definition is not part of this model (src/common.rs holds only the endpoint constants and `Config`). The handlers' results stop at the parameter list it would receive.
- HTTP transport, async execution and JSON decoding into the records of src/models.rs. These are network I/O and serde-derived decoding, with `f64` coordinates and opaque `serde_json::Value` blocks.
- `Config` and its `HttpClient`, and the handlers' borrowed `config` field. They are used only by `execute_query`.
- `get_punycode` and `get_normaltext`. They are thin wrappers over the `idna` crate, and any property of them would be a claim about foreign code.
- `Url::parse`. Its parsing, host lowercasing and IDNA processing are foreign code, represented by the `parse` parameter.
- The `thiserror` display strings of `Ip2LocationError`. They are formatting only.
- src/lib.rs. It only re-exports modules.
