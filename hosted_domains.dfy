/** The Hosted Domains handler's pre-flight: validation of `ip` and the
    `ip` / `page` pairs it hands to `execute_query`. */
module HostedDomains {
  import opened Prelude
  import opened Errors
  import opened RustStr

  const EmptyIpMessage: string := "IP address cannot be empty."

  /** The parameter list the handler promises: `ip` first, then `page` when
      one was given and it is not the empty string. */
  ghost function QueryParams(ip: string, page: Option<string>): seq<QueryParam> {
    [("ip", ip)] + if page.Some? && page.value != [] then [("page", page.value)] else []
  }

  /** `HostedDomains::lookup` up to the call of `execute_query`: either the
      error it returns first, or the parameter list that call would receive. */
  method Lookup(ip: string, page: Option<string>) returns (r: Result<seq<QueryParam>, Ip2LocationError>)
    ensures r.Err? <==> IsBlank(ip)
    ensures r.Err? ==> r.error == InvalidInput(EmptyIpMessage)
    ensures r.Ok? ==> r.value == QueryParams(ip, page)
  {
    if Trim(ip) == [] {
      return Err(InvalidInput(EmptyIpMessage));
    }
    var params := [("ip", ip)];
    if page.Some? {
      var p := page.value;
      if p != [] {
        params := params + [("page", p)];
      }
    }
    return Ok(params);
  }

  /** With a non-empty page the list is `ip` then `page`; with no page or
      an empty one it is `ip` alone. */
  lemma QueryParamsCases(ip: string, page: Option<string>)
    ensures page.Some? && page.value != [] ==> QueryParams(ip, page) == [("ip", ip), ("page", page.value)]
    ensures page.None? || page.value == [] ==> QueryParams(ip, page) == [("ip", ip)]
  {
  }

  /** One or two pairs; `ip` (untrimmed) first; `page` at most once and only
      in second position. */
  lemma QueryParamsShape(ip: string, page: Option<string>)
    ensures var ps := QueryParams(ip, page);
      1 <= |ps| <= 2 && ps[0] == ("ip", ip)
      && (|ps| == 2 <==> page.Some? && page.value != [])
      && forall i :: 0 <= i < |ps| && ps[i].0 == "page" ==> i == 1
  {
  }

  /** Only emptiness is tested: an all-whitespace page is passed through. */
  lemma BlankPagePassedThrough(ip: string, p: string)
    requires p != [] && IsBlank(p)
    ensures QueryParams(ip, Some(p)) == [("ip", ip), ("page", p)]
  {
  }
}
