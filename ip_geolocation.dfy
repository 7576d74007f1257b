/** The IP Geolocation handler's pre-flight: validation of `ip` and the
    `ip` / `lang` pairs it hands to `execute_query`. */
module IpGeolocation {
  import opened Prelude
  import opened Errors
  import opened RustStr

  const EmptyIpMessage: string := "IP address cannot be empty."

  /** The parameter list the handler promises: `ip` first, then `lang` when
      a language was given and it is not the empty string. */
  ghost function QueryParams(ip: string, lang: Option<string>): seq<QueryParam> {
    [("ip", ip)] + if lang.Some? && lang.value != [] then [("lang", lang.value)] else []
  }

  /** `IpGeolocation::lookup` up to the call of `execute_query`: either the
      error it returns first, or the parameter list that call would receive. */
  method Lookup(ip: string, lang: Option<string>) returns (r: Result<seq<QueryParam>, Ip2LocationError>)
    ensures r.Err? <==> IsBlank(ip)
    ensures r.Err? ==> r.error == InvalidInput(EmptyIpMessage)
    ensures r.Ok? ==> r.value == QueryParams(ip, lang)
  {
    if Trim(ip) == [] {
      return Err(InvalidInput(EmptyIpMessage));
    }
    var params := [("ip", ip)];
    if lang.Some? {
      var l := lang.value;
      if l != [] {
        params := params + [("lang", l)];
      }
    }
    return Ok(params);
  }

  /** With a non-empty language the list is `ip` then `lang`; with none or
      an empty one it is `ip` alone. */
  lemma QueryParamsCases(ip: string, lang: Option<string>)
    ensures lang.Some? && lang.value != [] ==> QueryParams(ip, lang) == [("ip", ip), ("lang", lang.value)]
    ensures lang.None? || lang.value == [] ==> QueryParams(ip, lang) == [("ip", ip)]
  {
  }

  /** One or two pairs; `ip` (untrimmed) first; `lang` at most once and only
      in second position. */
  lemma QueryParamsShape(ip: string, lang: Option<string>)
    ensures var ps := QueryParams(ip, lang);
      1 <= |ps| <= 2 && ps[0] == ("ip", ip)
      && (|ps| == 2 <==> lang.Some? && lang.value != [])
      && forall i :: 0 <= i < |ps| && ps[i].0 == "lang" ==> i == 1
  {
  }

  /** Only emptiness is tested: an all-whitespace language is passed through. */
  lemma BlankLangPassedThrough(ip: string, l: string)
    requires l != [] && IsBlank(l)
    ensures QueryParams(ip, Some(l)) == [("ip", ip), ("lang", l)]
  {
  }
}
