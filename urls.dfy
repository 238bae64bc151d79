/** `urllib.parse.urlunsplit` for a scheme, a host and a path with no query
    or fragment, and the `_service_url` helpers built on it. */
module Urls {
  import opened Strings

  /** `urlunsplit((scheme, netloc, path, None, None))` for a non-empty
      `netloc`: the path gets a leading `/` when it has none. */
  function UrlUnsplit(scheme: string, netloc: string, path: string): (r: string)
    requires netloc != ""
  {
    var rooted := if path != "" && path[0] != '/' then "/" + path else path;
    var url := "//" + netloc + rooted;
    if scheme != "" then scheme + ":" + url else url
  }

  /** `_service_url(profile, service, endpoint)`: the host is
      `service.domain`. */
  function ServiceUrl(protocol: string, domain: string, service: string, endpoint: string): (r: string)
  {
    UrlUnsplit(protocol, service + "." + domain, endpoint)
  }

  /** With a protocol, the URL is `protocol://service.domain`, followed by
      the endpoint, given a leading `/`, exactly when the endpoint is
      non-empty. */
  lemma ServiceUrlShape(protocol: string, domain: string, service: string, endpoint: string)
    requires protocol != ""
    ensures var base := protocol + "://" + service + "." + domain;
      var r := ServiceUrl(protocol, domain, service, endpoint);
      StartsWith(r, base)
      && (endpoint == "" <==> r == base)
      && (endpoint != "" && endpoint[0] == '/' ==> r == base + endpoint)
      && (endpoint != "" && endpoint[0] != '/' ==> r == base + "/" + endpoint)
  {
    var base := protocol + "://" + service + "." + domain;
    var host := service + "." + domain;
    assert protocol + ":" + ("//" + host) == base;
    if endpoint == "" {
      assert ServiceUrl(protocol, domain, service, endpoint) == protocol + ":" + ("//" + host + "");
      assert "//" + host + "" == "//" + host;
    } else if endpoint[0] == '/' {
      assert ServiceUrl(protocol, domain, service, endpoint) == protocol + ":" + ("//" + host + endpoint);
      assert protocol + ":" + ("//" + host + endpoint) == base + endpoint;
    } else {
      assert ServiceUrl(protocol, domain, service, endpoint) == protocol + ":" + ("//" + host + ("/" + endpoint));
      assert protocol + ":" + ("//" + host + ("/" + endpoint)) == base + "/" + endpoint;
    }
  }

  /** `_url_for_service(service)` of the command-line configuration:
      `"{protocol}://{service}.{domain}"`. */
  function UrlForService(protocol: string, domain: string, service: string): (r: string)
    ensures StartsWith(r, protocol + "://") && EndsWith(r, "." + domain)
    ensures |r| == |protocol| + 3 + |service| + 1 + |domain|
  {
    var r := protocol + "://" + service + "." + domain;
    assert r[|r| - |"." + domain|..] == "." + domain;
    r
  }

  /** With a non-empty protocol, the command-line URL and the session's
      `service_url` with an empty endpoint agree. */
  lemma UrlForServiceAgrees(protocol: string, domain: string, service: string)
    requires protocol != ""
    ensures UrlForService(protocol, domain, service) == ServiceUrl(protocol, domain, service, "")
  {
    ServiceUrlShape(protocol, domain, service, "");
  }

  /** Different services of one profile get different URLs. */
  lemma UrlForServiceInjective(protocol: string, domain: string, s1: string, s2: string)
    requires s1 != s2
    ensures UrlForService(protocol, domain, s1) != UrlForService(protocol, domain, s2)
  {
    var p := protocol + "://";
    var u1, u2 := UrlForService(protocol, domain, s1), UrlForService(protocol, domain, s2);
    if |s1| == |s2| {
      var k :| 0 <= k < |s1| && s1[k] != s2[k];
      assert u1[|p| + k] == s1[k] && u2[|p| + k] == s2[k];
    }
  }
}
