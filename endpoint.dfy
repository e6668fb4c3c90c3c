/**
 * The absolute nodes endpoint, computed once from the configured settings
 * service base URL (`VITE_SETTING_SERVICE_API_URL`, a string or undefined).
 */
module Endpoint {
  import opened JsValues

  const NodesPath: string := "/api/v1/nodes"

  /** `s.replace(/\/+$/, "")`: every trailing `/` removed. */
  function StripTrailingSlashes(s: string): (r: string)
    ensures r <= s
    ensures r == [] || r[|r| - 1] != '/'
    ensures forall i :: |r| <= i < |s| ==> s[i] == '/'
    decreases |s|
  {
    if s != [] && s[|s| - 1] == '/' then StripTrailingSlashes(s[..|s| - 1]) else s
  }

  /** The absolute endpoint: the stripped base URL followed by the nodes path when
      a non-empty base URL is configured, the relative nodes path otherwise. */
  function AbsoluteEndpoint(configured: Option<string>): (e: string)
    ensures configured.None? || configured == Some("") ==> e == NodesPath
    ensures |e| >= |NodesPath| && e[|e| - |NodesPath|..] == NodesPath
  {
    if configured.Some? && configured.value != "" then
      StripTrailingSlashes(configured.value) + NodesPath
    else
      NodesPath
  }

  /** The endpoint is the base URL without its trailing slashes, then the nodes
      path; without a base URL it is exactly the relative nodes path. */
  lemma AbsoluteEndpointShape(configured: Option<string>)
    ensures var e := AbsoluteEndpoint(configured);
      && (configured.None? || configured == Some("") ==> e == NodesPath)
      && (configured.Some? && configured.value != "" ==>
            exists k: nat :: k <= |configured.value|
              && e == configured.value[..k] + NodesPath
              && (k == 0 || configured.value[k - 1] != '/')
              && forall i :: k <= i < |configured.value| ==> configured.value[i] == '/')
  {
    if configured.Some? && configured.value != "" {
      var u := configured.value;
      var k := |StripTrailingSlashes(u)|;
      assert StripTrailingSlashes(u) == u[..k];
    }
  }
}
