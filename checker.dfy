/** The health checker's configuration, as its constructor sets it up. The
    object is never changed after construction, so it is a value here. */
module Checker {

  /** What the checker knows: the normalised base URL, the request timeout
      in seconds, whether it inspects Kubernetes pods, and the namespace and
      application label it asks `kubectl` about. */
  datatype Checker = Checker(
    baseUrl: string,
    timeout: int,
    k8sMode: bool,
    namespace: string,
    appName: string)

  /** `url.rstrip('/')`: removes every trailing '/' and nothing else. */
  function StripTrailingSlashes(url: string): (r: string)
    ensures |r| <= |url| && r == url[..|r|]
    ensures r == [] || r[|r| - 1] != '/'
    ensures forall i :: |r| <= i < |url| ==> url[i] == '/'
    decreases |url|
  {
    if |url| > 0 && url[|url| - 1] == '/' then StripTrailingSlashes(url[..|url| - 1]) else url
  }

  /** The three properties above pin the result down: any prefix of `url`
      that does not end in '/' and leaves only '/' characters behind is the
      stripped URL. */
  lemma {:induction false} StripTrailingSlashesUnique(url: string, t: string)
    requires |t| <= |url| && t == url[..|t|]
    requires t == [] || t[|t| - 1] != '/'
    requires forall i :: |t| <= i < |url| ==> url[i] == '/'
    ensures t == StripTrailingSlashes(url)
    decreases |url|
  {
    if |t| < |url| {
      var shorter := url[..|url| - 1];
      assert t == shorter[..|t|];
      StripTrailingSlashesUnique(shorter, t);
    }
  }

  /** Normalising an already normalised URL changes nothing. */
  lemma StripTrailingSlashesIdempotent(url: string)
    ensures StripTrailingSlashes(StripTrailingSlashes(url)) == StripTrailingSlashes(url)
  {
    var r := StripTrailingSlashes(url);
    StripTrailingSlashesUnique(r, r);
  }

  /** The constructor: the base URL loses its trailing slashes; the
      namespace and application name come from the environment variables
      NAMESPACE and APP_NAME, defaulting to "default" and "wisecow". */
  function NewChecker(baseUrl: string, timeout: int, k8sMode: bool, env: map<string, string>): (c: Checker)
    ensures |c.baseUrl| <= |baseUrl| && c.baseUrl == baseUrl[..|c.baseUrl|]
    ensures c.baseUrl == [] || c.baseUrl[|c.baseUrl| - 1] != '/'
    ensures forall i :: |c.baseUrl| <= i < |baseUrl| ==> baseUrl[i] == '/'
    ensures c.timeout == timeout && c.k8sMode == k8sMode
    ensures c.namespace == if "NAMESPACE" in env then env["NAMESPACE"] else "default"
    ensures c.appName == if "APP_NAME" in env then env["APP_NAME"] else "wisecow"
  {
    Checker(
      StripTrailingSlashes(baseUrl),
      timeout,
      k8sMode,
      if "NAMESPACE" in env then env["NAMESPACE"] else "default",
      if "APP_NAME" in env then env["APP_NAME"] else "wisecow")
  }
}
