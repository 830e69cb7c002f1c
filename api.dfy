/** The request helpers of src/utils/api.js: joining a path onto the configured
    API base, and adding the default credentials mode to fetch options. */
module Api {
  import opened Outcomes
  import Text

  /** A JavaScript value placed in fetch options: a string, or any other value
      the model treats as opaque. */
  datatype JsValue = JsString(s: string) | JsOpaque(tag: nat)

  /** A fetch options object, property name to value. */
  type FetchOptions = map<string, JsValue>

  /** What is handed to `fetch`. */
  datatype Request = Request(url: string, options: FetchOptions)

  /** `process.env.REACT_APP_API_BASE || ""`: an unset or empty variable gives "". */
  function ApiBase(env: Option<string>): (base: string)
    ensures env.None? ==> base == ""
    ensures env.Some? ==> base == env.value
  {
    match env
    case None => ""
    case Some(s) => s
  }

  /** `/^https?:\/\//i.test(path)`: the path starts with "http://" or
      "https://", the letters in any case. */
  predicate IsAbsoluteHttpUrl(path: string)
  {
    Text.StartsWithIgnoringCase(path, "http://") || Text.StartsWithIgnoringCase(path, "https://")
  }

  /** `apiUrl(path)`; `path` is None for undefined or null. */
  function ApiUrl(base: string, path: Option<string>): string
  {
    if path.None? || path.value == "" then base
    else if IsAbsoluteHttpUrl(path.value) then path.value
    else base + path.value
  }

  /** An empty or absent path yields the base unchanged. */
  lemma ApiUrlOfEmptyPath(base: string, path: Option<string>)
    requires path == None || path == Some("")
    ensures ApiUrl(base, path) == base
  {
  }

  /** A non-empty path is always the tail of the URL, and what precedes it is
      the base for a relative path and nothing for an absolute one. */
  lemma ApiUrlOfPath(base: string, path: string)
    requires path != ""
    ensures ApiUrl(base, Some(path)) == (if IsAbsoluteHttpUrl(path) then "" else base) + path
    ensures ApiUrl(base, Some(path))[|ApiUrl(base, Some(path))| - |path|..] == path
  {
  }

  /** With no base configured, every non-empty path is its own URL. */
  lemma ApiUrlWithoutBase(path: string)
    requires path != ""
    ensures ApiUrl(ApiBase(None), Some(path)) == path
  {
  }

  /** The scheme test looks only at the first characters, so appending to an
      absolute URL keeps it absolute. */
  lemma AbsoluteUrlExtends(url: string, tail: string)
    requires IsAbsoluteHttpUrl(url)
    ensures IsAbsoluteHttpUrl(url + tail)
  {
    assert forall i :: 0 <= i < |url| ==> (url + tail)[i] == url[i];
  }

  /** With an absolute base, every result is absolute, so joining again
      changes nothing. */
  lemma ApiUrlIdempotentOnAbsoluteBase(base: string, path: Option<string>)
    requires IsAbsoluteHttpUrl(base)
    ensures IsAbsoluteHttpUrl(ApiUrl(base, path))
    ensures ApiUrl(base, Some(ApiUrl(base, path))) == ApiUrl(base, path)
  {
    if path.Some? && path.value != "" && !IsAbsoluteHttpUrl(path.value) {
      AbsoluteUrlExtends(base, path.value);
    }
  }

  /** The scheme test ignores letter case. */
  lemma SchemeTestIgnoresCase()
    ensures IsAbsoluteHttpUrl("HTTPS://x")
    ensures IsAbsoluteHttpUrl("Http://x")
    ensures !IsAbsoluteHttpUrl("/api/accounts")
    ensures !IsAbsoluteHttpUrl("ftp://x")
  {
    assert Text.LowerAscii("/api/accounts"[0]) != 'h';
    assert Text.LowerAscii("ftp://x"[0]) != 'h';
  }

  /** The credentials mode every request gets unless the caller sets one. */
  const DefaultOptions: FetchOptions := map["credentials" := JsString("include")]

  /** `apiFetch(path, options)`: the request it hands to fetch. An omitted
      `options` argument is the empty map. */
  function ApiFetch(base: string, path: Option<string>, options: FetchOptions): Request
  {
    Request(ApiUrl(base, path), DefaultOptions + options)
  }

  /** apiFetch requests exactly apiUrl(path); its options are the caller's,
      plus credentials "include" when the caller did not give credentials. */
  lemma ApiFetchRequest(base: string, path: Option<string>, options: FetchOptions)
    ensures ApiFetch(base, path, options).url == ApiUrl(base, path)
    ensures ApiFetch(base, path, options).options.Keys == options.Keys + {"credentials"}
    ensures forall k :: k in options ==> ApiFetch(base, path, options).options[k] == options[k]
    ensures "credentials" !in options ==> ApiFetch(base, path, options).options["credentials"] == JsString("include")
  {
  }
}
