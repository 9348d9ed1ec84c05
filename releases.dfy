/**
 * The release lookup of the GitHub updater (inc/github-updater.php) as
 * values: the decoded API response, its validation, the error marker and
 * the cached entries, and the decision `get_repository_info` takes among
 * memory, cache and network.
 */
module Releases {
  import opened Wrappers
  import opened Php

  const GitHubUsername: string := "weavedigitalstudio"
  const GitHubRepo: string := "weave-starter-plugin"
  const IconSmall: string := "https://weave-hk-github.b-cdn.net/weave/icon-128x128.png"
  const IconLarge: string := "https://weave-hk-github.b-cdn.net/weave/icon-256x256.png"
  const CacheKey: string := "weave_starter_plugin_github_response"

  /** Hours a successful response is cached, and hours an error is. */
  const CacheDuration: nat := 4
  const ErrorCacheDuration: nat := 1
  const HourInSeconds: nat := 3600
  const SuccessTtl: nat := CacheDuration * HourInSeconds
  const ErrorTtl: nat := ErrorCacheDuration * HourInSeconds

  /** The endpoint for the latest release of the configured repository. */
  const RequestUri: string := "https://api.github.com/repos/" + GitHubUsername + "/" + GitHubRepo + "/releases/latest"

  /** An outbound `wp_remote_get` call: the URI and its User-Agent header. */
  datatype Request = Request(uri: string, userAgent: string)

  /** The request `get_repository_info` sends. */
  function ReleaseRequest(wpVersion: string): Request {
    Request(RequestUri, "WordPress/" + wpVersion)
  }

  /**
   * The request asks for the latest release of weavedigitalstudio/weave-starter-plugin
   * on the GitHub API, and the WordPress version can be read back from its User-Agent.
   */
  lemma ReleaseRequestTargetsRepository(wpVersion: string)
    ensures ReleaseRequest(wpVersion).uri == "https://api.github.com/repos/weavedigitalstudio/weave-starter-plugin/releases/latest"
    ensures var ua := ReleaseRequest(wpVersion).userAgent;
      |ua| == 10 + |wpVersion| && ua[..10] == "WordPress/" && ua[10..] == wpVersion
  {
    JoinLiterals("https://api.github.com/repos/", GitHubUsername, "https://api.github.com/repos/weavedigitalstudio");
    JoinLiterals("https://api.github.com/repos/weavedigitalstudio", "/", "https://api.github.com/repos/weavedigitalstudio/");
    JoinLiterals("https://api.github.com/repos/weavedigitalstudio/", GitHubRepo,
                 "https://api.github.com/repos/weavedigitalstudio/weave-starter-plugin");
    JoinLiterals("https://api.github.com/repos/weavedigitalstudio/weave-starter-plugin", "/releases/latest",
                 "https://api.github.com/repos/weavedigitalstudio/weave-starter-plugin/releases/latest");
  }

  /** `z` is `x + y` when it starts with `x` and continues with `y`. */
  lemma JoinLiterals(x: string, y: string, z: string)
    requires |z| == |x| + |y| && z[..|x|] == x && z[|x|..] == y
    ensures x + y == z
  {
    assert z == z[..|x|] + z[|x|..];
  }

  /** A release asset; `None` stands for a missing or null property. */
  datatype Asset = Asset(browserDownloadUrl: Option<string>)

  /** The decoded release object, with the properties the plugin reads. */
  datatype Release = Release(
    tagName: Option<string>,
    assets: Option<seq<Asset>>,
    publishedAt: Option<string>,
    body: Option<string>,
    zipballUrl: Option<string>)

  /**
   * What `wp_remote_get` produced: a transport error, or a response with its
   * status code and the result of `json_decode` on its body (`None` when that
   * is not an object).
   */
  datatype HttpResult = TransportError(message: string) | Response(code: int, decoded: Option<Release>)

  /** The four failure paths, in the order the source tests them. */
  datatype Failure = TransportFailed(message: string) | BadStatus(code: int) | MissingTagOrAssets | NoDownloadUrl

  /** The message handed to `debug_log` on each failure path. */
  function FailureMessage(f: Failure): string {
    match f
    case TransportFailed(m) => "GitHub API error: " + m
    case BadStatus(code) => "GitHub API returned HTTP " + IntToString(code)
    case MissingTagOrAssets => "GitHub API response missing tag_name or assets."
    case NoDownloadUrl => "No download URL found in release assets."
  }

  /** `$body->assets[0]->browser_download_url ?? ''`. */
  function FirstAssetUrl(assets: seq<Asset>): string
    requires assets != []
  {
    assets[0].browserDownloadUrl.GetOr("")
  }

  /** A release the updater accepts: it has a tag, assets, and a non-empty download URL taken from the first asset. */
  predicate WellFormed(r: Release) {
    && r.tagName.Some?
    && r.assets.Some? && r.assets.value != []
    && r.zipballUrl == Some(FirstAssetUrl(r.assets.value))
    && !EmptyString(r.zipballUrl.value)
  }

  /** The checks of `get_repository_info` on a fresh response, with `zipball_url` overwritten on success. */
  function ValidateResponse(http: HttpResult): (r: Result<Release, Failure>)
    ensures r.Success? ==> WellFormed(r.value)
  {
    match http
    case TransportError(m) => Failure(TransportFailed(m))
    case Response(code, decoded) =>
      if code != 200 then Failure(BadStatus(code))
      else if decoded.None? || decoded.value.tagName.None? || decoded.value.assets.None? || decoded.value.assets.value == [] then
        Failure(MissingTagOrAssets)
      else
        var body := decoded.value.(zipballUrl := Some(FirstAssetUrl(decoded.value.assets.value)));
        if EmptyString(body.zipballUrl.value) then Failure(NoDownloadUrl) else Success(body)
  }

  /** A fresh response is rejected iff one of the source's five conditions holds. */
  lemma {:induction false} ValidateRejectsExactly(http: HttpResult)
    ensures ValidateResponse(http).Failure? <==>
      || http.TransportError?
      || http.code != 200
      || http.decoded.None?
      || http.decoded.value.tagName.None?
      || http.decoded.value.assets.None?
      || http.decoded.value.assets.value == []
      || EmptyString(FirstAssetUrl(http.decoded.value.assets.value))
    ensures ValidateResponse(http).Failure? && http.TransportError? ==> ValidateResponse(http).error == TransportFailed(http.message)
    ensures ValidateResponse(http).Failure? && http.Response? && http.code != 200 ==> ValidateResponse(http).error == BadStatus(http.code)
  {
  }

  /** An accepted release is the decoded body with `zipball_url` set to the first asset's download URL. */
  lemma {:induction false} AcceptedReleaseUsesFirstAsset(http: HttpResult)
    requires ValidateResponse(http).Success?
    ensures http.Response? && http.code == 200 && http.decoded.Some?
    ensures var d := http.decoded.value;
      d.assets.Some? && d.assets.value != []
      && ValidateResponse(http).value == d.(zipballUrl := Some(FirstAssetUrl(d.assets.value)))
  {
  }

  /** A value stored under the cache key: the error marker `['status' => 'error']` or a release body. */
  datatype Cached = ErrorMarker | Body(release: Release)

  /** The transient: what was stored, for how many seconds, and when. */
  datatype CacheEntry = CacheEntry(value: Cached, ttl: nat, storedAt: int)

  /** `get_transient` at time `now`: the stored value while it has not expired, else nothing. */
  function Live(entry: Option<CacheEntry>, now: int): (v: Option<Cached>)
    ensures v.Some? <==> entry.Some? && now <= entry.value.storedAt + entry.value.ttl
    ensures v.Some? ==> v.value == entry.value.value
  {
    if entry.Some? && now <= entry.value.storedAt + entry.value.ttl then Some(entry.value.value) else None
  }

  /** A `set_transient` call: the value and its lifetime in seconds. */
  datatype Write = Write(value: Cached, ttl: nat)

  /** What one `get_repository_info` call does. */
  datatype Fetch = Fetch(
    info: Option<Release>,     // the returned release, `None` for false
    memory: Option<Release>,   // `$github_response` afterwards
    write: Option<Write>,      // the `set_transient` call, if any
    requested: bool,           // whether the network was asked
    failure: Option<Failure>)  // the failure path taken, if any

  /** `get_repository_info` given the in-memory copy, the live cache value and the response the network would give. */
  function Resolve(memory: Option<Release>, cached: Option<Cached>, http: HttpResult): (f: Fetch)
    ensures f.requested <==> memory.None? && cached.None?
    ensures f.info == f.memory || f.info.None?
    ensures f.write.Some? ==> f.requested
  {
    if memory.Some? then Fetch(memory, memory, None, false, None)
    else if cached.Some? then
      match cached.value
      case ErrorMarker => Fetch(None, None, None, false, None)
      case Body(r) => Fetch(Some(r), Some(r), None, false, None)
    else
      match ValidateResponse(http)
      case Failure(e) => Fetch(None, None, Some(Write(ErrorMarker, ErrorTtl)), true, Some(e))
      case Success(r) => Fetch(Some(r), Some(r), Some(Write(Body(r), SuccessTtl)), true, None)
  }

  /** The in-memory copy is returned with no cache read, no write and no request. */
  lemma MemoryComesFirst(memory: Option<Release>, cached: Option<Cached>, http: HttpResult)
    requires memory.Some?
    ensures Resolve(memory, cached, http) == Fetch(memory, memory, None, false, None)
  {
  }

  /** A cached error marker means "unavailable": no request, and memory stays empty. */
  lemma CachedErrorIsUnavailable(cached: Option<Cached>, http: HttpResult)
    requires cached == Some(ErrorMarker)
    ensures var f := Resolve(None, cached, http);
      f.info.None? && f.memory.None? && !f.requested && f.write.None?
  {
  }

  /** A cached release is returned and kept in memory, with no request. */
  lemma CachedBodyIsServed(r: Release, http: HttpResult)
    ensures Resolve(None, Some(Body(r)), http) == Fetch(Some(r), Some(r), None, false, None)
  {
  }

  /**
   * On a cold cache every failure writes exactly the error marker for one
   * hour, returns false and leaves memory empty; a success writes the
   * release for four hours, keeps it in memory and returns it.
   */
  lemma {:induction false} ColdCacheOutcome(http: HttpResult)
    ensures var f := Resolve(None, None, http);
      match ValidateResponse(http)
      case Failure(e) =>
        f.write == Some(Write(ErrorMarker, 3600)) && f.info.None? && f.memory.None? && f.failure == Some(e)
      case Success(r) =>
        f.write == Some(Write(Body(r), 14400)) && f.info == Some(r) && f.memory == Some(r) && f.failure.None?
  {
  }

  /** Whatever `get_repository_info` returns or keeps in memory is a well-formed release. */
  lemma {:induction false} ResolvedIsWellFormed(memory: Option<Release>, cached: Option<Cached>, http: HttpResult)
    requires memory.Some? ==> WellFormed(memory.value)
    requires cached.Some? && cached.value.Body? ==> WellFormed(cached.value.release)
    ensures var f := Resolve(memory, cached, http);
      (f.info.Some? ==> WellFormed(f.info.value))
      && (f.memory.Some? ==> WellFormed(f.memory.value))
      && (f.write.Some? && f.write.value.value.Body? ==> WellFormed(f.write.value.value.release))
  {
  }

  /**
   * Idempotence within the TTL: after a cold fetch at time `t`, a later
   * lookup up to the end of the written entry's lifetime makes no request and
   * gives the same answer, whether it runs in the same process (memory kept)
   * or a new one (memory empty).
   */
  lemma {:induction false} RepeatWithinTtlMakesNoRequest(http1: HttpResult, http2: HttpResult, t: int, t2: int, sameProcess: bool)
    requires Resolve(None, None, http1).write.Some?
    requires t <= t2 <= t + Resolve(None, None, http1).write.value.ttl
    ensures var f1 := Resolve(None, None, http1);
      var entry := Some(CacheEntry(f1.write.value.value, f1.write.value.ttl, t));
      var f2 := Resolve(if sameProcess then f1.memory else None, Live(entry, t2), http2);
      !f2.requested && f2.info == f1.info
  {
  }

  /** Error back-pressure: within an hour of a failed fetch, a new process makes no request and gets "unavailable". */
  lemma {:induction false} ErrorBackpressure(http1: HttpResult, http2: HttpResult, t: int, t2: int)
    requires ValidateResponse(http1).Failure?
    requires t <= t2 <= t + 3600
    ensures var entry := Some(CacheEntry(ErrorMarker, ErrorTtl, t));
      var f2 := Resolve(None, Live(entry, t2), http2);
      !f2.requested && f2.info.None?
  {
  }

  /** Once the written entry has expired, a new process asks the network again. */
  lemma {:induction false} ExpiredEntryIsRefetched(c: Cached, ttl: nat, t: int, t2: int, http: HttpResult)
    requires t2 > t + ttl
    ensures Resolve(None, Live(Some(CacheEntry(c, ttl, t)), t2), http).requested
  {
  }
}
