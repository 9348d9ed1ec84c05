/**
 * Sequences of updater calls, each stated as a method that performs them:
 * a second lookup within a cache lifetime, error back-pressure across
 * requests, and what happens after an update is installed. A new PHP request
 * is a new `Updater` over the same `Host`, whose transient outlives it.
 */
module UpdaterScenarios {
  import opened Wrappers
  import opened Releases
  import opened GitHubUpdater

  /** Within one request, a second lookup makes no request and returns what the first returned. */
  method SameRequestTwice(u: Updater, now: int, later: int, http1: HttpResult, http2: HttpResult)
    returns (first: Option<Release>, second: Option<Release>)
    requires u.Valid() && u.githubResponse.None? && Live(u.host.cache, now).None?
    requires now <= later <= now + ErrorTtl
    modifies u, u.host
    ensures u.host.requests == old(u.host.requests) + [ReleaseRequest(u.host.wpVersion)]
    ensures second == first
  {
    first := u.GetRepositoryInfo(now, http1);
    second := u.GetRepositoryInfo(later, http2);
  }

  /** A later request within the lifetime of what the first one cached makes no request and sees the same answer. */
  method NextRequestWithinTtl(u: Updater, now: int, later: int, http1: HttpResult, http2: HttpResult)
    returns (first: Option<Release>, second: Option<Release>)
    requires u.Valid() && u.githubResponse.None? && Live(u.host.cache, now).None?
    requires now <= later <= now + ErrorTtl
    modifies u, u.host
    ensures u.host.requests == old(u.host.requests) + [ReleaseRequest(u.host.wpVersion)]
    ensures second == first
  {
    first := u.GetRepositoryInfo(now, http1);
    var next := new Updater(u.host, u.file, u.basename, u.installDirectory);
    second := next.GetRepositoryInfo(later, http2);
  }

  /** After a failed fetch, every request within the hour gets "unavailable" without asking the network. */
  method ErrorHoldsForAnHour(u: Updater, now: int, later: int, http1: HttpResult, http2: HttpResult)
    returns (second: Option<Release>)
    requires u.Valid() && u.githubResponse.None? && Live(u.host.cache, now).None?
    requires ValidateResponse(http1).Failure?
    requires now <= later <= now + 3600
    modifies u, u.host
    ensures u.host.cache == Some(CacheEntry(ErrorMarker, 3600, now))
    ensures u.host.requests == old(u.host.requests) + [ReleaseRequest(u.host.wpVersion)]
    ensures second.None?
  {
    var first := u.GetRepositoryInfo(now, http1);
    var next := new Updater(u.host, u.file, u.basename, u.installDirectory);
    second := next.GetRepositoryInfo(later, http2);
  }

  /** A malformed response and an empty asset list are both cached as the error marker for one hour. */
  method MalformedIsCachedAsError(u: Updater, now: int, code: int, decoded: Option<Release>)
    requires u.Valid() && u.githubResponse.None? && Live(u.host.cache, now).None?
    requires decoded.Some? ==> decoded.value.tagName.None? || decoded.value.assets == Some([])
    modifies u, u.host
    ensures code == 200 ==> u.host.cache == Some(CacheEntry(ErrorMarker, 3600, now))
    ensures u.githubResponse.None?
  {
    var info := u.GetRepositoryInfo(now, Response(code, decoded));
  }

  /**
   * After an update is installed, the next request fetches fresh data even
   * though the cached release was still live; the instance that ran the
   * install still answers from memory, as the source never clears it.
   */
  method AfterInstallRefetches(u: Updater, now: int, later: int, http1: HttpResult, http2: HttpResult, result: map<string, string>)
    returns (sameInstance: Option<Release>, nextRequest: Option<Release>)
    requires u.Valid() && u.githubResponse.None? && Live(u.host.cache, now).None?
    requires ValidateResponse(http1).Success?
    requires now <= later
    modifies u, u.host
    ensures sameInstance == Some(ValidateResponse(http1).value)
    ensures u.host.requests == old(u.host.requests) + [ReleaseRequest(u.host.wpVersion), ReleaseRequest(u.host.wpVersion)]
    ensures nextRequest == ValidateResponse(http2).ToOption()
  {
    var first := u.GetRepositoryInfo(now, http1);
    var _ := u.AfterInstall(result);
    sameInstance := u.GetRepositoryInfo(later, http1);
    var next := new Updater(u.host, u.file, u.basename, u.installDirectory);
    nextRequest := next.GetRepositoryInfo(later, http2);
  }
}
