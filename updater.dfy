/**
 * The `Weave_Starter_Plugin_Updater` class of inc/github-updater.php and the
 * parts of WordPress it talks to. `Host` stands for those parts: the
 * transient under the cache key, the outbound requests made, the lines
 * written to the error log and the filesystem moves. `Updater` holds the
 * class's own state, the lazily loaded plugin header and the in-memory
 * release, and its methods follow the source's branches.
 */
module GitHubUpdater {
  import opened Wrappers
  import opened Php
  import opened Versions
  import opened Releases
  import Hooks

  /** WordPress as the updater sees it within one request. */
  class Host {
    /** The transient stored under the cache key, if any. */
    var cache: Option<CacheEntry>
    /** Every `wp_remote_get` call, in order. */
    var requests: seq<Request>
    /** Every line handed to `error_log`, in order. */
    var log: seq<string>
    /** Every `$wp_filesystem->move($from, $to)` call (`None` for a missing source). */
    var moves: seq<(Option<string>, string)>
    /** `get_bloginfo('version')`. */
    const wpVersion: string
    /** The `WP_DEBUG` constant, `None` when it is not defined. */
    const wpDebug: Option<Value>
    /** The saved plugin settings option. */
    const settings: map<string, Value>

    constructor (wpVersion: string, wpDebug: Option<Value>, settings: map<string, Value>, cache: Option<CacheEntry>)
      ensures this.cache == cache && requests == [] && log == [] && moves == []
      ensures this.wpVersion == wpVersion && this.wpDebug == wpDebug && this.settings == settings
    {
      this.cache := cache;
      requests := [];
      log := [];
      moves := [];
      this.wpVersion := wpVersion;
      this.wpDebug := wpDebug;
      this.settings := settings;
    }

    /** The lines `debug_log($message)` writes under this host's configuration. */
    function LogLines(message: string): seq<string>
      reads this
    {
      match Hooks.DebugLog(wpDebug, settings, message)
      case Some(line) => [line]
      case None => []
    }

    /** `get_transient`: an expired entry is deleted and reads as false. */
    method GetTransient(now: int) returns (v: Option<Cached>)
      modifies this
      ensures v == Live(old(cache), now)
      ensures cache == if v.Some? then old(cache) else None
      ensures requests == old(requests) && log == old(log) && moves == old(moves)
    {
      v := Live(cache, now);
      if v.None? {
        cache := None;
      }
    }

    /** `set_transient` with a lifetime in seconds. */
    method SetTransient(value: Cached, ttl: nat, now: int)
      modifies this
      ensures cache == Some(CacheEntry(value, ttl, now))
      ensures requests == old(requests) && log == old(log) && moves == old(moves)
    {
      cache := Some(CacheEntry(value, ttl, now));
    }

    /** `delete_transient`. */
    method DeleteTransient()
      modifies this
      ensures cache == None
      ensures requests == old(requests) && log == old(log) && moves == old(moves)
    {
      cache := None;
    }

    /** `wp_remote_get`: the request is recorded; its result is the caller's `http` parameter. */
    method RemoteGet(request: Request)
      modifies this
      ensures requests == old(requests) + [request]
      ensures cache == old(cache) && log == old(log) && moves == old(moves)
    {
      requests := requests + [request];
    }

    /** `debug_log`. */
    method DebugLog(message: string)
      modifies this
      ensures log == old(log) + LogLines(message)
      ensures cache == old(cache) && requests == old(requests) && moves == old(moves)
    {
      var line := Hooks.DebugLog(wpDebug, settings, message);
      if line.Some? {
        log := log + [line.value];
      }
    }

    /** `$wp_filesystem->move`; its result is not modelled because the updater ignores it. */
    method Move(from: Option<string>, to: string)
      modifies this
      ensures moves == old(moves) + [(from, to)]
      ensures cache == old(cache) && requests == old(requests) && log == old(log)
    {
      moves := moves + [(from, to)];
    }
  }

  /** An entry of the `update_plugins` transient's `response` or `no_update` list. */
  datatype UpdateEntry = UpdateEntry(
    slug: string,
    plugin: string,
    newVersion: string,
    tested: string,
    package: string,
    icon1x: string,
    icon2x: string)

  /** `$plugin_entry` of `check_update`. */
  function PluginEntry(basename: string, latest: string, wpVersion: string, package: string): UpdateEntry {
    UpdateEntry(Dirname(basename), basename, latest, wpVersion, package, IconSmall, IconLarge)
  }

  /** The `response` and `no_update` lists after a decided check. */
  datatype UpdateLists = UpdateLists(response: map<string, UpdateEntry>, noUpdate: map<string, UpdateEntry>)

  /**
   * The decision of `check_update` once a release and a current version are
   * known: offer the update when the normalised tag is greater than the
   * normalised current version, otherwise withdraw any offer and record a
   * `no_update` entry without a package unless one is already there.
   */
  function ApplyCheck(lists: UpdateLists, basename: string, current: string, release: Release, wpVersion: string): UpdateLists
    requires release.tagName.Some? && release.zipballUrl.Some?
  {
    var latest := NormalizeVersion(release.tagName.value);
    var entry := PluginEntry(basename, latest, wpVersion, release.zipballUrl.value);
    if VersionGreater(latest, NormalizeVersion(current)) then
      lists.(response := lists.response[basename := entry])
    else
      UpdateLists(lists.response - {basename},
                  if basename in lists.noUpdate then lists.noUpdate else lists.noUpdate[basename := entry.(package := "")])
  }

  /** An update is offered iff the normalised tag is greater, with the normalised tag and the release's package. */
  lemma {:induction false} UpdateOfferedIffNewer(lists: UpdateLists, basename: string, current: string, release: Release, wpVersion: string)
    requires release.tagName.Some? && release.zipballUrl.Some?
    ensures var r := ApplyCheck(lists, basename, current, release, wpVersion);
      var latest := NormalizeVersion(release.tagName.value);
      && (basename in r.response <==> VersionGreater(latest, NormalizeVersion(current)))
      && (basename in r.response ==> r.response[basename].newVersion == latest && r.response[basename].package == release.zipballUrl.value)
      && (forall k :: k != basename ==> (k in r.response <==> k in lists.response))
      && (forall k :: k != basename && k in lists.response ==> r.response[k] == lists.response[k])
      && (VersionGreater(latest, NormalizeVersion(current)) ==> r.noUpdate == lists.noUpdate)
  {
    var r := ApplyCheck(lists, basename, current, release, wpVersion);
    var latest := NormalizeVersion(release.tagName.value);
    var entry := PluginEntry(basename, latest, wpVersion, release.zipballUrl.value);
    if VersionGreater(latest, NormalizeVersion(current)) {
      assert r.response == lists.response[basename := entry];
    } else {
      assert r.response == lists.response - {basename};
    }
  }

  /** With no update, an existing `no_update` entry is kept; otherwise a new one has an empty package. */
  lemma {:induction false} NoUpdateEntryRules(lists: UpdateLists, basename: string, current: string, release: Release, wpVersion: string)
    requires release.tagName.Some? && release.zipballUrl.Some?
    requires !VersionGreater(NormalizeVersion(release.tagName.value), NormalizeVersion(current))
    ensures var r := ApplyCheck(lists, basename, current, release, wpVersion);
      && basename in r.noUpdate
      && (basename in lists.noUpdate ==> r.noUpdate == lists.noUpdate)
      && (basename !in lists.noUpdate ==>
            r.noUpdate[basename].package == "" && r.noUpdate[basename].newVersion == NormalizeVersion(release.tagName.value))
      && (forall k :: k != basename ==> (k in r.noUpdate <==> k in lists.noUpdate))
      && (forall k :: k != basename && k in lists.noUpdate ==> r.noUpdate[k] == lists.noUpdate[k])
  {
    var r := ApplyCheck(lists, basename, current, release, wpVersion);
    assert r.noUpdate == if basename in lists.noUpdate then lists.noUpdate
      else lists.noUpdate[basename := PluginEntry(basename, NormalizeVersion(release.tagName.value), wpVersion, release.zipballUrl.value).(package := "")];
  }

  /** Installed 1.2.3 and tag v1.3.0 offer 1.3.0; installed 2.0.0 and tag v1.9.9 offer nothing. */
  lemma {:induction false} CheckExamples(lists: UpdateLists, basename: string, release: Release, wpVersion: string)
    requires release.zipballUrl.Some?
    ensures release.tagName == Some("v1.3.0") ==>
      var r := ApplyCheck(lists, basename, "1.2.3", release, wpVersion);
      basename in r.response && r.response[basename].newVersion == "1.3.0"
    ensures release.tagName == Some("v1.9.9") ==>
      basename !in ApplyCheck(lists, basename, "2.0.0", release, wpVersion).response
  {
    NormalizeExample();
    NewerMinorIsGreater();
    OlderMajorIsNotGreater();
    NormalizeKeepsUnprefixed("1.2.3");
    NormalizeKeepsUnprefixed("2.0.0");
    assert NormalizeVersion("v1.9.9") == "1.9.9" by {
      assert "v1.9.9"[1..] == "1.9.9";
    }
  }

  /** The details shown in the "View details" modal. */
  datatype Details = Details(
    name: string,
    slug: string,
    version: string,
    author: string,
    homepage: string,
    tested: string,
    requiresWp: string,
    requiresPhp: string,
    lastUpdated: string,
    downloadLink: string,
    description: string,
    changelog: string,
    icon1x: string,
    icon2x: string)

  /** `$plugin_data[$key] ?? $default`. */
  function HeaderOr(data: map<string, string>, key: string, default: string): string {
    if key in data then data[key] else default
  }

  /** The `$info` object `plugin_info` builds. */
  function MakeDetails(data: map<string, string>, basename: string, release: Release, wpVersion: string): (d: Details)
    requires release.tagName.Some? && release.zipballUrl.Some?
    ensures d.version == NormalizeVersion(release.tagName.value) && d.downloadLink == release.zipballUrl.value
    ensures d.changelog == release.body.GetOr("") && d.lastUpdated == release.publishedAt.GetOr("")
    ensures d.slug == Dirname(basename) && d.tested == wpVersion
    ensures "Name" !in data ==> d.name == "Weave Starter Plugin"
  {
    Details(
      HeaderOr(data, "Name", "Weave Starter Plugin"),
      Dirname(basename),
      NormalizeVersion(release.tagName.value),
      HeaderOr(data, "AuthorName", "Weave Digital Studio"),
      HeaderOr(data, "PluginURI", ""),
      wpVersion,
      HeaderOr(data, "RequiresWP", "6.6"),
      HeaderOr(data, "RequiresPHP", "8.1"),
      release.publishedAt.GetOr(""),
      release.zipballUrl.value,
      HeaderOr(data, "Description", ""),
      release.body.GetOr(""),
      IconSmall,
      IconLarge)
  }

  /** What the `plugins_api` filter returns: the incoming `$res`, or the details. */
  datatype InfoResult<R> = PassThrough(res: R) | Provided(info: Details)

  /** `$plugin` after `get_plugin_data`: loaded on first use when WordPress's reader is available. */
  function LoadedPlugin(plugin: Option<map<string, string>>, readerExists: bool, header: map<string, string>): Option<map<string, string>> {
    if plugin.None? && readerExists then Some(header) else plugin
  }

  /** The `update_plugins` transient object. */
  class UpdateTransient {
    var checked: map<string, string>
    var response: map<string, UpdateEntry>
    var noUpdate: map<string, UpdateEntry>

    constructor (checked: map<string, string>, response: map<string, UpdateEntry>, noUpdate: map<string, UpdateEntry>)
      ensures this.checked == checked && this.response == response && this.noUpdate == noUpdate
    {
      this.checked := checked;
      this.response := response;
      this.noUpdate := noUpdate;
    }

    function Lists(): UpdateLists
      reads this
    {
      UpdateLists(response, noUpdate)
    }
  }

  class Updater {
    const host: Host
    /** The main plugin file. */
    const file: string
    /** `plugin_basename($file)`, e.g. "weave-starter-plugin/weave-starter-plugin.php". */
    const basename: string
    /** `plugin_dir_path($file)`. */
    const installDirectory: string
    /** `$plugin`: the plugin header data, `None` until loaded. */
    var plugin: Option<map<string, string>>
    /** `$github_response`: the release kept for the rest of the request. */
    var githubResponse: Option<Release>

    /** Every release the updater keeps or finds cached passed validation (nothing else writes the cache key). */
    ghost predicate Valid()
      reads this, host
    {
      && (githubResponse.Some? ==> WellFormed(githubResponse.value))
      && (host.cache.Some? && host.cache.value.value.Body? ==> WellFormed(host.cache.value.value.release))
    }

    /** The private constructor; hook registration is not modelled. */
    constructor (host: Host, file: string, basename: string, installDirectory: string)
      requires host.cache.Some? && host.cache.value.value.Body? ==> WellFormed(host.cache.value.value.release)
      ensures Valid()
      ensures this.host == host && this.file == file && this.basename == basename && this.installDirectory == installDirectory
      ensures plugin.None? && githubResponse.None?
    {
      this.host := host;
      this.file := file;
      this.basename := basename;
      this.installDirectory := installDirectory;
      plugin := None;
      githubResponse := None;
    }

    /** What a `get_repository_info` call at `now` would do, given the response the network would give. */
    function Outcome(now: int, http: HttpResult): Fetch
      reads this, host
    {
      Resolve(githubResponse, Live(host.cache, now), http)
    }

    /** The transient after a lookup that began with `memory` and `cache`. */
    static function CacheAfter(memory: Option<Release>, cache: Option<CacheEntry>, now: int, write: Option<Write>): Option<CacheEntry> {
      if memory.Some? then cache
      else if write.Some? then Some(CacheEntry(write.value.value, write.value.ttl, now))
      else if Live(cache, now).Some? then cache
      else None
    }

    /** The state change of one `get_repository_info` call at `now`. */
    twostate predicate Fetched(now: int, http: HttpResult)
      reads this, host
    {
      var f := old(Outcome(now, http));
      && githubResponse == f.memory
      && host.cache == CacheAfter(old(githubResponse), old(host.cache), now, f.write)
      && host.requests == old(host.requests) + (if f.requested then [ReleaseRequest(host.wpVersion)] else [])
      && host.log == old(host.log) + (if f.failure.Some? then host.LogLines(FailureMessage(f.failure.value)) else [])
      && host.moves == old(host.moves)
    }

    /** `get_plugin_data`, with `readerExists` for `function_exists('get_plugin_data')`. */
    method GetPluginData(readerExists: bool, reader: string -> map<string, string>) returns (data: map<string, string>)
      modifies this
      ensures plugin == LoadedPlugin(old(plugin), readerExists, reader(file))
      ensures data == plugin.GetOr(map[])
      ensures githubResponse == old(githubResponse)
    {
      if plugin.None? && readerExists {
        plugin := Some(reader(file));
      }
      data := plugin.GetOr(map[]);
    }

    /** `get_repository_info` at time `now`; `http` is what `wp_remote_get` returns if it is called. */
    method GetRepositoryInfo(now: int, http: HttpResult) returns (info: Option<Release>)
      requires Valid()
      modifies this, host
      ensures Valid()
      ensures info == old(Outcome(now, http)).info
      ensures Fetched(now, http)
      ensures plugin == old(plugin)
    {
      if githubResponse.Some? {
        return githubResponse;
      }

      var cached := host.GetTransient(now);
      if cached.Some? {
        if cached.value.ErrorMarker? {
          return None;
        }
        githubResponse := Some(cached.value.release);
        return githubResponse;
      }

      info := FetchRemote(now, http);
    }

    /** The network half of `get_repository_info`, reached with nothing in memory and nothing cached. */
    method FetchRemote(now: int, http: HttpResult) returns (info: Option<Release>)
      requires Valid()
      modifies this, host
      ensures Valid()
      ensures host.requests == old(host.requests) + [ReleaseRequest(host.wpVersion)]
      ensures host.moves == old(host.moves) && plugin == old(plugin)
      ensures match ValidateResponse(http)
        case Failure(e) =>
          && info.None? && githubResponse == old(githubResponse)
          && host.cache == Some(CacheEntry(ErrorMarker, ErrorTtl, now))
          && host.log == old(host.log) + host.LogLines(FailureMessage(e))
        case Success(r) =>
          && info == Some(r) && githubResponse == Some(r)
          && host.cache == Some(CacheEntry(Body(r), SuccessTtl, now))
          && host.log == old(host.log)
    {
      host.RemoteGet(ReleaseRequest(host.wpVersion));

      if http.TransportError? {
        info := RecordFailure(TransportFailed(http.message), now);
        return;
      }

      var code := http.code;
      if code != 200 {
        info := RecordFailure(BadStatus(code), now);
        return;
      }

      var decoded := http.decoded;
      if decoded.None? || decoded.value.tagName.None? || decoded.value.assets.None? || decoded.value.assets.value == [] {
        info := RecordFailure(MissingTagOrAssets, now);
        return;
      }

      var body := decoded.value.(zipballUrl := Some(FirstAssetUrl(decoded.value.assets.value)));

      if EmptyString(body.zipballUrl.value) {
        info := RecordFailure(NoDownloadUrl, now);
        return;
      }

      host.SetTransient(Body(body), CacheDuration * HourInSeconds, now);
      githubResponse := Some(body);
      info := githubResponse;
    }

    /** A failure path: `debug_log` its message, cache the error marker for an hour, return false. */
    method RecordFailure(failure: Failure, now: int) returns (info: Option<Release>)
      requires Valid()
      modifies host
      ensures Valid()
      ensures info.None?
      ensures host.cache == Some(CacheEntry(ErrorMarker, ErrorTtl, now))
      ensures host.log == old(host.log) + host.LogLines(FailureMessage(failure))
      ensures host.requests == old(host.requests) && host.moves == old(host.moves)
    {
      host.DebugLog(FailureMessage(failure));
      host.SetTransient(ErrorMarker, ErrorCacheDuration * HourInSeconds, now);
      info := None;
    }

    /** `check_update` on the `update_plugins` transient `t`. */
    method CheckUpdate(t: UpdateTransient, now: int, http: HttpResult, readerExists: bool, reader: string -> map<string, string>)
      requires Valid()
      modifies this, host, t
      ensures Valid()
      ensures t.checked == old(t.checked)
      ensures |old(t.checked)| == 0 ==>
        plugin == old(plugin) && githubResponse == old(githubResponse) && unchanged(host) && unchanged(t)
      ensures |old(t.checked)| != 0 ==>
        && plugin == LoadedPlugin(old(plugin), readerExists, reader(file))
        && Fetched(now, http)
        && var info := old(Outcome(now, http)).info;
           var version := HeaderOr(plugin.GetOr(map[]), "Version", "");
           if info.None? || EmptyString(version) then t.Lists() == old(t.Lists())
           else WellFormed(info.value) && t.Lists() == ApplyCheck(old(t.Lists()), basename, version, info.value, host.wpVersion)
    {
      if |t.checked| == 0 {
        return;
      }
      ghost var before := Outcome(now, http);
      ResolvedIsWellFormed(githubResponse, Live(host.cache, now), http);
      var pluginData := GetPluginData(readerExists, reader);
      var repoInfo := GetRepositoryInfo(now, http);
      assert repoInfo == before.info;

      var version := HeaderOr(pluginData, "Version", "");
      if repoInfo.None? || EmptyString(version) {
        return;
      }

      RecordDecision(t, version, repoInfo.value);
    }

    /** The comparison and the edits of `check_update` once a release and the installed version are known. */
    method RecordDecision(t: UpdateTransient, version: string, release: Release)
      requires WellFormed(release)
      modifies t
      ensures t.checked == old(t.checked)
      ensures t.Lists() == ApplyCheck(old(t.Lists()), basename, version, release, host.wpVersion)
    {
      var current := NormalizeVersion(version);
      var latest := NormalizeVersion(release.tagName.value);
      var entry := PluginEntry(basename, latest, host.wpVersion, release.zipballUrl.value);

      if VersionGreater(latest, current) {
        t.response := t.response[basename := entry];
      } else {
        t.response := t.response - {basename};
        if basename !in t.noUpdate {
          t.noUpdate := t.noUpdate[basename := entry.(package := "")];
        }
      }
    }

    /** `plugin_info` for the `plugins_api` filter; `slug` is `$args->slug`. */
    method PluginInfo<R>(res: R, action: string, slug: string, now: int, http: HttpResult, readerExists: bool, reader: string -> map<string, string>)
      returns (out: InfoResult<R>)
      requires Valid()
      modifies this, host
      ensures Valid()
      ensures action != "plugin_information" || slug != Dirname(basename) ==>
        out == PassThrough(res) && plugin == old(plugin) && githubResponse == old(githubResponse) && unchanged(host)
      ensures action == "plugin_information" && slug == Dirname(basename) ==>
        && plugin == LoadedPlugin(old(plugin), readerExists, reader(file))
        && Fetched(now, http)
        && var info := old(Outcome(now, http)).info;
           if info.None? then out == PassThrough(res)
           else WellFormed(info.value) && out == Provided(MakeDetails(plugin.GetOr(map[]), basename, info.value, host.wpVersion))
    {
      if action != "plugin_information" || slug != Dirname(basename) {
        return PassThrough(res);
      }
      ghost var before := Outcome(now, http);
      ResolvedIsWellFormed(githubResponse, Live(host.cache, now), http);
      var pluginData := GetPluginData(readerExists, reader);
      var repoInfo := GetRepositoryInfo(now, http);
      assert repoInfo == before.info;
      if repoInfo.None? {
        return PassThrough(res);
      }
      out := Provided(MakeDetails(pluginData, basename, repoInfo.value, host.wpVersion));
    }

    /**
     * `after_install`: move the extracted folder to the plugin's directory,
     * point the result there and delete the cached release. The move's
     * outcome is not looked at, and the in-memory release is not cleared.
     */
    method AfterInstall(result: map<string, string>) returns (r: map<string, string>)
      requires Valid()
      modifies host
      ensures Valid()
      ensures r == result["destination" := installDirectory]
      ensures r.Keys == result.Keys + {"destination"}
      ensures forall k :: k in result && k != "destination" ==> r[k] == result[k]
      ensures host.moves == old(host.moves) + [(if "destination" in result then Some(result["destination"]) else None, installDirectory)]
      ensures host.cache == None
      ensures host.requests == old(host.requests) && host.log == old(host.log)
    {
      var from := if "destination" in result then Some(result["destination"]) else None;
      host.Move(from, installDirectory);
      r := result["destination" := installDirectory];
      host.DeleteTransient();
    }
  }

  /** The `static $instance` of `init` and the `is_admin` gate in front of it. */
  class UpdaterSlot {
    var instance: Updater?

    constructor ()
      ensures instance == null
    {
      instance := null;
    }

    /** The namespace's `init`, followed by the class's `init($file)`: one updater per request, and only in the admin. */
    method Init(isAdmin: bool, host: Host, file: string, basename: string, installDirectory: string) returns (u: Updater?)
      requires host.cache.Some? && host.cache.value.value.Body? ==> WellFormed(host.cache.value.value.release)
      modifies this
      ensures !isAdmin ==> u == null && instance == old(instance)
      ensures isAdmin && old(instance) != null ==> u == old(instance) && instance == old(instance)
      ensures isAdmin && old(instance) == null ==>
        u != null && fresh(u) && instance == u && u.Valid()
        && u.host == host && u.file == file && u.plugin.None? && u.githubResponse.None?
    {
      if !isAdmin {
        return null;
      }
      if instance == null {
        instance := new Updater(host, file, basename, installDirectory);
      }
      u := instance;
    }
  }
}
