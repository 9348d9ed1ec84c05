# Weave Starter Plugin — a Dafny model of its core

This project models the core of the WordPress plugin "Weave Starter Plugin".

- **GitHub release updater** (`inc/github-updater.php`). It asks GitHub for the latest release and validates it. Good releases are cached for four hours and failures for one hour. The updater offers the update to WordPress when the release tag is greater than the installed version. It fills the "View details" modal and moves the extracted folder after an install.
- **Settings** (`inc/settings-page.php`):
  - eight boolean defaults;
  - the sanitising callback;
  - the read that merges saved values over the defaults.
- **Admin list columns** (`inc/admin-columns.php`):
  - Price, Category and Order are inserted after Title, and Date is dropped;
  - the sortable columns;
  - the meta-key sort mapping;
  - the Order cell.
- **Shortcodes** (`inc/shortcodes.php`):
  - the `WP_Query` arguments of `[weave_starter_list]`;
  - the output of `[weave_starter_field]`.
- **Block registration** (`inc/blocks.php`): every built block folder is registered in glob order. A block switched off in the settings is skipped.
- **Hooks** (`inc/hooks.php`):
  - the Settings action link;
  - the optional dashboard clean-up;
  - the doubly gated debug log.
- **Front-end filter store** (`src/blocks/starter-item-frontend/view.js`): the derived state and the two actions of the category filter.

## How PHP, WordPress and JavaScript are modelled

- PHP values are the `Php.Value` datatype.
  - `empty()` and truthiness follow PHP's rules, e.g. `"0"` and `""` are empty.
  - `explode`, `dirname`/`basename`, `strtoupper` and `ltrim` are written out as functions.
  - String-keyed ordered arrays are lists of pairs (`OrderedMaps`). Assigning a new key appends it; `unset` removes an entry.
  - The int-keyed list of `array_unshift` is `Hooks.Links`, and renumbering is explicit.
- WordPress and PHP helpers whose code is not part of this model are uninterpreted functions, held in fields of `Php.Helpers`:
  - `sanitize_key`, `sanitize_text_field`, `esc_html`, `esc_url`, `wp_kses_post`, `admin_url`;
  - PHP's `(int)` cast of a string.
- **The updater is imperative.** `GitHubUpdater.Updater` is a class with the fields `plugin` and `githubResponse`.
  - `GitHubUpdater.Host` stands for the WordPress side. It holds the transient under the cache key, with its time-to-live and write time, so `get_transient` expires it like WordPress does. It also keeps traces of the outbound requests, the `debug_log` lines and the filesystem moves.
  - The clock (`now`) is a parameter. So are the response `wp_remote_get` would give, `get_bloginfo('version')` and `WP_DEBUG`.
  - The `ensures` of the lookup methods (`GetRepositoryInfo`, `FetchRemote`, `RecordFailure`) tie the new state to the pure functions in `Releases` (`Resolve`, `ValidateResponse`, `Live`). Those of the check methods (`CheckUpdate`, `RecordDecision`) and of `PluginInfo` also tie it to `GitHubUpdater.ApplyCheck` and `GitHubUpdater.MakeDetails`. The lemmas about those functions carry the properties.
- `update_plugins` is the class `GitHubUpdater.UpdateTransient`, which `check_update` edits in place. The `view.js` context is the class `FrontendStore.FilterContext`.
- `version_compare` is modelled for dotted numeric versions. Each dot-separated piece is compared by the value of its leading digits, left to right. A proper prefix is smaller, as in PHP: `1.0 < 1.0.0`.

Points where the code's behaviour may surprise:

- **After an install,** `after_install` deletes the cached release but not the updater's in-memory `$github_response`. Within the same request the same updater still answers from memory. Only a new request (a new updater) fetches again. `UpdaterScenarios.AfterInstallRefetches` shows both halves.
- **The move result is ignored:** `after_install` does not look at the result of `$wp_filesystem->move`.
- **Trailing zeros matter:** `version_compare` treats `1.0` as smaller than `1.0.0`. It does not treat trailing zeros as equal.

## Model

| member | source | states |
|---|---|---|
| Versions.NormalizeVersion | inc/github-updater.php:127-129 | the result is no longer than the input and does not start with `v` |
| Versions.NormalizeRemovesOnlyLeadingVs | inc/github-updater.php:127-129 | the result is a suffix of the input, and every removed character was a `v` |
| Versions.NormalizeStripsAllLeadingVs | inc/github-updater.php:127-129 | any run of leading `v`s is stripped: normalising `v…v` + s, where s does not start with `v`, gives s |
| Versions.NormalizeKeepsUnprefixed | inc/github-updater.php:127-129 | a version that does not start with `v` is left unchanged |
| Versions.NormalizeIdempotent | inc/github-updater.php:127-129 | normalising twice is the same as normalising once |
| Versions.NormalizeDecomposes | inc/github-updater.php:127-129 | every input is some run of `v`s followed by its normalised form |
| Versions.CompareParts | inc/github-updater.php:237 | the comparison of version parts yields -1, 0 or 1, and 0 exactly when the parts are equal |
| Versions.CompareAntisymmetric | inc/github-updater.php:237 | swapping the arguments negates the comparison |
| Versions.CompareTransitive | inc/github-updater.php:237 | "greater" between version parts is transitive |
| Versions.ProperPrefixIsSmaller | inc/github-updater.php:237 | a proper prefix of a part list compares smaller |
| Versions.VersionGreaterIsStrict | inc/github-updater.php:237 | `version_compare(a, b, '>')` is irreflexive and asymmetric |
| Versions.NormalizeExample | inc/github-updater.php:127-129 | the tag `v1.3.0` normalises to `1.3.0` |
| Versions.NewerMinorIsGreater | inc/github-updater.php:237 | `1.3.0` is greater than `1.2.3` |
| Versions.OlderMajorIsNotGreater | inc/github-updater.php:237 | `1.9.9` is not greater than `2.0.0` |
| Versions.ShorterVersionIsSmaller | inc/github-updater.php:237 | `1.0.0 > 1.0`, so trailing zeros are not ignored |
| Releases.ReleaseRequestTargetsRepository | inc/github-updater.php:153-163 | the URI composed from the username and repository constants is exactly `https://api.github.com/repos/weavedigitalstudio/weave-starter-plugin/releases/latest`, and the WordPress version can be read back from the User-Agent after `WordPress/` |
| Releases.ValidateResponse | inc/github-updater.php:165-196 | every release the checks accept is well formed: it has a tag and assets, and its download URL is the first asset's and non-empty |
| Releases.ValidateRejectsExactly | inc/github-updater.php:165-194 | a response is rejected iff it is a transport error, a non-200 code, or lacks the tag, the assets, or the first asset's URL; a transport error and a bad code map to their own failures |
| Releases.AcceptedReleaseUsesFirstAsset | inc/github-updater.php:179-196 | an accepted release is the decoded 200 body with `zipball_url` replaced by the first asset's download URL |
| Releases.Resolve | inc/github-updater.php:136-200 | the network is asked iff nothing is in memory and nothing live is cached; the returned release is the one kept in memory or false; nothing is written without a request |
| Releases.MemoryComesFirst | inc/github-updater.php:137-139 | a release in memory is returned with no cache change and no request |
| Releases.CachedErrorIsUnavailable | inc/github-updater.php:144-147 | a cached error marker returns false with no request and nothing kept in memory |
| Releases.CachedBodyIsServed | inc/github-updater.php:149-150 | a cached release is returned and kept in memory, with no request |
| Releases.ColdCacheOutcome | inc/github-updater.php:165-199 | on a cold cache every failure writes the error marker for 3600 s and returns false; a success writes the release for 14400 s and returns it |
| Releases.ResolvedIsWellFormed | inc/github-updater.php:136-200 | if memory and cache hold only well-formed releases, so does everything the lookup returns, keeps or writes |
| Releases.RepeatWithinTtlMakesNoRequest | inc/github-updater.php:137-151 | within the lifetime of what a cold fetch wrote, a repeat lookup (same process or new) makes no request and gives the same answer |
| Releases.ErrorBackpressure | inc/github-updater.php:144-147 | within an hour of a failed fetch, a new process makes no request and gets false |
| Releases.ExpiredEntryIsRefetched | inc/github-updater.php:142-159 | after the cached entry expires, a new process asks the network again |
| GitHubUpdater.Host.GetTransient | inc/github-updater.php:142 | returns the live cached value; an expired entry is deleted |
| GitHubUpdater.UpdateOfferedIffNewer | inc/github-updater.php:222-240 | the update is in `response` iff the normalised tag is greater than the normalised installed version, with that version and the release's package; other plugins' entries are untouched; when the update is offered, `no_update` is left exactly as it was |
| GitHubUpdater.NoUpdateEntryRules | inc/github-updater.php:239-246 | without an update an existing `no_update` entry is kept; otherwise one is added with an empty package; every other plugin's `no_update` entry keeps its presence and its value |
| GitHubUpdater.CheckExamples | inc/github-updater.php:222-246 | installed 1.2.3 with tag v1.3.0 offers 1.3.0; installed 2.0.0 with tag v1.9.9 offers nothing |
| GitHubUpdater.MakeDetails | inc/github-updater.php:271-292 | the details carry the normalised tag, the release's package, changelog and date, the plugin slug, the WordPress version, and the default name when the header has none |
| GitHubUpdater.Updater.constructor | inc/github-updater.php:81-88 | a new updater keeps its file, basename and directory, and has loaded neither plugin data nor a release |
| GitHubUpdater.Updater.GetPluginData | inc/github-updater.php:113-119 | the header is read once, on first use, when the reader exists; the loaded data (or `[]`) is returned |
| GitHubUpdater.Updater.GetRepositoryInfo | inc/github-updater.php:136-200 | returns what `Resolve` gives for the current memory and live cache; memory, cache, request trace and log change exactly as `Resolve` says |
| GitHubUpdater.Updater.FetchRemote | inc/github-updater.php:153-199 | exactly one request is made; a rejected response logs its failure message and caches the error marker for an hour; an accepted one is cached for four hours, kept in memory and returned |
| GitHubUpdater.Updater.RecordFailure | inc/github-updater.php:165-194 | a failure logs its message, caches the error marker for one hour and returns false |
| GitHubUpdater.Updater.CheckUpdate | inc/github-updater.php:210-249 | an empty `checked` leaves everything unchanged; otherwise the lookup runs, and the lists change only when a release and a non-empty installed version exist, and then as `ApplyCheck` says |
| GitHubUpdater.Updater.RecordDecision | inc/github-updater.php:222-246 | the `response` and `no_update` lists become `ApplyCheck` of the old ones |
| GitHubUpdater.Updater.PluginInfo | inc/github-updater.php:259-295 | other actions or slugs pass `$res` through untouched; for this plugin the lookup runs and the details are returned, or `$res` when no release is available |
| GitHubUpdater.Updater.AfterInstall | inc/github-updater.php:308-319 | the extracted folder is moved to the install directory, the result's destination is set to it, the cached release is deleted, and nothing else changes |
| GitHubUpdater.UpdaterSlot.Init | inc/github-updater.php:96-104 | outside the admin no updater is made; in the admin the first call creates the single instance and later calls return it |
| UpdaterScenarios.SameRequestTwice | inc/github-updater.php:136-151 | starting cold, two lookups by one updater within the hour make exactly one network request and give the same answer |
| UpdaterScenarios.NextRequestWithinTtl | inc/github-updater.php:141-151 | after a cold lookup, a new updater (the next PHP request) within the hour makes no request and gets the same answer |
| UpdaterScenarios.ErrorHoldsForAnHour | inc/github-updater.php:144-147 | after a failure, a new updater within the hour makes no request and gets false |
| UpdaterScenarios.MalformedIsCachedAsError | inc/github-updater.php:179-185 | a 200 response without a tag, or with an empty asset list, caches the error marker for an hour, and nothing is kept in memory |
| UpdaterScenarios.AfterInstallRefetches | inc/github-updater.php:308-319 | after an install the same updater still answers with its in-memory release without a request, while a new updater asks the network again and gets the new response's outcome |
| Settings.DefaultsExact | inc/settings-page.php:26-37 | the defaults have exactly eight keys, each with its listed value |
| Settings.DefaultValues | inc/settings-page.php:26-37 | five features are on by default; the admin page, debug mode and dashboard clean-up are off |
| Settings.SanitizeSettings | inc/settings-page.php:153-162 | the result has exactly the default keys, each the boolean cast of the input value when set, otherwise the default |
| Settings.SanitizedIsUnique | inc/settings-page.php:153-162 | the sanitised settings are determined by the input |
| Settings.SanitizeIdempotent | inc/settings-page.php:153-162 | sanitising already sanitised settings changes nothing |
| Settings.GetSettings | inc/settings-page.php:44-47 | the merged settings hold every saved key with its saved value, and every other default key with its default |
| Settings.GetSettingsOfSanitized | inc/settings-page.php:44-47 | reading back saved sanitised settings gives them unchanged |
| Settings.NothingSavedReadsDefaults | inc/settings-page.php:44-47 | with nothing saved, every setting reads as its default |
| OrderedMaps.Set | inc/admin-columns.php:31 | assigning a new key appends it, an existing key keeps its place; the key then holds the value and other keys are unchanged |
| OrderedMaps.DropKeysTwice | inc/admin-columns.php:42 | removing one set of keys and then another is removing their union |
| AdminColumns.AddCustomColumns | inc/admin-columns.php:27-45 | the loop's result is the columns with Price, Category and Order after each Title entry, minus Date |
| AdminColumns.BuildIsExpand | inc/admin-columns.php:30-39 | on columns without custom keys the loop copies each entry, with the three custom columns inserted after Title |
| AdminColumns.KeepsOtherColumnsInOrder | inc/admin-columns.php:27-45 | apart from the three custom columns, the result is the input with Date removed, in the same order |
| AdminColumns.CustomColumnsFollowTitle | inc/admin-columns.php:34-38 | when Title is present, the result has Title immediately followed by Price, Category and Order |
| AdminColumns.NoTitleNoCustomColumns | inc/admin-columns.php:34-42 | without a Title column, the result is the input with only Date removed |
| AdminColumns.DateNeverPresent | inc/admin-columns.php:42 | the result never has a Date column |
| AdminColumns.AddedColumnsUnique | inc/admin-columns.php:27-45 | the result never lists a key twice |
| AdminColumns.SortableColumns | inc/admin-columns.php:84-88 | Price and Order become sortable by their own keys; other entries are kept |
| AdminColumns.SortMetaKey | inc/admin-columns.php:103-109 | exactly the Price and Order columns map to their meta keys |
| AdminColumns.HandleColumnSorting | inc/admin-columns.php:96-110 | for the admin main query sorted by Price or Order, the meta key is set and sorting is numeric; every other query is unchanged |
| AdminColumns.OrderCell | inc/admin-columns.php:70-73 | the Order cell shows the display order, or `0` when it is empty, so it is never blank |
| Php.ImplodeExplode | inc/shortcodes.php:87 | joining the pieces of `explode` with the separator gives back the original string |
| Php.BasenameOfJoin | inc/blocks.php:50 | the basename of `dir/name` is `name` |
| Php.DirnameOfJoin | inc/github-updater.php:226 | the dirname of `dir/name` is `dir`, so the slug is the plugin folder |
| Shortcodes.NormalizeOrder | inc/shortcodes.php:70-72 | the order is `ASC` or `DESC`, and `DESC` iff the upper-cased attribute is `DESC` |
| Shortcodes.BuildListQuery | inc/shortcodes.php:39-88 | post type, status and limit are fixed as in the source; the two named orderings map to numeric meta sorts, others are sanitised; the tax query is set iff a type is given, and the exclusions iff the list is non-empty, one id per comma-separated piece |
| Shortcodes.OrderExamples | inc/shortcodes.php:70-72 | `desc` gives `DESC`, `Asc` gives `ASC`, and `random` and the empty string give `ASC` |
| Shortcodes.NormalizeOrderKeepsDirection | inc/shortcodes.php:70-72 | `asc` or `desc` in any letter case gives its upper-case form; anything else gives `ASC` |
| Shortcodes.ExcludeCount | inc/shortcodes.php:86-88 | the number of excluded ids is the number of commas plus one |
| Shortcodes.MetaKey | inc/shortcodes.php:173-176 | the key always has the meta prefix; a prefixed field is kept verbatim, any other is prefixed after `sanitize_key` |
| Shortcodes.MetaKeyIdempotent | inc/shortcodes.php:173-176 | prefixing an already prefixed key changes nothing |
| Shortcodes.FieldPostId | inc/shortcodes.php:166 | without an `id` attribute the current post is used; a non-zero `id` wins |
| Shortcodes.NoFieldRendersNothing | inc/shortcodes.php:162-164 | without a field attribute the shortcode renders the empty string, whatever the post |
| Shortcodes.RenderedFieldIsWrapped | inc/shortcodes.php:180-184 | any non-empty output is the filtered `before`, then the escaped value (neither `''` nor false), then the filtered `after` |
| Blocks.SkipList | inc/blocks.php:30-41 | a block is skipped iff its setting is off: the front-end block with `enable_frontend_block`, the meta block with `enable_cpt` |
| Blocks.KeptMembers | inc/blocks.php:49-57 | a folder is registered iff glob lists it and its basename is not skipped |
| Blocks.RegisterBlocks | inc/blocks.php:23-58 | nothing is registered without the build directory or without folders; otherwise the glob's folders that are not skipped, in glob order |
| Blocks.KeptAppend | inc/blocks.php:49-57 | registration distributes over concatenation, so glob order is kept |
| Blocks.KeptCount | inc/blocks.php:49-57 | a folder not skipped is registered as often as glob lists it, a skipped one never |
| Blocks.DefaultsSkipNothing | inc/blocks.php:30-41 | with the default settings the skip list is empty |
| Blocks.RegisterAllByDefault | inc/blocks.php:30-57 | with the default settings every folder is registered |
| Hooks.Unshift | inc/hooks.php:45 | the new value comes first, under key 0, and the array has one more entry |
| Hooks.AddPluginActionLinks | inc/hooks.php:39-47 | the result has one more entry, and the first is the Settings link at key 0 |
| Hooks.RenumberShape | inc/hooks.php:45 | renumbering keeps every value and string key, and numbers the integer keys from the start in order |
| Hooks.OriginalLinksFollow | inc/hooks.php:45-46 | each original link follows in place with its value; string keys are kept, integer keys are shifted to one more than the integer keys before them |
| Hooks.ActionLinksKeepUniqueKeys | inc/hooks.php:45 | if the input repeats no key, neither does the result: key 0 and the renumbered keys are all distinct |
| Hooks.DashboardUntouchedByDefault | inc/hooks.php:58-63 | with the default settings the dashboard is left alone |
| Hooks.DashboardCleanedWhenEnabled | inc/hooks.php:58-67 | once `cleanup_dashboard` is saved as on, exactly the Quick Draft and Events and News boxes of the dashboard's side column are removed |
| Hooks.NothingLoggedByDefault | inc/hooks.php:80-84 | with the default settings nothing is logged, whatever `WP_DEBUG` is |
| Hooks.LoggedWhenBothEnabled | inc/hooks.php:75-88 | with `WP_DEBUG` on and `debug_mode` saved as on, every message is logged as `[Weave Starter Plugin] ` followed by the message |
| Hooks.LoggedMessageRecoverable | inc/hooks.php:87 | the message can be read back from a logged line by dropping the prefix |
| FrontendStore.FilterContext.SetFilter | src/blocks/starter-item-frontend/view.js:56-60 | afterwards the active filter is the clicked button's slug, and exactly the buttons with that slug are active |
| FrontendStore.FilterContext.ClearFilter | src/blocks/starter-item-frontend/view.js:65-68 | afterwards no filter is active and no item is hidden |
| FrontendStore.HiddenOnlyWhileFiltering | src/blocks/starter-item-frontend/view.js:39-49 | without an active filter no item is hidden |
| FrontendStore.FilterSelectsCategory | src/blocks/starter-item-frontend/view.js:28-49 | with distinct button slugs, after a click exactly one button is active, and an item is shown iff it lists that category |

## Left out

- **Network and data sources as inputs.** HTTP, JSON decoding and the filesystem are not modelled as operations. These inputs are parameters instead:
  - the response `wp_remote_get` would give, already decoded;
  - `get_bloginfo('version')`;
  - the plugin header that `get_plugin_data` reads;
  - the `glob`/`is_dir` results;
  - the post meta.
- **Hook registration:** the `add_action`/`add_filter`/`add_shortcode` calls, and the activation and deactivation hooks in `inc/hooks.php` (rewrite flushing). They only wire callbacks into WordPress.
- **Output of `[weave_starter_list]`:**
  - the HTML grid;
  - the `columns` attribute;
  - the thumbnail and title output;
  - price formatting with `number_format`, which needs floating point.
- **The Price and Category cells of `render_custom_columns`:** they need floating-point formatting and `get_the_term_list`, whose code is not part of this model. Only the Order cell is modelled.
- **Translation:** `__()` and `esc_html__()` are taken as the identity on their English strings.
- **version_compare:** PHP's special tokens (`dev`, `alpha`, `beta`, `RC`, `pl`), and splitting on `-`, `_` or `+`, are not modelled. Plugin versions are dotted numbers.
- **Non-array saved settings:** a saved option that is not an array is not modelled. `Settings.GetSettings` takes the saved option as a map.
- **Basename and dirname edge cases:** trailing slashes and repeated slashes. `Php.Dirname` does model the `.` of a bare file name and the `/` of a file at the root.
- **Unused parameters:** the `$response` and `$hook_extra` arguments of `after_install` are not used by the source, and not by the model either.
- **The filesystem move:** its effect on the disk is outside the model. `GitHubUpdater.Host.Move` records the call, whose result the source ignores.
- **Concurrency:** several PHP requests racing on the same transient is out of scope.
- **Transient storage:** object caching and database storage of transients are not modelled. A transient is one value with a lifetime.
- **Releases.Live:** an entry stored with a time-to-live of 0 expires at once in the model, whereas WordPress keeps a transient with no expiration forever. The updater only ever writes 3600 or 14400 seconds, so this case does not arise.
- **Other files:** the React admin and settings screens, the block editors (`edit.js`, `index.js`), `render.php`, `post-types.php` and `admin-page.php` are not part of this model.
- **Shortcodes.BuildListQuery:** PHP's `(int)` cast of a string is an uninterpreted function of `Php.Helpers`. Its digit-by-digit parsing is not modelled.
