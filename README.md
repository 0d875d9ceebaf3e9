# scdl-cli core, modelled in Dafny

scdl-cli is a command-line front end to the `scdl` SoundCloud downloader.
This project models its core. `PlaylistSync` keeps a table from playlist
URLs to local directories. For each playlist it decides whether to run a
first download or an incremental sync. It builds the matching `scdl`
argument vector and turns the outcome of the run into a `SyncResult` and a
new `last_sync` stamp. `ScdlWrapper` builds the vector for a one-off
download, maps the run's outcome to a `DownloadResult`, counts the audio
files left behind, and aggregates a batch. `ConfigManager` is the settings
table: environment overrides, defaults, and in-place `set`, `update` and
`reset`. Three string validators check SoundCloud URLs, client ids and
output paths.

Modules:

- `Wrappers`: `Option` and `Result`.
- `Text`: substring search, ASCII case mapping, Python's whitespace class and `str.join`.
- `Validators`: `validate_url`, including the parts of `urllib.parse.urlparse` it depends on; `validate_client_id`; `validate_output_path`.
- `Config`: the setting values, `get` with its environment precedence, and the class `ConfigManager`.
- `Process`: the outcome of running `scdl`, and the error text both callers derive from it.
- `Clean`: `_clean_filename`.
- `Sync`: the class `PlaylistSync`, the two vector builders, the archive decision, and `sync_playlist` and `sync_all` as functions of the table and of what the world does.
- `Downloader`: the class `ScdlWrapper`, the vector builder, `download`, the audio-file filter, and the batch aggregation.

The models take the file system, the child process, the clock, the
environment and the thread pool as inputs:

- `SyncWorld` and `DownloadWorld` give:
  - what creating a directory raises;
  - the archive marker's state and whether deleting it succeeds;
  - the process outcome;
  - the output directory's entries;
  - the time stamp.
- `ConfigManager` receives the environment as a map.
- `batch_download` receives its downloads in completion order.
- `normalise` stands for `str(Path(d).expanduser().absolute())`.
- The automatically obtained client id is an `Option<string>` input.

## Model

| member | source | states |
|---|---|---|
| Validators.LStripControl | src/scdl_cli/utils/validators.py:13 | `urlparse` first drops leading C0 controls and spaces: the result is a suffix of the input that is empty or starts above `' '`, and every character dropped before it is at or below `' '` |
| Validators.RemoveUnsafe | src/scdl_cli/utils/validators.py:13 | `urlparse` deletes every tab, CR and LF: none is left, and a single character other than those three is kept |
| Validators.RemoveUnsafeAppend | src/scdl_cli/utils/validators.py:13 | the deletion works character by character, so together with the single-character case every other character is kept, in its order |
| Validators.CleanUrl | src/scdl_cli/utils/validators.py:13 | on text with no leading control and no tab or newline, the sanitising steps change nothing |
| Validators.SplitNetloc | src/scdl_cli/utils/validators.py:13 | after a leading `//` the network location runs up to the first `/`, `?` or `#`: it holds none of them, the rest is empty or starts with one, and both put back give the text; without `//` the network location is empty and the text is the rest |
| Validators.StripParamsNoSemicolon | src/scdl_cli/utils/validators.py:13 | a path with no `;` loses nothing to the `;params` split |
| Validators.SplitSchemeOf | src/scdl_cli/utils/validators.py:13-14 | a letters-only scheme before `:` is split off and lower-cased |
| Validators.ParseHostUrl | src/scdl_cli/utils/validators.py:13-24 | `scheme://host/path` with a plain host and path parses to the lower-cased scheme, the host and the path |
| Validators.SoundCloudUrlAccepted | src/scdl_cli/utils/validators.py:7-25 | every http(s) URL, in any case of the scheme, on soundcloud.com, www., m. or on. with a non-empty plain path is accepted |
| Validators.PlaylistUrlAccepted | src/scdl_cli/utils/validators.py:7-25 | `https://soundcloud.com/artist/sets/mix` is accepted |
| Validators.UpperSchemeAccepted | src/scdl_cli/utils/validators.py:13-15 | the scheme is compared after lower-casing: `HTTPS://m.soundcloud.com/...` is accepted |
| Validators.ForeignHostRejected | src/scdl_cli/utils/validators.py:18-25 | a host starting with a letter none of the four prefixes starts with is rejected, whatever the path |
| Validators.CapitalisedHostRejected | src/scdl_cli/utils/validators.py:18-25 | the host match is case-sensitive: `https://SoundCloud.com/...` is rejected |
| Validators.NoCharAfterHost | src/scdl_cli/utils/validators.py:19-21 | a bare `host/` does not match any of the patterns, because `.+` needs a character after the slash |
| Validators.HostRootRejected | src/scdl_cli/utils/validators.py:18-25 | `https://soundcloud.com/`, and the same for each sub-domain and scheme case, is rejected |
| Validators.ClientIdWithoutNewline | src/scdl_cli/utils/validators.py:31-37 | a client id without newlines is accepted iff it is a non-empty run of `[A-Za-z0-9_-]` |
| Validators.ClientIdTrailingNewline | src/scdl_cli/utils/validators.py:37 | Python's `$` also matches before a final newline: `id + "\n"` is accepted iff `id` is |
| Validators.OutputPathConcat | src/scdl_cli/utils/validators.py:40-48 | a concatenation is accepted iff it is non-empty and each non-empty half is accepted |
| Validators.OutputPathInsert | src/scdl_cli/utils/validators.py:47-48 | removing a character never turns an accepted non-empty path into a rejected one, so adding one never turns a rejected path into an accepted one |
| Validators.ValidateUrl | src/scdl_cli/utils/validators.py:7-28 | definition; properties in Validators.SoundCloudUrlAccepted, ForeignHostRejected, CapitalisedHostRejected, NoCharAfterHost and HostRootRejected |
| Validators.ParseUrl | src/scdl_cli/utils/validators.py:13 | definition of the parts of `urlparse` the validator reads; properties in Validators.CleanUrl and ParseHostUrl |
| Validators.SplitUrl | src/scdl_cli/utils/validators.py:13-14 | definition; properties in Validators.ParseHostUrl |
| Validators.SplitScheme | src/scdl_cli/utils/validators.py:13-14 | definition; properties in Validators.SplitSchemeOf |
| Validators.PathPart | src/scdl_cli/utils/validators.py:13 | definition; properties in Validators.ParseHostUrl |
| Validators.StripParams | src/scdl_cli/utils/validators.py:13 | definition of `_splitparams`; properties in Validators.StripParamsNoSemicolon |
| Validators.ValidateClientId | src/scdl_cli/utils/validators.py:31-37 | definition; properties in Validators.ClientIdWithoutNewline and ClientIdTrailingNewline |
| Validators.ValidateOutputPath | src/scdl_cli/utils/validators.py:40-50 | definition; properties in Validators.OutputPathConcat and OutputPathInsert |
| Config.LoadConfig | src/scdl_cli/config/manager.py:23-32 | definition; what a manager reads after loading is in Config.LoadedReads |
| Config.LoadedReads | src/scdl_cli/config/manager.py:23-44 | with no usable file, the settings read as the documented defaults; with a parsed file, each key reads as the file says, and a key the file lacks gives the caller's default rather than the built-in one |
| Config.Resolve | src/scdl_cli/config/manager.py:46-65 | an environment variable `SCDL_<KEY>` wins whatever is stored; otherwise `data[key]`, else the default; for `client_id` with a falsy stored value, the automatic id when it is non-empty, else the stored value or the default |
| Config.ResolveAsWritten | src/scdl_cli/config/manager.py:46-65 | as written, `get` raises exactly when the key is `client_id`, there is no override and the stored value is falsy, with the TypeError's message |
| Config.AsWrittenAgrees | src/scdl_cli/config/manager.py:46-65 | wherever the code as written returns, the corrected lookup returns the same value |
| Config.DefaultClientIdFailsAsWritten | src/scdl_cli/config/manager.py:40-61 | with the defaults and no `SCDL_CLIENT_ID`, `get('client_id')` as written always raises |
| Config.EnvKeyIgnoresCase | src/scdl_cli/config/manager.py:49 | keys that differ only in ASCII case read the same environment variable |
| Config.ClientIdEnvKey | src/scdl_cli/config/manager.py:49 | the client id's override is `SCDL_CLIENT_ID` |
| Config.ResolveAfterSet | src/scdl_cli/config/manager.py:65-69 | after `data[key] = value`, `get(key)` gives `value` unless an override or the client-id fallback intervenes |
| Config.ResolveOtherAfterSet | src/scdl_cli/config/manager.py:46-69 | setting one key leaves every other key's reading unchanged |
| Config.ResolveAfterUpdate | src/scdl_cli/config/manager.py:46-73 | after `update(d)` the keys of `d` read as `d` says, and every other key reads as before |
| Config.EnvOverridesData | src/scdl_cli/config/manager.py:49-52 | with an override set, the stored table is irrelevant |
| Config.DefaultsRead | src/scdl_cli/config/manager.py:34-44 | the defaults read as mp3, best, the output directory, 3, 3600 and False; the client id is `''` or the automatic one |
| Config.ConfigManager.constructor | src/scdl_cli/config/manager.py:12-21 | the settings are what loading the file gives |
| Config.ConfigManager.Get | src/scdl_cli/config/manager.py:46-65 | the corrected `get`: override first, then the stored value or the default, with the client id falling back to the manager's automatic one |
| Config.ConfigManager.GetAsWritten | src/scdl_cli/config/manager.py:46-65 | `get` as written fails exactly on the client-id fallback |
| Config.ConfigManager.Set | src/scdl_cli/config/manager.py:67-69 | `key` now holds `value`, the key set gains `key` only, and every other entry is unchanged |
| Config.ConfigManager.Update | src/scdl_cli/config/manager.py:71-73 | the keys of `d` hold its values; the other keys keep theirs; the key set is the union |
| Config.ConfigManager.Reset | src/scdl_cli/config/manager.py:81-84 | the settings are the defaults again |
| Process.ErrorDetail | src/scdl_cli/core/downloader.py:57 | `stderr or stdout or "Unknown error"`: never empty, and the first non-empty stream when there is one |
| Clean.RemoveForbidden | src/scdl_cli/core/sync.py:435 | the first substitution leaves none of `<>:"/\|?*`, and keeps a single character that is not one of them |
| Clean.RemoveForbiddenAppend | src/scdl_cli/core/sync.py:435 | the substitution works character by character, so every other character is kept, in its order |
| Clean.CollapseSpaces | src/scdl_cli/core/sync.py:436 | the whitespace substitution never lengthens the text, keeps it empty exactly when it was, keeps a leading character that is not whitespace, and puts a space where a leading run was |
| Clean.CollapseSplit | src/scdl_cli/core/sync.py:436 | two texts whose seam is not inside a run of whitespace collapse independently; with Clean.CollapseRun and the single-character case this fixes the result on every text, run by run |
| Clean.CollapseRun | src/scdl_cli/core/sync.py:436 | a run of whitespace, of any length and kind, becomes one plain space |
| Clean.NonSpaceCollapse | src/scdl_cli/core/sync.py:436 | collapsing keeps every character that is not whitespace, in order |
| Clean.Strip | src/scdl_cli/core/sync.py:436 | `strip()` gives the slice of the text that follows its leading whitespace, everything after the slice is whitespace, and the slice neither starts nor ends with whitespace |
| Clean.NonSpaceStrip | src/scdl_cli/core/sync.py:436 | stripping removes only whitespace |
| Clean.CollapseKeepsAllowed | src/scdl_cli/core/sync.py:435-436 | collapsing whitespace brings back no forbidden character |
| Clean.CollapseSpacesNormal | src/scdl_cli/core/sync.py:436 | after collapsing, every whitespace character is a single plain space |
| Clean.CleanFilenameShape | src/scdl_cli/core/sync.py:431-437 | a cleaned title has no forbidden character, only single plain spaces, and nothing to strip |
| Clean.CleanFixedPoint | src/scdl_cli/core/sync.py:431-437 | a text of that shape is its own cleaned form |
| Clean.CleanIdempotent | src/scdl_cli/core/sync.py:431-437 | cleaning twice gives what cleaning once gives |
| Clean.CleanKeepsText | src/scdl_cli/core/sync.py:431-437 | a cleaned title keeps every non-whitespace character the first substitution keeps, in order |
| Clean.CleanFilename | src/scdl_cli/core/sync.py:431-437 | definition; properties in Clean.CleanFilenameShape, CleanKeepsText, CleanFixedPoint and CleanIdempotent |
| Sync.AddResult | src/scdl_cli/core/sync.py:56-94 | `add_playlist` succeeds iff the URL validates, contains `/sets/` and the directory can be created; otherwise the message of the first failing check |
| Sync.Without | src/scdl_cli/core/sync.py:101 | deleting a key removes exactly that key from the dict's key order, and deleting an absent key changes nothing |
| Sync.WithoutAt | src/scdl_cli/core/sync.py:101 | deleting the key at position `i` of a duplicate-free order closes the gap and keeps every other key in its order |
| Sync.WithoutNoDup | src/scdl_cli/core/sync.py:101 | deleting a key keeps the key order free of duplicates |
| Sync.Insert | src/scdl_cli/core/sync.py:87 | assigning a new key appends it at the end; assigning an existing key keeps the order; the order stays free of duplicates |
| Sync.Record | src/scdl_cli/core/sync.py:109-113 | one listed row copies url and directory; `last_sync` is the stored stamp, `None` when stored as `None`, `'Never'` when the key is missing, and `'Never'` only when the key is missing or holds that text |
| Sync.Records | src/scdl_cli/core/sync.py:105-114 | one row per key, in key order |
| Sync.RecordsAfterNewKey | src/scdl_cli/core/sync.py:87-114 | after adding a new URL, the listing is the old one plus a row for it with `last_sync` `None` |
| Sync.RecordsAfterOverwrite | src/scdl_cli/core/sync.py:87-114 | overwriting a URL changes only its own row and keeps its position |
| Sync.RecordsAfterRemove | src/scdl_cli/core/sync.py:96-114 | after removing a URL, the listing is the old one with that row dropped and the other rows in their order |
| Sync.InspectArchive | src/scdl_cli/core/sync.py:131-148 | incremental iff the archive exists with ten bytes or more; an archive of one to nine bytes is deleted; an empty one is kept |
| Sync.SyncCommandAsWritten | src/scdl_cli/core/sync.py:249-298 | definition; properties in Sync.AsWrittenNeverAgrees and AsWrittenSyncAlwaysFails |
| Sync.AsWrittenNeverAgrees | src/scdl_cli/core/sync.py:238-332 | as written, the builders fail for every input, and never give what the corrected builders give: no vector, and not the error a malformed `sync` setting raises |
| Sync.JoinPathNotFlag | src/scdl_cli/core/sync.py:254-304 | the archive path does not look like an option when the directory does not |
| Sync.SyncCommandStart | src/scdl_cli/core/sync.py:240-300 | both vectors start `scdl -l url --path dir`, followed by the `--client-id` pair when the id is non-empty |
| Sync.SyncCommandFlags | src/scdl_cli/core/sync.py:238-332 | the exact set of options a vector holds, in terms of the mode, the client id, the `sync` table and the format |
| Sync.SyncCommandClientId | src/scdl_cli/core/sync.py:249-300 | `--client-id` appears iff the client id is non-empty |
| Sync.SyncCommandFixed | src/scdl_cli/core/sync.py:260-322 | `--debug`, `--force-metadata` and `--addtofile` are always there |
| Sync.SyncCommandArt | src/scdl_cli/core/sync.py:263-316 | `--original-art` and `--original-name` appear iff the `sync` table does not turn them off |
| Sync.SyncCommandFormat | src/scdl_cli/core/sync.py:278-330 | `--flac` iff the format is flac, `--opus` iff it is opus, nothing for any other format |
| Sync.SyncCommandArchive | src/scdl_cli/core/sync.py:257-304 | `--sync` iff incremental, `--download-archive` iff first sync |
| Sync.BuildersDifferOnlyInArchiveFlag | src/scdl_cli/core/sync.py:238-332 | the two vectors are equal except for the flag before `<dir>/scdl_archive.txt`, and a bad `sync` setting makes both fail alike |
| Sync.SyncCommand | src/scdl_cli/core/sync.py:238-332 | definition; properties in Sync.SyncCommandStart, SyncCommandFlags, SyncCommandClientId, SyncCommandFixed, SyncCommandArt, SyncCommandFormat, SyncCommandArchive and BuildersDifferOnlyInArchiveFlag |
| Sync.LockAware | src/scdl_cli/core/sync.py:216-220 | the result is the message or the fixed advice; the message is kept exactly when it reports no lock; the result never reports a lock |
| Sync.LockAdviceHasNoMarker | src/scdl_cli/core/sync.py:216-220 | the advice text does not itself contain `Could not acquire lock` |
| Sync.OutcomeResult | src/scdl_cli/core/sync.py:189-229 | success iff exit code 0, with the new-file count and no error; every failure has zero files and an error, non-empty unless it is a raised exception's text |
| Sync.OutcomeMessages | src/scdl_cli/core/sync.py:215-229 | the messages: the stream text or the lock advice, `Sync timeout`, the missing-`scdl` text, and any other exception's own text |
| Sync.LockInStderr | src/scdl_cli/core/sync.py:215-220 | a lock report in stderr gives the lock advice whatever stdout holds |
| Sync.RunStep | src/scdl_cli/core/sync.py:153-229 | success iff the command was built and the run exited with 0, with the new-file count and no error; every failure has zero files and an error, and a builder that raised gives its message |
| Sync.UnknownUrlFails | src/scdl_cli/core/sync.py:118-119 | an unknown URL fails before any directory or archive action and changes nothing |
| Sync.DryRunTouchesOnlyArchive | src/scdl_cli/core/sync.py:127-151 | a dry run succeeds with no files and no run, never changes the table, and still deletes a corrupt archive |
| Sync.SyncTouchesOnlyLastSync | src/scdl_cli/core/sync.py:198 | a sync changes at most its own URL's `last_sync`: no key is added or removed |
| Sync.LastSyncOnSuccess | src/scdl_cli/core/sync.py:189-222 | the stamp is written exactly when the run succeeds; a failed or dry run leaves the table alone |
| Sync.ModeFollowsArchive | src/scdl_cli/core/sync.py:131-160 | the incremental vector runs exactly when the archive holds ten bytes or more |
| Sync.AsWrittenSyncAlwaysFails | src/scdl_cli/core/sync.py:153-298 | as written, every sync past the dry-run check fails with the AttributeError, runs nothing and stamps nothing |
| Sync.SyncStep | src/scdl_cli/core/sync.py:116-229 | definition of one `sync_playlist` call; properties in Sync.UnknownUrlFails, DryRunTouchesOnlyArchive, SyncTouchesOnlyLastSync, LastSyncOnSuccess, ModeFollowsArchive and AsWrittenSyncAlwaysFails |
| Sync.SyncFoldKeys | src/scdl_cli/core/sync.py:231-236 | when `sync_all` returns, it has exactly one result per key it went through |
| Sync.SyncFoldKeepsKeys | src/scdl_cli/core/sync.py:231-236 | `sync_all` never adds or removes a playlist |
| Sync.DryFoldKeepsTable | src/scdl_cli/core/sync.py:231-236 | a dry `sync_all` leaves the table exactly as it was |
| Sync.SyncFold | src/scdl_cli/core/sync.py:231-236 | definition of `sync_all`; properties in Sync.SyncFoldKeys, SyncFoldKeepsKeys and DryFoldKeepsTable |
| Sync.PlaylistSync.constructor | src/scdl_cli/core/sync.py:25-46 | the table is the one loaded, in its stored order |
| Sync.PlaylistSync.AddPlaylist | src/scdl_cli/core/sync.py:56-94 | the result is `AddResult`; a success sets `mappings[url]` to the normalised directory with `last_sync` `None`, overwriting any old entry and leaving every other key alone; a failure changes nothing |
| Sync.PlaylistSync.RemovePlaylist | src/scdl_cli/core/sync.py:96-103 | success iff the URL is present, and then exactly that key is gone; otherwise the not-found message and no change |
| Sync.PlaylistSync.ListPlaylists | src/scdl_cli/core/sync.py:105-114 | one record per key in key order |
| Sync.PlaylistSync.BuildSyncCommand | src/scdl_cli/core/sync.py:238-285 | the incremental vector `SyncCommand` describes, read from the `sync` and `format` settings |
| Sync.PlaylistSync.BuildInitialSyncCommand | src/scdl_cli/core/sync.py:287-332 | the first-sync vector `SyncCommand` describes |
| Sync.PlaylistSync.BuildCommand | src/scdl_cli/core/sync.py:240-285 | the shared appending steps build the vector `SyncCommand` describes |
| Sync.PlaylistSync.SyncPlaylist | src/scdl_cli/core/sync.py:116-229 | the result, the new table, the archive afterwards and the vector run are those of `SyncStep` |
| Sync.PlaylistSync.SyncAll | src/scdl_cli/core/sync.py:231-236 | the results and the final table are the in-order fold of `SyncStep` over the keys; the key order is unchanged |
| Downloader.ScdlCommand | src/scdl_cli/core/downloader.py:107-142 | with the client id read through the corrected `get` (see "## Left out"), the builder raises exactly when `output_dir` is given and its directory cannot be created, with that error |
| Downloader.ScdlCommandFlags | src/scdl_cli/core/downloader.py:107-142 | the exact set of options the vector holds, in terms of the options and the stored client id |
| Downloader.ScdlCommandUrl | src/scdl_cli/core/downloader.py:109-113 | the vector starts with `scdl`; `-l url` follows iff the `url` key is present |
| Downloader.ScdlCommandPath | src/scdl_cli/core/downloader.py:116-119 | `--path` followed by the normalised `output_dir` appears iff that key is present |
| Downloader.ClientIdChoice | src/scdl_cli/core/downloader.py:122-124 | the pair carries the option's client id when it is non-empty, else the stored one when that is non-empty, else nothing |
| Downloader.ChosenClientId | src/scdl_cli/core/downloader.py:122 | definition; properties in Downloader.ClientIdChoice and ScdlCommandClientId |
| Downloader.ScdlCommandClientId | src/scdl_cli/core/downloader.py:122-124 | `--client-id` appears iff the option's or the stored id is non-empty, and is followed by the chosen one |
| Downloader.ScdlCommandType | src/scdl_cli/core/downloader.py:127-132 | at most one of `--playlist`, `--all`, `--favorites`, with playlist before all_tracks before favorites |
| Downloader.ScdlCommandTrailing | src/scdl_cli/core/downloader.py:135-140 | a non-empty format adds `--original-art --original-name`; `verbose` adds `--verbose` as the last element |
| Downloader.CountAudio | src/scdl_cli/core/downloader.py:150-151 | an entry counts exactly when it is an audio file; with Downloader.CountAudioAppend this fixes the count of every listing, which is never more than its length |
| Downloader.CountOutputFiles | src/scdl_cli/core/downloader.py:144-154 | the number of audio entries in the walked directory; 0 for a missing directory or a listing that raises |
| Downloader.IsAudioIff | src/scdl_cli/core/downloader.py:150-151 | a name counts iff it ends in `.mp3`, `.wav`, `.flac`, `.m4a` or `.ogg` in any ASCII case, with a non-empty stem before it |
| Downloader.CountAudioAppend | src/scdl_cli/core/downloader.py:151 | the count of a concatenated listing is the sum of the counts |
| Downloader.AudioExamples | src/scdl_cli/core/downloader.py:150-151 | `Track.MP3` and `a.b.flac` count; `.mp3`, `track.opus` and `track` do not |
| Downloader.DownloadOutcome | src/scdl_cli/core/downloader.py:48-65 | success iff exit code 0, with the audio count and the `output_dir` option; a failure has zero files, no path and an error, non-empty unless it is a raised exception's text |
| Downloader.DownloadMessages | src/scdl_cli/core/downloader.py:56-65 | the messages: the stream text, `Download timeout`, the missing-`scdl` text, and the exception's text |
| Downloader.InvalidUrlRefused | src/scdl_cli/core/downloader.py:32-34 | a missing or invalid URL gives `Invalid URL format`, whatever the world holds |
| Downloader.DownloadSucceeded | src/scdl_cli/core/downloader.py:32-55 | a success had a valid URL, a command that was built, exit code 0, and the audio count |
| Downloader.DownloadSpec | src/scdl_cli/core/downloader.py:30-65 | definition of `download`; properties in Downloader.InvalidUrlRefused, DownloadSucceeded, DownloadOutcome and DownloadMessages |
| Downloader.Aggregate | src/scdl_cli/core/downloader.py:92-105 | success iff at least one download succeeded and all did; an error iff not a success; the file count is the successes' sum, or 0 when none succeeded |
| Downloader.SuccessesPlusErrors | src/scdl_cli/core/downloader.py:80-90 | every finished download adds either a success or one error entry |
| Downloader.AllSucceeded | src/scdl_cli/core/downloader.py:98 | the success count equals the batch size iff every download succeeded |
| Downloader.AggregateVerdict | src/scdl_cli/core/downloader.py:92-105 | a batch succeeds iff it is non-empty and every download succeeded; none succeeding gives the `All downloads failed` message and some gives the `Partial success` one |
| Downloader.AggregateOf | src/scdl_cli/core/downloader.py:92-105 | the verdict as computed from the three accumulators the loop keeps |
| Downloader.EmptyBatchFails | src/scdl_cli/core/downloader.py:92-96 | an empty batch fails with `All downloads failed. Errors: ` |
| Downloader.AggregateOrderIndependent | src/scdl_cli/core/downloader.py:80-105 | the completion order changes nothing but the order of the error entries |
| Downloader.BatchOrderIndependent | src/scdl_cli/core/downloader.py:74-105 | any two completion orders of the same downloads give the same verdict and file count |
| Downloader.CompletionsPrefix | src/scdl_cli/core/downloader.py:80-83 | the first `i` completions are those of the first `i` finished downloads |
| Downloader.FoldStep | src/scdl_cli/core/downloader.py:84-90 | one more finished download adds its success, its files and its error entry to the accumulators |
| Downloader.ScdlWrapper.constructor | src/scdl_cli/core/downloader.py:26-28 | the wrapper keeps the configuration it is given |
| Downloader.ScdlWrapper.BuildScdlCommand | src/scdl_cli/core/downloader.py:107-142 | the appending steps build the vector `ScdlCommand` describes, with the stored client id from the configuration |
| Downloader.ScdlWrapper.AppendSwitches | src/scdl_cli/core/downloader.py:126-140 | the download-type, format and verbose steps append exactly those segments |
| Downloader.ScdlWrapper.Download | src/scdl_cli/core/downloader.py:30-65 | the result is `DownloadSpec`; a command is run iff the URL is valid and the command could be built, and it is that command |
| Downloader.ScdlWrapper.Tally | src/scdl_cli/core/downloader.py:84-90 | one finished download's contribution to the three accumulators |
| Downloader.ScdlWrapper.BatchDownload | src/scdl_cli/core/downloader.py:67-105 | a worker count of 0 or less raises the thread pool's ValueError; otherwise the result is the aggregate of the downloads, in completion order |

## Left out

- Reading and writing files: the TOML configuration, `playlists.json`, `save`, and the write-back in `reset`. The loaded table is an input, and persistence is not modelled.
- `subprocess.run` and its one-hour timeout. The run's outcome is an input.
- `datetime.now()`. The stamp is an input.
- The thread pool's concurrency. The downloads of a batch arrive as a sequence in completion order.
- `_count_new_files`, `_add_track_urls_to_metadata` and `_add_url_to_file_metadata`. These walk the file system by modification time and write tags. The new-file count is an input.
- The Termux messages of `add_playlist`, the debug printing and the logging. They do not affect any result.
- `src/scdl_cli/utils/client_id.py`, which scrapes soundcloud.com over HTTP. The automatic client id it would give is an input.
- `src/scdl_cli/main.py`, the command-line interface. It is presentation over these classes.
- `get_config_path`. It only converts the stored path to text.
- Path normalisation (`expanduser().absolute()`) is an abstract function. Creating the directory is an optional error.
- `exists()` raising on the archive marker. The source calls it outside the `try`, and the model has no such case.
- The two separate `stat()` calls on the archive. They are modelled as one reading.
- The recursive listing of the output directory is a flat sequence of entry names. Directories whose names end in an audio extension count, as in the source.
- TOML floats, dates and times among setting values.
- `urlparse`'s ValueError for malformed brackets in the network location, and its NFKC check. Neither can apply to the host names the patterns accept.
- Python's `str.upper()` and `str.lower()` are modelled on ASCII letters only. Two non-ASCII characters lower to ASCII letters: U+212A KELVIN SIGN to `k`, and U+0130 to `i` followed by U+0307. None of the five audio extensions holds a `k` or an `i`, and no character lowers to `.`, so the suffix filter is still exact. For `SCDL_<KEY>` the model differs only on keys with non-ASCII characters.
- Downloader.ChosenClientId: a stored client id that is truthy but not a string (say an integer from the TOML file) is treated as absent. In the source it is placed in the argument vector, and then `' '.join(cmd)` at downloader.py:40 raises a TypeError inside the `try`, so the download fails with that TypeError's message.
- Downloader.ScdlWrapper.BatchDownload requires that the options hold no `url`. In the source a `url` key in the options makes `executor.submit(..., url=url, **options)` raise a TypeError.
- Downloader.ScdlCommand, Downloader.ScdlWrapper.BuildScdlCommand and Downloader.ScdlWrapper.Download read the client id through the corrected `get`. As written, when the option's id is empty, `self.config.get('client_id')` at downloader.py:122 can raise the TypeError of the first finding below inside the builder. The builder is called outside the `try`, so that exception leaves `download`.
- Sync.JoinPath and Sync.SyncCommand: the archive path is the directory text, a `/` and `scdl_archive.txt`. pathlib's dropping of `.` components and of repeated or trailing `/` is not modelled. The two agree on directories in the normal form that `add_playlist` stores, the text of an absolute `Path`; a hand-edited table with `./music` or `a//b` gets a different archive path than the source computes.
- Sync.OutcomeResult: it does not promise a non-empty error when the run raised an arbitrary exception, because `str(e)` may be empty.
- Downloader.DownloadOutcome: the same holds for an arbitrary exception.

## Findings

| source | as written | input that shows it | evidently intended | confidence | as-written member | corrected member |
|---|---|---|---|---|---|---|
| src/scdl_cli/config/manager.py:59-61 | `ClientIDManager(self)` passes an argument to a constructor that takes none (src/scdl_cli/utils/client_id.py:15), so `get('client_id')` raises TypeError | the default configuration (`client_id` is `''`) with no `SCDL_CLIENT_ID` set | an empty stored client id gives way to the automatically obtained one when that is non-empty | not executed | Config.ResolveAsWritten, Config.DefaultClientIdFailsAsWritten | Config.Resolve, Config.AsWrittenAgrees |
| src/scdl_cli/core/sync.py:249-298 | both builders (at lines 249 and 298) call `self.config.get_client_id()`, which `ConfigManager` does not define; the AttributeError is caught at sync.py:228-229 | any playlist in the table, not a dry run, directory creatable | the builders use the configured client id | not executed | Sync.SyncCommandAsWritten, Sync.AsWrittenNeverAgrees, Sync.AsWrittenSyncAlwaysFails | Sync.SyncCommand, Sync.SyncCommandClientId, Sync.PlaylistSync.SyncPlaylist |
