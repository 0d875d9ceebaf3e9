/**
 * Playlist synchronisation: the table that maps playlist URLs to local
 * directories, the choice between a first download and an incremental
 * sync, the two `scdl` argument vectors, and how a run's outcome becomes a
 * `SyncResult` and a new `last_sync` stamp.
 *
 * The file system and the child process are inputs: `SyncWorld` says what
 * creating the directory, inspecting and deleting the archive marker, and
 * running `scdl` will give.
 */
module Sync {
  import opened Wrappers
  import opened Text
  import opened Validators
  import opened Config
  import opened Process

  /** `SyncResult`. */
  datatype SyncResult = SyncResult(success: bool, filesCount: int, error: Option<string>)

  /** The `last_sync` of a stored mapping: the key may be missing (older files), `None`, or a time stamp. */
  datatype LastSync = NoEntry | NoneYet | At(stamp: string)

  /** The value stored for one playlist URL: `{directory, added_date, last_sync}`. */
  datatype Mapping = Mapping(directory: string, addedDate: string, lastSync: LastSync)

  /** One row of `list_playlists`. `lastSync` is `None` when the stored value is `None`. */
  datatype PlaylistRecord = PlaylistRecord(url: string, directory: string, lastSync: Option<string>)

  const InvalidPlaylistUrl := "Invalid playlist URL"
  const NotAPlaylist := "URL must be a playlist (contains '/sets/')"
  const PlaylistNotFound := "Playlist not found in mappings"
  const SyncTimeout := "Sync timeout"
  const LockMarker := "Could not acquire lock"
  /** The advice `sync_playlist` gives instead of a lock report, line by line. */
  const LockAdvice1 := "File locking error detected. " + "This can happen with shared storage.\n"
  const LockAdvice2 := "Try: 1) Run 'scli clean' " + "to remove corrupted archives\n"
  const LockAdvice3 := "     2) Use a private storage path " + "like $HOME/Music/scdl\n"
  const LockAdvice4 := "     3) Or retry the sync - " + "sometimes it works on second try"
  const LockErrorText := LockAdvice1 + LockAdvice2 + LockAdvice3 + LockAdvice4
  const ArchiveName := "scdl_archive.txt"

  /** The message of the AttributeError raised at sync.py:249 and :298. */
  const NoGetClientId := "'ConfigManager'" + " object has no attribute 'get_client_id'"

  // ---------------------------------------------------------------------------
  // add_playlist's checks

  /** The outcome of `add_playlist` for a URL and what creating its directory gives. */
  function AddResult(url: string, mkdirError: Option<string>): (r: SyncResult)
    ensures r.success <==> ValidateUrl(url) && Contains(url, "/sets/") && mkdirError.None?
    ensures r.success ==> r.error.None?
    ensures r.filesCount == 0
    ensures !ValidateUrl(url) ==> r.error == Some(InvalidPlaylistUrl)
    ensures ValidateUrl(url) && !Contains(url, "/sets/") ==> r.error == Some(NotAPlaylist)
    ensures ValidateUrl(url) && Contains(url, "/sets/") && mkdirError.Some? ==>
              r.error == Some("Cannot create directory: " + mkdirError.value)
  {
    if !ValidateUrl(url) then SyncResult(false, 0, Some(InvalidPlaylistUrl))
    else if !Contains(url, "/sets/") then SyncResult(false, 0, Some(NotAPlaylist))
    else if mkdirError.Some? then SyncResult(false, 0, Some("Cannot create directory: " + mkdirError.value))
    else SyncResult(true, 0, None)
  }

  // ---------------------------------------------------------------------------
  // The ordered table

  /** No URL occurs twice. */
  predicate NoDup(s: seq<string>) {
    forall i, j :: 0 <= i < j < |s| ==> s[i] != s[j]
  }

  /** `s` without `x`, in order: the key order after `del mappings[x]`. */
  function Without(s: seq<string>, x: string): (r: seq<string>)
    ensures forall y :: y in r <==> y in s && y != x
    ensures |r| <= |s|
    ensures x !in s ==> r == s
  {
    if s == [] then []
    else (if s[0] == x then [] else [s[0]]) + Without(s[1..], x)
  }

  lemma {:induction false} WithoutNoDup(s: seq<string>, x: string)
    requires NoDup(s)
    ensures NoDup(Without(s, x))
  {
    if s != [] {
      WithoutNoDup(s[1..], x);
      var rest := Without(s[1..], x);
      assert s[0] !in rest by {
        assert s[0] !in s[1..];
      }
    }
  }

  /** Deleting a key that sits at position `i` closes the gap and keeps every other key in its order. */
  lemma {:induction false} WithoutAt(s: seq<string>, x: string, i: nat)
    requires NoDup(s)
    requires i < |s| && s[i] == x
    ensures Without(s, x) == s[..i] + s[i + 1..]
  {
    assert NoDup(s[1..]) by {
      forall a, b | 0 <= a < b < |s[1..]| ensures s[1..][a] != s[1..][b] {
        assert s[1..][a] == s[a + 1] && s[1..][b] == s[b + 1];
      }
    }
    if i == 0 {
      assert x !in s[1..] by {
        forall k | 0 <= k < |s[1..]| ensures s[1..][k] != x {
          assert s[1..][k] == s[k + 1];
        }
      }
    } else {
      assert s[0] != x;
      WithoutAt(s[1..], x, i - 1);
      assert s[1..][..i - 1] + s[1..][i..] == s[1..i] + s[i + 1..];
      assert s[..i] == [s[0]] + s[1..i];
    }
  }

  /** The key order after `d[x] = v`: a new key goes last; an existing key keeps its place. */
  function Insert(s: seq<string>, x: string): (r: seq<string>)
    ensures forall y :: y in r <==> y in s || y == x
    ensures NoDup(s) ==> NoDup(r)
    ensures x !in s ==> r == s + [x]
    ensures x in s ==> r == s
  {
    if x in s then s else s + [x]
  }

  /** One row of `list_playlists`: a missing `last_sync` reads as 'Never'. */
  function Record(url: string, m: Mapping): (r: PlaylistRecord)
    ensures r.url == url && r.directory == m.directory
    ensures m.lastSync.At? ==> r.lastSync == Some(m.lastSync.stamp)
    ensures m.lastSync == NoEntry ==> r.lastSync == Some("Never")
    ensures m.lastSync == NoneYet ==> r.lastSync == None
    ensures r.lastSync == Some("Never") ==> m.lastSync == NoEntry || m.lastSync == At("Never")
  {
    PlaylistRecord(url, m.directory,
      match m.lastSync
      case NoEntry => Some("Never")
      case NoneYet => None
      case At(stamp) => Some(stamp))
  }

  /** `list_playlists`: one row per key, in key order. */
  function Records(order: seq<string>, mappings: map<string, Mapping>): (r: seq<PlaylistRecord>)
    requires forall i :: 0 <= i < |order| ==> order[i] in mappings
    ensures |r| == |order|
    ensures forall i :: 0 <= i < |order| ==> r[i].url == order[i] && r[i].directory == mappings[order[i]].directory
    ensures forall i :: 0 <= i < |order| ==> r[i] == Record(order[i], mappings[order[i]])
  {
    if order == [] then []
    else Records(order[..|order| - 1], mappings) + [Record(order[|order| - 1], mappings[order[|order| - 1]])]
  }

  /** Adding a new playlist appends its row, `last_sync` None, and leaves the earlier rows as they were. */
  lemma RecordsAfterNewKey(order: seq<string>, mappings: map<string, Mapping>, url: string, m: Mapping)
    requires forall i :: 0 <= i < |order| ==> order[i] in mappings
    requires url !in order
    requires m.lastSync == NoneYet
    ensures forall i :: 0 <= i < |order + [url]| ==> (order + [url])[i] in mappings[url := m]
    ensures Records(order + [url], mappings[url := m]) ==
              Records(order, mappings) + [PlaylistRecord(url, m.directory, None)]
  {
    var o := order + [url];
    var ms := mappings[url := m];
    var r := Records(o, ms);
    var expected := Records(order, mappings) + [PlaylistRecord(url, m.directory, None)];
    forall i | 0 <= i < |o| ensures r[i] == expected[i] {
      if i < |order| {
        assert o[i] == order[i];
        assert o[i] != url;
      }
    }
  }

  /** Overwriting an existing playlist replaces its row in place and leaves the other rows as they were. */
  lemma RecordsAfterOverwrite(order: seq<string>, mappings: map<string, Mapping>, url: string, m: Mapping, i: nat)
    requires forall k :: 0 <= k < |order| ==> order[k] in mappings
    requires NoDup(order)
    requires i < |order| && order[i] == url
    ensures forall k :: 0 <= k < |order| ==> order[k] in mappings[url := m]
    ensures Records(order, mappings[url := m]) == Records(order, mappings)[i := Record(url, m)]
  {
    var r := Records(order, mappings[url := m]);
    var expected := Records(order, mappings)[i := Record(url, m)];
    forall k | 0 <= k < |order| ensures r[k] == expected[k] {
      if k != i {
        assert order[k] != url;
      }
    }
  }

  /** After deleting the key at position `i`, every remaining key still has its mapping. */
  lemma RemainingKeysMapped(order: seq<string>, mappings: map<string, Mapping>, url: string, i: nat)
    requires forall k :: 0 <= k < |order| ==> order[k] in mappings
    requires NoDup(order)
    requires i < |order| && order[i] == url
    ensures forall k :: 0 <= k < |Without(order, url)| ==> Without(order, url)[k] in mappings - {url}
  {
    WithoutAt(order, url, i);
    var o := order[..i] + order[i + 1..];
    forall k | 0 <= k < |o| ensures o[k] in mappings - {url} {
      if k < i {
        assert o[k] == order[k];
      } else {
        assert o[k] == order[k + 1];
      }
    }
  }

  /** Removing a playlist drops its row and leaves the other rows as they were, in their order. */
  lemma RecordsAfterRemove(order: seq<string>, mappings: map<string, Mapping>, url: string, i: nat)
    requires forall k :: 0 <= k < |order| ==> order[k] in mappings
    requires NoDup(order)
    requires i < |order| && order[i] == url
    ensures forall k :: 0 <= k < |Without(order, url)| ==> Without(order, url)[k] in mappings - {url}
    ensures Records(Without(order, url), mappings - {url}) ==
              Records(order, mappings)[..i] + Records(order, mappings)[i + 1..]
  {
    RemainingKeysMapped(order, mappings, url, i);
    WithoutAt(order, url, i);
    var o := order[..i] + order[i + 1..];
    var before := Records(order, mappings);
    var expected := before[..i] + before[i + 1..];
    var r := Records(o, mappings - {url});
    forall k | 0 <= k < |o| ensures r[k] == expected[k] {
      var j := if k < i then k else k + 1;
      assert o[k] == order[j] && expected[k] == before[j];
      assert order[j] != url;
    }
  }

  // ---------------------------------------------------------------------------
  // The archive marker

  /** What inspecting `<directory>/scdl_archive.txt` finds. */
  datatype ArchiveState =
    | Absent
    | Present(size: nat)
    | Unstatable            // `stat()` raised

  datatype SyncMode = FirstSync | Incremental

  /**
   * The archive check: an archive of ten bytes or more means an incremental
   * sync; anything else means a first sync. An archive of one to nine bytes
   * is taken for corrupt and deleted (when `unlink` succeeds); an empty one
   * is kept.
   */
  function InspectArchive(archive: ArchiveState, unlinkOk: bool): (r: (SyncMode, ArchiveState))
    ensures r.0 == Incremental <==> archive.Present? && archive.size >= 10
    ensures r.1 == (if archive.Present? && 0 < archive.size < 10 && unlinkOk then Absent else archive)
  {
    match archive
    case Absent => (FirstSync, Absent)
    case Unstatable => (FirstSync, Unstatable)
    case Present(size) =>
      if size == 0 then (FirstSync, archive)
      else if size < 10 then (FirstSync, if unlinkOk then Absent else archive)
      else (Incremental, archive)
  }

  // ---------------------------------------------------------------------------
  // The two argument vectors

  /** `str(Path(directory) / name)` for a directory that is already in normal form. */
  function JoinPath(directory: string, name: string): string {
    if directory == "" then name
    else if directory[|directory| - 1] == '/' then directory + name
    else directory + "/" + name
  }

  function ArchiveFlag(mode: SyncMode): string {
    match mode
    case FirstSync => "--download-archive"
    case Incremental => "--sync"
  }

  /** `--original-art` and `--original-name`, each unless the `sync` table turns it off. */
  function ArtArgs(section: map<string, Value>): seq<string> {
    (if Truthy(Lookup(section, "original_art", Bool(true))) then ["--original-art"] else []) +
    (if Truthy(Lookup(section, "original_name", Bool(true))) then ["--original-name"] else [])
  }

  function FormatArgs(format: Value): seq<string> {
    if format == Str("flac") then ["--flac"]
    else if format == Str("opus") then ["--opus"]
    else []
  }

  /** The AttributeError `sync_config.get(...)` raises when the `sync` setting is not a table. */
  function NoAttributeGet(v: Value): string {
    "'" + TypeName(v) + "' object has no attribute 'get'"
  }

  /**
   * The vector `_build_initial_sync_command` (first sync) or
   * `_build_sync_command` (incremental) returns, given the client id and the
   * `sync` and `format` settings; a `sync` setting that is not a table makes
   * the builder raise.
   */
  function SyncCommand(mode: SyncMode, url: string, directory: string, clientId: Option<string>,
                       section: Value, format: Value): Result<seq<string>, string>
  {
    match section
    case Table(entries) =>
      Success(HeadArgs(url, directory) + ClientIdArgs(clientId) + ArchiveArgs(mode, directory) +
              ArtArgs(entries) + FixedArgs + FormatArgs(format))
    case _ => Failure(NoAttributeGet(section))
  }

  function HeadArgs(url: string, directory: string): seq<string> {
    ["scdl", "-l", url, "--path", directory]
  }

  /** The archive pair, then `--debug`. */
  function ArchiveArgs(mode: SyncMode, directory: string): seq<string> {
    [ArchiveFlag(mode), JoinPath(directory, ArchiveName), "--debug"]
  }

  const FixedArgs: seq<string> := ["--force-metadata", "--addtofile"]

  /** The builders as written: both raise at the call of the missing `get_client_id`. */
  function SyncCommandAsWritten(mode: SyncMode, url: string, directory: string,
                                section: Value, format: Value): Result<seq<string>, string>
  {
    Failure(NoGetClientId)
  }

  /**
   * Whatever the client id and the settings, the builders as written never
   * give what the corrected builders give: no vector, and not the error a
   * malformed `sync` setting would raise either.
   */
  lemma AsWrittenNeverAgrees(mode: SyncMode, url: string, directory: string, clientId: Option<string>,
                             section: Value, format: Value)
    ensures SyncCommandAsWritten(mode, url, directory, section, format).Failure?
    ensures SyncCommandAsWritten(mode, url, directory, section, format) !=
              SyncCommand(mode, url, directory, clientId, section, format)
  {
    if !section.Table? {
      assert NoAttributeGet(section)[1] == TypeName(section)[0];
      assert NoGetClientId[1] == 'C';
    }
  }

  lemma JoinPathNotFlag(directory: string, name: string)
    requires !IsFlag(directory) && !IsFlag(name)
    requires name != [] && name[0] != '-'
    ensures !IsFlag(JoinPath(directory, name))
  {
    var p := JoinPath(directory, name);
    if |directory| >= 2 {
      assert p[..2] == directory[..2];
    } else if |directory| == 1 {
      assert p[1] == '/' || p[1] == name[0];
    }
  }

  /** Both vectors start with the program, the URL and the directory, followed by the client-id pair when there is a client id. */
  lemma SyncCommandStart(mode: SyncMode, url: string, directory: string, clientId: Option<string>,
                         entries: map<string, Value>, format: Value)
    ensures var r := SyncCommand(mode, url, directory, clientId, Table(entries), format);
      && r.Success? && |r.value| >= 10
      && r.value[..5] == ["scdl", "-l", url, "--path", directory]
      && (clientId.Some? && clientId.value != "" ==> r.value[5..7] == ["--client-id", clientId.value])
  {
    var cmd := SyncCommand(mode, url, directory, clientId, Table(entries), format).value;
    var head := HeadArgs(url, directory) + ClientIdArgs(clientId);
    var rest := ArchiveArgs(mode, directory) + ArtArgs(entries) + FixedArgs + FormatArgs(format);
    assert cmd == head + rest;
    assert cmd[..|head|] == head;
    assert cmd[..5] == head[..5];
    if clientId.Some? && clientId.value != "" {
      assert cmd[5..7] == head[5..7];
    }
  }

  /**
   * Which option-like arguments a vector holds when the URL, the directory
   * and the client id do not themselves look like options.
   */
  lemma SyncCommandFlags(mode: SyncMode, url: string, directory: string, clientId: Option<string>,
                         entries: map<string, Value>, format: Value, f: string)
    requires !IsFlag(url) && !IsFlag(directory) && (clientId.Some? ==> !IsFlag(clientId.value))
    requires IsFlag(f)
    ensures SyncCommand(mode, url, directory, clientId, Table(entries), format).Success?
    ensures f in SyncCommand(mode, url, directory, clientId, Table(entries), format).value <==>
      || f == "--path"
      || (f == "--client-id" && clientId.Some? && clientId.value != "")
      || f == ArchiveFlag(mode) || f == "--debug"
      || f in ArtArgs(entries) || f in FixedArgs || f in FormatArgs(format)
  {
    assert ArchiveName[..2] == "sc";
    JoinPathNotFlag(directory, ArchiveName);
    assert "-l"[..2][1] != "--"[1];
    assert !IsFlag("scdl") && !IsFlag("-l");
    assert f in HeadArgs(url, directory) <==> f == "--path";
    assert f in ClientIdArgs(clientId) <==> f == "--client-id" && clientId.Some? && clientId.value != "";
    assert f in ArchiveArgs(mode, directory) <==> f == ArchiveFlag(mode) || f == "--debug";
  }

  /** The client-id option appears exactly when the client id is non-empty. */
  lemma SyncCommandClientId(mode: SyncMode, url: string, directory: string, clientId: Option<string>,
                            entries: map<string, Value>, format: Value)
    requires !IsFlag(url) && !IsFlag(directory) && (clientId.Some? ==> !IsFlag(clientId.value))
    ensures "--client-id" in SyncCommand(mode, url, directory, clientId, Table(entries), format).value <==>
              clientId.Some? && clientId.value != ""
  {
    SyncCommandFlags(mode, url, directory, clientId, entries, format, "--client-id");
  }

  /** `--debug`, `--force-metadata` and `--addtofile` are always there. */
  lemma SyncCommandFixed(mode: SyncMode, url: string, directory: string, clientId: Option<string>,
                         entries: map<string, Value>, format: Value)
    ensures var r := SyncCommand(mode, url, directory, clientId, Table(entries), format);
      r.Success? && "--debug" in r.value && "--force-metadata" in r.value && "--addtofile" in r.value
  {
    var cmd := SyncCommand(mode, url, directory, clientId, Table(entries), format).value;
    var a := HeadArgs(url, directory) + ClientIdArgs(clientId) + ArchiveArgs(mode, directory);
    var b := ArtArgs(entries) + FixedArgs;
    assert cmd == a + b + FormatArgs(format);
    assert "--debug" in a;
    assert "--force-metadata" in b && "--addtofile" in b;
  }

  /** `--original-art` and `--original-name` appear unless the `sync` table turns them off. */
  lemma SyncCommandArt(mode: SyncMode, url: string, directory: string, clientId: Option<string>,
                       entries: map<string, Value>, format: Value)
    requires !IsFlag(url) && !IsFlag(directory) && (clientId.Some? ==> !IsFlag(clientId.value))
    ensures var cmd := SyncCommand(mode, url, directory, clientId, Table(entries), format).value;
      && ("--original-art" in cmd <==> Truthy(Lookup(entries, "original_art", Bool(true))))
      && ("--original-name" in cmd <==> Truthy(Lookup(entries, "original_name", Bool(true))))
  {
    SyncCommandFlags(mode, url, directory, clientId, entries, format, "--original-art");
    SyncCommandFlags(mode, url, directory, clientId, entries, format, "--original-name");
  }

  /** `--flac` and `--opus` appear only for those formats; any other format adds nothing. */
  lemma SyncCommandFormat(mode: SyncMode, url: string, directory: string, clientId: Option<string>,
                          entries: map<string, Value>, format: Value)
    requires !IsFlag(url) && !IsFlag(directory) && (clientId.Some? ==> !IsFlag(clientId.value))
    ensures var cmd := SyncCommand(mode, url, directory, clientId, Table(entries), format).value;
      && ("--flac" in cmd <==> format == Str("flac"))
      && ("--opus" in cmd <==> format == Str("opus"))
      && (format != Str("flac") && format != Str("opus") ==>
            cmd == HeadArgs(url, directory) + ClientIdArgs(clientId) + ArchiveArgs(mode, directory) + ArtArgs(entries) + FixedArgs)
  {
    SyncCommandFlags(mode, url, directory, clientId, entries, format, "--flac");
    SyncCommandFlags(mode, url, directory, clientId, entries, format, "--opus");
  }

  /** A first sync carries `--download-archive` and an incremental one `--sync`, never both. */
  lemma SyncCommandArchive(mode: SyncMode, url: string, directory: string, clientId: Option<string>,
                           entries: map<string, Value>, format: Value)
    requires !IsFlag(url) && !IsFlag(directory) && (clientId.Some? ==> !IsFlag(clientId.value))
    ensures var cmd := SyncCommand(mode, url, directory, clientId, Table(entries), format).value;
      && ("--sync" in cmd <==> mode == Incremental)
      && ("--download-archive" in cmd <==> mode == FirstSync)
  {
    SyncCommandFlags(mode, url, directory, clientId, entries, format, "--sync");
    SyncCommandFlags(mode, url, directory, clientId, entries, format, "--download-archive");
  }

  /** Replacing the first element of a middle part of a concatenation. */
  lemma UpdateMiddle(head: seq<string>, mid: seq<string>, tail: seq<string>, v: string)
    requires mid != []
    ensures (head + mid + tail)[|head| := v] == head + mid[0 := v] + tail
    ensures forall j :: 0 <= j < |mid| ==> (head + mid + tail)[|head| + j] == mid[j]
  {
  }

  /** A successful vector, grouped around its archive arguments. */
  lemma SyncCommandAround(mode: SyncMode, url: string, directory: string, clientId: Option<string>,
                          entries: map<string, Value>, format: Value)
    ensures SyncCommand(mode, url, directory, clientId, Table(entries), format).value ==
            (HeadArgs(url, directory) + ClientIdArgs(clientId)) + ArchiveArgs(mode, directory) +
            (ArtArgs(entries) + FixedArgs + FormatArgs(format))
  {
  }

  /**
   * The two builders give vectors that differ in one place only: the
   * archive flag, `--download-archive` for a first sync and `--sync` for an
   * incremental one, just before the archive path. Both fail alike on a bad
   * `sync` setting.
   */
  lemma BuildersDifferOnlyInArchiveFlag(url: string, directory: string, clientId: Option<string>,
                                        section: Value, format: Value)
    ensures var first := SyncCommand(FirstSync, url, directory, clientId, section, format);
      var incremental := SyncCommand(Incremental, url, directory, clientId, section, format);
      var k := 5 + |ClientIdArgs(clientId)|;
      && first.Success? == incremental.Success?
      && (first.Failure? ==> first == incremental)
      && (first.Success? ==>
            && k + 1 < |incremental.value|
            && incremental.value[k] == "--sync"
            && incremental.value[k + 1] == JoinPath(directory, ArchiveName)
            && first.value == incremental.value[k := "--download-archive"])
  {
    if section.Table? {
      var head := HeadArgs(url, directory) + ClientIdArgs(clientId);
      var tail := ArtArgs(section.entries) + FixedArgs + FormatArgs(format);
      SyncCommandAround(FirstSync, url, directory, clientId, section.entries, format);
      SyncCommandAround(Incremental, url, directory, clientId, section.entries, format);
      assert ArchiveArgs(FirstSync, directory) == ArchiveArgs(Incremental, directory)[0 := "--download-archive"];
      UpdateMiddle(head, ArchiveArgs(Incremental, directory), tail, "--download-archive");
    }
  }

  // ---------------------------------------------------------------------------
  // From a run's outcome to a SyncResult

  /** A failed run's message, replaced by the fixed advice when it reports a lock. */
  function LockAware(message: string): (r: string)
    ensures r == message || r == LockErrorText
    ensures r == message <==> !Contains(message, LockMarker)
    ensures !Contains(r, LockMarker)
  {
    LockAdviceHasNoMarker();
    if Contains(message, LockMarker) then LockErrorText else message
  }

  /** The advice text does not itself report a lock, so replacing a message by it is stable. */
  lemma LockAdviceHasNoMarker()
    ensures !Contains(LockErrorText, LockMarker)
  {
    NoCapitalInAdvice();
    NoFirstCharNoContains(LockErrorText, LockMarker);
  }

  lemma NoCapitalInAdvice()
    ensures LockMarker[0] == 'C' && 'C' !in LockErrorText
  {
    NoCapitalInAdvice12();
    NoCapitalInAdvice34();
  }

  lemma NoCapitalInAdvice12()
    ensures 'C' !in LockAdvice1 + LockAdvice2
  {
    NoCapitalInAdvice1();
  }

  lemma NoCapitalInAdvice1()
    ensures 'C' !in LockAdvice1
  {
  }

  lemma NoCapitalInAdvice34()
    ensures 'C' !in LockAdvice3 + LockAdvice4
  {
    NoCapitalInAdvice3();
  }

  lemma NoCapitalInAdvice3()
    ensures 'C' !in LockAdvice3
  {
  }

  /**
   * The `try` block once the command is built: exit code 0 is a success
   * counting `newFiles` (what `_count_new_files` finds); any other outcome
   * is a failure with its message.
   */
  function OutcomeResult(outcome: RunOutcome, newFiles: nat): (r: SyncResult)
    ensures r.success <==> outcome.Exited? && outcome.code == 0
    ensures r.success ==> r.filesCount == newFiles && r.error.None?
    ensures !r.success ==> r.filesCount == 0 && r.error.Some?
    ensures !r.success && !outcome.Crashed? ==> r.error.value != ""
  {
    match outcome
    case Exited(code, stdout, stderr) =>
      if code == 0 then SyncResult(true, newFiles, None)
      else SyncResult(false, 0, Some(LockAware(ErrorDetail(stdout, stderr))))
    case TimedOut => SyncResult(false, 0, Some(SyncTimeout))
    case ExecutableMissing => SyncResult(false, 0, Some(ScdlNotFound))
    case Crashed(message) => SyncResult(false, 0, Some(message))
  }

  /** The messages of the failures. */
  lemma OutcomeMessages(outcome: RunOutcome, newFiles: nat)
    ensures outcome == TimedOut ==> OutcomeResult(outcome, newFiles).error == Some(SyncTimeout)
    ensures outcome == ExecutableMissing ==> OutcomeResult(outcome, newFiles).error == Some(ScdlNotFound)
    ensures outcome.Exited? && outcome.code != 0 ==>
      var detail := ErrorDetail(outcome.stdout, outcome.stderr);
      OutcomeResult(outcome, newFiles).error == Some(if Contains(detail, LockMarker) then LockErrorText else detail)
    ensures outcome.Crashed? ==> OutcomeResult(outcome, newFiles).error == Some(outcome.message)
  {
  }

  /** A lock report in stderr wins over anything in stdout. */
  lemma LockInStderr(code: int, stdout: string, stderr: string, newFiles: nat)
    requires code != 0 && Contains(stderr, LockMarker)
    ensures OutcomeResult(Exited(code, stdout, stderr), newFiles).error == Some(LockErrorText)
  {
  }

  /** The whole `try` block: a builder that raises gives a failure with the exception's message. */
  function RunStep(cmd: Result<seq<string>, string>, outcome: RunOutcome, newFiles: nat): (r: SyncResult)
    ensures r.success <==> cmd.Success? && outcome.Exited? && outcome.code == 0
    ensures r.success ==> r.filesCount == newFiles && r.error.None?
    ensures !r.success ==> r.filesCount == 0 && r.error.Some?
    ensures cmd.Failure? ==> r.error == Some(cmd.error)
  {
    match cmd
    case Failure(e) => SyncResult(false, 0, Some(e))
    case Success(_) => OutcomeResult(outcome, newFiles)
  }

  // ---------------------------------------------------------------------------
  // sync_playlist as a function of the table and the world

  /** What the file system and the child process will do during one `sync_playlist`. */
  datatype SyncWorld = SyncWorld(
    mkdirError: Option<string>,  // `dir_path.mkdir(...)` raises this, outside any `try`
    archive: ArchiveState,
    unlinkOk: bool,              // deleting a corrupt archive succeeds
    outcome: RunOutcome,
    newFiles: nat,               // `_count_new_files`
    now: string)                 // `datetime.now().isoformat()`

  /** Which builder is used: the code as written, or the corrected one fed with a client id and the settings. */
  datatype Builder =
    | AsWritten
    | Corrected(clientId: Option<string>, section: Value, format: Value)

  function BuildFor(b: Builder, mode: SyncMode, url: string, directory: string): Result<seq<string>, string> {
    match b
    case AsWritten => SyncCommandAsWritten(mode, url, directory, Null, Null)
    case Corrected(clientId, section, format) => SyncCommand(mode, url, directory, clientId, section, format)
  }

  /** What one `sync_playlist` returns or raises, the new table, the archive marker afterwards, and the vector run (if any). */
  datatype SyncStepOut = SyncStepOut(
    result: Result<SyncResult, string>,
    mappings: map<string, Mapping>,
    archive: ArchiveState,
    ran: Option<seq<string>>)

  function SyncStep(mappings: map<string, Mapping>, url: string, dryRun: bool, b: Builder, w: SyncWorld): SyncStepOut {
    if url !in mappings then
      SyncStepOut(Success(SyncResult(false, 0, Some(PlaylistNotFound))), mappings, w.archive, None)
    else if w.mkdirError.Some? then
      SyncStepOut(Failure(w.mkdirError.value), mappings, w.archive, None)
    else
      var mapping := mappings[url];
      var (mode, after) := InspectArchive(w.archive, w.unlinkOk);
      if dryRun then
        SyncStepOut(Success(SyncResult(true, 0, None)), mappings, after, None)
      else
        var cmd := BuildFor(b, mode, url, mapping.directory);
        var r := RunStep(cmd, w.outcome, w.newFiles);
        SyncStepOut(Success(r),
                    if r.success then mappings[url := mapping.(lastSync := At(w.now))] else mappings,
                    after,
                    if cmd.Success? then Some(cmd.value) else None)
  }

  /** An unknown URL fails before any directory or archive action, and changes nothing. */
  lemma UnknownUrlFails(mappings: map<string, Mapping>, url: string, dryRun: bool, b: Builder, w: SyncWorld)
    requires url !in mappings
    ensures SyncStep(mappings, url, dryRun, b, w) ==
              SyncStepOut(Success(SyncResult(false, 0, Some(PlaylistNotFound))), mappings, w.archive, None)
  {
  }

  /**
   * A dry run succeeds with no files and no run, and never changes the
   * table; the archive check still happens first, so a corrupt archive is
   * deleted all the same.
   */
  lemma DryRunTouchesOnlyArchive(mappings: map<string, Mapping>, url: string, b: Builder, w: SyncWorld)
    requires url in mappings && w.mkdirError.None?
    ensures var out := SyncStep(mappings, url, true, b, w);
      && out.result == Success(SyncResult(true, 0, None))
      && out.mappings == mappings
      && out.ran.None?
      && out.archive == InspectArchive(w.archive, w.unlinkOk).1
  {
  }

  /** A sync changes at most the `last_sync` of its own URL: no key is added or removed, no other entry changes. */
  lemma SyncTouchesOnlyLastSync(mappings: map<string, Mapping>, url: string, dryRun: bool, b: Builder, w: SyncWorld)
    ensures var out := SyncStep(mappings, url, dryRun, b, w);
      && out.mappings.Keys == mappings.Keys
      && (forall u :: u in mappings && u != url ==> out.mappings[u] == mappings[u])
      && (url in mappings ==> out.mappings[url] == mappings[url].(lastSync := out.mappings[url].lastSync))
  {
  }

  /** `last_sync` is stamped exactly when the run succeeds; a failed or skipped run leaves the table alone. */
  lemma LastSyncOnSuccess(mappings: map<string, Mapping>, url: string, dryRun: bool, b: Builder, w: SyncWorld)
    ensures var out := SyncStep(mappings, url, dryRun, b, w);
      && (out.mappings != mappings ==> out.result.Success? && out.result.value.success && !dryRun)
      && (!dryRun && out.result.Success? && out.result.value.success ==>
            out.mappings == mappings[url := mappings[url].(lastSync := At(w.now))])
  {
  }

  /** The vector that is run is the incremental one exactly when the archive holds ten bytes or more. */
  lemma ModeFollowsArchive(mappings: map<string, Mapping>, url: string, clientId: Option<string>,
                           section: Value, format: Value, w: SyncWorld)
    requires url in mappings && w.mkdirError.None?
    ensures var out := SyncStep(mappings, url, false, Corrected(clientId, section, format), w);
      var mode := if w.archive.Present? && w.archive.size >= 10 then Incremental else FirstSync;
      out.ran == (match SyncCommand(mode, url, mappings[url].directory, clientId, section, format)
                  case Success(cmd) => Some(cmd)
                  case Failure(_) => None)
  {
  }

  /**
   * As written, every sync that gets past the dry-run check fails with the
   * AttributeError of the missing `get_client_id`, whatever `scdl` would
   * have done, runs nothing and never stamps `last_sync`.
   */
  lemma AsWrittenSyncAlwaysFails(mappings: map<string, Mapping>, url: string, w: SyncWorld)
    requires url in mappings && w.mkdirError.None?
    ensures var out := SyncStep(mappings, url, false, AsWritten, w);
      && out.result == Success(SyncResult(false, 0, Some(NoGetClientId)))
      && out.mappings == mappings
      && out.ran.None?
  {
  }

  // ---------------------------------------------------------------------------
  // sync_all as a fold

  /** The results of syncing `urls[i..]` in order from `mappings`, with `results` so far; an exception ends the loop. */
  function SyncFold(urls: seq<string>, i: nat, mappings: map<string, Mapping>, results: map<string, SyncResult>,
                    dryRun: bool, b: Builder, worlds: seq<SyncWorld>): (Result<map<string, SyncResult>, string>, map<string, Mapping>)
    requires i <= |urls| == |worlds|
    decreases |urls| - i
  {
    if i == |urls| then (Success(results), mappings)
    else
      var out := SyncStep(mappings, urls[i], dryRun, b, worlds[i]);
      match out.result
      case Failure(e) => (Failure(e), out.mappings)
      case Success(r) => SyncFold(urls, i + 1, out.mappings, results[urls[i] := r], dryRun, b, worlds)
  }

  /** When `sync_all` returns, it has one result for every URL it went through. */
  lemma {:induction false} SyncFoldKeys(urls: seq<string>, i: nat, mappings: map<string, Mapping>,
                                        results: map<string, SyncResult>, dryRun: bool, b: Builder, worlds: seq<SyncWorld>)
    requires i <= |urls| == |worlds|
    ensures var r := SyncFold(urls, i, mappings, results, dryRun, b, worlds).0;
      r.Success? ==> r.value.Keys == results.Keys + set k | i <= k < |urls| :: urls[k]
    decreases |urls| - i
  {
    if i < |urls| {
      var out := SyncStep(mappings, urls[i], dryRun, b, worlds[i]);
      if out.result.Success? {
        SyncFoldKeys(urls, i + 1, out.mappings, results[urls[i] := out.result.value], dryRun, b, worlds);
        assert (set k | i <= k < |urls| :: urls[k]) == {urls[i]} + set k | i + 1 <= k < |urls| :: urls[k];
      }
    }
  }

  /** `sync_all` never adds or removes a playlist. */
  lemma {:induction false} SyncFoldKeepsKeys(urls: seq<string>, i: nat, mappings: map<string, Mapping>,
                                             results: map<string, SyncResult>, dryRun: bool, b: Builder, worlds: seq<SyncWorld>)
    requires i <= |urls| == |worlds|
    ensures SyncFold(urls, i, mappings, results, dryRun, b, worlds).1.Keys == mappings.Keys
    decreases |urls| - i
  {
    if i < |urls| {
      var out := SyncStep(mappings, urls[i], dryRun, b, worlds[i]);
      SyncTouchesOnlyLastSync(mappings, urls[i], dryRun, b, worlds[i]);
      if out.result.Success? {
        SyncFoldKeepsKeys(urls, i + 1, out.mappings, results[urls[i] := out.result.value], dryRun, b, worlds);
      }
    }
  }

  /** A dry `sync_all` leaves the table exactly as it was. */
  lemma {:induction false} DryFoldKeepsTable(urls: seq<string>, i: nat, mappings: map<string, Mapping>,
                                             results: map<string, SyncResult>, b: Builder, worlds: seq<SyncWorld>)
    requires i <= |urls| == |worlds|
    ensures SyncFold(urls, i, mappings, results, true, b, worlds).1 == mappings
    decreases |urls| - i
  {
    if i < |urls| {
      var out := SyncStep(mappings, urls[i], true, b, worlds[i]);
      LastSyncOnSuccess(mappings, urls[i], true, b, worlds[i]);
      if out.result.Success? {
        DryFoldKeepsTable(urls, i + 1, out.mappings, results[urls[i] := out.result.value], b, worlds);
      }
    }
  }

  // ---------------------------------------------------------------------------
  // PlaylistSync

  /**
   * `PlaylistSync`. `order` and `mappings` together are the Python dict
   * `self.mappings`: `order` is its key order. `normalise` stands for
   * `str(Path(d).expanduser().absolute())`.
   */
  class PlaylistSync {
    var order: seq<string>
    var mappings: map<string, Mapping>
    const config: ConfigManager
    const normalise: string -> string

    ghost predicate Valid()
      reads this
    {
      NoDup(order) && forall u :: u in mappings <==> u in order
    }

    /** `__init__` with the table `_load_mappings` read (empty when there is no file). */
    constructor (config: ConfigManager, normalise: string -> string,
                 loadedOrder: seq<string>, loaded: map<string, Mapping>)
      requires NoDup(loadedOrder) && forall u :: u in loaded <==> u in loadedOrder
      ensures Valid()
      ensures order == loadedOrder && mappings == loaded
      ensures this.config == config && this.normalise == normalise
    {
      order := loadedOrder;
      mappings := loaded;
      this.config := config;
      this.normalise := normalise;
    }

    /** `add_playlist(url, directory)`; `mkdirError` is what creating the directory raises, `now` the time stamp. */
    method AddPlaylist(url: string, directory: string, mkdirError: Option<string>, now: string) returns (r: SyncResult)
      requires Valid()
      modifies this
      ensures Valid()
      ensures r == AddResult(url, mkdirError)
      ensures r.success ==> mappings == old(mappings)[url := Mapping(normalise(directory), now, NoneYet)]
      ensures r.success ==> order == Insert(old(order), url)
      ensures !r.success ==> mappings == old(mappings) && order == old(order)
    {
      if !ValidateUrl(url) {
        return SyncResult(false, 0, Some(InvalidPlaylistUrl));
      }
      if !Contains(url, "/sets/") {
        return SyncResult(false, 0, Some(NotAPlaylist));
      }
      var dirPath := normalise(directory);
      if mkdirError.Some? {
        return SyncResult(false, 0, Some("Cannot create directory: " + mkdirError.value));
      }
      mappings := mappings[url := Mapping(dirPath, now, NoneYet)];
      order := Insert(order, url);
      r := SyncResult(true, 0, None);
    }

    /** `remove_playlist(url)`. */
    method RemovePlaylist(url: string) returns (r: SyncResult)
      requires Valid()
      modifies this
      ensures Valid()
      ensures r.success <==> url in old(mappings)
      ensures r.filesCount == 0
      ensures r.success ==> r.error.None? && mappings == old(mappings) - {url} && order == Without(old(order), url)
      ensures !r.success ==> r.error == Some(PlaylistNotFound) && mappings == old(mappings) && order == old(order)
    {
      if url !in mappings {
        return SyncResult(false, 0, Some(PlaylistNotFound));
      }
      WithoutNoDup(order, url);
      mappings := mappings - {url};
      order := Without(order, url);
      r := SyncResult(true, 0, None);
    }

    /** `list_playlists()`. */
    function ListPlaylists(): (r: seq<PlaylistRecord>)
      reads this
      requires Valid()
      ensures |r| == |order|
      ensures forall i :: 0 <= i < |order| ==> r[i] == Record(order[i], mappings[order[i]])
    {
      Records(order, mappings)
    }

    /** The setting the builders read for the `sync` table. */
    function SyncSection(): Value
      reads config
    {
      config.Get("sync", Table(map[]))
    }

    function FormatSetting(): Value
      reads config
    {
      config.Get("format", Str("mp3"))
    }

    /** `_build_sync_command`, with the client id supplied (the source asks a getter that does not exist). */
    method BuildSyncCommand(url: string, directory: string, clientId: Option<string>) returns (r: Result<seq<string>, string>)
      ensures r == SyncCommand(Incremental, url, directory, clientId, SyncSection(), FormatSetting())
    {
      r := BuildCommand(Incremental, url, directory, clientId);
    }

    /** `_build_initial_sync_command`, with the client id supplied. */
    method BuildInitialSyncCommand(url: string, directory: string, clientId: Option<string>) returns (r: Result<seq<string>, string>)
      ensures r == SyncCommand(FirstSync, url, directory, clientId, SyncSection(), FormatSetting())
    {
      r := BuildCommand(FirstSync, url, directory, clientId);
    }

    /** The steps both builders share; they differ only in the archive flag. */
    method BuildCommand(mode: SyncMode, url: string, directory: string, clientId: Option<string>) returns (r: Result<seq<string>, string>)
      ensures r == SyncCommand(mode, url, directory, clientId, SyncSection(), FormatSetting())
    {
      var cmd := ["scdl"];
      cmd := cmd + ["-l", url];
      cmd := cmd + ["--path", directory];
      assert cmd == HeadArgs(url, directory);
      if clientId.Some? && clientId.value != "" {
        cmd := cmd + ["--client-id", clientId.value];
      }
      assert cmd == HeadArgs(url, directory) + ClientIdArgs(clientId);
      var beforeArchive := cmd;
      cmd := cmd + [ArchiveFlag(mode), JoinPath(directory, ArchiveName)];
      cmd := cmd + ["--debug"];
      assert cmd == beforeArchive + ArchiveArgs(mode, directory);
      var section := config.Get("sync", Table(map[]));
      if !section.Table? {
        return Failure(NoAttributeGet(section));
      }
      var beforeArt := cmd;
      if Truthy(Lookup(section.entries, "original_art", Bool(true))) {
        cmd := cmd + ["--original-art"];
      }
      if Truthy(Lookup(section.entries, "original_name", Bool(true))) {
        cmd := cmd + ["--original-name"];
      }
      assert cmd == beforeArt + ArtArgs(section.entries);
      var beforeFixed := cmd;
      cmd := cmd + ["--force-metadata"];
      cmd := cmd + ["--addtofile"];
      assert cmd == beforeFixed + FixedArgs;
      var beforeFormat := cmd;
      var format := config.Get("format", Str("mp3"));
      if format == Str("flac") {
        cmd := cmd + ["--flac"];
      } else if format == Str("opus") {
        cmd := cmd + ["--opus"];
      }
      assert cmd == beforeFormat + FormatArgs(format);
      r := Success(cmd);
    }

    /** `sync_playlist(url, dry_run)`: `res` is a Failure when an exception escapes it. */
    method SyncPlaylist(url: string, dryRun: bool, clientId: Option<string>, w: SyncWorld)
      returns (res: Result<SyncResult, string>, archiveAfter: ArchiveState, ran: Option<seq<string>>)
      requires Valid()
      modifies this
      ensures Valid() && order == old(order)
      ensures var out := SyncStep(old(mappings), url, dryRun, Corrected(clientId, SyncSection(), FormatSetting()), w);
        res == out.result && mappings == out.mappings && archiveAfter == out.archive && ran == out.ran
    {
      archiveAfter, ran := w.archive, None;
      if url !in mappings {
        return Success(SyncResult(false, 0, Some(PlaylistNotFound))), archiveAfter, ran;
      }
      var mapping := mappings[url];
      var directory := mapping.directory;
      if w.mkdirError.Some? {
        return Failure(w.mkdirError.value), archiveAfter, ran;
      }
      var inspected := InspectArchive(w.archive, w.unlinkOk);
      var mode := inspected.0;
      archiveAfter := inspected.1;
      if dryRun {
        return Success(SyncResult(true, 0, None)), archiveAfter, ran;
      }
      var cmd;
      if mode == FirstSync {
        cmd := BuildInitialSyncCommand(url, directory, clientId);
      } else {
        cmd := BuildSyncCommand(url, directory, clientId);
      }
      if cmd.Failure? {
        return Success(SyncResult(false, 0, Some(cmd.error))), archiveAfter, ran;
      }
      ran := Some(cmd.value);
      match w.outcome {
        case Exited(code, stdout, stderr) =>
          if code == 0 {
            mappings := mappings[url := mapping.(lastSync := At(w.now))];
            res := Success(SyncResult(true, w.newFiles, None));
          } else {
            var message := ErrorDetail(stdout, stderr);
            if Contains(message, LockMarker) {
              message := LockErrorText;
            }
            res := Success(SyncResult(false, 0, Some(message)));
          }
        case TimedOut =>
          res := Success(SyncResult(false, 0, Some(SyncTimeout)));
        case ExecutableMissing =>
          res := Success(SyncResult(false, 0, Some(ScdlNotFound)));
        case Crashed(message) =>
          res := Success(SyncResult(false, 0, Some(message)));
      }
    }

    /** `sync_all(dry_run)`: one `sync_playlist` per key, in key order; `worlds[i]` is what the i-th one meets. */
    method SyncAll(dryRun: bool, clientId: Option<string>, worlds: seq<SyncWorld>)
      returns (res: Result<map<string, SyncResult>, string>)
      requires Valid()
      requires |worlds| == |order|
      modifies this
      ensures Valid() && order == old(order)
      ensures var b := Corrected(clientId, SyncSection(), FormatSetting());
        (res, mappings) == SyncFold(old(order), 0, old(mappings), map[], dryRun, b, worlds)
    {
      var b := Corrected(clientId, SyncSection(), FormatSetting());
      var urls := order;
      var results: map<string, SyncResult> := map[];
      var i := 0;
      while i < |urls|
        invariant 0 <= i <= |urls| == |worlds|
        invariant Valid() && order == urls && urls == old(order)
        invariant SyncFold(urls, i, mappings, results, dryRun, b, worlds) ==
                  SyncFold(urls, 0, old(mappings), map[], dryRun, b, worlds)
        decreases |urls| - i
      {
        var r, _, _ := SyncPlaylist(urls[i], dryRun, clientId, worlds[i]);
        if r.Failure? {
          return Failure(r.error);
        }
        results := results[urls[i] := r.value];
        i := i + 1;
      }
      res := Success(results);
    }
  }
}
