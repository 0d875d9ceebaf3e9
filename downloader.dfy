/**
 * The downloader: `ScdlWrapper` turns keyword options into an `scdl`
 * argument vector, runs it, maps the outcome to a `DownloadResult`, counts
 * the audio files left behind, and aggregates the results of a batch.
 * Running the process, listing the output directory and the thread pool
 * are inputs: a `DownloadWorld` says what one download meets, and a batch
 * receives its downloads in completion order.
 */
module Downloader {
  import opened Wrappers
  import opened Text
  import opened Validators
  import opened Config
  import opened Process

  datatype DownloadResult = DownloadResult(
    success: bool,
    filesCount: int,
    outputPath: Option<string>,
    error: Option<string>)

  /**
   * The keyword options `download` reads. `None` stands for a key that is
   * absent; the three download-type switches and `verbose` are their truth values.
   */
  datatype DownloadOptions = DownloadOptions(
    url: Option<string>,
    outputDir: Option<string>,
    clientId: Option<string>,
    playlist: bool,
    allTracks: bool,
    favorites: bool,
    format: Option<string>,
    verbose: bool)

  const InvalidUrlFormat := "Invalid URL format"
  const DownloadTimeout := "Download timeout"
  const AllFailedPrefix := "All downloads failed. Errors: "
  const PartialPrefix := "Partial success. Errors: "
  /** The ValueError `ThreadPoolExecutor` raises for a worker count that is not positive. */
  const MaxWorkersError := "max_workers must be greater than 0"

  // ---------------------------------------------------------------------------
  // The argument vector

  function UrlArgs(url: Option<string>): seq<string> {
    if url.Some? then ["-l", url.value] else []
  }

  /** `normalise` stands for `str(Path(d).expanduser().absolute())`. */
  function PathArgs(outputDir: Option<string>, normalise: string -> string): seq<string> {
    if outputDir.Some? then ["--path", normalise(outputDir.value)] else []
  }

  /** `options.get('client_id') or self.config.get('client_id')`, for a stored value that is a string or absent. */
  function ChosenClientId(given: Option<string>, stored: Value): Option<string> {
    if given.Some? && given.value != "" then given
    else if stored.Str? then Some(stored.s)
    else None
  }

  /** At most one download-type switch, `playlist` before `all_tracks` before `favorites`. */
  function TypeArgs(o: DownloadOptions): seq<string> {
    if o.playlist then ["--playlist"]
    else if o.allTracks then ["--all"]
    else if o.favorites then ["--favorites"]
    else []
  }

  function OriginalArgs(format: Option<string>): seq<string> {
    if format.Some? && format.value != "" then ["--original-art", "--original-name"] else []
  }

  function VerboseArgs(verbose: bool): seq<string> {
    if verbose then ["--verbose"] else []
  }

  /**
   * `_build_scdl_command(options)` given the stored client id and what
   * creating the output directory raises (`mkdirError`), which escapes the
   * builder.
   */
  function ScdlCommand(o: DownloadOptions, stored: Value, normalise: string -> string,
                       mkdirError: Option<string>): (r: Result<seq<string>, string>)
    ensures r.Failure? <==> o.outputDir.Some? && mkdirError.Some?
    ensures r.Failure? ==> r.error == mkdirError.value
  {
    if o.outputDir.Some? && mkdirError.Some? then Failure(mkdirError.value)
    else Success(["scdl"] + UrlArgs(o.url) + PathArgs(o.outputDir, normalise) +
                 ClientIdArgs(ChosenClientId(o.clientId, stored)) +
                 TypeArgs(o) + OriginalArgs(o.format) + VerboseArgs(o.verbose))
  }

  /** `f` is not the program name and not one of the values the options put into the vector. */
  predicate NotAValue(f: string, o: DownloadOptions, stored: Value, normalise: string -> string) {
    && f != "scdl"
    && (o.url.Some? ==> f != o.url.value)
    && (o.outputDir.Some? ==> f != normalise(o.outputDir.value))
    && (ChosenClientId(o.clientId, stored).Some? ==> f != ChosenClientId(o.clientId, stored).value)
  }

  /** Which options a built vector holds, for an option word that no value of the options equals. */
  lemma ScdlCommandFlags(o: DownloadOptions, stored: Value, normalise: string -> string,
                           mkdirError: Option<string>, f: string)
    requires ScdlCommand(o, stored, normalise, mkdirError).Success?
    requires NotAValue(f, o, stored, normalise)
    ensures f in ScdlCommand(o, stored, normalise, mkdirError).value <==>
      || (f == "-l" && o.url.Some?)
      || (f == "--path" && o.outputDir.Some?)
      || (f == "--client-id" && ClientIdArgs(ChosenClientId(o.clientId, stored)) != [])
      || f in TypeArgs(o) || f in OriginalArgs(o.format) || f in VerboseArgs(o.verbose)
  {
    var id := ChosenClientId(o.clientId, stored);
    assert f in UrlArgs(o.url) <==> f == "-l" && o.url.Some?;
    assert f in PathArgs(o.outputDir, normalise) <==> f == "--path" && o.outputDir.Some?;
    assert f in ClientIdArgs(id) <==> f == "--client-id" && ClientIdArgs(id) != [];
  }

  /** The vector starts with the program, then `-l` and the URL exactly when the `url` key is present. */
  lemma ScdlCommandUrl(o: DownloadOptions, stored: Value, normalise: string -> string, mkdirError: Option<string>)
    requires ScdlCommand(o, stored, normalise, mkdirError).Success?
    requires NotAValue("-l", o, stored, normalise)
    ensures var cmd := ScdlCommand(o, stored, normalise, mkdirError).value;
      && cmd[0] == "scdl"
      && (o.url.Some? ==> |cmd| >= 3 && cmd[1..3] == ["-l", o.url.value])
      && ("-l" in cmd <==> o.url.Some?)
  {
    var cmd := ScdlCommand(o, stored, normalise, mkdirError).value;
    var head := ["scdl"] + UrlArgs(o.url);
    assert cmd[..|head|] == head;
    assert cmd[0] == head[0];
    if o.url.Some? {
      assert cmd[1..3] == head[1..3];
    }
    ScdlCommandFlags(o, stored, normalise, mkdirError, "-l");
  }

  /** `--path` and the normalised directory follow the URL pair exactly when the `output_dir` key is present. */
  lemma ScdlCommandPath(o: DownloadOptions, stored: Value, normalise: string -> string, mkdirError: Option<string>)
    requires ScdlCommand(o, stored, normalise, mkdirError).Success?
    requires NotAValue("--path", o, stored, normalise)
    ensures var cmd := ScdlCommand(o, stored, normalise, mkdirError).value;
      var k := 1 + |UrlArgs(o.url)|;
      && (o.outputDir.Some? ==> |cmd| >= k + 2 && cmd[k..k + 2] == ["--path", normalise(o.outputDir.value)])
      && ("--path" in cmd <==> o.outputDir.Some?)
  {
    var cmd := ScdlCommand(o, stored, normalise, mkdirError).value;
    var head := ["scdl"] + UrlArgs(o.url) + PathArgs(o.outputDir, normalise);
    var k := 1 + |UrlArgs(o.url)|;
    assert cmd[..|head|] == head;
    if o.outputDir.Some? {
      assert cmd[k..k + 2] == head[k..k + 2];
    }
    ScdlCommandFlags(o, stored, normalise, mkdirError, "--path");
  }

  /**
   * The client id given in the options wins when it is non-empty; otherwise
   * the stored one is used; the pair is omitted when both are empty.
   */
  lemma ScdlCommandClientId(o: DownloadOptions, stored: Value, normalise: string -> string, mkdirError: Option<string>)
    requires ScdlCommand(o, stored, normalise, mkdirError).Success?
    requires NotAValue("--client-id", o, stored, normalise)
    ensures var cmd := ScdlCommand(o, stored, normalise, mkdirError).value;
      var k := 1 + |UrlArgs(o.url)| + |PathArgs(o.outputDir, normalise)|;
      && ("--client-id" in cmd <==> (o.clientId.Some? && o.clientId.value != "") || (stored.Str? && stored.s != ""))
      && (o.clientId.Some? && o.clientId.value != "" ==> |cmd| >= k + 2 && cmd[k..k + 2] == ["--client-id", o.clientId.value])
      && ((o.clientId.None? || o.clientId.value == "") && stored.Str? && stored.s != "" ==>
            |cmd| >= k + 2 && cmd[k..k + 2] == ["--client-id", stored.s])
  {
    var cmd := ScdlCommand(o, stored, normalise, mkdirError).value;
    var id := ChosenClientId(o.clientId, stored);
    var pre := ["scdl"] + UrlArgs(o.url) + PathArgs(o.outputDir, normalise);
    var head := pre + ClientIdArgs(id);
    assert cmd[..|head|] == head;
    if ClientIdArgs(id) != [] {
      assert cmd[|pre|..|pre| + 2] == head[|pre|..];
    }
    ClientIdChoice(o.clientId, stored);
    ScdlCommandFlags(o, stored, normalise, mkdirError, "--client-id");
  }

  /** The pair the options' or the stored client id gives. */
  lemma ClientIdChoice(given: Option<string>, stored: Value)
    ensures var args := ClientIdArgs(ChosenClientId(given, stored));
      && (args != [] <==> (given.Some? && given.value != "") || (stored.Str? && stored.s != ""))
      && (given.Some? && given.value != "" ==> args == ["--client-id", given.value])
      && ((given.None? || given.value == "") && stored.Str? && stored.s != "" ==> args == ["--client-id", stored.s])
  {
  }

  /** At most one download-type switch appears: `--playlist` before `--all` before `--favorites`. */
  lemma ScdlCommandType(o: DownloadOptions, stored: Value, normalise: string -> string, mkdirError: Option<string>)
    requires ScdlCommand(o, stored, normalise, mkdirError).Success?
    requires NotAValue("--playlist", o, stored, normalise)
    requires NotAValue("--all", o, stored, normalise)
    requires NotAValue("--favorites", o, stored, normalise)
    ensures var cmd := ScdlCommand(o, stored, normalise, mkdirError).value;
      && ("--playlist" in cmd <==> o.playlist)
      && ("--all" in cmd <==> !o.playlist && o.allTracks)
      && ("--favorites" in cmd <==> !o.playlist && !o.allTracks && o.favorites)
  {
    ScdlCommandFlags(o, stored, normalise, mkdirError, "--playlist");
    ScdlCommandFlags(o, stored, normalise, mkdirError, "--all");
    ScdlCommandFlags(o, stored, normalise, mkdirError, "--favorites");
  }

  /** A non-empty `format` adds both `--original-art` and `--original-name`; `verbose` adds `--verbose` as the last argument. */
  lemma ScdlCommandTrailing(o: DownloadOptions, stored: Value, normalise: string -> string, mkdirError: Option<string>)
    requires ScdlCommand(o, stored, normalise, mkdirError).Success?
    requires NotAValue("--original-art", o, stored, normalise)
    requires NotAValue("--original-name", o, stored, normalise)
    requires NotAValue("--verbose", o, stored, normalise)
    ensures var cmd := ScdlCommand(o, stored, normalise, mkdirError).value;
      && ("--original-art" in cmd <==> o.format.Some? && o.format.value != "")
      && ("--original-name" in cmd <==> o.format.Some? && o.format.value != "")
      && ("--verbose" in cmd <==> o.verbose)
      && (o.verbose ==> cmd[|cmd| - 1] == "--verbose")
  {
    ScdlCommandFlags(o, stored, normalise, mkdirError, "--original-art");
    ScdlCommandFlags(o, stored, normalise, mkdirError, "--original-name");
    ScdlCommandFlags(o, stored, normalise, mkdirError, "--verbose");
  }

  // ---------------------------------------------------------------------------
  // Counting the audio files

  /** What `Path(output_dir).rglob('*')` finds: the name of every entry below the directory. */
  datatype Listing =
    | NoDirectory                  // `path.exists()` is false
    | Entries(names: seq<string>)  // the final component of each path found
    | ListingError                 // the walk raised

  const AudioExtensions: set<string> := {".mp3", ".wav", ".flac", ".m4a", ".ogg"}

  /** `PurePath.suffix`: from the last dot, when that dot is neither first nor last. */
  function Suffix(name: string): string {
    var i := LastIndexOf(name, '.');
    if 0 < i < |name| - 1 then name[i..] else ""
  }

  predicate IsAudio(name: string) {
    AsciiLower(Suffix(name)) in AudioExtensions
  }

  function CountAudio(names: seq<string>): (n: nat)
    ensures n <= |names|
    ensures |names| == 1 ==> n == (if IsAudio(names[0]) then 1 else 0)
  {
    if names == [] then 0
    else CountAudio(names[..|names| - 1]) + (if IsAudio(names[|names| - 1]) then 1 else 0)
  }

  /** `_count_output_files`: 0 whenever there is no directory or the walk fails. */
  function CountOutputFiles(listing: Listing): (n: nat)
    ensures !listing.Entries? ==> n == 0
    ensures listing.Entries? ==> n <= |listing.names| && n == CountAudio(listing.names)
  {
    match listing
    case Entries(names) => CountAudio(names)
    case _ => 0
  }

  /** The name ends, ignoring ASCII case, in one of the extensions, with something before it. */
  predicate EndsInAudioExtension(name: string) {
    exists e :: e in AudioExtensions && |e| < |name| && AsciiLower(name[|name| - |e|..]) == e
  }

  lemma AudioExtensionShape(e: string)
    requires e in AudioExtensions
    ensures |e| >= 2 && e[0] == '.' && forall k :: 1 <= k < |e| ==> e[k] != '.'
  {
  }

  /** A character lowers to a dot exactly when it is a dot. */
  lemma LowerDot(c: char)
    ensures AsciiLowerChar(c) == '.' <==> c == '.'
  {
  }

  /** The suffix rule and the extension filter together: an entry counts exactly when its name ends in an audio extension, case aside, after at least one other character. */
  lemma IsAudioIff(name: string)
    ensures IsAudio(name) <==> EndsInAudioExtension(name)
  {
    var i := LastIndexOf(name, '.');
    LastIndexOfIsLast(name, '.');
    if IsAudio(name) {
      var e := AsciiLower(Suffix(name));
      assert 0 < i < |name| - 1;
      assert name[|name| - |e|..] == name[i..];
    }
    if EndsInAudioExtension(name) {
      var e :| e in AudioExtensions && |e| < |name| && AsciiLower(name[|name| - |e|..]) == e;
      var p := |name| - |e|;
      var t := name[p..];
      AudioExtensionShape(e);
      LowerDot(t[0]);
      assert name[p] == '.';
      forall j | p < j < |name| ensures name[j] != '.' {
        LowerDot(t[j - p]);
      }
      assert i >= p;
      assert i == p;
      assert Suffix(name) == t;
    }
  }

  lemma {:induction false} CountAudioAppend(a: seq<string>, b: seq<string>)
    ensures CountAudio(a + b) == CountAudio(a) + CountAudio(b)
    decreases |b|
  {
    if b == [] {
      assert a + b == a;
    } else {
      CountAudioAppend(a, b[..|b| - 1]);
      assert (a + b)[..|a + b| - 1] == a + b[..|b| - 1];
    }
  }

  /** `LastIndexOf` is the index of an occurrence with none after it, or `-1` when there is none. */
  lemma LastIndexOfAt(s: string, c: char, i: int)
    requires -1 <= i < |s|
    requires 0 <= i ==> s[i] == c
    requires forall j :: i < j < |s| ==> s[j] != c
    ensures LastIndexOf(s, c) == i
  {
    LastIndexOfIsLast(s, c);
  }

  /** Examples of the rule: case is ignored, a lone extension is a hidden file, `.opus` is not audio. */
  lemma AudioExamples()
    ensures IsAudio("Track.MP3")
    ensures IsAudio("a.b.flac")
    ensures !IsAudio(".mp3")
    ensures !IsAudio("track.opus")
    ensures !IsAudio("track")
  {
    LastIndexOfAt("Track.MP3", '.', 5);
    assert "Track.MP3"[5..] == ".MP3";
    assert AsciiLower(".MP3") == ".mp3";
    LastIndexOfAt("a.b.flac", '.', 3);
    assert "a.b.flac"[3..] == ".flac";
    assert AsciiLower(".flac") == ".flac";
    LastIndexOfAt(".mp3", '.', 0);
    LastIndexOfAt("track.opus", '.', 5);
    assert "track.opus"[5..] == ".opus";
    assert AsciiLower(".opus") == ".opus";
    LastIndexOfAt("track", '.', -1);
  }

  // ---------------------------------------------------------------------------
  // One download

  /** What one download meets: the directory creation, the run, and the directory's contents afterwards. */
  datatype DownloadWorld = DownloadWorld(mkdirError: Option<string>, outcome: RunOutcome, listing: Listing)

  /**
   * The `try` block of `download` once the command is built. A success
   * reports the `output_dir` option as given and counts the audio files of
   * `listing`, the walk of `Path(output_dir)` with `output_dir` taken as
   * given (no `~` expansion) and `./downloads` when the option is absent.
   */
  function DownloadOutcome(outputDir: Option<string>, outcome: RunOutcome, listing: Listing): (r: DownloadResult)
    ensures r.success <==> outcome.Exited? && outcome.code == 0
    ensures r.success ==> r.filesCount == CountOutputFiles(listing) && r.outputPath == outputDir && r.error.None?
    ensures !r.success ==> r.filesCount == 0 && r.outputPath.None? && r.error.Some?
    ensures !r.success && !outcome.Crashed? ==> r.error.value != ""
  {
    match outcome
    case Exited(code, stdout, stderr) =>
      if code == 0 then DownloadResult(true, CountOutputFiles(listing), outputDir, None)
      else DownloadResult(false, 0, None, Some(ErrorDetail(stdout, stderr)))
    case TimedOut => DownloadResult(false, 0, None, Some(DownloadTimeout))
    case ExecutableMissing => DownloadResult(false, 0, None, Some(ScdlNotFound))
    case Crashed(message) => DownloadResult(false, 0, None, Some(message))
  }

  /** Each way a run can go wrong, with its message. */
  lemma DownloadMessages(outputDir: Option<string>, listing: Listing, code: int, stdout: string, stderr: string, message: string)
    ensures code != 0 ==> DownloadOutcome(outputDir, Exited(code, stdout, stderr), listing).error == Some(ErrorDetail(stdout, stderr))
    ensures DownloadOutcome(outputDir, TimedOut, listing).error == Some("Download timeout")
    ensures DownloadOutcome(outputDir, ExecutableMissing, listing).error == Some("scdl not found. Please install scdl first.")
    ensures DownloadOutcome(outputDir, Crashed(message), listing).error == Some(message)
  {
  }

  /** `download(**options)`, a Failure when the builder raises. */
  function DownloadSpec(o: DownloadOptions, stored: Value, normalise: string -> string, w: DownloadWorld): Result<DownloadResult, string> {
    if !ValidateUrlArg(o.url) then Success(DownloadResult(false, 0, None, Some(InvalidUrlFormat)))
    else match ScdlCommand(o, stored, normalise, w.mkdirError)
      case Failure(e) => Failure(e)
      case Success(_) => Success(DownloadOutcome(o.outputDir, w.outcome, w.listing))
  }

  /** A URL that fails validation is refused with a fixed message, whatever the world holds. */
  lemma InvalidUrlRefused(o: DownloadOptions, stored: Value, normalise: string -> string, w: DownloadWorld)
    requires o.url.None? || !ValidateUrl(o.url.value)
    ensures DownloadSpec(o, stored, normalise, w) == Success(DownloadResult(false, 0, None, Some("Invalid URL format")))
  {
  }

  /** A successful download had a SoundCloud URL, a command that could be built, and a run that exited with 0. */
  lemma DownloadSucceeded(o: DownloadOptions, stored: Value, normalise: string -> string, w: DownloadWorld)
    requires DownloadSpec(o, stored, normalise, w).Success? && DownloadSpec(o, stored, normalise, w).value.success
    ensures o.url.Some? && ValidateUrl(o.url.value)
    ensures ScdlCommand(o, stored, normalise, w.mkdirError).Success?
    ensures w.outcome.Exited? && w.outcome.code == 0
    ensures DownloadSpec(o, stored, normalise, w).value.filesCount == CountOutputFiles(w.listing)
  {
  }

  // ---------------------------------------------------------------------------
  // Aggregating a batch

  /** What a finished future gives: the result `download` returned, or the message of what it raised. */
  datatype Completion = Returned(result: DownloadResult) | Raised(message: string)

  type Done = (string, Completion)

  /** `str()` of an optional message: `None` prints as `None`. */
  function MessageText(e: Option<string>): string {
    if e.Some? then e.value else "None"
  }

  predicate Succeeded(d: Done) {
    d.1.Returned? && d.1.result.success
  }

  function SuccessWeight(d: Done): int {
    if Succeeded(d) then 1 else 0
  }

  function FilesWeight(d: Done): int {
    if Succeeded(d) then d.1.result.filesCount else 0
  }

  /** The `errors` entry a finished download adds: none on success. */
  function ErrorPart(d: Done): seq<string> {
    match d.1
    case Returned(result) => if result.success then [] else [d.0 + ": " + MessageText(result.error)]
    case Raised(message) => [d.0 + ": " + message]
  }

  function SumBy<T>(s: seq<T>, f: T -> int): int {
    if s == [] then 0 else SumBy(s[..|s| - 1], f) + f(s[|s| - 1])
  }

  function ConcatBy<T, U>(s: seq<T>, f: T -> seq<U>): seq<U> {
    if s == [] then [] else ConcatBy(s[..|s| - 1], f) + f(s[|s| - 1])
  }

  function MapBy<T, U>(s: seq<T>, f: T -> U): (r: seq<U>)
    ensures |r| == |s|
    ensures forall i :: 0 <= i < |s| ==> r[i] == f(s[i])
  {
    if s == [] then [] else MapBy(s[..|s| - 1], f) + [f(s[|s| - 1])]
  }

  function Successes(done: seq<Done>): int {
    SumBy(done, SuccessWeight)
  }

  function TotalFiles(done: seq<Done>): int {
    SumBy(done, FilesWeight)
  }

  function ErrorEntries(done: seq<Done>): seq<string> {
    ConcatBy(done, ErrorPart)
  }

  /**
   * The end of `batch_download` for `n` requested URLs whose downloads
   * finished as `done`, in completion order.
   */
  function Aggregate(n: nat, done: seq<Done>): (r: DownloadResult)
    ensures r.outputPath.None?
    ensures r.success <==> Successes(done) != 0 && Successes(done) == n
    ensures r.error.None? <==> r.success
    ensures r.filesCount == if Successes(done) == 0 then 0 else TotalFiles(done)
  {
    if Successes(done) == 0 then
      DownloadResult(false, 0, None, Some(AllFailedPrefix + Join(ErrorEntries(done), "; ")))
    else if Successes(done) == n then
      DownloadResult(true, TotalFiles(done), None, None)
    else
      DownloadResult(false, TotalFiles(done), None, Some(PartialPrefix + Join(ErrorEntries(done), "; ")))
  }

  lemma {:induction false} SumByAppend<T>(a: seq<T>, b: seq<T>, f: T -> int)
    ensures SumBy(a + b, f) == SumBy(a, f) + SumBy(b, f)
    decreases |b|
  {
    if b == [] {
      assert a + b == a;
    } else {
      SumByAppend(a, b[..|b| - 1], f);
      assert (a + b)[..|a + b| - 1] == a + b[..|b| - 1];
    }
  }

  lemma {:induction false} ConcatByAppend<T, U>(a: seq<T>, b: seq<T>, f: T -> seq<U>)
    ensures ConcatBy(a + b, f) == ConcatBy(a, f) + ConcatBy(b, f)
    decreases |b|
  {
    if b == [] {
      assert a + b == a;
    } else {
      ConcatByAppend(a, b[..|b| - 1], f);
      assert (a + b)[..|a + b| - 1] == a + b[..|b| - 1];
    }
  }

  /** Removing the element at `k` from `a` leaves the multiset less that element. */
  lemma RemoveAt<T>(a: seq<T>, k: nat)
    requires k < |a|
    ensures a == a[..k] + [a[k]] + a[k + 1..]
    ensures multiset(a[..k] + a[k + 1..]) == multiset(a) - multiset{a[k]}
  {
    assert a == a[..k] + [a[k]] + a[k + 1..];
  }

  /** A non-empty permuted sequence: its last element sits somewhere in the other one. */
  lemma LastIn<T>(a: seq<T>, b: seq<T>) returns (k: nat)
    requires multiset(a) == multiset(b) && b != []
    ensures k < |a| && a[k] == b[|b| - 1]
    ensures multiset(a[..k] + a[k + 1..]) == multiset(b[..|b| - 1])
  {
    var x := b[|b| - 1];
    assert b == b[..|b| - 1] + [x];
    assert x in multiset(b);
    k :| 0 <= k < |a| && a[k] == x;
    RemoveAt(a, k);
  }

  lemma SumByRemove<T>(a: seq<T>, k: nat, f: T -> int)
    requires k < |a|
    ensures SumBy(a, f) == SumBy(a[..k] + a[k + 1..], f) + f(a[k])
  {
    var p, x, q := a[..k], a[k], a[k + 1..];
    RemoveAt(a, k);
    SumByAppend(p + [x], q, f);
    assert (p + [x])[..|p|] == p;
    SumByAppend(p, q, f);
  }

  lemma ConcatByRemove<T, U>(a: seq<T>, k: nat, f: T -> seq<U>)
    requires k < |a|
    ensures multiset(ConcatBy(a, f)) == multiset(ConcatBy(a[..k] + a[k + 1..], f)) + multiset(f(a[k]))
  {
    var p, x, q := a[..k], a[k], a[k + 1..];
    RemoveAt(a, k);
    ConcatByAppend(p + [x], q, f);
    assert (p + [x])[..|p|] == p;
    ConcatByAppend(p, q, f);
  }

  lemma MapByAppend<T, U>(a: seq<T>, b: seq<T>, f: T -> U)
    ensures MapBy(a + b, f) == MapBy(a, f) + MapBy(b, f)
  {
    assert forall i :: 0 <= i < |a| + |b| ==> (a + b)[i] == if i < |a| then a[i] else b[i - |a|];
  }

  lemma MapByRemove<T, U>(a: seq<T>, k: nat, f: T -> U)
    requires k < |a|
    ensures multiset(MapBy(a, f)) == multiset(MapBy(a[..k] + a[k + 1..], f)) + multiset{f(a[k])}
  {
    var p, x, q := a[..k], a[k], a[k + 1..];
    RemoveAt(a, k);
    MapByAppend(p + [x], q, f);
    MapByAppend(p, [x], f);
    MapByAppend(p, q, f);
  }

  lemma {:induction false} SumByPermutation<T>(a: seq<T>, b: seq<T>, f: T -> int)
    requires multiset(a) == multiset(b)
    ensures SumBy(a, f) == SumBy(b, f)
    decreases |b|
  {
    if b == [] {
      assert |a| == |multiset(a)| == 0;
    } else {
      var k := LastIn(a, b);
      SumByPermutation(a[..k] + a[k + 1..], b[..|b| - 1], f);
      SumByRemove(a, k, f);
    }
  }

  lemma {:induction false} ConcatByPermutation<T, U>(a: seq<T>, b: seq<T>, f: T -> seq<U>)
    requires multiset(a) == multiset(b)
    ensures multiset(ConcatBy(a, f)) == multiset(ConcatBy(b, f))
    decreases |b|
  {
    if b == [] {
      assert |a| == |multiset(a)| == 0;
    } else {
      var k := LastIn(a, b);
      ConcatByPermutation(a[..k] + a[k + 1..], b[..|b| - 1], f);
      ConcatByRemove(a, k, f);
    }
  }

  lemma {:induction false} MapByPermutation<T, U>(a: seq<T>, b: seq<T>, f: T -> U)
    requires multiset(a) == multiset(b)
    ensures multiset(MapBy(a, f)) == multiset(MapBy(b, f))
    decreases |b|
  {
    if b == [] {
      assert |a| == |multiset(a)| == 0;
    } else {
      var k := LastIn(a, b);
      MapByPermutation(a[..k] + a[k + 1..], b[..|b| - 1], f);
      MapByRemove(a, k, f);
    }
  }

  /** Every download counts either as a success or as one error entry. */
  lemma {:induction false} SuccessesPlusErrors(done: seq<Done>)
    ensures 0 <= Successes(done) <= |done|
    ensures Successes(done) + |ErrorEntries(done)| == |done|
  {
    if done != [] {
      SuccessesPlusErrors(done[..|done| - 1]);
    }
  }

  /** All downloads succeeded exactly when the success count is the number of downloads. */
  lemma {:induction false} AllSucceeded(done: seq<Done>)
    ensures Successes(done) == |done| <==> forall i :: 0 <= i < |done| ==> Succeeded(done[i])
  {
    if done != [] {
      var init := done[..|done| - 1];
      AllSucceeded(init);
      SuccessesPlusErrors(init);
      assert forall i :: 0 <= i < |init| ==> init[i] == done[i];
    }
  }

  /**
   * `batch_download`'s verdict as its documentation promises, for a batch in
   * which every requested URL finished: success exactly when there was at
   * least one download and every one of them succeeded; the file count sums
   * the successful ones.
   */
  lemma AggregateVerdict(done: seq<Done>)
    ensures var r := Aggregate(|done|, done);
      && (r.success <==> done != [] && forall i :: 0 <= i < |done| ==> Succeeded(done[i]))
      && (r.success ==> r.filesCount == TotalFiles(done) && r.error.None?)
      && (Successes(done) == 0 ==> r.error == Some(AllFailedPrefix + Join(ErrorEntries(done), "; ")))
      && (0 < Successes(done) < |done| ==> r.error == Some(PartialPrefix + Join(ErrorEntries(done), "; ")))
  {
    AllSucceeded(done);
    SuccessesPlusErrors(done);
    if done == [] {
      assert Successes(done) == 0;
    } else if forall i :: 0 <= i < |done| ==> Succeeded(done[i]) {
      assert Successes(done) == |done| > 0;
    }
  }

  /** `Aggregate` by the three accumulators `batch_download` keeps. */
  lemma AggregateOf(n: nat, done: seq<Done>, successful: int, totalFiles: int, errors: seq<string>)
    requires successful == Successes(done) && totalFiles == TotalFiles(done) && errors == ErrorEntries(done)
    ensures Aggregate(n, done) ==
      if successful == 0 then DownloadResult(false, 0, None, Some(AllFailedPrefix + Join(errors, "; ")))
      else DownloadResult(successful == n, totalFiles, None,
                          if successful == n then None else Some(PartialPrefix + Join(errors, "; ")))
  {
  }

  /** An empty batch fails, with no entries after the prefix. */
  lemma EmptyBatchFails()
    ensures Aggregate(0, []) == DownloadResult(false, 0, None, Some("All downloads failed. Errors: "))
  {
    assert Successes([]) == 0;
    assert ErrorEntries([]) == [];
    assert Join(ErrorEntries([]), "; ") == "";
    assert AllFailedPrefix + "" == AllFailedPrefix;
  }

  /**
   * The completion order changes nothing but the order of the error
   * entries: verdict and file count agree, and the two messages list the
   * same entries.
   */
  lemma AggregateOrderIndependent(n: nat, d1: seq<Done>, d2: seq<Done>)
    requires multiset(d1) == multiset(d2)
    ensures Aggregate(n, d1).success == Aggregate(n, d2).success
    ensures Aggregate(n, d1).filesCount == Aggregate(n, d2).filesCount
    ensures Aggregate(n, d1).error.None? == Aggregate(n, d2).error.None?
    ensures multiset(ErrorEntries(d1)) == multiset(ErrorEntries(d2))
  {
    SumByPermutation(d1, d2, SuccessWeight);
    SumByPermutation(d1, d2, FilesWeight);
    ConcatByPermutation(d1, d2, ErrorPart);
  }

  /** How one finished download reads: `(url, returned result or raised message)`. */
  function Finish(r: Result<DownloadResult, string>): Completion {
    match r
    case Success(v) => Returned(v)
    case Failure(e) => Raised(e)
  }

  function Urls(completed: seq<(string, DownloadWorld)>): seq<string> {
    MapBy(completed, (p: (string, DownloadWorld)) => p.0)
  }

  /** The batch's downloads in completion order, each run with the batch options and its own URL. */
  function Completions(o: DownloadOptions, stored: Value, normalise: string -> string,
                       completed: seq<(string, DownloadWorld)>): seq<Done> {
    MapBy(completed, (p: (string, DownloadWorld)) =>
      (p.0, Finish(DownloadSpec(o.(url := Some(p.0)), stored, normalise, p.1))))
  }

  /** The first `i` completions are the completions of the first `i` finished downloads. */
  lemma CompletionsPrefix(o: DownloadOptions, stored: Value, normalise: string -> string,
                          completed: seq<(string, DownloadWorld)>, i: nat)
    requires i <= |completed|
    ensures Completions(o, stored, normalise, completed)[..i] == Completions(o, stored, normalise, completed[..i])
  {
  }

  /** One step of the sequential fold: the three accumulators after one more finished download. */
  lemma FoldStep(done: seq<Done>, i: nat)
    requires i < |done|
    ensures Successes(done[..i + 1]) == Successes(done[..i]) + SuccessWeight(done[i])
    ensures TotalFiles(done[..i + 1]) == TotalFiles(done[..i]) + FilesWeight(done[i])
    ensures ErrorEntries(done[..i + 1]) == ErrorEntries(done[..i]) + ErrorPart(done[i])
  {
    assert done[..i + 1][..i] == done[..i];
  }

  /** Any two completion orders of the same downloads give the same verdict and file count. */
  lemma BatchOrderIndependent(o: DownloadOptions, stored: Value, normalise: string -> string,
                              n: nat, c1: seq<(string, DownloadWorld)>, c2: seq<(string, DownloadWorld)>)
    requires multiset(c1) == multiset(c2)
    ensures var a := Aggregate(n, Completions(o, stored, normalise, c1));
      var b := Aggregate(n, Completions(o, stored, normalise, c2));
      a.success == b.success && a.filesCount == b.filesCount && a.error.None? == b.error.None?
  {
    var f := (p: (string, DownloadWorld)) =>
      (p.0, Finish(DownloadSpec(o.(url := Some(p.0)), stored, normalise, p.1)));
    MapByPermutation(c1, c2, f);
    AggregateOrderIndependent(n, Completions(o, stored, normalise, c1), Completions(o, stored, normalise, c2));
  }

  // ---------------------------------------------------------------------------
  // The wrapper

  /** `ScdlWrapper`: the configuration it reads and the path normalisation it applies. */
  class ScdlWrapper {
    const config: ConfigManager
    const normalise: string -> string

    constructor (config: ConfigManager, normalise: string -> string)
      ensures this.config == config && this.normalise == normalise
    {
      this.config := config;
      this.normalise := normalise;
    }

    /** `self.config.get('client_id')`. */
    function StoredClientId(): Value
      reads config
    {
      config.Get("client_id", Null)
    }

    /** `_build_scdl_command(options)`: the vector, built step by step. */
    method BuildScdlCommand(o: DownloadOptions, mkdirError: Option<string>) returns (r: Result<seq<string>, string>)
      ensures r == ScdlCommand(o, StoredClientId(), normalise, mkdirError)
    {
      var cmd := ["scdl"];
      if o.url.Some? {
        cmd := cmd + ["-l", o.url.value];
      }
      if o.outputDir.Some? {
        var outputPath := normalise(o.outputDir.value);
        if mkdirError.Some? {
          return Failure(mkdirError.value);
        }
        cmd := cmd + ["--path", outputPath];
      }
      assert cmd == ["scdl"] + UrlArgs(o.url) + PathArgs(o.outputDir, normalise);
      var id := o.clientId;
      if id.None? || id.value == "" {
        var stored := config.Get("client_id", Null);
        id := if stored.Str? then Some(stored.s) else None;
      }
      if id.Some? && id.value != "" {
        cmd := cmd + ["--client-id", id.value];
      }
      assert id == ChosenClientId(o.clientId, StoredClientId());
      assert cmd == ["scdl"] + UrlArgs(o.url) + PathArgs(o.outputDir, normalise) + ClientIdArgs(id);
      cmd := AppendSwitches(cmd, o);
      r := Success(cmd);
    }

    /** The download-type, format and verbose steps of `_build_scdl_command`. */
    static method AppendSwitches(cmd: seq<string>, o: DownloadOptions) returns (r: seq<string>)
      ensures r == cmd + TypeArgs(o) + OriginalArgs(o.format) + VerboseArgs(o.verbose)
    {
      r := cmd;
      if o.playlist {
        r := r + ["--playlist"];
      } else if o.allTracks {
        r := r + ["--all"];
      } else if o.favorites {
        r := r + ["--favorites"];
      }
      assert r == cmd + TypeArgs(o);
      if o.format.Some? && o.format.value != "" {
        r := r + ["--original-art", "--original-name"];
      }
      assert r == cmd + TypeArgs(o) + OriginalArgs(o.format);
      if o.verbose {
        r := r + ["--verbose"];
      }
    }

    /**
     * `download(**options)`: `r` is a Failure when the builder raises;
     * `ran` is the vector handed to the process, if one was.
     */
    method Download(o: DownloadOptions, w: DownloadWorld) returns (r: Result<DownloadResult, string>, ran: Option<seq<string>>)
      ensures r == DownloadSpec(o, StoredClientId(), normalise, w)
      ensures ran.Some? <==> ValidateUrlArg(o.url) && ScdlCommand(o, StoredClientId(), normalise, w.mkdirError).Success?
      ensures ran.Some? ==> ran.value == ScdlCommand(o, StoredClientId(), normalise, w.mkdirError).value
    {
      ran := None;
      if !ValidateUrlArg(o.url) {
        return Success(DownloadResult(false, 0, None, Some(InvalidUrlFormat))), ran;
      }
      var cmd := BuildScdlCommand(o, w.mkdirError);
      if cmd.Failure? {
        return Failure(cmd.error), ran;
      }
      ran := Some(cmd.value);
      match w.outcome {
        case Exited(code, stdout, stderr) =>
          if code == 0 {
            var filesCount := CountOutputFiles(w.listing);
            r := Success(DownloadResult(true, filesCount, o.outputDir, None));
          } else {
            r := Success(DownloadResult(false, 0, None, Some(ErrorDetail(stdout, stderr))));
          }
        case TimedOut =>
          r := Success(DownloadResult(false, 0, None, Some(DownloadTimeout)));
        case ExecutableMissing =>
          r := Success(DownloadResult(false, 0, None, Some(ScdlNotFound)));
        case Crashed(message) =>
          r := Success(DownloadResult(false, 0, None, Some(message)));
      }
    }

    /** The body of the `as_completed` loop: one finished download added to the three accumulators. */
    static method Tally(successful: int, totalFiles: int, errors: seq<string>, d: Done)
      returns (successful': int, totalFiles': int, errors': seq<string>)
      ensures successful' == successful + SuccessWeight(d)
      ensures totalFiles' == totalFiles + FilesWeight(d)
      ensures errors' == errors + ErrorPart(d)
    {
      successful', totalFiles', errors' := successful, totalFiles, errors;
      var (url, completion) := d;
      match completion {
        case Returned(result) =>
          if result.success {
            successful' := successful' + 1;
            totalFiles' := totalFiles' + result.filesCount;
          } else {
            errors' := errors' + [url + ": " + MessageText(result.error)];
          }
        case Raised(message) =>
          errors' := errors' + [url + ": " + message];
      }
    }

    /**
     * `batch_download(urls, **options)`. `concurrent` is the `concurrent`
     * option (`None` when absent or `None`); `completed` pairs each URL with
     * the world its download meets, in the order the downloads finish.
     */
    method BatchDownload(urls: seq<string>, o: DownloadOptions, concurrent: Option<int>,
                         completed: seq<(string, DownloadWorld)>) returns (r: Result<DownloadResult, string>)
      requires o.url.None?
      requires multiset(Urls(completed)) == multiset(urls)
      ensures concurrent.Some? && concurrent.value <= 0 ==> r == Failure(MaxWorkersError)
      ensures !(concurrent.Some? && concurrent.value <= 0) ==>
                r == Success(Aggregate(|urls|, Completions(o, StoredClientId(), normalise, completed)))
    {
      if concurrent.Some? && concurrent.value <= 0 {
        return Failure(MaxWorkersError);
      }
      assert |completed| == |Urls(completed)| == |multiset(urls)| == |urls|;
      ghost var done := Completions(o, StoredClientId(), normalise, completed);
      var successful := 0;
      var totalFiles := 0;
      var errors: seq<string> := [];
      var i := 0;
      while i < |completed|
        invariant 0 <= i <= |completed| == |done|
        invariant successful == Successes(done[..i])
        invariant totalFiles == TotalFiles(done[..i])
        invariant errors == ErrorEntries(done[..i])
      {
        var url := completed[i].0;
        var result, _ := Download(o.(url := Some(url)), completed[i].1);
        var d := (url, Finish(result));
        assert d == done[i];
        FoldStep(done, i);
        successful, totalFiles, errors := Tally(successful, totalFiles, errors, d);
        i := i + 1;
      }
      assert done[..i] == done;
      AggregateOf(|urls|, done, successful, totalFiles, errors);
      if successful == 0 {
        return Success(DownloadResult(false, 0, None, Some(AllFailedPrefix + Join(errors, "; "))));
      }
      var success := successful == |urls|;
      var error := if success then None else Some(PartialPrefix + Join(errors, "; "));
      r := Success(DownloadResult(success, totalFiles, None, error));
    }
  }
}
