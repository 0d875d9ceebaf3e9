/**
 * The three string validators of the command-line tool: SoundCloud URLs,
 * client ids and output paths.
 */
module Validators {
  import opened Wrappers
  import opened Text

  /** What `urllib.parse.urlparse` yields that the URL validator looks at. */
  datatype UrlParts = UrlParts(scheme: string, netloc: string, path: string)

  predicate IsSchemeChar(c: char) {
    IsAsciiLetter(c) || IsAsciiDigit(c) || c == '+' || c == '-' || c == '.'
  }

  /** Schemes for which `urlparse` splits `;params` off the path. */
  const UsesParams: set<string> :=
    {"", "ftp", "hdl", "prospero", "http", "imap", "https", "shttp", "rtsp",
     "rtspu", "sip", "sips", "mms", "sftp", "tel"}

  /**
   * The scheme is the text before the first ':' when it starts with an ASCII
   * letter and holds only scheme characters; it is lower-cased. Otherwise the
   * scheme is empty and the whole text is the remainder.
   */
  function SplitScheme(url: string): (r: (string, string))
  {
    var i := IndexOf(url, ':');
    if 0 < i < |url| && IsAsciiLetter(url[0]) && (forall k :: 1 <= k < i ==> IsSchemeChar(url[k]))
    then (AsciiLower(url[..i]), url[i + 1..])
    else ("", url)
  }

  const NetlocEnd: set<char> := {'/', '?', '#'}

  /** After a leading "//", the network location runs up to the next '/', '?' or '#'. */
  function SplitNetloc(rest: string): (r: (string, string))
    ensures |rest| >= 2 && rest[..2] == "//" ==>
      rest == "//" + r.0 + r.1 &&
      (forall k :: 0 <= k < |r.0| ==> r.0[k] !in NetlocEnd) &&
      (r.1 == [] || r.1[0] in NetlocEnd)
    ensures !(|rest| >= 2 && rest[..2] == "//") ==> r == ("", rest)
  {
    if |rest| >= 2 && rest[..2] == "//" then
      var j := 2 + IndexOfAny(rest[2..], NetlocEnd);
      assert rest == "//" + rest[2..j] + rest[j..];
      assert forall k :: 0 <= k < j - 2 ==> rest[2..j][k] == rest[2..][k];
      (rest[2..j], rest[j..])
    else ("", rest)
  }

  /** `_splitparams`: drop the `;params` of the last path segment. */
  function StripParams(path: string): string {
    var j := LastIndexOf(path, '/');
    if j >= 0 then
      var i := j + IndexOf(path[j..], ';');
      path[..i]
    else path[..IndexOf(path, ';')]
  }

  /** `urlsplit` first strips leading C0 control characters and spaces. */
  function LStripControl(url: string): (r: string)
    ensures r == [] || r[0] > ' '
    ensures |r| <= |url| && r == url[|url| - |r|..]
    ensures forall k :: 0 <= k < |url| - |r| ==> url[k] <= ' '
  {
    if url != [] && url[0] <= ' ' then LStripControl(url[1..]) else url
  }

  const UnsafeChars: set<char> := {'\t', '\r', '\n'}

  predicate NoUnsafe(s: string) {
    forall k :: 0 <= k < |s| ==> s[k] !in UnsafeChars
  }

  /** `urlsplit` then deletes every tab, carriage return and newline, wherever they are. */
  function RemoveUnsafe(url: string): (r: string)
    ensures NoUnsafe(r)
    ensures |r| <= |url|
    ensures |url| == 1 ==> r == (if url[0] in UnsafeChars then [] else url)
  {
    if url == [] then []
    else (if url[0] in UnsafeChars then [] else [url[0]]) + RemoveUnsafe(url[1..])
  }

  /** The parts of `urlparse(url)` that `validate_url` uses. */
  function ParseUrl(url: string): UrlParts {
    SplitUrl(RemoveUnsafe(LStripControl(url)))
  }

  /** `urlparse` on a text already cleaned of leading controls and of tabs and newlines. */
  function SplitUrl(url: string): UrlParts {
    var schemeAndRest := SplitScheme(url);
    var netlocAndRest := SplitNetloc(schemeAndRest.1);
    UrlParts(schemeAndRest.0, netlocAndRest.0, PathPart(schemeAndRest.0, netlocAndRest.1))
  }

  /** The path: the remainder without its '#fragment', its '?query' and (for most schemes) its ';params'. */
  function PathPart(scheme: string, rest: string): string {
    var noFragment := rest[..IndexOf(rest, '#')];
    var noQuery := noFragment[..IndexOf(noFragment, '?')];
    if scheme in UsesParams then StripParams(noQuery) else noQuery
  }

  const SoundCloudDomain := "soundcloud.com"

  /** The hosts the source's three patterns accept: the domain and three of its sub-domains. */
  const SoundCloudHosts: seq<string> :=
    [SoundCloudDomain, "www." + SoundCloudDomain, "m." + SoundCloudDomain, "on." + SoundCloudDomain]

  /** The host prefixes the patterns accept, each with its '/'. */
  const SoundCloudPrefixes: seq<string> :=
    [SoundCloudHosts[0] + "/", SoundCloudHosts[1] + "/", SoundCloudHosts[2] + "/", SoundCloudHosts[3] + "/"]

  /** `re.match(prefix + ".+", s)`: the prefix and then at least one character other than a newline. */
  predicate PrefixThenChar(s: string, prefix: string) {
    |s| > |prefix| && prefix <= s && s[|prefix|] != '\n'
  }

  predicate MatchesSoundCloud(hostAndPath: string) {
    exists i :: 0 <= i < |SoundCloudPrefixes| && PrefixThenChar(hostAndPath, SoundCloudPrefixes[i])
  }

  /** `validate_url`. */
  predicate ValidateUrl(url: string) {
    url != "" &&
    var parts := ParseUrl(url);
    (parts.scheme == "http" || parts.scheme == "https") &&
    MatchesSoundCloud(parts.netloc + parts.path)
  }

  /** `validate_url` applied to an optional value: Python's `not None` rejects a missing URL. */
  predicate ValidateUrlArg(url: Option<string>) {
    url.Some? && ValidateUrl(url.value)
  }

  predicate IsIdChar(c: char) {
    IsAsciiLetter(c) || IsAsciiDigit(c) || c == '_' || c == '-'
  }

  predicate AllIdChars(s: string) {
    forall i :: 0 <= i < |s| ==> IsIdChar(s[i])
  }

  /**
   * `validate_client_id`: `^[a-zA-Z0-9_-]+$`, where Python's `$` also matches
   * just before one final newline.
   */
  predicate ValidateClientId(id: string) {
    id != "" &&
    (AllIdChars(id) || (|id| >= 2 && id[|id| - 1] == '\n' && AllIdChars(id[..|id| - 1])))
  }

  const InvalidPathChars: set<char> := {'<', '>', ':', '"', '|', '?', '*'}

  /** `validate_output_path`. */
  predicate ValidateOutputPath(path: string) {
    path != "" && forall i :: 0 <= i < |path| ==> path[i] !in InvalidPathChars
  }

  // ---------------------------------------------------------------------------
  // Properties of the URL validator

  lemma {:induction false} RemoveUnsafeNone(s: string)
    requires NoUnsafe(s)
    ensures RemoveUnsafe(s) == s
  {
    if s != [] {
      RemoveUnsafeNone(s[1..]);
    }
  }

  /** The deletion works character by character: the kept characters stay in their order. */
  lemma {:induction false} RemoveUnsafeAppend(a: string, b: string)
    ensures RemoveUnsafe(a + b) == RemoveUnsafe(a) + RemoveUnsafe(b)
  {
    if a == [] {
      assert a + b == b;
    } else {
      DropAppend(a, b, 1);
      RemoveUnsafeAppend(a[1..], b);
    }
  }

  /** A text that starts with a printable character and holds no tab or newline reaches the split unchanged. */
  lemma CleanUrl(url: string)
    requires url != [] && url[0] > ' ' && NoUnsafe(url)
    ensures ParseUrl(url) == SplitUrl(url)
  {
    RemoveUnsafeNone(url);
  }

  lemma {:induction false} IndexOfAbsent(s: string, c: char)
    requires forall k :: 0 <= k < |s| ==> s[k] != c
    ensures IndexOf(s, c) == |s|
  {
    if s != [] {
      IndexOfAbsent(s[1..], c);
    }
  }

  lemma {:induction false} IndexOfAnyAbsent(s: string, cs: set<char>)
    requires forall k :: 0 <= k < |s| ==> s[k] !in cs
    ensures IndexOfAny(s, cs) == |s|
  {
    if s != [] {
      IndexOfAnyAbsent(s[1..], cs);
    }
  }

  lemma {:induction false} IndexOfAfter(a: string, b: string, c: char)
    requires forall k :: 0 <= k < |a| ==> a[k] != c
    ensures IndexOf(a + b, c) == |a| + IndexOf(b, c)
    decreases |a|
  {
    if a == [] {
      assert a + b == b;
    } else {
      assert (a + b)[0] == a[0];
      DropAppend(a, b, 1);
      IndexOfAfter(a[1..], b, c);
    }
  }

  lemma {:induction false} IndexOfAnyAfter(a: string, b: string, cs: set<char>)
    requires forall k :: 0 <= k < |a| ==> a[k] !in cs
    ensures IndexOfAny(a + b, cs) == |a| + IndexOfAny(b, cs)
    decreases |a|
  {
    if a == [] {
      assert a + b == b;
    } else {
      assert (a + b)[0] == a[0];
      DropAppend(a, b, 1);
      IndexOfAnyAfter(a[1..], b, cs);
    }
  }

  /** A path with no ';' has no params to strip. */
  lemma StripParamsNoSemicolon(path: string)
    requires forall k :: 0 <= k < |path| ==> path[k] != ';'
    ensures StripParams(path) == path
  {
    var j := LastIndexOf(path, '/');
    if j >= 0 {
      IndexOfAbsent(path[j..], ';');
    } else {
      IndexOfAbsent(path, ';');
    }
  }

  /** A path text with no query, fragment or params delimiter. */
  predicate PlainPath(s: string) {
    forall k :: 0 <= k < |s| ==> s[k] !in {'?', '#', ';', '\t', '\r', '\n'}
  }

  lemma PlainAfterSlash(tail: string)
    requires PlainPath(tail)
    ensures PlainPath("/" + tail)
  {
    forall k | 0 <= k < |"/" + tail| ensures ("/" + tail)[k] !in {'?', '#', ';', '\t', '\r', '\n'} {
      if k > 0 {
        assert ("/" + tail)[k] == tail[k - 1];
      }
    }
  }

  /** A scheme the validator accepts, in any mix of ASCII cases. */
  predicate WebScheme(scheme: string) {
    (AsciiLower(scheme) == "http" || AsciiLower(scheme) == "https") &&
    forall k :: 0 <= k < |scheme| ==> IsAsciiLetter(scheme[k])
  }

  /** How `SplitScheme` reads "<scheme>:<rest>" for a scheme of ASCII letters: it is lower-cased. */
  lemma SplitSchemeOf(scheme: string, rest: string)
    requires scheme != "" && forall k :: 0 <= k < |scheme| ==> IsAsciiLetter(scheme[k])
    ensures SplitScheme(scheme + ":" + rest) == (AsciiLower(scheme), rest)
  {
    var url := scheme + ":" + rest;
    assert url == scheme + (":" + rest);
    IndexOfAfter(scheme, ":" + rest, ':');
    assert IndexOf(url, ':') == |scheme|;
    assert url[..|scheme|] == scheme;
    assert url[|scheme| + 1..] == rest;
  }

  /** How `SplitNetloc` reads "//<host><after>" when the host holds no '/', '?' or '#' and `after` starts with '/'. */
  lemma SplitNetlocOf(host: string, after: string)
    requires forall k :: 0 <= k < |host| ==> host[k] !in NetlocEnd
    requires after != [] && after[0] == '/'
    ensures SplitNetloc("//" + host + after) == (host, after)
  {
    var rest := "//" + host + after;
    assert rest[..2] == "//";
    assert rest[2..] == host + after;
    IndexOfAnyAfter(host, after, NetlocEnd);
    assert rest[2..2 + |host|] == host;
    assert rest[2 + |host|..] == after;
  }

  /** The i-th accepted prefix is the i-th host name followed by '/', and no host name holds '/', '?', '#' or a newline. */
  lemma HostPrefix(i: nat)
    requires i < |SoundCloudHosts|
    ensures |SoundCloudPrefixes| == |SoundCloudHosts|
    ensures SoundCloudPrefixes[i] == SoundCloudHosts[i] + "/"
    ensures HostName(SoundCloudHosts[i])
  {
    assert HostName(SoundCloudDomain);
    if i == 1 {
      HostNameConcat("www.", SoundCloudDomain);
    } else if i == 2 {
      HostNameConcat("m.", SoundCloudDomain);
    } else if i == 3 {
      HostNameConcat("on.", SoundCloudDomain);
    }
  }

  lemma HostNameConcat(a: string, b: string)
    requires HostName(a) && HostName(b)
    ensures HostName(a + b)
  {
    forall k | 0 <= k < |a + b| ensures (a + b)[k] == if k < |a| then a[k] else b[k - |a|] {
    }
  }

  lemma PrefixThenCharOf(host: string, tail: string)
    requires tail != "" && tail[0] != '\n'
    ensures PrefixThenChar(host + ("/" + tail), host + "/")
  {
    var p := host + "/";
    assert host + ("/" + tail) == p + tail;
    assert (p + tail)[..|p|] == p;
    assert (p + tail)[|p|] == tail[0];
  }

  /** The last step of `validate_url`: a web scheme and an accepted prefix of host and path. */
  lemma AcceptedByParts(url: string, i: nat)
    requires url != ""
    requires ParseUrl(url).scheme == "http" || ParseUrl(url).scheme == "https"
    requires i < |SoundCloudPrefixes|
    requires PrefixThenChar(ParseUrl(url).netloc + ParseUrl(url).path, SoundCloudPrefixes[i])
    ensures ValidateUrl(url)
  {
  }

  /** A network location with no delimiter and no character that `urlsplit` deletes. */
  predicate HostName(host: string) {
    forall k :: 0 <= k < |host| ==> host[k] !in {'/', '?', '#', '\t', '\r', '\n'}
  }

  lemma HostUrlClean(scheme: string, host: string, after: string)
    requires WebScheme(scheme)
    requires HostName(host)
    requires PlainPath(after)
    ensures NoUnsafe(scheme + "://" + host + after)
  {
    var url := scheme + "://" + host + after;
    forall k | 0 <= k < |url| ensures url[k] !in UnsafeChars {
      if k < |scheme| + 3 {
      } else if k < |scheme| + 3 + |host| {
        assert url[k] == host[k - |scheme| - 3];
      } else {
        assert url[k] == after[k - |scheme| - 3 - |host|];
      }
    }
  }

  /** How `ParseUrl` splits "<scheme>://<host><after>" for a plain host and an `after` that starts with '/'. */
  lemma ParseHostUrl(scheme: string, host: string, after: string)
    requires WebScheme(scheme)
    requires HostName(host)
    requires after != [] && after[0] == '/'
    requires PlainPath(after)
    ensures ParseUrl(scheme + "://" + host + after) == UrlParts(AsciiLower(scheme), host, after)
  {
    var url := scheme + "://" + host + after;
    assert url[0] == scheme[0];
    HostUrlClean(scheme, host, after);
    CleanUrl(url);
    SplitHostUrl(scheme, host, after);
  }

  lemma SplitHostUrl(scheme: string, host: string, after: string)
    requires WebScheme(scheme)
    requires HostName(host)
    requires after != [] && after[0] == '/'
    requires PlainPath(after)
    ensures SplitUrl(scheme + "://" + host + after) == UrlParts(AsciiLower(scheme), host, after)
  {
    var rest := "//" + host + after;
    assert scheme + "://" + host + after == scheme + ":" + rest;
    assert |scheme| == |AsciiLower(scheme)| >= 4;
    SplitSchemeOf(scheme, rest);
    SplitNetlocOf(host, after);
    PathOf(AsciiLower(scheme), after);
  }

  /**
   * Every URL written as "<http or https>://<SoundCloud host>/<tail>" is
   * accepted when the tail is non-empty, does not start with a newline and
   * holds no '?', '#', ';', tab or newline.
   */
  lemma SoundCloudUrlAccepted(scheme: string, i: nat, tail: string)
    requires WebScheme(scheme)
    requires i < |SoundCloudHosts|
    requires tail != "" && tail[0] != '\n'
    requires PlainPath(tail)
    ensures ValidateUrl(scheme + "://" + SoundCloudHosts[i] + "/" + tail)
  {
    var host := SoundCloudHosts[i];
    var after := "/" + tail;
    var url := scheme + "://" + host + "/" + tail;
    assert url == scheme + "://" + host + after;
    assert ParseUrl(url) == UrlParts(AsciiLower(scheme), host, after) by {
      PlainAfterSlash(tail);
      HostPrefix(i);
      ParseHostUrl(scheme, host, after);
    }
    assert PrefixThenChar(host + after, SoundCloudPrefixes[i]) by {
      HostPrefix(i);
      PrefixThenCharOf(host, tail);
    }
    AcceptedByParts(url, i);
  }

  lemma PathOf(scheme: string, after: string)
    requires PlainPath(after)
    ensures PathPart(scheme, after) == after
  {
    IndexOfAbsent(after, '#');
    assert after[..|after|] == after;
    IndexOfAbsent(after, '?');
    StripParamsNoSemicolon(after);
  }

  /** A link to a playlist in the shape the tool documents is accepted. */
  lemma PlaylistUrlAccepted(url: string)
    requires url == "https://soundcloud.com/artist/sets/mix"
    ensures ValidateUrl(url)
  {
    PlaylistExample(url);
    ExampleParts();
    SoundCloudUrlAccepted("https", 0, "artist/sets/mix");
  }

  /** The example URLs, taken apart. */
  lemma PlaylistExample(url: string)
    requires url == "https://soundcloud.com/artist/sets/mix"
    ensures url == "https" + "://" + SoundCloudHosts[0] + "/" + "artist/sets/mix"
  {
  }

  lemma UpperSchemeExample(url: string)
    requires url == "HTTPS://m.soundcloud.com/artist/sets/mix"
    ensures url == "HTTPS" + "://" + SoundCloudHosts[2] + "/" + "artist/sets/mix"
  {
  }

  lemma CapitalisedHostExample(url: string)
    requires url == "https://SoundCloud.com/artist/sets/mix"
    ensures url == "https" + "://" + "SoundCloud.com" + "/artist/sets/mix"
  {
  }

  /** The schemes and the path of the examples meet the general lemmas' conditions. */
  lemma ExampleParts()
    ensures WebScheme("https") && WebScheme("HTTPS")
    ensures PlainPath("artist/sets/mix") && PlainPath("/artist/sets/mix")
    ensures HostName("SoundCloud.com")
  {
    assert AsciiLower("HTTPS") == "https";
  }

  /** `urlparse` lower-cases the scheme, so an upper-case scheme is accepted as well. */
  lemma UpperSchemeAccepted(url: string)
    requires url == "HTTPS://m.soundcloud.com/artist/sets/mix"
    ensures ValidateUrl(url)
  {
    UpperSchemeExample(url);
    ExampleParts();
    SoundCloudUrlAccepted("HTTPS", 2, "artist/sets/mix");
  }

  /** A host whose first character starts none of the accepted prefixes is rejected, whatever follows. */
  lemma ForeignHostRejected(scheme: string, host: string, after: string)
    requires WebScheme(scheme)
    requires HostName(host) && host != [] && host[0] !in {'s', 'w', 'm', 'o'}
    requires after != [] && after[0] == '/'
    requires PlainPath(after)
    ensures !ValidateUrl(scheme + "://" + host + after)
  {
    ParseHostUrl(scheme, host, after);
    var s := host + after;
    assert s[0] == host[0];
    forall j | 0 <= j < |SoundCloudPrefixes| ensures !PrefixThenChar(s, SoundCloudPrefixes[j]) {
      PrefixInitial(j);
      FirstCharDiffers(s, SoundCloudPrefixes[j]);
    }
  }

  /** Every accepted prefix starts with 's', 'w', 'm' or 'o'. */
  lemma PrefixInitial(j: nat)
    requires j < |SoundCloudPrefixes|
    ensures SoundCloudPrefixes[j] != [] && SoundCloudPrefixes[j][0] in {'s', 'w', 'm', 'o'}
  {
    if j == 0 {
      assert SoundCloudPrefixes[0][0] == 's';
    } else if j == 1 {
      assert SoundCloudPrefixes[1][0] == 'w';
    } else if j == 2 {
      assert SoundCloudPrefixes[2][0] == 'm';
    } else {
      assert SoundCloudPrefixes[3][0] == 'o';
    }
  }

  lemma FirstCharDiffers(s: string, p: string)
    requires s != [] && p != [] && s[0] != p[0]
    ensures !PrefixThenChar(s, p)
  {
  }

  /** Host matching is case-sensitive: a capitalised host name is rejected. */
  lemma CapitalisedHostRejected(url: string)
    requires url == "https://SoundCloud.com/artist/sets/mix"
    ensures !ValidateUrl(url)
  {
    CapitalisedHostExample(url);
    ExampleParts();
    ForeignHostRejected("https", "SoundCloud.com", "/artist/sets/mix");
  }

  /** No accepted prefix leaves a character after "<host>/": host names hold no '/'. */
  lemma NoCharAfterHost(i: nat, j: nat)
    requires i < |SoundCloudHosts| && j < |SoundCloudHosts|
    ensures !PrefixThenChar(SoundCloudHosts[i] + "/", SoundCloudPrefixes[j])
  {
    HostPrefix(i);
    HostPrefix(j);
    var s := SoundCloudHosts[i] + "/";
    var p := SoundCloudPrefixes[j];
    if |s| > |p| {
      var n := |SoundCloudHosts[j]|;
      assert p[n] == '/';
      assert s[n] == SoundCloudHosts[i][n];
      assert s[n] != p[n];
    }
  }

  /** The bare host with nothing after its '/' is rejected: `.+` needs a character. */
  lemma HostRootRejected(scheme: string, i: nat)
    requires WebScheme(scheme)
    requires i < |SoundCloudHosts|
    ensures !ValidateUrl(scheme + "://" + SoundCloudHosts[i] + "/")
  {
    var url := scheme + "://" + SoundCloudHosts[i] + "/";
    assert ParseUrl(url) == UrlParts(AsciiLower(scheme), SoundCloudHosts[i], "/") by {
      HostPrefix(i);
      ParseHostUrl(scheme, SoundCloudHosts[i], "/");
    }
    forall j | 0 <= j < |SoundCloudPrefixes| ensures !PrefixThenChar(SoundCloudHosts[i] + "/", SoundCloudPrefixes[j]) {
      HostPrefix(j);
      NoCharAfterHost(i, j);
    }
  }

  // ---------------------------------------------------------------------------
  // Properties of the client-id and output-path validators

  /** Without newlines, a client id is accepted exactly when it is a non-empty run of `[A-Za-z0-9_-]`. */
  lemma ClientIdWithoutNewline(id: string)
    requires forall k :: 0 <= k < |id| ==> id[k] != '\n'
    ensures ValidateClientId(id) <==> id != "" && AllIdChars(id)
  {
  }

  /** Python's `$` lets one trailing newline through: `id + "\n"` is accepted exactly when `id` is. */
  lemma ClientIdTrailingNewline(id: string)
    requires forall k :: 0 <= k < |id| ==> id[k] != '\n'
    ensures ValidateClientId(id + "\n") <==> ValidateClientId(id)
  {
    var s := id + "\n";
    assert s[..|s| - 1] == id;
    if ValidateClientId(s) {
      assert !AllIdChars(s) by {
        assert !IsIdChar(s[|s| - 1]);
      }
    }
  }

  /** Output paths: the path is accepted exactly when both halves are free of the forbidden characters and it is not empty. */
  lemma OutputPathConcat(a: string, b: string)
    ensures ValidateOutputPath(a + b) <==>
      a + b != "" && (a == "" || ValidateOutputPath(a)) && (b == "" || ValidateOutputPath(b))
  {
    if a != "" && b != "" && ValidateOutputPath(a) && ValidateOutputPath(b) {
      forall k | 0 <= k < |a + b| ensures (a + b)[k] !in InvalidPathChars {
        if k >= |a| {
          assert (a + b)[k] == b[k - |a|];
        }
      }
    }
    if ValidateOutputPath(a + b) {
      forall k | 0 <= k < |a| ensures a[k] !in InvalidPathChars {
        assert a[k] == (a + b)[k];
      }
      forall k | 0 <= k < |b| ensures b[k] !in InvalidPathChars {
        assert b[k] == (a + b)[|a| + k];
      }
    }
  }

  /** Inserting a character never turns a rejected non-empty path into an accepted one. */
  lemma OutputPathInsert(a: string, c: char, b: string)
    requires a + b != ""
    requires ValidateOutputPath(a + [c] + b)
    ensures ValidateOutputPath(a + b)
  {
    var s := a + [c] + b;
    forall k | 0 <= k < |a + b| ensures (a + b)[k] !in InvalidPathChars {
      if k < |a| {
        assert (a + b)[k] == s[k];
      } else {
        assert (a + b)[k] == s[k + 1];
      }
    }
  }
}
