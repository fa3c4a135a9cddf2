/** Assembly of the extractor command lines: the client list, the
    `youtube:` extractor-argument string, the argument vectors of the
    fetch and format-listing commands in api/engine.py, api/fly_engine.py
    and api/testfly.py, the quoted `printable_cmd` of api/fly_engine.py,
    the forwarding of the listing's output, and the unescaping of the
    cookie text in api/engine.py. */
module Commands {
  import opened Wrappers
  import opened Text
  import Dispatch

  // ---------------------------------------------------------------------
  // Player clients and the extractor-argument string
  // ---------------------------------------------------------------------

  /** `[c.strip() for c in player_clients.split(',')] if player_clients else []`. */
  function Pieces(playerClients: string): seq<string> {
    if playerClients == "" then [] else StripAll(Split(playerClients, ','))
  }

  function StripAll(raw: seq<string>): seq<string> {
    seq(|raw|, k requires 0 <= k < |raw| => Strip(raw[k]))
  }

  /** Pieces with no surrounding whitespace are kept as they are. */
  lemma StripAllKeeps(raw: seq<string>)
    requires forall k :: 0 <= k < |raw| ==>
      raw[k] == [] || (raw[k][0] !in Whitespace && raw[k][|raw[k]| - 1] !in Whitespace)
    ensures StripAll(raw) == raw
  {
    forall k | 0 <= k < |raw| ensures StripAll(raw)[k] == raw[k] {
      StripKeeps(raw[k]);
    }
  }

  /** The client list after `web` is appended when it is missing: the
      stripped pieces in order, then `web` iff none of them is `web`. */
  function Clients(playerClients: string): (cs: seq<string>)
    ensures "web" in cs
    ensures |cs| == |Pieces(playerClients)| + (if "web" in Pieces(playerClients) then 0 else 1)
    ensures cs[..|Pieces(playerClients)|] == Pieces(playerClients)
  {
    var ps := Pieces(playerClients);
    if "web" in ps then ps else ps + ["web"]
  }

  /** A comma-separated list of clean names gives those names back, with
      `web` added at the end iff it was not among them. */
  lemma ClientsOfList(names: seq<string>)
    requires |names| >= 1
    requires forall k :: 0 <= k < |names| ==>
      names[k] != "" && ',' !in names[k] && names[k][0] !in Whitespace && names[k][|names[k]| - 1] !in Whitespace
    ensures Clients(Join(names, ",")) == names + (if "web" in names then [] else ["web"])
  {
    PiecesOfList(names);
  }

  /** Splitting such a list at `,` and stripping each piece gives the
      names back. */
  lemma PiecesOfList(names: seq<string>)
    requires |names| >= 1
    requires forall k :: 0 <= k < |names| ==>
      names[k] != "" && ',' !in names[k] && names[k][0] !in Whitespace && names[k][|names[k]| - 1] !in Whitespace
    ensures Pieces(Join(names, ",")) == names
  {
    JoinStartsWithFirst(names, ",");
    SplitJoin(names, ',');
    StripAllKeeps(names);
  }

  /** The `;`-separated parameters: the clients (when there are any), then
      `playback_wait` and `po_token` when they are non-empty. */
  function ExtractorParams(clients: seq<string>, waitTime: string, poToken: string): seq<string> {
    (if clients != [] then ["player_client=" + Join(clients, ",")] else [])
    + (if waitTime != "" then ["playback_wait=" + waitTime] else [])
    + (if poToken != "" then ["po_token=" + poToken] else [])
  }

  /** `extractor_string`: empty without parameters, otherwise `youtube:`
      followed by the parameters joined with `;`. */
  function ExtractorString(clients: seq<string>, waitTime: string, poToken: string): (s: string)
    ensures s == "" <==> clients == [] && waitTime == "" && poToken == ""
    ensures clients != [] ==> StartsWith(s, "youtube:player_client=")
  {
    var params := ExtractorParams(clients, waitTime, poToken);
    if params == [] then ""
    else
      var body := Join(params, [';']);
      JoinStartsWithFirst(params, [';']);
      ClientsParamFirst(clients, waitTime, poToken, body);
      "youtube:" + body
  }

  lemma ClientsParamFirst(clients: seq<string>, waitTime: string, poToken: string, body: string)
    requires var params := ExtractorParams(clients, waitTime, poToken);
      params != [] && StartsWith(body, params[0])
    ensures clients != [] ==> StartsWith("youtube:" + body, "youtube:player_client=")
  {
    if clients != [] {
      var first := "player_client=" + Join(clients, ",");
      assert ExtractorParams(clients, waitTime, poToken)[0] == first;
      assert StartsWith(first, "player_client=") by {
        assert first[..14] == "player_client=";
      }
      StartsWithTrans(body, first, "player_client=");
      StartsWithAppend("youtube:", body, "player_client=");
    }
  }

  /** The extractor string can be read back: after `youtube:` the `;`
      pieces are exactly the parameters, the first carries the clients
      separated by `,`, and the optional parameters appear iff given. */
  lemma ExtractorRoundTrip(clients: seq<string>, waitTime: string, poToken: string)
    requires |clients| >= 1
    requires forall k :: 0 <= k < |clients| ==> ';' !in clients[k] && ',' !in clients[k]
    requires ';' !in waitTime && ';' !in poToken
    ensures var s := ExtractorString(clients, waitTime, poToken);
      var ps := Split(s[8..], ';');
      && ps == ExtractorParams(clients, waitTime, poToken)
      && |ps| == 1 + (if waitTime != "" then 1 else 0) + (if poToken != "" then 1 else 0)
      && ps[0][..14] == "player_client="
      && Split(ps[0][14..], ',') == clients
      && (waitTime != "" ==> ps[1] == "playback_wait=" + waitTime)
      && (poToken != "" ==> ps[|ps| - 1] == "po_token=" + poToken)
  {
    var params := ExtractorParams(clients, waitTime, poToken);
    var joined := Join(clients, ",");
    JoinAvoids(clients, ",", ';');
    assert ';' !in "player_client=";
    assert ';' !in "playback_wait=";
    assert ';' !in "po_token=";
    forall k | 0 <= k < |params| ensures ';' !in params[k] {
    }
    SplitJoin(params, ';');
    var s := ExtractorString(clients, waitTime, poToken);
    assert s[8..] == Join(params, [';']);
    assert params[0][14..] == joined;
    SplitJoin(clients, ',');
  }

  // ---------------------------------------------------------------------
  // Argument vectors
  // ---------------------------------------------------------------------

  /** The parameters of one fetch or listing job. */
  datatype Request = Request(
    url: string,
    chunkSize: string,
    limitRate: string,
    playerClients: string,
    waitTime: string,
    poToken: string,
    impersonate: string,
    noPlaylist: bool,
    cookieFile: string,
    cookieFileExists: bool)  // `os.path.exists(cookie_file)`

  function Opt(b: bool, args: seq<string>): seq<string> {
    if b then args else []
  }

  /** The fixed head of the fetch command of api/engine.py and
      api/fly_engine.py: best audio, ordered by bitrate and size, chunked
      and rate-limited, written to standard output. */
  function FetchHead(python: string, chunkSize: string, limitRate: string): seq<string> {
    [python, "-m", "yt_dlp", "--newline", "-f", "ba", "-S", "+abr,+tbr,+size",
     "--http-chunk-size", chunkSize, "--limit-rate", limitRate, "-o", "-"]
  }

  /** The client list always holds `web`, so the extractor string is never
      empty and always starts with the client parameter. */
  function Extractor(r: Request): (ext: string)
    ensures ext != ""
    ensures StartsWith(ext, "youtube:player_client=")
  {
    var cs := Clients(r.playerClients);
    assert cs != [] by { assert "web" in cs; }
    ExtractorString(cs, r.waitTime, r.poToken)
  }

  /** `cmd` of `run_packager` in api/engine.py: the fixed head, then
      `--no-playlist`, `--cookies`, `--extractor-args` (always: the client
      list is never empty) and `--impersonate`, each only when it applies,
      and the URL last. */
  function FetchArgv(python: string, r: Request): (argv: seq<string>)
    ensures var np := if r.noPlaylist then 1 else 0;
      var ck := if r.cookieFileExists then 2 else 0;
      var im := if r.impersonate != "" then 2 else 0;
      && |argv| == 17 + np + ck + im
      && argv[..14] == FetchHead(python, r.chunkSize, r.limitRate)
      && (r.noPlaylist ==> argv[14] == "--no-playlist")
      && (r.cookieFileExists ==> argv[14 + np..16 + np] == ["--cookies", r.cookieFile])
      && argv[14 + np + ck..16 + np + ck] == ["--extractor-args", Extractor(r)]
      && (r.impersonate != "" ==> argv[16 + np + ck..18 + np + ck] == ["--impersonate", r.impersonate])
      && argv[|argv| - 1] == r.url
  {
    var ext := Extractor(r);
    var a0 := FetchHead(python, r.chunkSize, r.limitRate);
    var o1 := Opt(r.noPlaylist, ["--no-playlist"]);
    var o2 := Opt(r.cookieFileExists, ["--cookies", r.cookieFile]);
    var o3 := Opt(ext != "", ["--extractor-args", ext]);
    var o4 := Opt(r.impersonate != "", ["--impersonate", r.impersonate]);
    var argv := a0 + o1 + o2 + o3 + o4 + [r.url];
    assert argv[..|a0 + o1 + o2 + o3 + o4|] == a0 + o1 + o2 + o3 + o4;
    PrefixOfAppend(argv, a0 + o1 + o2 + o3, o4);
    PrefixOfAppend(argv, a0 + o1 + o2, o3);
    PrefixOfAppend(argv, a0 + o1, o2);
    PrefixOfAppend(argv, a0, o1);
    argv
  }

  /** A prefix `p + t` splits into `p` and, right after it, `t`. */
  lemma PrefixOfAppend(s: seq<string>, p: seq<string>, t: seq<string>)
    requires |p + t| <= |s| && s[..|p + t|] == p + t
    ensures s[..|p|] == p
    ensures s[|p|..|p| + |t|] == t
  {
    assert s[..|p|] == (p + t)[..|p|];
    assert s[|p|..|p| + |t|] == (p + t)[|p|..];
  }

  /** `cmd` of `run_packager` in api/fly_engine.py: no playlist or
      impersonation options. */
  function FlyFetchArgv(python: string, r: Request): (argv: seq<string>)
    ensures var ck := if r.cookieFileExists then 2 else 0;
      && |argv| == 17 + ck
      && argv[..14] == FetchHead(python, r.chunkSize, r.limitRate)
      && (r.cookieFileExists ==> argv[14..16] == ["--cookies", r.cookieFile])
      && argv[14 + ck..16 + ck] == ["--extractor-args", Extractor(r)]
      && argv[|argv| - 1] == r.url
  {
    var ext := Extractor(r);
    var a0 := FetchHead(python, r.chunkSize, r.limitRate);
    var o1 := Opt(r.cookieFileExists, ["--cookies", r.cookieFile]);
    var o2 := Opt(ext != "", ["--extractor-args", ext]);
    var argv := a0 + o1 + o2 + [r.url];
    assert argv[..|a0 + o1 + o2|] == a0 + o1 + o2;
    PrefixOfAppend(argv, a0 + o1, o2);
    PrefixOfAppend(argv, a0, o1);
    argv
  }

  /** `CONFIG.COOKIE_FILE` of api/testfly.py. */
  const PrototypeCookieFile := "/tmp/cookies.txt"

  /** The extractor arguments api/testfly.py uses when the caller sends
      none. */
  const PrototypeExtractorDefault := "youtube:player_client=tv;playback_wait=2"

  /** `cmd` of `run_packager` in api/testfly.py: fixed chunk size and rate,
      the shared cookie file iff cookie text was sent, the caller's
      extractor arguments or the default, and the URL last. */
  function PrototypeArgv(cookies: string, extractorArgs: string, url: string): (argv: seq<string>)
    ensures var ck := if cookies != "" then 2 else 0;
      && |argv| == 14 + ck
      && argv[..11] == ["yt-dlp", "-f", "ba", "-S", "+abr,+tbr,+size",
                        "--http-chunk-size", "8M", "--limit-rate", "4M", "-o", "-"]
      && (cookies != "" ==> argv[11..13] == ["--cookies", PrototypeCookieFile])
      && argv[11 + ck] == "--extractor-args"
      && argv[12 + ck] == (if extractorArgs != "" then extractorArgs else PrototypeExtractorDefault)
      && argv[|argv| - 1] == url
  {
    ["yt-dlp", "-f", "ba", "-S", "+abr,+tbr,+size",
     "--http-chunk-size", "8M", "--limit-rate", "4M", "-o", "-"]
    + Opt(cookies != "", ["--cookies", PrototypeCookieFile])
    + (if extractorArgs != "" then ["--extractor-args", extractorArgs]
       else ["--extractor-args", PrototypeExtractorDefault])
    + [url]
  }

  /** `cmd` of `run_format_listing` in api/engine.py (`withEngineOptions`)
      and api/fly_engine.py (without `--no-playlist` and `--impersonate`):
      the listing never carries `playback_wait`. */
  function ListingArgv(python: string, r: Request, withEngineOptions: bool): (argv: seq<string>)
    ensures var np := if withEngineOptions && r.noPlaylist then 1 else 0;
      var ck := if r.cookieFileExists then 2 else 0;
      var im := if withEngineOptions && r.impersonate != "" then 2 else 0;
      && |argv| == 8 + np + ck + im
      && argv[..5] == [python, "-m", "yt_dlp", "--list-formats", "--newline"]
      && (np == 1 ==> argv[5] == "--no-playlist")
      && (r.cookieFileExists ==> argv[5 + np..7 + np] == ["--cookies", r.cookieFile])
      && argv[5 + np + ck..7 + np + ck] == ["--extractor-args", ExtractorString(Clients(r.playerClients), "", r.poToken)]
      && (im == 2 ==> argv[7 + np + ck..9 + np + ck] == ["--impersonate", r.impersonate])
      && argv[|argv| - 1] == r.url
  {
    var cs := Clients(r.playerClients);
    assert cs != [] by { assert "web" in cs; }
    var ext := ExtractorString(cs, "", r.poToken);
    var a0 := [python, "-m", "yt_dlp", "--list-formats", "--newline"];
    var o1 := Opt(withEngineOptions && r.noPlaylist, ["--no-playlist"]);
    var o2 := Opt(r.cookieFileExists, ["--cookies", r.cookieFile]);
    var o3 := Opt(ext != "", ["--extractor-args", ext]);
    var o4 := Opt(withEngineOptions && r.impersonate != "", ["--impersonate", r.impersonate]);
    var argv := a0 + o1 + o2 + o3 + o4 + [r.url];
    assert argv[..|a0 + o1 + o2 + o3 + o4|] == a0 + o1 + o2 + o3 + o4;
    PrefixOfAppend(argv, a0 + o1 + o2 + o3, o4);
    PrefixOfAppend(argv, a0 + o1 + o2, o3);
    PrefixOfAppend(argv, a0 + o1, o2);
    PrefixOfAppend(argv, a0, o1);
    argv
  }

  // ---------------------------------------------------------------------
  // printable_cmd
  // ---------------------------------------------------------------------

  predicate NeedsQuotes(c: string) {
    ' ' in c || ';' in c
  }

  /** One argument of `printable_cmd`: single-quoted iff it holds a space
      or a `;`. */
  function Printable(c: string): string {
    if NeedsQuotes(c) then "'" + c + "'" else c
  }

  /** Reading one printed argument back. */
  function Unquote(p: string): string {
    if |p| >= 2 && p[0] == '\'' && p[|p| - 1] == '\'' && NeedsQuotes(p[1..|p| - 1]) then p[1..|p| - 1] else p
  }

  lemma UnquotePrintable(c: string)
    ensures Unquote(Printable(c)) == c
  {
    var p := Printable(c);
    if NeedsQuotes(c) {
      assert p[1..|p| - 1] == c;
    } else if |p| >= 2 && p[0] == '\'' && p[|p| - 1] == '\'' {
      var m := p[1..|p| - 1];
      assert forall i :: 0 <= i < |m| ==> m[i] == c[i + 1];
      assert ' ' !in m && ';' !in m;
    }
  }

  /** The printed form of each argument, in order; every one reads back
      to its argument. */
  function PrintedArgs(cmd: seq<string>): (ps: seq<string>)
    ensures |ps| == |cmd|
    ensures forall k :: 0 <= k < |cmd| ==> ps[k] == Printable(cmd[k])
    ensures forall k :: 0 <= k < |cmd| ==> Unquote(ps[k]) == cmd[k]
  {
    UnquoteAll(cmd);
    seq(|cmd|, k requires 0 <= k < |cmd| => Printable(cmd[k]))
  }

  lemma UnquoteAll(cmd: seq<string>)
    ensures forall k :: 0 <= k < |cmd| ==> Unquote(Printable(cmd[k])) == cmd[k]
  {
    forall k | 0 <= k < |cmd| {
      UnquotePrintable(cmd[k]);
    }
  }

  /** `" ".join(...)` of the printed arguments. */
  function PrintableCmd(cmd: seq<string>): string {
    Join(PrintedArgs(cmd), " ")
  }

  /** When no argument holds a space, the printed command splits on spaces
      into one piece per argument, and each piece unquotes to its
      argument. */
  lemma PrintableCmdRoundTrip(cmd: seq<string>)
    requires |cmd| >= 1
    requires forall k :: 0 <= k < |cmd| ==> ' ' !in cmd[k]
    ensures var pieces := Split(PrintableCmd(cmd), ' ');
      |pieces| == |cmd| && forall k :: 0 <= k < |cmd| ==> Unquote(pieces[k]) == cmd[k]
  {
    var ps := PrintedArgs(cmd);
    forall k | 0 <= k < |ps| ensures ' ' !in ps[k] {
      if NeedsQuotes(cmd[k]) {
        assert ps[k] == "'" + cmd[k] + "'";
        assert forall i :: 0 <= i < |ps[k]| ==> ps[k][i] == '\'' || ps[k][i] in cmd[k];
      }
    }
    assert " " == [' '];
    SplitJoin(ps, ' ');
    forall k | 0 <= k < |cmd| ensures Unquote(ps[k]) == cmd[k] {
      UnquotePrintable(cmd[k]);
    }
  }

  // ---------------------------------------------------------------------
  // Format listing
  // ---------------------------------------------------------------------

  /** A status event whose text is non-empty and already stripped. */
  predicate StrippedStatus(c: Dispatch.Call) {
    c.kind == "status" && c.payload.None? && c.text.Some? && c.text.value != ""
    && Strip(c.text.value) == c.text.value
  }

  /** The non-empty stripped output lines, each as a status event. */
  function Forwarded(lines: seq<string>): (calls: seq<Dispatch.Call>)
    ensures |calls| <= |lines|
    ensures forall k :: 0 <= k < |calls| ==> StrippedStatus(calls[k])
  {
    if lines == [] then []
    else
      var text := Strip(lines[|lines| - 1]);
      StripIdem(lines[|lines| - 1]);
      var one := if text != "" then [Dispatch.StatusCall(text)] else [];
      assert forall k :: 0 <= k < |one| ==> StrippedStatus(one[k]);
      StrippedAppend(Forwarded(lines[..|lines| - 1]), one);
      Forwarded(lines[..|lines| - 1]) + one
  }

  lemma StrippedAppend(a: seq<Dispatch.Call>, b: seq<Dispatch.Call>)
    requires forall k :: 0 <= k < |a| ==> StrippedStatus(a[k])
    requires forall k :: 0 <= k < |b| ==> StrippedStatus(b[k])
    ensures forall k :: 0 <= k < |a + b| ==> StrippedStatus((a + b)[k])
  {
  }

  /** A blank or all-whitespace line forwards nothing; any other line
      forwards exactly its stripped text. */
  lemma ForwardedLine(lines: seq<string>, line: string)
    ensures Forwarded(lines + [line]) ==
      Forwarded(lines) + (if Strip(line) == "" then [] else [Dispatch.StatusCall(Strip(line))])
  {
    assert (lines + [line])[..|lines|] == lines;
  }

  /** `ForwardedLine` for the prefixes the read loop walks. */
  lemma ForwardedPrefix(lines: seq<string>, i: nat)
    requires i < |lines|
    ensures Strip(lines[i]) == "" ==> Forwarded(lines[..i + 1]) == Forwarded(lines[..i])
    ensures Strip(lines[i]) != "" ==>
      Forwarded(lines[..i + 1]) == Forwarded(lines[..i]) + [Dispatch.StatusCall(Strip(lines[i]))]
  {
    assert lines[..i + 1] == lines[..i] + [lines[i]];
    ForwardedLine(lines[..i], lines[i]);
    assert Forwarded(lines[..i]) + [] == Forwarded(lines[..i]);
  }

  /** The read loop of `run_format_listing`. */
  method ForwardOutput(lines: seq<string>) returns (calls: seq<Dispatch.Call>)
    ensures calls == Forwarded(lines)
  {
    calls := [];
    var i := 0;
    while i < |lines|
      invariant 0 <= i <= |lines|
      invariant calls == Forwarded(lines[..i])
    {
      var text := Strip(lines[i]);
      ForwardedPrefix(lines, i);
      if text != "" {
        calls := calls + [Dispatch.StatusCall(text)];
      }
      i := i + 1;
    }
    assert lines[..i] == lines;
  }

  const ListingBanner := "--- \U{1F4CB} LISTING FORMATS ---"

  /** `run_format_listing`: the banner, the plain space-joined command,
      then either the listing's output lines or, when the process cannot
      be started, one error event. */
  method RunFormatListing(python: string, r: Request, withEngineOptions: bool,
                          spawnError: Option<string>, output: seq<string>)
    returns (calls: seq<Dispatch.Call>)
    ensures |calls| >= 2
    ensures calls[0] == Dispatch.StatusCall(ListingBanner)
    ensures calls[1] == Dispatch.StatusCall("[COMMAND] " + Join(ListingArgv(python, r, withEngineOptions), " "))
    ensures spawnError.Some? ==> calls[2..] == [Dispatch.ErrorCall("[LIST ERROR] " + spawnError.value)]
    ensures spawnError.None? ==> calls[2..] == Forwarded(output)
  {
    var cmd := ListingArgv(python, r, withEngineOptions);
    calls := [Dispatch.StatusCall(ListingBanner), Dispatch.StatusCall("[COMMAND] " + Join(cmd, " "))];
    if spawnError.Some? {
      calls := calls + [Dispatch.ErrorCall("[LIST ERROR] " + spawnError.value)];
    } else {
      var forwarded := ForwardOutput(output);
      calls := calls + forwarded;
    }
  }

  // ---------------------------------------------------------------------
  // Cookie text
  // ---------------------------------------------------------------------

  /** `cookies.replace(r"\n", "\n").replace(r"\t", "\t")`: the two-character
      escapes typed into a form become a newline and a tab. */
  function UnescapeCookies(cookies: string): string {
    ReplaceAll(ReplaceAll(cookies, ['\\', 'n'], ['\n']), ['\\', 't'], ['\t'])
  }

  lemma AbsentHead(s: string, a: char, b: char)
    requires a !in s
    ensures !Contains(s, [a, b])
    decreases |s|
  {
    assert !StartsWith(s, [a, b]) by {
      if |s| >= 2 { assert s[..2][0] == s[0]; }
    }
    if |s| > 0 {
      AbsentHead(s[1..], a, b);
    }
  }

  /** After unescaping no backslash is followed by `n` or `t`, and text
      without a backslash is left as it is. */
  lemma UnescapeCookiesSound(cookies: string)
    ensures NoPair(UnescapeCookies(cookies), '\\', 'n')
    ensures NoPair(UnescapeCookies(cookies), '\\', 't')
    ensures '\\' !in cookies ==> UnescapeCookies(cookies) == cookies
  {
    var once := ReplaceAll(cookies, ['\\', 'n'], ['\n']);
    ReplaceRemovesPair(cookies, '\\', 'n', '\n');
    ReplaceKeepsNoPair(once, '\\', 't', '\t', 'n');
    ReplaceRemovesPair(once, '\\', 't', '\t');
    if '\\' !in cookies {
      AbsentHead(cookies, '\\', 'n');
      ReplaceAbsent(cookies, ['\\', 'n'], ['\n']);
      AbsentHead(cookies, '\\', 't');
      ReplaceAbsent(cookies, ['\\', 't'], ['\t']);
    }
  }
}
