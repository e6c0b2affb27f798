/**
 * The Go debug probe: it registers the endpoint, then for each test id read
 * from standard input fetches the test, and writes and runs it only when the
 * final URL names that same test and is served from the expected
 * certificate authority; the exit code is reported with one more fetch.
 *
 * The API, the file system and process execution are collaborators whose
 * answers are held in `Config`; every request, write and run is recorded.
 */
module DebugProbe {
  import opened Wrappers
  import opened Strings
  import opened Sequences
  import Base64

  // ---------------------------------------------------------------- test id in a URL

  predicate IsHex(c: char) {
    '0' <= c <= '9' || 'a' <= c <= 'f'
  }

  /** 8-4-4-4-12 lower-case hexadecimal digits. */
  predicate IsUuid(u: string) {
    |u| == 36 &&
    forall k :: 0 <= k < 36 ==> if k == 8 || k == 13 || k == 18 || k == 23 then u[k] == '-' else IsHex(u[k])
  }

  /** Whether the pattern matches at position `i` of `s`. */
  predicate MatchAt(s: string, i: nat) {
    i + 36 <= |s| && IsUuid(s[i..i + 36])
  }

  /** The leftmost position at or after `from` where the pattern matches. */
  function Leftmost(s: string, from: nat): (r: Option<nat>)
    ensures r.Some? ==> from <= r.value && MatchAt(s, r.value) && forall i :: from <= i < r.value ==> !MatchAt(s, i)
    ensures r.None? ==> forall i :: from <= i ==> !MatchAt(s, i)
    decreases |s| - from
  {
    if from + 36 > |s| then None
    else if IsUuid(s[from..from + 36]) then Some(from)
    else Leftmost(s, from + 1)
  }

  /** `re.FindString(location)`: the leftmost match, or "" when there is none. */
  function FindTestId(location: string): (id: string)
    ensures id == "" <==> forall i :: 0 <= i ==> !MatchAt(location, i)
    ensures id != "" ==> IsUuid(id) && exists i: nat :: MatchAt(location, i) && location[i..i + 36] == id
                                                  && forall j :: 0 <= j < i ==> !MatchAt(location, j)
  {
    match Leftmost(location, 0)
    case None => ""
    case Some(i) => location[i..i + 36]
  }

  /** A URL holding a test id, after any prefix without one, yields that id. */
  lemma {:induction false} FindTestIdAfter(prefix: string, id: string, suffix: string)
    requires IsUuid(id)
    requires forall i :: 0 <= i < |prefix| ==> !MatchAt(prefix + id + suffix, i)
    ensures FindTestId(prefix + id + suffix) == id
  {
    var s := prefix + id + suffix;
    assert s[|prefix|..|prefix| + 36] == id;
    assert MatchAt(s, |prefix|);
  }

  // ---------------------------------------------------------------- executable path

  function Separator(goos: string): char {
    if goos == "windows" then '\\' else '/'
  }

  /** The elements that are not empty, in their order. */
  function NonEmpty(parts: seq<string>): (r: seq<string>)
    ensures forall i :: 0 <= i < |r| ==> r[i] != ""
    ensures forall p :: p in r ==> p in parts
    decreases |parts|
  {
    if |parts| == 0 then []
    else (if parts[0] == "" then [] else [parts[0]]) + NonEmpty(parts[1..])
  }

  /** Every non-empty element is kept, and a sequence without empty elements is kept whole. */
  lemma {:induction false} NonEmptyKeeps(parts: seq<string>)
    ensures forall p :: p in parts && p != "" ==> p in NonEmpty(parts)
    ensures (forall i :: 0 <= i < |parts| ==> parts[i] != "") ==> NonEmpty(parts) == parts
    decreases |parts|
  {
    if |parts| > 0 {
      NonEmptyKeeps(parts[1..]);
      assert parts == [parts[0]] + parts[1..];
      forall p | p in parts && p != "" ensures p in NonEmpty(parts) {
        if p != parts[0] {
          assert p in parts[1..];
        }
      }
    }
  }

  /** `filepath.Join`: the non-empty elements, separated by the OS separator. */
  function JoinPath(parts: seq<string>, goos: string): string {
    Join(NonEmpty(parts), Separator(goos))
  }

  /** `executable(test)`: `<dir of the binary>/<CA>/<test>`, with `.exe` appended on Windows. */
  function Executable(binDir: string, ca: string, test: string, goos: string): string {
    JoinPath([binDir, ca, test], goos) + (if goos == "windows" then ".exe" else "")
  }

  /**
   * The path names the test's file inside the CA's directory inside the
   * binary's directory, whatever that directory holds; `.exe` is appended
   * on Windows only.
   */
  lemma ExecutableParts(binDir: string, ca: string, test: string, goos: string)
    requires binDir != "" && ca != "" && test != ""
    ensures Executable(binDir, ca, test, goos)
      == binDir + [Separator(goos)] + ca + [Separator(goos)] + test + (if goos == "windows" then ".exe" else "")
  {
    var parts := [binDir, ca, test];
    var sep := Separator(goos);
    assert [test][1..] == [] && [ca, test][1..] == [test] && parts[1..] == [ca, test];
    assert NonEmpty([test]) == [test];
    assert NonEmpty([ca, test]) == [ca, test];
    assert NonEmpty(parts) == parts;
    assert Join([test], sep) == test;
    assert Join([ca, test], sep) == ca + [sep] + test;
    assert Join(parts, sep) == binDir + [sep] + (ca + [sep] + test);
  }

  // ---------------------------------------------------------------- URL host

  predicate IsSchemeChar(c: char) {
    'a' <= c <= 'z' || 'A' <= c <= 'Z' || '0' <= c <= '9' || c == '+' || c == '-' || c == '.'
  }

  /** A URL scheme: a letter followed by letters, digits, `+`, `-` or `.`. */
  predicate IsScheme(scheme: string) {
    |scheme| >= 1 && ('a' <= scheme[0] <= 'z' || 'A' <= scheme[0] <= 'Z')
    && forall i :: 0 <= i < |scheme| ==> IsSchemeChar(scheme[i])
  }

  /** The authority ends at the first `/`, `?` or `#`. */
  function AuthorityEnd(s: string): (n: nat)
    ensures n <= |s|
    ensures forall i :: 0 <= i < n ==> s[i] != '/' && s[i] != '?' && s[i] != '#'
    ensures n < |s| ==> s[n] == '/' || s[n] == '?' || s[n] == '#'
    decreases |s|
  {
    if |s| == 0 || s[0] == '/' || s[0] == '?' || s[0] == '#' then 0 else 1 + AuthorityEnd(s[1..])
  }

  /** The part after the last `@`. */
  function AfterUserInfo(authority: string): (host: string)
    ensures '@' !in host
    ensures |host| <= |authority| && host == authority[|authority| - |host|..]
    ensures |host| < |authority| ==> authority[|authority| - |host| - 1] == '@'
    decreases |authority|
  {
    if |authority| == 0 then ""
    else if authority[|authority| - 1] == '@' then ""
    else
      var init, last := authority[..|authority| - 1], authority[|authority| - 1];
      var h := AfterUserInfo(init);
      assert authority[|authority| - |h| - 1..] == init[|init| - |h|..] + [last];
      h + [last]
  }

  /**
   * `url.Parse(location).Host` for an absolute URL `scheme://authority/...`:
   * the authority without user information; "" for any other text.
   */
  function HostOf(location: string): (host: string)
    ensures '@' !in host && '/' !in host && '?' !in host && '#' !in host
  {
    match IndexOf(location, ':', 0)
    case None => ""
    case Some(colon) =>
      var scheme := location[..colon];
      var rest := location[colon + 1..];
      if !IsScheme(scheme) || |rest| < 2 || rest[..2] != "//" then ""
      else
        var afterSlashes := rest[2..];
        var host := AfterUserInfo(afterSlashes[..AuthorityEnd(afterSlashes)]);
        assert forall c :: c in host ==> c in afterSlashes[..AuthorityEnd(afterSlashes)];
        host
  }

  /** The host of `https://<host>/<path>` is `<host>`. */
  lemma HostOfHttps(host: string, path: string)
    requires '@' !in host && '/' !in host && '?' !in host && '#' !in host && ':' !in host
    ensures HostOf("https://" + host + "/" + path) == host
  {
    var afterSlashes := host + "/" + path;
    HostOfAbsolute("https", afterSlashes);
    HttpsPrefix();
    Associative("https://", host, "/");
    Associative("https://", host + "/", path);
    AuthorityIsHost(host, path);
  }

  /** The authority at the head of `<host>/<path>` is `<host>`, and has no user information. */
  lemma AuthorityIsHost(host: string, path: string)
    requires '@' !in host && '/' !in host && '?' !in host && '#' !in host
    ensures var rest := host + "/" + path; AfterUserInfo(rest[..AuthorityEnd(rest)]) == host
  {
    var rest := host + "/" + path;
    assert rest[|host|] == '/';
    AuthorityEndAt(rest, |host|);
    assert rest[..|host|] == host;
    AfterUserInfoNoAt(host);
  }

  lemma HttpsPrefix()
    ensures "https" + "://" == "https://"
  {
  }

  /** For `<scheme>://<rest>`, the host is read from the authority at the start of `rest`. */
  lemma HostOfAbsolute(scheme: string, rest: string)
    requires IsScheme(scheme) && ':' !in scheme
    ensures HostOf(scheme + "://" + rest) == AfterUserInfo(rest[..AuthorityEnd(rest)])
  {
    SchemeSplit(scheme, rest);
  }

  /** How `<scheme>://<rest>` splits at its first colon. */
  lemma SchemeSplit(scheme: string, rest: string)
    requires ':' !in scheme
    ensures var s := scheme + "://" + rest;
      && IndexOf(s, ':', 0) == Some(|scheme|) && s[..|scheme|] == scheme
      && s[|scheme| + 1..][..2] == "//" && s[|scheme| + 1..][2..] == rest
  {
    var s := scheme + [':'] + ("//" + rest);
    assert s == scheme + "://" + rest;
    assert s[..|scheme|] == scheme;
    IndexOfAt(s, ':', 0, |scheme|);
    var after := s[|scheme| + 1..];
    assert after == "//" + rest;
  }

  lemma {:induction false} AuthorityEndAt(s: string, n: nat)
    requires n < |s| && s[n] == '/'
    requires forall i :: 0 <= i < n ==> s[i] != '/' && s[i] != '?' && s[i] != '#'
    ensures AuthorityEnd(s) == n
    decreases n
  {
    if n > 0 {
      AuthorityEndAt(s[1..], n - 1);
    }
  }

  lemma {:induction false} AfterUserInfoNoAt(a: string)
    requires '@' !in a
    ensures AfterUserInfo(a) == a
    decreases |a|
  {
    if |a| > 0 {
      assert a[..|a| - 1] + [a[|a| - 1]] == a;
      AfterUserInfoNoAt(a[..|a| - 1]);
    }
  }

  // ---------------------------------------------------------------- collaborators

  type Body = seq<Base64.byte>

  /** What fetching a test gives: no answer, an unreadable body, or the final URL after redirects and the body. */
  datatype Fetch = Unreachable | Unreadable | Fetched(location: string, body: Body)

  /** `os.Stat` on the written file: there, gone (quarantined), or another error. */
  datatype Stat = Exists | NotExist | StatFailed

  datatype Registration = RegisterUnreachable | Answered(status: int, body: string)

  datatype Config = Config(
    api: string,                                 // -api
    ca: string,                                  // -ca
    hostFlag: string,                            // -host
    osHostname: string,
    goos: string,
    goarch: string,
    binDir: string,                              // directory of the running binary
    validUrl: string -> bool,                    // whether http.NewRequest accepts the URL
    fetch: map<string, string> -> Fetch,         // GET on the API with these headers
    stat: string -> Stat,
    run: string -> Option<int>,                  // exit code, None when the process never ran
    register: (string, map<string, string>) -> Registration)

  /** One request, file write or process run. */
  datatype Event =
    | Get(headers: map<string, string>)
    | Write(path: string, body: Body)
    | Run(path: string)
    | Register(id: string, headers: map<string, string>)

  /** The headers of a test fetch, in Go's canonical header-key form. */
  function FetchHeaders(cfg: Config, token: string, testID: string, dat: string): map<string, string> {
    map["Token" := token, "Id" := testID, "Dos" := cfg.goos + "-" + cfg.goarch, "Dat" := dat, "Version" := "2"]
  }

  /** The report a run sends back as `dat`: `<test>:<exit code>`. */
  function Report(test: string, code: int): string {
    test + ":" + IntToString(code)
  }

  /**
   * The events of `loop(testID, dat)`. The report fetch passes an empty test
   * id, which no match equals, so the recursion is at most one level deep.
   */
  function LoopSpec(cfg: Config, token: string, testID: string, dat: string): seq<Event>
    decreases if testID == "" then 0 else 1, 2
  {
    if !cfg.validUrl(cfg.api) then []
    else
      var headers := FetchHeaders(cfg, token, testID, dat);
      [Get(headers)] + AnswerSpec(cfg, token, testID, cfg.fetch(headers))
  }

  /** The gate on the fetched test: its final URL must name the requested test and be served by the CA. */
  function AnswerSpec(cfg: Config, token: string, testID: string, answer: Fetch): seq<Event>
    decreases if testID == "" then 0 else 1, 1
  {
    if !answer.Fetched? then []
    else
      var test := FindTestId(answer.location);
      if test == "" || test != testID || cfg.ca != HostOf(answer.location) then []
      else ExecuteSpec(cfg, token, test, answer.body)
  }

  /** Write the test, run it when it is still there, and report the exit code (127 when it is gone). */
  function ExecuteSpec(cfg: Config, token: string, test: string, body: Body): seq<Event>
    requires test != ""
    decreases 1, 0
  {
    var path := Executable(cfg.binDir, cfg.ca, test, cfg.goos);
    match cfg.stat(path)
    case Exists =>
      (match cfg.run(path)
       case None => [Write(path, body), Run(path)]
       case Some(code) => [Write(path, body), Run(path)] + LoopSpec(cfg, token, "", Report(test, code)))
    case NotExist => [Write(path, body)] + LoopSpec(cfg, token, "", test + ":127")
    case StatFailed => [Write(path, body)]
  }

  /** A report fetch never writes or runs anything, and is one request at most. */
  lemma ReportOnlyFetches(cfg: Config, token: string, dat: string)
    ensures LoopSpec(cfg, token, "", dat) == if cfg.validUrl(cfg.api) then [Get(FetchHeaders(cfg, token, "", dat))] else []
  {
    if cfg.validUrl(cfg.api) {
      var f := cfg.fetch(FetchHeaders(cfg, token, "", dat));
      assert AnswerSpec(cfg, token, "", f) == [];
    }
  }

  /**
   * The gate: a file is written or run only when the fetch's final URL
   * carries the requested (non-empty) test id as its leftmost match and its
   * host is the CA; what is written is the fetched body, at the test's path.
   */
  lemma WriteOnlyThroughGate(cfg: Config, token: string, testID: string, dat: string)
    ensures var events := LoopSpec(cfg, token, testID, dat);
      (exists e :: e in events && (e.Write? || e.Run?)) ==>
        var f := cfg.fetch(FetchHeaders(cfg, token, testID, dat));
        && cfg.validUrl(cfg.api) && testID != ""
        && f.Fetched? && FindTestId(f.location) == testID && HostOf(f.location) == cfg.ca
        && events[1] == Write(Executable(cfg.binDir, cfg.ca, testID, cfg.goos), f.body)
  {
    if testID == "" {
      ReportOnlyFetches(cfg, token, dat);
    } else if cfg.validUrl(cfg.api) {
      var headers := FetchHeaders(cfg, token, testID, dat);
      var f := cfg.fetch(headers);
      if !(f.Fetched? && FindTestId(f.location) == testID && HostOf(f.location) == cfg.ca) {
        assert AnswerSpec(cfg, token, testID, f) == [];
        assert LoopSpec(cfg, token, testID, dat) == [Get(headers)];
      } else {
        GateOpens(cfg, token, testID, dat);
      }
    }
  }

  /** Conversely, a fetch that passes the gate writes the fetched body to the test's path. */
  lemma GateOpens(cfg: Config, token: string, testID: string, dat: string)
    requires cfg.validUrl(cfg.api) && testID != ""
    requires var f := cfg.fetch(FetchHeaders(cfg, token, testID, dat));
      f.Fetched? && FindTestId(f.location) == testID && HostOf(f.location) == cfg.ca
    ensures var events := LoopSpec(cfg, token, testID, dat);
      && |events| >= 2 && events[0] == Get(FetchHeaders(cfg, token, testID, dat))
      && events[1] == Write(Executable(cfg.binDir, cfg.ca, testID, cfg.goos), cfg.fetch(FetchHeaders(cfg, token, testID, dat)).body)
  {
    var headers := FetchHeaders(cfg, token, testID, dat);
    var f := cfg.fetch(headers);
    var rest := ExecuteSpec(cfg, token, testID, f.body);
    assert AnswerSpec(cfg, token, testID, f) == rest;
    assert rest[0] == Write(Executable(cfg.binDir, cfg.ca, testID, cfg.goos), f.body);
  }

  /**
   * After the write: a test that ran has its exit code reported as
   * `<test>:<code>`, a test that is gone (quarantined) is reported as
   * `<test>:127`; the report carries no test id; a run that never started or
   * a failed stat reports nothing.
   */
  lemma ExecuteReports(cfg: Config, token: string, test: string, body: Body)
    requires test != ""
    ensures var path := Executable(cfg.binDir, cfg.ca, test, cfg.goos);
      var events := ExecuteSpec(cfg, token, test, body);
      && (cfg.stat(path) == Exists && cfg.run(path).Some? ==>
            events == [Write(path, body), Run(path)]
                      + (if cfg.validUrl(cfg.api) then [Get(FetchHeaders(cfg, token, "", Report(test, cfg.run(path).value)))] else []))
      && (cfg.stat(path) == Exists && cfg.run(path).None? ==> events == [Write(path, body), Run(path)])
      && (cfg.stat(path) == NotExist ==>
            events == [Write(path, body)]
                      + (if cfg.validUrl(cfg.api) then [Get(FetchHeaders(cfg, token, "", test + ":127"))] else []))
      && (cfg.stat(path) == StatFailed ==> events == [Write(path, body)])
  {
    var path := Executable(cfg.binDir, cfg.ca, test, cfg.goos);
    if cfg.run(path).Some? {
      ReportOnlyFetches(cfg, token, Report(test, cfg.run(path).value));
    }
    ReportOnlyFetches(cfg, token, test + ":127");
  }

  /**
   * The shape of one call's events: a fetch first, then the write, then the
   * run, and a report fetch last. So one call of `loop` makes at most two
   * fetches, one write and one run, and never registers.
   */
  predicate LoopShape(events: seq<Event>) {
    && |events| <= 4
    && (forall i :: 0 <= i < |events| && events[i].Get? ==> i == 0 || i == |events| - 1)
    && (forall i :: 0 <= i < |events| && events[i].Write? ==> i == 1)
    && (forall i :: 0 <= i < |events| && events[i].Run? ==> i == 2)
    && (forall i :: 0 <= i < |events| ==> !events[i].Register?)
  }

  lemma LoopBound(cfg: Config, token: string, testID: string, dat: string)
    ensures LoopShape(LoopSpec(cfg, token, testID, dat))
  {
    if testID == "" {
      ReportOnlyFetches(cfg, token, dat);
    } else if cfg.validUrl(cfg.api) {
      var headers := FetchHeaders(cfg, token, testID, dat);
      var f := cfg.fetch(headers);
      if f.Fetched? && FindTestId(f.location) == testID && HostOf(f.location) == cfg.ca {
        assert LoopSpec(cfg, token, testID, dat) == [Get(headers)] + ExecuteSpec(cfg, token, testID, f.body);
        ExecuteShape(cfg, token, testID, f.body, headers);
      } else {
        assert LoopSpec(cfg, token, testID, dat) == [Get(headers)];
      }
    }
  }

  /** After the gate's fetch, the events keep the shape of one call. */
  lemma ExecuteShape(cfg: Config, token: string, test: string, body: Body, headers: map<string, string>)
    requires test != ""
    ensures LoopShape([Get(headers)] + ExecuteSpec(cfg, token, test, body))
  {
    ExecuteReports(cfg, token, test, body);
    var path := Executable(cfg.binDir, cfg.ca, test, cfg.goos);
    var spec := ExecuteSpec(cfg, token, test, body);
    if cfg.stat(path) == Exists && cfg.run(path).Some? {
      var report := FetchHeaders(cfg, token, "", Report(test, cfg.run(path).value));
      CallShape(headers, path, body, true, if cfg.validUrl(cfg.api) then [Get(report)] else [], spec);
    } else if cfg.stat(path) == Exists {
      CallShape(headers, path, body, true, [], spec);
    } else if cfg.stat(path) == NotExist {
      var report := FetchHeaders(cfg, token, "", test + ":127");
      CallShape(headers, path, body, false, if cfg.validUrl(cfg.api) then [Get(report)] else [], spec);
    } else {
      CallShape(headers, path, body, false, [], spec);
    }
  }

  /** After a fetch: the write, the run when there was one, and at most one report fetch. */
  lemma CallShape(headers: map<string, string>, path: string, body: Body, ran: bool, report: seq<Event>, spec: seq<Event>)
    requires |report| <= 1 && (|report| == 1 ==> report[0].Get?)
    requires spec == (if ran then [Write(path, body), Run(path)] else [Write(path, body)]) + report
    ensures LoopShape([Get(headers)] + spec)
  {
    var events := [Get(headers)] + spec;
    assert events[0] == Get(headers) && events[1] == Write(path, body);
    assert ran ==> events[2] == Run(path);
    assert |report| == 1 ==> events[|events| - 1] == report[0];
  }

  /** The hostname the endpoint registers under: the -host flag, else the machine's. */
  function Hostname(cfg: Config): string {
    if cfg.hostFlag == "" then cfg.osHostname else cfg.hostFlag
  }

  /** `"<hostname>:0"`. */
  function EndpointId(cfg: Config): (id: string)
    ensures |id| >= 2 && id[|id| - 2..] == ":0"
  {
    Hostname(cfg) + ":0"
  }

  /** For a hostname without a colon, the id splits into the hostname and "0". */
  lemma EndpointIdParts(cfg: Config)
    requires ':' !in Hostname(cfg)
    ensures Split(EndpointId(cfg), ':') == [Hostname(cfg), "0"]
  {
    SplitJoin([Hostname(cfg), "0"], ':');
    assert Join([Hostname(cfg), "0"], ':') == EndpointId(cfg);
  }

  function RegisterHeaders(account: string, token: string): map<string, string> {
    map["Account" := account, "Token" := token]
  }

  /** The events of the interactive loop over the lines read so far, line by line. */
  function ServeSpec(cfg: Config, token: string, lines: seq<string>): seq<Event>
    decreases |lines|
  {
    if |lines| == 0 then []
    else ServeSpec(cfg, token, lines[..|lines| - 1])
         + (if lines[|lines| - 1] == "" then [] else LoopSpec(cfg, token, lines[|lines| - 1], ""))
  }

  lemma ServeStep(cfg: Config, token: string, lines: seq<string>, i: nat)
    requires i < |lines|
    ensures ServeSpec(cfg, token, lines[..i + 1])
            == ServeSpec(cfg, token, lines[..i]) + (if lines[i] == "" then [] else LoopSpec(cfg, token, lines[i], ""))
  {
    assert lines[..i + 1][..i] == lines[..i];
  }

  /** One test after another, each with an empty `dat`. */
  function RunAll(cfg: Config, token: string, tests: seq<string>): seq<Event>
    decreases |tests|
  {
    if |tests| == 0 then [] else LoopSpec(cfg, token, tests[0], "") + RunAll(cfg, token, tests[1..])
  }

  lemma {:induction false} RunAllAppend(cfg: Config, token: string, a: seq<string>, b: seq<string>)
    ensures RunAll(cfg, token, a + b) == RunAll(cfg, token, a) + RunAll(cfg, token, b)
    decreases |a|
  {
    if |a| > 0 {
      assert (a + b)[0] == a[0] && (a + b)[1..] == a[1..] + b;
      RunAllAppend(cfg, token, a[1..], b);
    } else {
      assert a + b == b;
    }
  }

  lemma {:induction false} NonEmptyAppend(a: seq<string>, b: seq<string>)
    ensures NonEmpty(a + b) == NonEmpty(a) + NonEmpty(b)
    decreases |a|
  {
    if |a| > 0 {
      assert (a + b)[0] == a[0] && (a + b)[1..] == a[1..] + b;
      NonEmptyAppend(a[1..], b);
    } else {
      assert a + b == b;
    }
  }

  /** The loop runs exactly the non-empty lines, in order: empty lines are skipped. */
  lemma {:induction false} ServeRunsNonEmpty(cfg: Config, token: string, lines: seq<string>)
    ensures ServeSpec(cfg, token, lines) == RunAll(cfg, token, NonEmpty(lines))
    decreases |lines|
  {
    if |lines| > 0 {
      var init, last := lines[..|lines| - 1], lines[|lines| - 1];
      assert lines == init + [last];
      ServeRunsNonEmpty(cfg, token, init);
      NonEmptyAppend(init, [last]);
      assert [last][1..] == [];
      RunAllAppend(cfg, token, NonEmpty(init), NonEmpty([last]));
      if last != "" {
        assert RunAll(cfg, token, [last]) == LoopSpec(cfg, token, last, "") + RunAll(cfg, token, []);
      }
    }
  }

  class Probe {
    const cfg: Config
    /** The PRELUDE_TOKEN environment variable. */
    var token: string
    var events: seq<Event>
    /** The status passed to `os.Exit`, once the process has exited. */
    var exited: Option<int>

    constructor (cfg: Config, token: string)
      ensures this.cfg == cfg && this.token == token && events == [] && exited == None
    {
      this.cfg := cfg;
      this.token := token;
      events := [];
      exited := None;
    }

    /** `loop(testID, dat)`. */
    method Loop(testID: string, dat: string)
      modifies this
      ensures events == old(events) + LoopSpec(cfg, token, testID, dat)
      ensures token == old(token) && exited == old(exited)
      decreases if testID == "" then 0 else 1, 1
    {
      if !cfg.validUrl(cfg.api) {
        return;
      }
      var headers := FetchHeaders(cfg, token, testID, dat);
      events := events + [Get(headers)];
      var response := cfg.fetch(headers);
      if !response.Fetched? {
        return;
      }
      var location := response.location;
      var test := FindTestId(location);
      if test != "" && test == testID {
        if cfg.ca == HostOf(location) {
          Execute(test, response.body);
        }
      }
    }

    /** The part of `loop` past the gate. */
    method Execute(test: string, body: Body)
      requires test != ""
      modifies this
      ensures events == old(events) + ExecuteSpec(cfg, token, test, body)
      ensures token == old(token) && exited == old(exited)
      decreases 1, 0
    {
      var path := Executable(cfg.binDir, cfg.ca, test, cfg.goos);
      events := events + [Write(path, body)];
      var stat := cfg.stat(path);
      if stat == Exists {
        events := events + [Run(path)];
        Associative(old(events), [Write(path, body)], [Run(path)]);
        var code := cfg.run(path);
        if code.Some? {
          ghost var report := LoopSpec(cfg, token, "", Report(test, code.value));
          Loop("", Report(test, code.value));
          Associative(old(events), [Write(path, body), Run(path)], report);
        }
      } else if stat == NotExist {
        ghost var report := LoopSpec(cfg, token, "", test + ":127");
        Loop("", test + ":127");
        Associative(old(events), [Write(path, body)], report);
      }
    }

    /**
     * `registerEndpoint`: a 200 answer's body becomes the token; any other
     * status exits the process with status 1; no answer changes nothing.
     */
    method RegisterEndpoint(account: string, accountToken: string)
      modifies this
      requires exited == None
      ensures !cfg.validUrl(cfg.api + "/detect/endpoint") ==> events == old(events) && token == old(token) && exited == None
      ensures cfg.validUrl(cfg.api + "/detect/endpoint") ==>
        var answer := cfg.register(EndpointId(cfg), RegisterHeaders(account, accountToken));
        && events == old(events) + [Register(EndpointId(cfg), RegisterHeaders(account, accountToken))]
        && (answer.Answered? && answer.status == 200 ==> token == answer.body && exited == None)
        && (answer.Answered? && answer.status != 200 ==> token == old(token) && exited == Some(1))
        && (answer.RegisterUnreachable? ==> token == old(token) && exited == None)
    {
      if !cfg.validUrl(cfg.api + "/detect/endpoint") {
        return;
      }
      var id := EndpointId(cfg);
      var headers := RegisterHeaders(account, accountToken);
      events := events + [Register(id, headers)];
      var answer := cfg.register(id, headers);
      if answer.RegisterUnreachable? {
        return;
      }
      if answer.status == 200 {
        token := answer.body;
        return;
      }
      exited := Some(1);
    }

    /**
     * `main` after flag parsing: register, then run a test for every
     * non-empty line of input. At end of input every further line reads as
     * empty, so the rest of the endless loop does nothing.
     */
    method Session(account: string, accountToken: string, lines: seq<string>)
      modifies this
      requires exited == None
      ensures exited == None ==>
        (events == old(events)
           + (if cfg.validUrl(cfg.api + "/detect/endpoint")
              then [Register(EndpointId(cfg), RegisterHeaders(account, accountToken))] else [])
           + RunAll(cfg, token, NonEmpty(lines)))
      ensures exited.Some? ==>
        (exited == Some(1)
         && events == old(events) + [Register(EndpointId(cfg), RegisterHeaders(account, accountToken))])
      ensures !cfg.validUrl(cfg.api + "/detect/endpoint") ==> token == old(token) && exited == None
      ensures cfg.validUrl(cfg.api + "/detect/endpoint") ==>
        var answer := cfg.register(EndpointId(cfg), RegisterHeaders(account, accountToken));
        && (answer.Answered? && answer.status == 200 ==> token == answer.body && exited == None)
        && (answer.Answered? && answer.status != 200 ==> token == old(token) && exited == Some(1))
        && (answer.RegisterUnreachable? ==> token == old(token) && exited == None)
    {
      RegisterEndpoint(account, accountToken);
      if exited.Some? {
        return;
      }
      Serve(lines);
      ServeRunsNonEmpty(cfg, token, lines);
    }

    /** The endless read loop over the given lines: a test for each non-empty one. */
    method Serve(lines: seq<string>)
      modifies this
      ensures events == old(events) + ServeSpec(cfg, token, lines)
      ensures token == old(token) && exited == old(exited)
    {
      for i := 0 to |lines|
        invariant events == old(events) + ServeSpec(cfg, token, lines[..i])
        invariant token == old(token) && exited == old(exited)
      {
        ServeStep(cfg, token, lines, i);
        ghost var done := ServeSpec(cfg, token, lines[..i]);
        if lines[i] != "" {
          ghost var run := LoopSpec(cfg, token, lines[i], "");
          Loop(lines[i], "");
          Associative(old(events), done, run);
        }
      }
      assert lines[..|lines|] == lines;
    }
  }
}
