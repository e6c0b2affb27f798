# Prelude Detect: probe deployment, Detect requests, CLI views, credentials and the debug probe

This project models in Dafny the core of the Prelude Detect tooling, and
proves properties of that model. It covers six parts:

- **The Docker Desktop extension's probe engine** (`docker_cli.dfy`, module
  `DockerCli`). It classifies each container as Unsupported, NotInstalled or
  Running from two read-only `docker exec` checks. It deploys the probe in a
  fixed order: register the endpoint, download the probe, Base64-encode it,
  materialise it in the container with one exec, then launch it detached with
  the endpoint token in its environment. The Docker client and the Detect
  backend are collaborators given as functions. Every call the engine makes is
  appended to the `calls` trace of a `DockerCli` object. `Container` objects
  have their `ProbeStatus` updated in place.
- **Base64** (`base64.dfy`). The browser's `btoa` over Latin-1 text, and the
  `base64 -d` that reads the payload back inside the container.
- **The JavaScript SDK's wire-level constants and Detect requests**
  (`codes.dfy`, `detect_requests.dfy`):
  - exit codes, exit-code groups, run codes, permissions and control codes;
  - the composite endpoint id `host:serial:edr_id:control` and its defaults;
  - how `updateEndpoint` encodes `control`;
  - the `describeActivity` query string, built from successive
    `URLSearchParams.set` calls;
  - the `download` headers;
  - the defaults of `listEndpoints`, `socialStats` and `enableTest`.
- **The Python CLI's Detect views** (`detect_views.dfy`):
  - tag parsing and the activity filters;
  - the logs, probes, days and insights views of `activity`;
  - the `queue` listing, which rewrites the queue in place (an `array`);
  - the `social-stats` regrouping by exit-code name.
- **The Python SDK's credential store** (`account.dfy`):
  - a `Keychain` class over the profile sections of the INI file;
  - an `Account` class over the token file, with password login, refresh,
    the expiry check and the `verify_credentials` decorator.
- **The Go debug probe** (`debug_probe.dfy`):
  - the test-id pattern;
  - the executable path;
  - the URL host;
  - the gate that decides whether a fetched test is written and run;
  - the exit-code report;
  - endpoint registration;
  - the interactive loop over standard input.

  A `Probe` object holds the `PRELUDE_TOKEN` variable, the exit status, and a
  trace of events (fetches, writes, runs, registrations). Its methods are
  proved against the functions `LoopSpec`, `ExecuteSpec` and `ServeSpec`.

I/O, the network, clocks, the Docker client, the HTTP session and child
processes are parameters. In each case the model takes a function saying what
the collaborator answers.

## Model

| member | source | states |
|---|---|---|
| DockerCli.CurlStatus | container/extension/client/src/docker/cli.ts:87-99 | a resolving `curl --version` gives NotInstalled and a throwing one Unsupported; never Running |
| DockerCli.RunningStatus | container/extension/client/src/docker/cli.ts:73-85 | a resolving process listing gives Running and a throwing one NotInstalled; never Unsupported |
| DockerCli.Check | container/extension/client/src/docker/cli.ts:63-67 | Unsupported iff curl throws; Running iff curl and ps both resolve; NotInstalled iff curl resolves and ps throws; curl is checked first, and ps is checked exactly when curl resolved |
| DockerCli.ScanCallCount | container/extension/client/src/docker/cli.ts:59-71 | a scan issues one curl check per container plus one process check per container where curl resolved; every call is one of those two checks for one of the containers |
| DockerCli.DeployOrder | container/extension/client/src/docker/cli.ts:37-57 | deployment registers first and downloads second. Execs come only after both; the attached materialise exec comes before the detached launch exec. A failed registration makes no other call, and a failed download makes no exec. Success means exactly four calls and the status Running |
| DockerCli.TokenOnlyInLaunchEnv | container/extension/client/src/docker/cli.ts:38-55 | the only exec carrying an environment is the launch exec, and its environment is exactly `PRELUDE_TOKEN=<registered token>` |
| DockerCli.TokenConfined | container/extension/client/src/docker/cli.ts:37-57 | two backends that differ only in the token they hand out produce the same calls once environments are removed: the token reaches nothing but the launch environment |
| DockerCli.MaterialiseQuotes | container/extension/client/src/docker/cli.ts:46 | for a payload without single quotes, the text between the script's first two single quotes is exactly the payload |
| DockerCli.MaterialisePayload | container/extension/client/src/docker/cli.ts:39-47 | when a deployment reaches the materialise exec, its script quotes a Base64 literal whose decoding equals the Latin-1 bytes of the downloaded probe |
| DockerCli.RegisterSendsHostAndContainer | container/extension/client/src/docker/cli.ts:101-107 | registration sends the endpoint id `<docker host>:<container id>::-1` |
| DockerCli.Container.constructor | container/extension/client/src/docker/cli.ts:62-69 | a container starts with the given id and status |
| DockerCli.DockerCli.constructor | container/extension/client/src/docker/cli.ts:37-115 | the engine starts with the given host and collaborators and an empty call trace |
| DockerCli.DockerCli.Exec | container/extension/client/src/docker/cli.ts:42-55 | one exec is appended to the trace; it resolves exactly when the Docker collaborator says so |
| DockerCli.DockerCli.CheckCurl | container/extension/client/src/docker/cli.ts:87-99 | one curl exec is traced, and the status is CurlStatus of its outcome |
| DockerCli.DockerCli.CheckRunningProbe | container/extension/client/src/docker/cli.ts:73-85 | one process-listing exec is traced, and the status is RunningStatus of its outcome |
| DockerCli.DockerCli.CheckContainer | container/extension/client/src/docker/cli.ts:63-67 | the container's status becomes Check's status, and the trace grows by exactly Check's execs |
| DockerCli.DockerCli.CheckDependencies | container/extension/client/src/docker/cli.ts:59-71 | the same containers come back in the same order, each updated in place with the status of its own checks; the trace grows by exactly ScanCalls of their ids |
| DockerCli.DockerCli.RegisterEndpoint | container/extension/client/src/docker/cli.ts:101-107 | one registration with (docker host, container id) is traced; its answer is the token |
| DockerCli.DockerCli.DownloadProbe | container/extension/client/src/docker/cli.ts:109-115 | one download of `nocturnal` for `linux-x86_64` is traced; its answer is the probe code |
| DockerCli.DockerCli.DeployProbe | container/extension/client/src/docker/cli.ts:37-57 | the result and the calls made are those DeploySpec prescribes, so DeployOrder, TokenOnlyInLaunchEnv, TokenConfined and MaterialisePayload all hold of a real deployment |
| Base64.CharOf | container/extension/client/src/docker/cli.ts:40 | every alphabet character differs from the padding and from a single quote |
| Base64.ValueOfCharOf | container/extension/client/src/docker/cli.ts:40-46 | decoding a character inverts encoding a 6-bit value |
| Base64.Encode | container/extension/client/src/docker/cli.ts:40 | the output length is 4 characters per started group of 3 bytes, and every character is an alphabet character or padding |
| Base64.DecodeEncode | container/extension/client/src/docker/cli.ts:40-46 | `base64 -d` of `btoa` output gives back exactly the encoded bytes |
| Base64.EncodeHasNoQuote | container/extension/client/src/docker/cli.ts:46 | an encoding never contains a single quote, so it cannot break the shell literal |
| Base64.Btoa | container/extension/client/src/docker/cli.ts:40 | `btoa` succeeds iff every character is below 256; otherwise it names a character of 256 or above with none before it. On success the output has no quote and decodes to the text's Latin-1 bytes |
| Base64.FirstWide | container/extension/client/src/docker/cli.ts:40 | finds a character of 256 or above with none before it, or reports that there is none |
| Base64.Latin1 | container/extension/client/src/docker/cli.ts:40 | one byte per character, with the same code |
| Codes.ExitCodeOf | javascript/sdk/lib/types.ts:153-172 | a found exit code has exactly the given value; not found means no exit code has that value |
| Codes.ExitValuesDistinct | javascript/sdk/lib/types.ts:153-172 | the exit-code table is one-to-one, and looking up a code's value gives the code back |
| Codes.ExitNamesDistinct | javascript/sdk/lib/types.ts:153-172 | no two exit codes share a name |
| Codes.StateOf | javascript/sdk/lib/types.ts:177-199 | a code's state is NONE, PROTECTED, UNPROTECTED or ERROR exactly when its value is in that group |
| Codes.GroupsDisjoint | javascript/sdk/lib/types.ts:178-199 | the NONE, PROTECTED, UNPROTECTED and ERROR groups share no value |
| Codes.GroupsCover | javascript/sdk/lib/types.ts:177-199 | every code except MISSING is in exactly one of PROTECTED, UNPROTECTED and ERROR; MISSING is in none of them |
| Codes.GroupShapes | javascript/sdk/lib/types.ts:177-201 | NONE is [MISSING] and UNPROTECTED is [UNPROTECTED]; PROTECTED has 11 members and ERROR 5; NOT_RELEVANT lies inside PROTECTED |
| Codes.RunCodeOf | javascript/sdk/lib/types.ts:92-104 | a found run code has exactly the given value; not found means no run code has it |
| Codes.RunValuesDistinct | javascript/sdk/lib/types.ts:92-104 | the run-code table is one-to-one and INVALID is -1 |
| Codes.PermissionValuesDistinct | javascript/sdk/lib/types.ts:108-114 | permissions have distinct values, and INVALID is -1 |
| Codes.ControlValuesDistinct | javascript/sdk/lib/types.ts:212-220 | control codes have distinct values, and INVALID is -1 |
| DetectRequests.Get | javascript/sdk/lib/controllers/detect.ts:172-180 | a found value is paired with the name in the entries; not found means no entry has the name |
| DetectRequests.GetAppend | javascript/sdk/lib/controllers/detect.ts:172-180 | in a concatenation of entries, the first part wins |
| DetectRequests.RegisterEndpointRequest | javascript/sdk/lib/controllers/detect.ts:35-55 | a POST to `/detect/endpoint` whose body has the composite id, and has `tags` exactly when tags are given |
| DetectRequests.EndpointIdFields | javascript/sdk/lib/controllers/detect.ts:39-48 | for fields without colons, the id splits back into host, serial number, EDR id and control |
| DetectRequests.DefaultEndpointId | javascript/sdk/lib/controllers/detect.ts:39-48 | without EDR id and control, the id is `host:serial::-1` |
| DetectRequests.ControlMember | javascript/sdk/lib/controllers/detect.ts:69 | an omitted control is sent as `false`; a given one as its number, even 0 |
| DetectRequests.UpdateEndpointRequest | javascript/sdk/lib/controllers/detect.ts:58-77 | a POST to `/detect/endpoint/<id>`. The body always has `control`; it has host, EDR id and tags exactly when they are given, each with its value |
| DetectRequests.GetSetEntry | javascript/sdk/lib/controllers/detect.ts:173-180 | after `set`, the name reads back as the value and every other name is unchanged |
| DetectRequests.GetRemoveName | javascript/sdk/lib/controllers/detect.ts:173-180 | removing one name leaves every other name's value alone |
| DetectRequests.SearchParams.Set | javascript/sdk/lib/controllers/detect.ts:173-180 | `URLSearchParams.set`: the entries become SetEntry of the old ones |
| DetectRequests.ActivityParamsContents | javascript/sdk/lib/controllers/detect.ts:171-180 | the query always carries view, start and finish. It carries tests, tags, endpoints, result_id and dos exactly when they are truthy, each with its value, and never anything else |
| DetectRequests.DescribeActivityParams | javascript/sdk/lib/controllers/detect.ts:172-180 | the successive `set` calls build exactly ActivityParams of the query |
| DetectRequests.SetIfTruthy | javascript/sdk/lib/controllers/detect.ts:176-180 | a truthy option adds its one entry, and a falsy one adds nothing |
| DetectRequests.DownloadRequest | javascript/sdk/lib/controllers/detect.ts:223-239 | a GET of `/detect/tests/<id>/<file>`. `Content-Type` is empty unless the caller supplies one; every caller header is sent with its value and no other header is sent |
| DetectRequests.Defaults | javascript/sdk/lib/controllers/detect.ts:94-108 | omitted parameters mean 90 days for endpoints, 30 days for social statistics, and empty tags for enabling a test |
| DetectRequests.DaysRoundTrip | javascript/sdk/lib/controllers/detect.ts:276-291 | a given number of days is sent as decimal text that reads back as the same number |
| Strings.ParseNatToString | javascript/sdk/lib/controllers/detect.ts:98 | the decimal text of a natural number parses back to it |
| Strings.ParseIntToString | go/probe/debug/main.go:140 | the decimal text of an integer, sign included, parses back to it |
| Strings.JoinSplit | python/cli/prelude_cli/views/detect.py:45 | joining the pieces of a split with the separator gives back the text |
| Strings.SplitJoin | go/probe/debug/main.go:29-37 | splitting the join of separator-free parts gives back the parts |
| DetectViews.TestTags | python/cli/prelude_cli/views/detect.py:45 | no tags iff the option is absent or empty. Otherwise the tags contain no comma and, joined with commas, give the option back |
| DetectViews.ActivityFilters | python/cli/prelude_cli/views/detect.py:148-157 | start is `days` days before the first clock reading and finish is the second reading. test, endpoint_id and status are present exactly when given, each with its value, and no other key appears |
| DetectViews.DictOfLookup | python/cli/prelude_cli/views/detect.py:164 | a dict comprehension has a key iff some row has it, and the value is the one from the last such row |
| DetectViews.DictOfDistinct | python/cli/prelude_cli/views/detect.py:164 | with distinct keys, each row's value is the one kept |
| DetectViews.LogRowOf | python/cli/prelude_cli/views/detect.py:175-185 | a log row succeeds iff its test has a name and its status is an exit code. An unknown test raises, then an unknown status. A built row carries the test name, the status as decimal text (which parses back to it), the exit-code name and the observed flag |
| DetectViews.LogsView | python/cli/prelude_cli/views/detect.py:175-185 | the logs view succeeds iff every record does, giving one row per record in order; a failure is the first failing record's error |
| DetectViews.CountsPartition | python/cli/prelude_cli/views/detect.py:194-204 | when every status is known, protected + unprotected + error + MISSING results add up to the number of results |
| DetectViews.CountsBound | python/cli/prelude_cli/views/detect.py:194-204 | the three counts never exceed the number of results |
| DetectViews.StatusStep | python/cli/prelude_cli/views/detect.py:196-203 | one more result adds one to the counter of its state, and only to it |
| DetectViews.TallyStatuses | python/cli/prelude_cli/views/detect.py:195-204 | the per-endpoint loop succeeds iff every status is an exit code, giving StatusTally; a failure names the first unknown status |
| DetectViews.ProbesView | python/cli/prelude_cli/views/detect.py:194-204 | one row per endpoint, in order, holding its tally; it fails exactly when some status is unknown |
| DetectViews.KeyState | python/cli/prelude_cli/views/detect.py:215 | a code key has a state iff it is integer text naming an exit code, and that state is the code's group |
| DetectViews.SumsPartition | python/cli/prelude_cli/views/detect.py:212-222 | when every code converts, the three sums plus the MISSING counts equal the total count |
| DetectViews.TallyStep | python/cli/prelude_cli/views/detect.py:214-221 | one more code adds its count to the sum of its state, and only to it |
| DetectViews.AllConvertStep | python/cli/prelude_cli/views/detect.py:215 | conversion of the codes so far extends by one converting code |
| DetectViews.TallyCounts | python/cli/prelude_cli/views/detect.py:213-222 | the per-date loop succeeds iff every code key converts, giving CountTally; a failure names the first bad key |
| DetectViews.DaysView | python/cli/prelude_cli/views/detect.py:212-222 | one row per date, in order, holding its tally; it fails exactly when some code key does not convert |
| DetectViews.DescribeActivity | python/cli/prelude_cli/views/detect.py:159-222 | dispatches on the view. Insights gives an empty report; logs, probes and days give their view's rows, one per input item, and succeed exactly when that view does |
| DetectViews.FirstWithValue | python/cli/prelude_cli/views/detect.py:80 | finds the first enum member with a value, or reports that no member has it |
| DetectViews.FirstWithValueAt | python/cli/prelude_cli/views/detect.py:80 | a member with no earlier member of its value is the one the value lookup finds |
| DetectViews.RunCodeName | python/cli/prelude_cli/views/detect.py:80 | `RunCode(v).name` over the enum's members in definition order: a name is found iff the field is a number some member has as value, and it is the name of the first such member (later ones are aliases) |
| DetectViews.RunCodeNameOfValue | python/cli/prelude_cli/views/detect.py:80 | every member that is not an alias is renamed from its value to its own name |
| DetectViews.FirstNamed | python/cli/prelude_cli/views/detect.py:46 | finds the first enum member with a name, or reports that no member has it |
| DetectViews.RunCodeValue | python/cli/prelude_cli/views/detect.py:46 | `RunCode[name].value`: found iff some member has the name, and then it is that member's value |
| DetectViews.ChosenRunCodeListed | python/cli/prelude_cli/views/detect.py:46-80 | in an enum without aliases, the run code chosen by name when a test is enabled is listed by `queue` under the same name |
| DetectViews.Listed | python/cli/prelude_cli/views/detect.py:80-81 | a listable entry keeps its test, gains the test's name and has its run code replaced by the name of an enum member with that value; it cannot be listed again |
| DetectViews.Stuck | python/cli/prelude_cli/views/detect.py:80-81 | an entry that raises keeps its test and name. It is left unchanged when its run code is unknown; when only the test lookup fails, its run code has already been renamed |
| DetectViews.Queue | python/cli/prelude_cli/views/detect.py:74-82 | the in-place rewrite succeeds iff every entry is listable, and then each entry becomes Listed of itself. On failure the first bad entry is named; the entries before it are rewritten and the ones after it are untouched |
| DetectViews.CodeNameOfValue | python/cli/prelude_cli/views/detect.py:104 | the decimal text of every exit code's value converts, and is renamed to that code's name |
| DetectViews.NamedCounts | python/cli/prelude_cli/views/detect.py:103-104 | each code key is replaced by its exit-code name, with the count kept, in order |
| DetectViews.NamedCountsStep | python/cli/prelude_cli/views/detect.py:103-104 | one more code overwrites the entry under its name with its count |
| DetectViews.NameCounts | python/cli/prelude_cli/views/detect.py:103-104 | the inner loop succeeds iff every key converts. The result is the dict of renamed counts, where the last code with a given name wins; a failure names the first bad key |
| DetectViews.RegroupLookup | python/cli/prelude_cli/views/detect.py:103-104 | a name is in the regrouped counts iff some code is renamed to it, and its count is the last such code's |
| DetectViews.AddPlatform | python/cli/prelude_cli/views/detect.py:102-104 | one platform's counts are added under its key, and a platform without counts adds no key; fails exactly when some key does not convert |
| DetectViews.SocialStatistics | python/cli/prelude_cli/views/detect.py:99-105 | succeeds iff every key converts. Every platform with counts maps to its regrouped counts, and only such platforms appear; a failure names a bad key |
| Accounts.ProfileEntries | python/sdk/prelude_sdk/models/account.py:36 | a profile section holds exactly account, handle and hq |
| Accounts.Keychain.Fresh | python/sdk/prelude_sdk/models/account.py:13-21 | a missing keychain is created holding one `default` profile with empty account and handle and the default hq |
| Accounts.Keychain.Existing | python/sdk/prelude_sdk/models/account.py:23-26 | an existing keychain is read as it is |
| Accounts.Keychain.ConfigureKeychain | python/sdk/prelude_sdk/models/account.py:28-38 | the named profile becomes exactly the three options and every other profile is unchanged; naming DEFAULT replaces the defaults instead |
| Accounts.Keychain.GetProfile | python/sdk/prelude_sdk/models/account.py:40-49 | succeeds iff the profile is a listed section (never DEFAULT). The result shows the section's options, with the defaults filling the other keys; otherwise ProfileNotFound |
| Accounts.Lookup | python/sdk/prelude_sdk/models/account.py:121 | the stored record for (handle, hq), or empty when there is none |
| Accounts.SaveToken | python/sdk/prelude_sdk/models/account.py:89-95 | the record for (handle, hq) becomes the new one; every other (handle, hq) record and every other handle is unchanged |
| Accounts.VerifyProfile | python/sdk/prelude_sdk/models/account.py:97-101 | refuses iff a non-empty profile is set while handle and account are both empty |
| Accounts.CheckToken | python/sdk/prelude_sdk/models/account.py:138-146 | returns the token iff it is present with a readable expiry not before now. The errors are NotLoggedIn, a missing expiry, an unreadable expiry and an expired token, in that order |
| Accounts.Merge | python/sdk/prelude_sdk/models/account.py:136 | the keys of the response win, and the other stored keys are kept |
| Accounts.WithBearer | python/sdk/prelude_sdk/models/account.py:152-154 | `authorization` is set to `Bearer <token>`, and every other header is unchanged |
| Accounts.BearerCarriesToken | python/sdk/prelude_sdk/models/account.py:153 | a text token appears verbatim after `Bearer ` |
| Accounts.Account.constructor | python/sdk/prelude_sdk/models/account.py:54-73 | the headers are exactly account and `_product=py-sdk`; a missing token file starts empty |
| Accounts.Account.SaveNewToken | python/sdk/prelude_sdk/models/account.py:89-95 | the token file becomes SaveToken of the old one; nothing else changes |
| Accounts.Account.Post | python/sdk/prelude_sdk/models/account.py:105-114 | one request is recorded, and the answer is the session's |
| Accounts.Account.PasswordLogin | python/sdk/prelude_sdk/models/account.py:103-117 | an unconfigured profile fails before any request. Otherwise one password-flow request goes to `<hq>/iam/token`; a failed answer leaves the tokens alone, and a good one becomes the stored record |
| Accounts.Account.RefreshTokens | python/sdk/prelude_sdk/models/account.py:119-136 | an unconfigured profile, or no truthy refresh token, fails without a request. Otherwise one refresh-flow request carries the stored refresh token; a good answer is merged over the stored record |
| Accounts.Account.VerifyCredentials | python/sdk/prelude_sdk/models/account.py:149-158 | without a valid token, `func` does not run and the headers are unchanged. Otherwise the headers gain the bearer token before `func` runs with them; tokens and requests are untouched |
| Accounts.RefreshKeepsRefreshToken | python/sdk/prelude_sdk/models/account.py:119-136 | a refresh whose answer has no refresh token keeps the stored one |
| Accounts.SavedTokenIsValid | python/sdk/prelude_sdk/models/account.py:89-95 | a token just saved with an expiry not before now is the one `get_token` returns |
| DebugProbe.Leftmost | go/probe/debug/main.go:27 | the leftmost position from which the test-id pattern matches, or none |
| DebugProbe.FindTestId | go/probe/debug/main.go:27 | empty iff the pattern matches nowhere; otherwise the leftmost match, which is a lower-case UUID |
| DebugProbe.FindTestIdAfter | go/probe/debug/main.go:120-121 | a URL whose first match is a given id yields that id |
| DebugProbe.NonEmpty | go/probe/debug/main.go:31 | `filepath.Join` drops empty elements: what is left is a sub-list of non-empty elements |
| DebugProbe.NonEmptyKeeps | go/probe/debug/main.go:31 | every non-empty element is kept, and a list without empty elements is kept whole |
| DebugProbe.ExecutableParts | go/probe/debug/main.go:29-37 | for non-empty parts, whatever the binary's directory holds, the path is that directory, the CA and the test joined by the OS separator, with `.exe` appended on Windows and nothing appended elsewhere |
| Sequences.IndexOf | go/probe/debug/main.go:124 | a position of a character with none of it before, or none if there is none |
| Sequences.IndexOfAt | go/probe/debug/main.go:124 | a position holding the character with none before it is the one found |
| DebugProbe.AfterUserInfo | go/probe/debug/main.go:124 | the host is a suffix of the authority, with no `@` in it; when user information was dropped, an `@` precedes the host |
| DebugProbe.AuthorityIsHost | go/probe/debug/main.go:124-126 | in `<host>/<path>` with a host free of `@`, `/`, `?` and `#`, the authority without user information is the host |
| DebugProbe.HostOf | go/probe/debug/main.go:124-126 | the parsed host never contains `@`, `/`, `?` or `#` |
| DebugProbe.HostOfAbsolute | go/probe/debug/main.go:124 | for `<scheme>://<rest>`, the host is the authority at the head of `rest`, without user information |
| DebugProbe.HostOfHttps | go/probe/debug/main.go:124-126 | the host of `https://<host>/<path>` is `<host>` |
| DebugProbe.ReportOnlyFetches | go/probe/debug/main.go:140-144 | a report call (empty test id) is one fetch at most; it writes and runs nothing |
| DebugProbe.WriteOnlyThroughGate | go/probe/debug/main.go:120-128 | any write or run needs all of: a valid API URL; a non-empty requested id; a fetch whose final URL's first match is that id and whose host is the CA. What is written is the fetched body, at the test's path |
| DebugProbe.GateOpens | go/probe/debug/main.go:123-128 | conversely, a fetch passing the gate writes the fetched body at the test's path, right after the fetch |
| DebugProbe.ExecuteReports | go/probe/debug/main.go:129-145 | a test that ran reports `<test>:<exit code>`. A quarantined one reports `<test>:127`. A process that never started, or a failed stat, reports nothing |
| DebugProbe.LoopBound | go/probe/debug/main.go:86-151 | the events of one call of `loop` have this shape: a fetch first, a write only second, a run only third, another fetch only last, and no registration. So it makes at most two fetches, one write and one run |
| DebugProbe.ExecuteShape | go/probe/debug/main.go:120-145 | the gate's fetch followed by what `execute` does has the shape of one `loop` call |
| DebugProbe.CallShape | go/probe/debug/main.go:127-145 | a fetch, the write, the run when there is one and at most one report fetch have the shape of one `loop` call |
| DebugProbe.EndpointId | go/probe/debug/main.go:154-160 | the id ends in `:0` |
| DebugProbe.EndpointIdParts | go/probe/debug/main.go:154-160 | for a colon-free hostname (the -host flag, else the machine's), the id splits into that hostname and `0` |
| DebugProbe.ServeStep | go/probe/debug/main.go:205-211 | each further line adds that line's `loop` call, or nothing if it is empty |
| DebugProbe.RunAllAppend | go/probe/debug/main.go:205-211 | running two lists of tests is running one after the other |
| DebugProbe.NonEmptyAppend | go/probe/debug/main.go:209 | dropping empty lines distributes over concatenation |
| DebugProbe.ServeRunsNonEmpty | go/probe/debug/main.go:205-211 | the read loop runs exactly the non-empty lines, in order |
| DebugProbe.Probe.constructor | go/probe/debug/main.go:187-200 | a probe starts with the given configuration and token, no events and no exit |
| DebugProbe.Probe.Loop | go/probe/debug/main.go:86-151 | the events of `loop(testID, dat)` are LoopSpec's; the token and the exit status are unchanged |
| DebugProbe.Probe.Execute | go/probe/debug/main.go:127-145 | the events after the gate are ExecuteSpec's: write, then run if present, then the report |
| DebugProbe.Probe.RegisterEndpoint | go/probe/debug/main.go:153-185 | an invalid URL changes nothing. Otherwise one registration is sent with the account and token headers. A 200 answer's body becomes the token, another status exits with 1, and no answer changes nothing else |
| DebugProbe.Probe.Serve | go/probe/debug/main.go:203-212 | the events of the read loop over the given lines are ServeSpec's; the token and exit status are unchanged |
| DebugProbe.Probe.Session | go/probe/debug/main.go:195-212 | register, then run every non-empty line with the token registration left. That token is a 200 answer's body, or else the old token. Another status exits with 1 and no test runs; an invalid URL or no answer leaves the token and runs the tests with it |

## Left out

- Concurrency: `checkDependencies` runs its per-container checks under `Promise.all`, and the model runs them one container after the other. The calls of different containers may interleave in the source, so only the calls per container and their order within a container are modelled, not the global order.
- Collaborators are fixed functions. A deployment does not change what a later check of the same container answers, because the Docker client is a function of the exec alone.
- The shell semantics of `ps`, `grep`, `chmod`, `base64 -d` and `/bin/sh` are left out. An exec either resolves or throws, as its collaborator says. `base64 -d` is modelled by `Base64.Decode`.
- `listContainers`, `setCredentials`, `getCredentials` and the other wrappers in cli.ts just forward a call, so they are not modelled.
- HTTP, JSON serialisation and `requestWithAuth` are left out. A request is a value holding verb, path, query, body members and headers, and answers come from a given function. JSON's key order and `undefined` elision are modelled only as the presence or absence of a body member.
- `URLSearchParams.toString` percent-encoding is not modelled; the query is the sequence of entries.
- The Python exit-code and state tables are not part of this model. The views use the TypeScript exit-code table in `Codes`, assuming Python's `ExitCode` has the same values, names and states.
- RunCodeNameOfValue: Python's `RunCode` enum is not part of this model, and its members (WEEKLY, MONTHLY, ONCE and DEBUG among them) are not the TypeScript run codes. The queue view and `enable-test` take its members as a parameter, so the model does not know which values are run codes; what is proved holds for every enum.
- Python's `int()` also accepts surrounding whitespace, a leading `+` and digit underscores. `ParseInt` accepts only an optional `-` followed by decimal digits.
- The probes view's `int(result['status'])` is given the status as an integer, so text statuses are not modelled.
- Accounts.ExpiryOf: `float()` of decimal text with a fraction or exponent, and JSON floats, are not modelled. An expiry is an integer, `true`/`false`, or integer text; other text counts as unreadable.
- The clocks are parameters: `activity` takes two clock readings in seconds, and `get_token` takes `now` as a real.
- Rich tables, `print_json` and console output are left out. Each view returns the rows it would add.
- `enable-test`'s run-code choice: `RunCodeValue` models `RunCode[name].value` for an upper-case name. The `.upper()` case folding and click's fixed choice list are not modelled.
- The keychain and token files are in-memory fields. Reading and writing them, directory creation, configparser's file format and interpolation, and a malformed token file are left out.
- The `Keychain()` that the `Account` constructor creates as a side effect is left out. It is not used by any modelled method.
- `from_keychain` and `from_params` only construct an `Account`, so they are not modelled.
- The HTTP session's timeout and transport errors are not modelled. An answer is either OK with a JSON record, or not OK with a text.
- DetectViews.SocialStatistics requires distinct platform keys, as the keys of the Python dict it iterates are.
- Go's `url.Parse` is modelled only for the host of an absolute URL. Parse errors, percent-decoding and IPv6 literals are not modelled, and a port stays part of the host, as in Go's `URL.Host`.
- TypeScript's `days: number` is modelled as an integer, so the decimal text of a fractional day count (`1.5`) is not modelled. The caller's `RequestOptions` (headers, signal and the like) that registerEndpoint, updateEndpoint, describeActivity, listEndpoints, socialStats and enableTest spread into `requestWithAuth` are dropped; they cannot carry a method or a body, so the verbs and bodies stay as modelled.
- `filepath.Clean`, which `filepath.Join` applies, is not modelled. Path elements are joined verbatim after empty ones are dropped.
- `os.Executable` errors are ignored, as in the source; the binary's directory is a parameter. `os.Mkdir` of the CA directory is left out.
- `os.WriteFile` errors are ignored, as in the source. A write is recorded as an event, and `os.Stat` afterwards says what is there.
- Standard output, the Falcon prevention-policy helpers (`getPreventionPolicy`, `setPreventionPolicy`) and `printResultTable` are left out, as is the child process's own output.
- `os.Setenv("PRELUDE_TOKEN", …)` is modelled as the `token` field, and `os.Exit(1)` as the `exited` field.
- `main`'s loop never ends. The model reads a finite sequence of lines; after end of input `scanner.Text()` is empty, so the endless remainder does nothing.
- `fmt.Scanln` reading the account id and token is left out; both are parameters of `Session`.
- `io.ReadAll` errors on the fetch answer are modelled as an `Unreadable` answer, which stops the loop. For the registration body, Go ignores the read error and keeps the bytes read before it; an answer's body is arbitrary text, which covers that, so it is not modelled separately.
