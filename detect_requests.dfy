/**
 * Request shaping in the JavaScript SDK's detect controller: the colon-joined
 * endpoint id sent on registration, the update body, the activity query
 * parameters, the download headers and the parameter defaults. Sending the
 * request is left to the HTTP client and is not modelled.
 */
module DetectRequests {
  import opened Wrappers
  import opened Strings
  import Codes

  /** The JSON values these request bodies carry. */
  datatype Json = JString(s: string) | JNumber(n: int) | JBool(b: bool)

  /**
   * A request as the controller hands it to the HTTP client: verb, path, query
   * parameters in order, body members in `JSON.stringify` order, headers.
   */
  datatype Request = Request(
    verb: string, path: string, query: seq<(string, string)>,
    body: seq<(string, Json)>, headers: map<string, string>)

  /** First value stored under `name` in an ordered list of pairs (`URLSearchParams.get`). */
  function Get<V>(pairs: seq<(string, V)>, name: string): (r: Option<V>)
    ensures r.Some? ==> exists i :: 0 <= i < |pairs| && pairs[i] == (name, r.value)
    ensures r.None? ==> forall i :: 0 <= i < |pairs| ==> pairs[i].0 != name
    decreases |pairs|
  {
    if |pairs| == 0 then None
    else if pairs[0].0 == name then Some(pairs[0].1)
    else Get(pairs[1..], name)
  }

  /** Looking a name up in a concatenation looks in the first part, then in the second. */
  lemma {:induction false} GetAppend<V>(a: seq<(string, V)>, b: seq<(string, V)>, name: string)
    ensures Get(a + b, name) == if Get(a, name).Some? then Get(a, name) else Get(b, name)
    decreases |a|
  {
    if |a| == 0 {
      assert a + b == b;
    } else {
      assert (a + b)[1..] == a[1..] + b;
      GetAppend(a[1..], b, name);
    }
  }

  lemma GetAppend3<V>(a: seq<(string, V)>, b: seq<(string, V)>, c: seq<(string, V)>, d: seq<(string, V)>, name: string)
    ensures Get(a + b + c + d, name) ==
      if Get(a, name).Some? then Get(a, name) else if Get(b, name).Some? then Get(b, name)
      else if Get(c, name).Some? then Get(c, name) else Get(d, name)
  {
    GetAppend(a + b + c, d, name);
    GetAppend(a + b, c, name);
    GetAppend(a, b, name);
  }

  /** `JSON.stringify` leaves out a member whose value is undefined. */
  function Member(name: string, value: Option<string>): seq<(string, Json)> {
    if value.Some? then [(name, JString(value.value))] else []
  }

  // registerEndpoint

  datatype RegisterEndpointParams = RegisterEndpointParams(
    host: string, serialNum: string, edrId: Option<string>, control: Option<int>, tags: Option<string>)

  /** `edr_id` defaults to the empty text. */
  function EdrIdOf(p: RegisterEndpointParams): string {
    if p.edrId.Some? then p.edrId.value else ""
  }

  /** `control` defaults to `ControlCodes.INVALID`. */
  function ControlOf(p: RegisterEndpointParams): int {
    if p.control.Some? then p.control.value else Codes.ControlValue(Codes.ControlInvalid)
  }

  /** The endpoint id `host:serial_num:edr_id:control`. */
  function EndpointId(p: RegisterEndpointParams): string {
    p.host + ":" + p.serialNum + ":" + EdrIdOf(p) + ":" + IntToString(ControlOf(p))
  }

  function RegisterEndpointRequest(p: RegisterEndpointParams): (r: Request)
    ensures r.verb == "POST" && r.path == "/detect/endpoint"
    ensures Get(r.body, "id") == Some(JString(EndpointId(p)))
    ensures Get(r.body, "tags") == if p.tags.Some? then Some(JString(p.tags.value)) else None
  {
    Request("POST", "/detect/endpoint", [], [("id", JString(EndpointId(p)))] + Member("tags", p.tags), map[])
  }

  /**
   * The id has exactly four colon-separated fields, host, serial number, EDR id
   * and control code, whenever the first three hold no colon themselves.
   */
  lemma EndpointIdFields(p: RegisterEndpointParams)
    requires ':' !in p.host && ':' !in p.serialNum && ':' !in EdrIdOf(p)
    ensures Split(EndpointId(p), ':') == [p.host, p.serialNum, EdrIdOf(p), IntToString(ControlOf(p))]
  {
    var control := IntToString(ControlOf(p));
    assert ':' !in control by {
      if ControlOf(p) < 0 {
        assert control == "-" + NatToString(-ControlOf(p));
      }
    }
    var parts := [p.host, p.serialNum, EdrIdOf(p), control];
    assert Join(parts[3..], ':') == control;
    assert Join(parts[2..], ':') == EdrIdOf(p) + ":" + control;
    assert Join(parts[1..], ':') == p.serialNum + ":" + EdrIdOf(p) + ":" + control;
    assert Join(parts, ':') == EndpointId(p);
    SplitJoin(parts, ':');
  }

  /** With EDR id and control omitted the id is `<host>:<serial>::-1`. */
  lemma DefaultEndpointId(host: string, serial: string, tags: Option<string>)
    ensures EndpointId(RegisterEndpointParams(host, serial, None, None, tags)) == host + ":" + serial + "::-1"
  {
  }

  // updateEndpoint

  datatype UpdateEndpointParams = UpdateEndpointParams(
    endpointId: string, host: Option<string>, edrId: Option<string>, control: Option<int>, tags: Option<string>)

  /** `control !== undefined && control`: false when undefined, the given code otherwise. */
  function ControlMember(control: Option<int>): (j: Json)
    ensures control.None? ==> j == JBool(false)
    ensures control.Some? ==> j == JNumber(control.value)
  {
    if control.Some? then JNumber(control.value) else JBool(false)
  }

  lemma UpdateBodyMembers(host: Option<string>, edrId: Option<string>, control: Json, tags: Option<string>)
    ensures var body := Member("host", host) + Member("edr_id", edrId) + [("control", control)] + Member("tags", tags);
      && Get(body, "control") == Some(control)
      && Get(body, "host") == (if host.Some? then Some(JString(host.value)) else None)
      && Get(body, "edr_id") == (if edrId.Some? then Some(JString(edrId.value)) else None)
      && Get(body, "tags") == (if tags.Some? then Some(JString(tags.value)) else None)
  {
    var a, b, c, d := Member("host", host), Member("edr_id", edrId), [("control", control)], Member("tags", tags);
    GetAppend3(a, b, c, d, "control");
    GetAppend3(a, b, c, d, "host");
    GetAppend3(a, b, c, d, "edr_id");
    GetAppend3(a, b, c, d, "tags");
  }

  function UpdateEndpointRequest(p: UpdateEndpointParams): (r: Request)
    ensures r.verb == "POST" && r.path == "/detect/endpoint/" + p.endpointId
    ensures Get(r.body, "control") == Some(if p.control.Some? then JNumber(p.control.value) else JBool(false))
    ensures Get(r.body, "host") == if p.host.Some? then Some(JString(p.host.value)) else None
    ensures Get(r.body, "edr_id") == if p.edrId.Some? then Some(JString(p.edrId.value)) else None
    ensures Get(r.body, "tags") == if p.tags.Some? then Some(JString(p.tags.value)) else None
  {
    var body := Member("host", p.host) + Member("edr_id", p.edrId) + [("control", ControlMember(p.control))]
      + Member("tags", p.tags);
    UpdateBodyMembers(p.host, p.edrId, ControlMember(p.control), p.tags);
    Request("POST", "/detect/endpoint/" + p.endpointId, [], body, map[])
  }

  // describeActivity

  datatype View = Days | Logs | Insights | Probes | Advisories | Tests | Metrics

  function ViewName(v: View): string {
    match v
    case Days => "days"
    case Logs => "logs"
    case Insights => "insights"
    case Probes => "probes"
    case Advisories => "advisories"
    case Tests => "tests"
    case Metrics => "metrics"
  }

  datatype ActivityQuery = ActivityQuery(
    view: View, start: string, finish: string, tests: Option<string>, resultId: Option<string>,
    endpoints: Option<string>, dos: Option<string>, statuses: Option<string>, tags: Option<string>,
    control: Option<int>)

  /** JavaScript truthiness of an optional text: present and non-empty. */
  predicate Truthy(o: Option<string>) {
    o.Some? && o.value != ""
  }

  /** `URLSearchParams.set`: overwrite the first pair with this name and drop the rest, or append one. */
  function SetEntry(entries: seq<(string, string)>, name: string, value: string): (r: seq<(string, string)>)
    ensures (forall i :: 0 <= i < |entries| ==> entries[i].0 != name) ==> r == entries + [(name, value)]
    decreases |entries|
  {
    if |entries| == 0 then [(name, value)]
    else if entries[0].0 == name then [(name, value)] + RemoveName(entries[1..], name)
    else [entries[0]] + SetEntry(entries[1..], name, value)
  }

  function RemoveName(entries: seq<(string, string)>, name: string): (r: seq<(string, string)>)
    ensures forall i :: 0 <= i < |r| ==> r[i].0 != name
    decreases |entries|
  {
    if |entries| == 0 then []
    else if entries[0].0 == name then RemoveName(entries[1..], name)
    else [entries[0]] + RemoveName(entries[1..], name)
  }

  lemma {:induction false} GetRemoveName(entries: seq<(string, string)>, name: string, other: string)
    requires other != name
    ensures Get(RemoveName(entries, name), other) == Get(entries, other)
    decreases |entries|
  {
    if |entries| > 0 {
      GetRemoveName(entries[1..], name, other);
    }
  }

  /** After `set`, the name reads back the new value and every other name reads what it did before. */
  lemma {:induction false} GetSetEntry(entries: seq<(string, string)>, name: string, value: string, other: string)
    ensures Get(SetEntry(entries, name, value), name) == Some(value)
    ensures other != name ==> Get(SetEntry(entries, name, value), other) == Get(entries, other)
    decreases |entries|
  {
    if |entries| > 0 {
      if entries[0].0 == name {
        if other != name {
          GetRemoveName(entries[1..], name, other);
        }
      } else {
        GetSetEntry(entries[1..], name, value, other);
      }
    }
  }

  /** The mutable query builder the controller fills in. */
  class SearchParams {
    var entries: seq<(string, string)>

    constructor ()
      ensures entries == []
    {
      entries := [];
    }

    method Set(name: string, value: string)
      modifies this
      ensures entries == SetEntry(old(entries), name, value)
    {
      entries := SetEntry(entries, name, value);
    }
  }

  /** The pair for an optional filter, present only when the filter is truthy. */
  function Filter(name: string, value: Option<string>): seq<(string, string)> {
    if Truthy(value) then [(name, value.value)] else []
  }

  /**
   * Query parameters of `describeActivity`, in order: view, start and finish,
   * then each of tests, tags, endpoints, result_id and dos that is truthy.
   */
  function ActivityParams(q: ActivityQuery): seq<(string, string)> {
    [("view", ViewName(q.view)), ("start", q.start), ("finish", q.finish)]
      + Filter("tests", q.tests) + Filter("tags", q.tags) + Filter("endpoints", q.endpoints)
      + Filter("result_id", q.resultId) + Filter("dos", q.dos)
  }

  /** Looking a name up in the activity parameters looks through the fixed part, then each filter in turn. */
  lemma GetActivityParams(q: ActivityQuery, name: string)
    ensures Get(ActivityParams(q), name) ==
      if name == "view" then Some(ViewName(q.view)) else if name == "start" then Some(q.start)
      else if name == "finish" then Some(q.finish)
      else if Get(Filter("tests", q.tests), name).Some? then Get(Filter("tests", q.tests), name)
      else if Get(Filter("tags", q.tags), name).Some? then Get(Filter("tags", q.tags), name)
      else if Get(Filter("endpoints", q.endpoints), name).Some? then Get(Filter("endpoints", q.endpoints), name)
      else if Get(Filter("result_id", q.resultId), name).Some? then Get(Filter("result_id", q.resultId), name)
      else Get(Filter("dos", q.dos), name)
  {
    var fixed := [("view", ViewName(q.view)), ("start", q.start), ("finish", q.finish)];
    var a, b, c, d, e := Filter("tests", q.tests), Filter("tags", q.tags), Filter("endpoints", q.endpoints),
      Filter("result_id", q.resultId), Filter("dos", q.dos);
    assert fixed[1..] == [("start", q.start), ("finish", q.finish)] && fixed[1..][1..] == [("finish", q.finish)];
    assert Get(fixed, name) == Get(fixed[1..], name) || name == "view";
    assert Get(fixed[1..], name) == Get(fixed[1..][1..], name) || name == "start";
    GetAppend(fixed + a + b + c + d, e, name);
    GetAppend3(fixed, a, b, c, name);
    GetAppend(fixed + a + b + c, d, name);
  }

  /** A filter pair reads back only under its own name, and only when truthy. */
  lemma GetFilter(name: string, value: Option<string>, other: string)
    ensures Get(Filter(name, value), other) == if other == name && Truthy(value) then value else None
  {
  }

  lemma GetActivityParam(q: ActivityQuery, name: string)
    ensures Get(ActivityParams(q), name) ==
      if name == "view" then Some(ViewName(q.view)) else if name == "start" then Some(q.start)
      else if name == "finish" then Some(q.finish)
      else if name == "tests" then (if Truthy(q.tests) then q.tests else None)
      else if name == "tags" then (if Truthy(q.tags) then q.tags else None)
      else if name == "endpoints" then (if Truthy(q.endpoints) then q.endpoints else None)
      else if name == "result_id" then (if Truthy(q.resultId) then q.resultId else None)
      else if name == "dos" then (if Truthy(q.dos) then q.dos else None)
      else None
  {
    GetActivityParams(q, name);
    GetFilter("tests", q.tests, name);
    GetFilter("tags", q.tags, name);
    GetFilter("endpoints", q.endpoints, name);
    GetFilter("result_id", q.resultId, name);
    GetFilter("dos", q.dos, name);
  }

  /** What each parameter of `describeActivity` reads back as; statuses and control are never sent. */
  lemma ActivityParamsContents(q: ActivityQuery)
    ensures Get(ActivityParams(q), "view") == Some(ViewName(q.view))
    ensures Get(ActivityParams(q), "start") == Some(q.start)
    ensures Get(ActivityParams(q), "finish") == Some(q.finish)
    ensures Get(ActivityParams(q), "tests") == (if Truthy(q.tests) then q.tests else None)
    ensures Get(ActivityParams(q), "tags") == (if Truthy(q.tags) then q.tags else None)
    ensures Get(ActivityParams(q), "endpoints") == (if Truthy(q.endpoints) then q.endpoints else None)
    ensures Get(ActivityParams(q), "result_id") == (if Truthy(q.resultId) then q.resultId else None)
    ensures Get(ActivityParams(q), "dos") == (if Truthy(q.dos) then q.dos else None)
    ensures Get(ActivityParams(q), "statuses") == None && Get(ActivityParams(q), "control") == None
  {
    GetActivityParam(q, "view");
    GetActivityParam(q, "start");
    GetActivityParam(q, "finish");
    GetActivityParam(q, "tests");
    GetActivityParam(q, "tags");
    GetActivityParam(q, "endpoints");
    GetActivityParam(q, "result_id");
    GetActivityParam(q, "dos");
    GetActivityParam(q, "statuses");
    GetActivityParam(q, "control");
  }

  /** Every name in `entries` is one of `names`. */
  ghost predicate NamesIn(entries: seq<(string, string)>, names: set<string>) {
    forall i :: 0 <= i < |entries| ==> entries[i].0 in names
  }

  /** `if (value) params.set(name, value)` on a builder whose names are all among `earlier`. */
  method SetIfTruthy(sp: SearchParams, name: string, value: Option<string>, ghost earlier: set<string>)
    requires NamesIn(sp.entries, earlier) && name !in earlier
    modifies sp
    ensures sp.entries == old(sp.entries) + Filter(name, value)
    ensures NamesIn(sp.entries, earlier + {name})
  {
    if Truthy(value) {
      sp.Set(name, value.value);
    }
  }

  /** `describeActivity` fills a fresh `URLSearchParams` with successive `set` calls. */
  method DescribeActivityParams(q: ActivityQuery) returns (params: seq<(string, string)>)
    ensures params == ActivityParams(q)
  {
    var sp := new SearchParams();
    sp.Set("view", ViewName(q.view));
    sp.Set("start", q.start);
    sp.Set("finish", q.finish);
    assert sp.entries == [("view", ViewName(q.view)), ("start", q.start), ("finish", q.finish)];
    ghost var names := {"view", "start", "finish"};
    SetIfTruthy(sp, "tests", q.tests, names);
    names := names + {"tests"};
    SetIfTruthy(sp, "tags", q.tags, names);
    names := names + {"tags"};
    SetIfTruthy(sp, "endpoints", q.endpoints, names);
    names := names + {"endpoints"};
    SetIfTruthy(sp, "result_id", q.resultId, names);
    names := names + {"result_id"};
    SetIfTruthy(sp, "dos", q.dos, names);
    params := sp.entries;
  }

  // download

  /**
   * `Content-Type` is sent empty unless the caller's headers carry one; every
   * caller header is sent with the caller's value.
   */
  function DownloadRequest(testId: string, filename: string, headers: Option<map<string, string>>): (r: Request)
    ensures r.verb == "GET" && r.path == "/detect/tests/" + testId + "/" + filename
    ensures "Content-Type" in r.headers
    ensures r.headers["Content-Type"] ==
      if headers.Some? && "Content-Type" in headers.value then headers.value["Content-Type"] else ""
    ensures forall k :: k in r.headers <==> k == "Content-Type" || (headers.Some? && k in headers.value)
    ensures forall k :: headers.Some? && k in headers.value ==> r.headers[k] == headers.value[k]
  {
    var caller := if headers.Some? then headers.value else map[];
    Request("GET", "/detect/tests/" + testId + "/" + filename, [], [], map["Content-Type" := ""] + caller)
  }

  // parameter defaults

  function ListEndpointsRequest(days: Option<int>): Request {
    Request("GET", "/detect/endpoint", [("days", IntToString(if days.Some? then days.value else 90))], [], map[])
  }

  function SocialStatsRequest(test: string, days: Option<int>): Request {
    Request("GET", "/detect/" + test + "/social", [("days", IntToString(if days.Some? then days.value else 30))], [], map[])
  }

  function EnableTestRequest(test: string, runCode: int, tags: Option<string>): Request {
    Request("POST", "/detect/queue/" + test, [],
            [("code", JNumber(runCode)), ("tags", JString(if tags.Some? then tags.value else ""))], map[])
  }

  /** Omitted parameters: 90 days of endpoints, 30 days of social statistics, empty tags. */
  lemma Defaults(test: string, runCode: int)
    ensures ListEndpointsRequest(None).query == [("days", "90")]
    ensures SocialStatsRequest(test, None).query == [("days", "30")]
    ensures Get(EnableTestRequest(test, runCode, None).body, "tags") == Some(JString(""))
  {
    assert DigitChar(9) == '9' && DigitChar(3) == '3' && DigitChar(0) == '0';
    assert NatToString(90) == NatToString(9) + [DigitChar(0)] == "90";
    assert NatToString(30) == NatToString(3) + [DigitChar(0)] == "30";
  }

  /** A given number of days is sent as its decimal text and reads back as that number. */
  lemma {:induction false} DaysRoundTrip(days: nat, test: string)
    ensures ParseNat(Get(ListEndpointsRequest(Some(days)).query, "days").value) == Some(days)
    ensures ParseNat(Get(SocialStatsRequest(test, Some(days)).query, "days").value) == Some(days)
  {
    ParseNatToString(days);
  }
}
