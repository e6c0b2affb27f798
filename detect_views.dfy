/**
 * The Python command line's Detect views: tag parsing for `enable-test`, the
 * activity filters, the per-view result aggregation of `activity` (logs,
 * probes, days, insights), the `queue` listing rewritten in place, and the
 * `social-stats` regrouping by exit-code name.
 *
 * Rendering (rich tables, JSON printing) is not modelled: each view returns
 * the rows it would add. An exception the source lets escape is a `Failure`.
 */
module DetectViews {
  import opened Wrappers
  import opened Strings
  import opened Codes

  /** The exceptions the views let escape. */
  datatype ViewError =
    | UnknownTest(test: string)             // KeyError on the test-name lookup
    | UnknownExitCode(code: int)            // ValueError from the ExitCode enum
    | UnknownRunCode(runCode: RunCodeField) // ValueError from the RunCode enum
    | NotAnInteger(text: string)            // ValueError from int()

  /** A queue entry's `run_code`: the number the service sends, or the name `queue` puts there. */
  datatype RunCodeField = Numeric(value: int) | Named(name: string)

  // ---------------------------------------------------------------- enable-test

  /** `--tags`: comma-separated; absent or empty gives no tags. */
  function TestTags(tags: Option<string>): (r: seq<string>)
    ensures r == [] <==> tags.None? || tags.value == ""
    ensures tags.Some? && tags.value != "" ==> Join(r, ',') == tags.value
    ensures forall i :: 0 <= i < |r| ==> ',' !in r[i]
  {
    if tags.None? || tags.value == "" then []
    else
      JoinSplit(tags.value, ',');
      Split(tags.value, ',')
  }

  // ---------------------------------------------------------------- activity filters

  datatype FilterValue = Time(seconds: int) | Text(text: string)

  const SecondsPerDay := 86400

  /** Python truthiness of an optional text option. */
  predicate Given(option: Option<string>) {
    option.Some? && option.value != ""
  }

  /**
   * The filters `activity` sends. `startClock` and `finishClock` are the two
   * readings of the UTC clock the source takes, in seconds.
   */
  method ActivityFilters(startClock: int, finishClock: int, days: int,
                         tests: Option<string>, endpointIds: Option<string>, status: Option<string>)
    returns (filters: map<string, FilterValue>)
    ensures "start" in filters && filters["start"] == Time(startClock - days * SecondsPerDay)
    ensures "finish" in filters && filters["finish"] == Time(finishClock)
    ensures "test" in filters <==> Given(tests)
    ensures Given(tests) ==> filters["test"] == Text(tests.value)
    ensures "endpoint_id" in filters <==> Given(endpointIds)
    ensures Given(endpointIds) ==> filters["endpoint_id"] == Text(endpointIds.value)
    ensures "status" in filters <==> Given(status)
    ensures Given(status) ==> filters["status"] == Text(status.value)
    ensures forall k :: k in filters ==> k in ["start", "finish", "test", "endpoint_id", "status"]
  {
    filters := map["start" := Time(startClock - days * SecondsPerDay), "finish" := Time(finishClock)];
    if Given(tests) {
      filters := filters["test" := Text(tests.value)];
    }
    if Given(endpointIds) {
      filters := filters["endpoint_id" := Text(endpointIds.value)];
    }
    if Given(status) {
      filters := filters["status" := Text(status.value)];
    }
  }

  // ---------------------------------------------------------------- test names

  /** A Python dict built from key-value pairs in order: a later pair with the same key wins. */
  function DictOf<K, V>(pairs: seq<(K, V)>): map<K, V>
    decreases |pairs|
  {
    if |pairs| == 0 then map[]
    else DictOf(pairs[..|pairs| - 1])[pairs[|pairs| - 1].0 := pairs[|pairs| - 1].1]
  }

  /** A key is present iff some pair carries it, and its value is that of the last such pair. */
  lemma {:induction false} DictOfLookup<K, V>(pairs: seq<(K, V)>, key: K)
    ensures key in DictOf(pairs) <==> exists i :: 0 <= i < |pairs| && pairs[i].0 == key
    ensures key in DictOf(pairs) ==> (exists i :: 0 <= i < |pairs| && pairs[i].0 == key
                                        && DictOf(pairs)[key] == pairs[i].1
                                        && forall j :: i < j < |pairs| ==> pairs[j].0 != key)
    decreases |pairs|
  {
    if |pairs| > 0 {
      var front, last := pairs[..|pairs| - 1], pairs[|pairs| - 1];
      DictOfLookup(front, key);
      assert DictOf(pairs) == DictOf(front)[last.0 := last.1];
      if last.0 == key {
        assert pairs[|pairs| - 1].0 == key;
      } else {
        if key in DictOf(front) {
          var i :| 0 <= i < |front| && front[i].0 == key
            && DictOf(front)[key] == front[i].1 && forall j :: i < j < |front| ==> front[j].0 != key;
          assert pairs[i] == front[i];
          assert forall j :: i < j < |pairs| ==> pairs[j].0 != key by {
            forall j | i < j < |pairs|
              ensures pairs[j].0 != key
            {
              if j < |front| {
                assert pairs[j] == front[j];
              }
            }
          }
        }
        if exists i :: 0 <= i < |pairs| && pairs[i].0 == key {
          var i :| 0 <= i < |pairs| && pairs[i].0 == key;
          assert front[i].0 == key;
        }
      }
    }
  }

  /** With distinct keys, every pair survives. */
  lemma DictOfDistinct<K, V>(pairs: seq<(K, V)>)
    requires forall i, j :: 0 <= i < j < |pairs| ==> pairs[i].0 != pairs[j].0
    ensures forall i :: 0 <= i < |pairs| ==> pairs[i].0 in DictOf(pairs) && DictOf(pairs)[pairs[i].0] == pairs[i].1
  {
    forall i | 0 <= i < |pairs|
      ensures pairs[i].0 in DictOf(pairs) && DictOf(pairs)[pairs[i].0] == pairs[i].1
    {
      DictOfLookup(pairs, pairs[i].0);
    }
  }

  // ---------------------------------------------------------------- logs view

  /** A JSON scalar, for Python truthiness. */
  datatype Scalar = Null | Bool(b: bool) | Int(i: int) | Str(s: string)

  predicate Truthy(v: Option<Scalar>) {
    v.Some? &&
    match v.value
    case Null => false
    case Bool(b) => b
    case Int(i) => i != 0
    case Str(s) => s != ""
  }

  datatype LogRecord = LogRecord(date: string, id: string, test: string, endpointId: string,
                                 status: int, observed: Option<Scalar>)

  /** The columns timestamp, result ID, name, test, endpoint, code, status, observed. */
  datatype LogRow = LogRow(timestamp: string, resultId: string, name: string, test: string,
                           endpoint: string, code: string, status: string, observed: string)

  /**
   * The row of one record: the test name is looked up before the exit code
   * is converted, so an unknown test is reported even when the code is unknown too.
   */
  function LogRowOf(names: map<string, string>, record: LogRecord): (r: Result<LogRow, ViewError>)
    ensures r.Success? <==> record.test in names && ExitCodeOf(record.status).Some?
    ensures record.test !in names ==> r == Failure(UnknownTest(record.test))
    ensures record.test in names && ExitCodeOf(record.status).None? ==> r == Failure(UnknownExitCode(record.status))
    ensures r.Success? ==> (
      && r.value.timestamp == record.date && r.value.resultId == record.id
      && r.value.name == names[record.test] && r.value.test == record.test
      && r.value.endpoint == record.endpointId
      && r.value.code == IntToString(record.status) && ParseInt(r.value.code) == Some(record.status)
      && r.value.status == ExitName(ExitCodeOf(record.status).value)
      && (r.value.observed == "yes" <==> Truthy(record.observed))
      && (r.value.observed == "yes" || r.value.observed == "-"))
  {
    if record.test !in names then Failure(UnknownTest(record.test))
    else
      match ExitCodeOf(record.status)
      case None => Failure(UnknownExitCode(record.status))
      case Some(c) =>
        ParseIntToString(record.status);
        Success(LogRow(record.date, record.id, names[record.test], record.test, record.endpointId,
                       IntToString(record.status), ExitName(c), if Truthy(record.observed) then "yes" else "-"))
  }

  /** The logs view: one row per record, in input order; the first bad record aborts it. */
  method LogsView(names: map<string, string>, records: seq<LogRecord>) returns (r: Result<seq<LogRow>, ViewError>)
    ensures r.Success? <==> forall i :: 0 <= i < |records| ==> LogRowOf(names, records[i]).Success?
    ensures r.Success? ==> (|r.value| == |records|
      && forall i :: 0 <= i < |records| ==> r.value[i] == LogRowOf(names, records[i]).value)
    ensures r.Failure? ==> (exists i :: 0 <= i < |records| && LogRowOf(names, records[i]) == Failure(r.error)
                                && forall j :: 0 <= j < i ==> LogRowOf(names, records[j]).Success?)
  {
    var rows: seq<LogRow> := [];
    for i := 0 to |records|
      invariant |rows| == i
      invariant forall j :: 0 <= j < i ==> LogRowOf(names, records[j]).Success?
      invariant forall j :: 0 <= j < i ==> rows[j] == LogRowOf(names, records[j]).value
    {
      var row := LogRowOf(names, records[i]);
      if row.Failure? {
        return Failure(row.error);
      }
      rows := rows + [row.value];
    }
    return Success(rows);
  }

  // ---------------------------------------------------------------- probes and days views

  /** The three counters of one row. */
  datatype Tally = Tally(protected: int, unprotected: int, error: int)

  /** One row of the probes view (keyed by endpoint) or of the days view (keyed by date). */
  datatype TallyRow = TallyRow(key: string, tally: Tally)

  predicate InState(code: int, s: State) {
    ExitCodeOf(code).Some? && StateOf(ExitCodeOf(code).value) == s
  }

  predicate AllKnown(codes: seq<int>) {
    forall i :: 0 <= i < |codes| ==> ExitCodeOf(codes[i]).Some?
  }

  /** Number of statuses that are exit codes of state `s`. */
  function Count(statuses: seq<int>, s: State): nat
    decreases |statuses|
  {
    if |statuses| == 0 then 0
    else Count(statuses[..|statuses| - 1], s) + (if InState(statuses[|statuses| - 1], s) then 1 else 0)
  }

  /** Each known status lands in exactly one state, so the four counts add up to the number of statuses. */
  lemma {:induction false} CountsPartition(statuses: seq<int>)
    requires AllKnown(statuses)
    ensures Count(statuses, ProtectedState) + Count(statuses, UnprotectedState) + Count(statuses, ErrorState)
            + Count(statuses, NoState) == |statuses|
    decreases |statuses|
  {
    if |statuses| > 0 {
      CountsPartition(statuses[..|statuses| - 1]);
    }
  }

  /** A result increments at most one counter. */
  lemma {:induction false} CountsBound(statuses: seq<int>)
    ensures Count(statuses, ProtectedState) + Count(statuses, UnprotectedState) + Count(statuses, ErrorState) <= |statuses|
    decreases |statuses|
  {
    if |statuses| > 0 {
      CountsBound(statuses[..|statuses| - 1]);
    }
  }

  function StatusTally(statuses: seq<int>): Tally {
    Tally(Count(statuses, ProtectedState), Count(statuses, UnprotectedState), Count(statuses, ErrorState))
  }

  lemma StatusStep(statuses: seq<int>, j: nat)
    requires j < |statuses| && ExitCodeOf(statuses[j]).Some?
    ensures StatusTally(statuses[..j + 1]) == Bump(StatusTally(statuses[..j]), StateOf(ExitCodeOf(statuses[j]).value), 1)
    ensures AllKnown(statuses[..j]) ==> AllKnown(statuses[..j + 1])
  {
    assert statuses[..j + 1][..j] == statuses[..j];
    assert forall i :: 0 <= i <= j ==> statuses[..j + 1][i] == statuses[i];
  }

  /** The inner loop of the probes view: one endpoint's results. */
  method TallyStatuses(statuses: seq<int>) returns (r: Result<Tally, ViewError>)
    ensures r.Success? <==> AllKnown(statuses)
    ensures r.Success? ==> r.value == StatusTally(statuses)
    ensures r.Failure? ==> (exists j :: 0 <= j < |statuses| && ExitCodeOf(statuses[j]).None?
                                && r.error == UnknownExitCode(statuses[j]) && AllKnown(statuses[..j]))
  {
    var protected, unprotected, error := 0, 0, 0;
    for j := 0 to |statuses|
      invariant AllKnown(statuses[..j])
      invariant Tally(protected, unprotected, error) == StatusTally(statuses[..j])
    {
      var code := ExitCodeOf(statuses[j]);
      if code.None? {
        return Failure(UnknownExitCode(statuses[j]));
      }
      var state := StateOf(code.value);
      StatusStep(statuses, j);
      if state == ProtectedState {
        protected := protected + 1;
      } else if state == UnprotectedState {
        unprotected := unprotected + 1;
      } else if state == ErrorState {
        error := error + 1;
      }
    }
    assert statuses[..|statuses|] == statuses;
    return Success(Tally(protected, unprotected, error));
  }

  /** The probes view: one row per endpoint, in input order. */
  method ProbesView(raw: seq<(string, seq<int>)>) returns (r: Result<seq<TallyRow>, ViewError>)
    ensures r.Success? <==> forall i :: 0 <= i < |raw| ==> AllKnown(raw[i].1)
    ensures r.Success? ==> (|r.value| == |raw|
      && forall i :: 0 <= i < |raw| ==> r.value[i] == TallyRow(raw[i].0, StatusTally(raw[i].1)))
    ensures r.Failure? ==> (exists i, j :: 0 <= i < |raw| && 0 <= j < |raw[i].1|
                                && ExitCodeOf(raw[i].1[j]).None? && r.error == UnknownExitCode(raw[i].1[j])
                                && AllKnown(raw[i].1[..j]) && forall k :: 0 <= k < i ==> AllKnown(raw[k].1))
  {
    var rows: seq<TallyRow> := [];
    for i := 0 to |raw|
      invariant |rows| == i
      invariant forall k :: 0 <= k < i ==> AllKnown(raw[k].1) && rows[k] == TallyRow(raw[k].0, StatusTally(raw[k].1))
    {
      var tally := TallyStatuses(raw[i].1);
      if tally.Failure? {
        return Failure(tally.error);
      }
      rows := rows + [TallyRow(raw[i].0, tally.value)];
    }
    return Success(rows);
  }

  /** A code key of the days view converts iff it is an integer that is an exit code. */
  predicate Converts(code: string) {
    ParseInt(code).Some? && ExitCodeOf(ParseInt(code).value).Some?
  }

  predicate AllConvert(counts: seq<(string, int)>) {
    forall i :: 0 <= i < |counts| ==> Converts(counts[i].0)
  }

  lemma AllConvertStep(counts: seq<(string, int)>, j: nat)
    requires j < |counts| && AllConvert(counts[..j]) && Converts(counts[j].0)
    ensures AllConvert(counts[..j + 1])
  {
    assert forall i :: 0 <= i <= j ==> counts[..j + 1][i] == counts[i];
  }

  /** The error `int(code)` or `ExitCode(...)` raises on a key that does not convert. */
  function ConversionError(code: string): ViewError {
    if ParseInt(code).None? then NotAnInteger(code) else UnknownExitCode(ParseInt(code).value)
  }

  /** The state of a code key that converts, None for one that does not. */
  function KeyState(code: string): (s: Option<State>)
    ensures s.Some? <==> Converts(code)
    ensures s.Some? ==> s.value == StateOf(ExitCodeOf(ParseInt(code).value).value)
  {
    if Converts(code) then Some(StateOf(ExitCodeOf(ParseInt(code).value).value)) else None
  }

  /** Sum of the counts whose code converts to an exit code of state `s`. */
  function Sum(counts: seq<(string, int)>, s: State): int
    decreases |counts|
  {
    if |counts| == 0 then 0
    else
      var last := counts[|counts| - 1];
      Sum(counts[..|counts| - 1], s) + (if KeyState(last.0) == Some(s) then last.1 else 0)
  }

  function Total(counts: seq<(string, int)>): int
    decreases |counts|
  {
    if |counts| == 0 then 0 else Total(counts[..|counts| - 1]) + counts[|counts| - 1].1
  }

  /** When every key converts, the four state sums add up to the total count of the day. */
  lemma {:induction false} SumsPartition(counts: seq<(string, int)>)
    requires AllConvert(counts)
    ensures Sum(counts, ProtectedState) + Sum(counts, UnprotectedState) + Sum(counts, ErrorState)
            + Sum(counts, NoState) == Total(counts)
    decreases |counts|
  {
    if |counts| > 0 {
      SumsPartition(counts[..|counts| - 1]);
    }
  }

  function CountTally(counts: seq<(string, int)>): Tally {
    Tally(Sum(counts, ProtectedState), Sum(counts, UnprotectedState), Sum(counts, ErrorState))
  }

  /** The tally after adding `n` to the counter of state `s`; NoState has no counter. */
  function Bump(t: Tally, s: State, n: int): Tally {
    match s
    case ProtectedState => t.(protected := t.protected + n)
    case UnprotectedState => t.(unprotected := t.unprotected + n)
    case ErrorState => t.(error := t.error + n)
    case NoState => t
  }

  lemma TallyStep(counts: seq<(string, int)>, j: nat)
    requires j < |counts| && Converts(counts[j].0)
    ensures CountTally(counts[..j + 1]) == Bump(CountTally(counts[..j]), KeyState(counts[j].0).value, counts[j].1)
  {
    assert counts[..j + 1][..j] == counts[..j];
  }

  /** The inner loop of the days view: one date's counts per code. */
  method TallyCounts(counts: seq<(string, int)>) returns (r: Result<Tally, ViewError>)
    ensures r.Success? <==> AllConvert(counts)
    ensures r.Success? ==> r.value == CountTally(counts)
    ensures r.Failure? ==> (exists j :: 0 <= j < |counts| && !Converts(counts[j].0)
                                && r.error == ConversionError(counts[j].0) && AllConvert(counts[..j]))
  {
    var protected, unprotected, error := 0, 0, 0;
    for j := 0 to |counts|
      invariant AllConvert(counts[..j])
      invariant Tally(protected, unprotected, error) == CountTally(counts[..j])
    {
      var (code, count) := counts[j];
      var value := ParseInt(code);
      if value.None? {
        return Failure(NotAnInteger(code));
      }
      var exit := ExitCodeOf(value.value);
      if exit.None? {
        return Failure(UnknownExitCode(value.value));
      }
      var state := StateOf(exit.value);
      AllConvertStep(counts, j);
      TallyStep(counts, j);
      if state == ProtectedState {
        protected := protected + count;
      } else if state == UnprotectedState {
        unprotected := unprotected + count;
      } else if state == ErrorState {
        error := error + count;
      }
    }
    assert counts[..|counts|] == counts;
    return Success(Tally(protected, unprotected, error));
  }

  /** The days view: one row per date, in input order. */
  method DaysView(raw: seq<(string, seq<(string, int)>)>) returns (r: Result<seq<TallyRow>, ViewError>)
    ensures r.Success? <==> forall i :: 0 <= i < |raw| ==> AllConvert(raw[i].1)
    ensures r.Success? ==> (|r.value| == |raw|
      && forall i :: 0 <= i < |raw| ==> r.value[i] == TallyRow(raw[i].0, CountTally(raw[i].1)))
    ensures r.Failure? ==> (exists i, j :: 0 <= i < |raw| && 0 <= j < |raw[i].1|
                                && !Converts(raw[i].1[j].0) && r.error == ConversionError(raw[i].1[j].0)
                                && AllConvert(raw[i].1[..j]) && forall k :: 0 <= k < i ==> AllConvert(raw[k].1))
  {
    var rows: seq<TallyRow> := [];
    for i := 0 to |raw|
      invariant |rows| == i
      invariant forall k :: 0 <= k < i ==> AllConvert(raw[k].1) && rows[k] == TallyRow(raw[k].0, CountTally(raw[k].1))
    {
      var tally := TallyCounts(raw[i].1);
      if tally.Failure? {
        return Failure(tally.error);
      }
      rows := rows + [TallyRow(raw[i].0, tally.value)];
    }
    return Success(rows);
  }

  // ---------------------------------------------------------------- activity dispatch


  /** What the service returns for each view. */
  datatype Activity =
    | LogsActivity(records: seq<LogRecord>)
    | InsightsActivity
    | ProbesActivity(endpoints: seq<(string, seq<int>)>)
    | DaysActivity(dates: seq<(string, seq<(string, int)>)>)

  datatype Report = LogReport(logs: seq<LogRow>) | TallyReport(rows: seq<TallyRow>) | EmptyReport

  /** `activity`: the rows the chosen view adds; insights adds none. */
  method DescribeActivity(names: map<string, string>, raw: Activity) returns (r: Result<Report, ViewError>)
    ensures raw.InsightsActivity? ==> r == Success(EmptyReport)
    ensures raw.LogsActivity? && r.Success? ==> (r.value.LogReport? && |r.value.logs| == |raw.records|
      && forall i :: 0 <= i < |raw.records| ==> LogRowOf(names, raw.records[i]).Success? && r.value.logs[i] == LogRowOf(names, raw.records[i]).value)
    ensures raw.ProbesActivity? && r.Success? ==> (r.value.TallyReport? && |r.value.rows| == |raw.endpoints|
      && forall i :: 0 <= i < |raw.endpoints| ==>
        r.value.rows[i] == TallyRow(raw.endpoints[i].0, StatusTally(raw.endpoints[i].1)))
    ensures raw.DaysActivity? && r.Success? ==> (r.value.TallyReport? && |r.value.rows| == |raw.dates|
      && forall i :: 0 <= i < |raw.dates| ==> r.value.rows[i] == TallyRow(raw.dates[i].0, CountTally(raw.dates[i].1)))
    ensures raw.LogsActivity? ==> (r.Success? <==> forall i :: 0 <= i < |raw.records| ==> LogRowOf(names, raw.records[i]).Success?)
    ensures raw.ProbesActivity? ==> (r.Success? <==> forall i :: 0 <= i < |raw.endpoints| ==> AllKnown(raw.endpoints[i].1))
    ensures raw.DaysActivity? ==> (r.Success? <==> forall i :: 0 <= i < |raw.dates| ==> AllConvert(raw.dates[i].1))
  {
    match raw
    case LogsActivity(records) =>
      var rows := LogsView(names, records);
      r := if rows.Success? then Success(LogReport(rows.value)) else Failure(rows.error);
    case InsightsActivity =>
      r := Success(EmptyReport);
    case ProbesActivity(endpoints) =>
      var rows := ProbesView(endpoints);
      r := if rows.Success? then Success(TallyReport(rows.value)) else Failure(rows.error);
    case DaysActivity(dates) =>
      var rows := DaysView(dates);
      r := if rows.Success? then Success(TallyReport(rows.value)) else Failure(rows.error);
  }

  // ---------------------------------------------------------------- queue

  /** An entry of the active queue; `name` is absent until `queue` adds it. */
  datatype QueueEntry = QueueEntry(test: string, runCode: RunCodeField, name: Option<string>)

  /**
   * Python's `RunCode` enum: its members as (name, value), in the order they
   * are defined. The members themselves are not part of this model, so the
   * views that use the enum take it as a parameter.
   */
  type RunCodeEnum = seq<(string, int)>

  /** The first member at or after `from` with value `v`: the one Python's value lookup finds. */
  function FirstWithValue(members: RunCodeEnum, v: int, from: nat): (r: Option<nat>)
    requires from <= |members|
    ensures r.Some? ==> from <= r.value < |members| && members[r.value].1 == v
                        && forall j :: from <= j < r.value ==> members[j].1 != v
    ensures r.None? ==> forall j :: from <= j < |members| ==> members[j].1 != v
    decreases |members| - from
  {
    if from == |members| then None
    else if members[from].1 == v then Some(from)
    else FirstWithValue(members, v, from + 1)
  }

  /** A member with no earlier member of the same value is the one the value lookup finds. */
  lemma {:induction false} FirstWithValueAt(members: RunCodeEnum, from: nat, at: nat)
    requires from <= at < |members|
    requires forall j :: from <= j < at ==> members[j].1 != members[at].1
    ensures FirstWithValue(members, members[at].1, from) == Some(at)
    decreases at - from
  {
    if from < at {
      FirstWithValueAt(members, from + 1, at);
    }
  }

  /** The first member at or after `from` named `name`: the one `RunCode[name]` finds. */
  function FirstNamed(members: RunCodeEnum, name: string, from: nat): (r: Option<nat>)
    requires from <= |members|
    ensures r.Some? ==> from <= r.value < |members| && members[r.value].0 == name
    ensures r.None? ==> forall j :: from <= j < |members| ==> members[j].0 != name
    decreases |members| - from
  {
    if from == |members| then None
    else if members[from].0 == name then Some(from)
    else FirstNamed(members, name, from + 1)
  }

  /**
   * `RunCode(q['run_code']).name`: a number that is some member's value
   * converts to the name of the first member with that value (a later
   * member with the same value is an alias of it); anything else raises.
   */
  function RunCodeName(members: RunCodeEnum, f: RunCodeField): (r: Option<string>)
    ensures r.Some? <==> f.Numeric? && exists i :: 0 <= i < |members| && members[i].1 == f.value
    ensures r.Some? ==> exists i :: 0 <= i < |members| && members[i] == (r.value, f.value)
                                    && forall j :: 0 <= j < i ==> members[j].1 != f.value
  {
    if f.Named? then None
    else
      match FirstWithValue(members, f.value, 0)
      case None => None
      case Some(i) => Some(members[i].0)
  }

  /** Every member that is not an alias converts from its value to its own name. */
  lemma RunCodeNameOfValue(members: RunCodeEnum, i: nat)
    requires i < |members| && forall j :: 0 <= j < i ==> members[j].1 != members[i].1
    ensures RunCodeName(members, Numeric(members[i].1)) == Some(members[i].0)
  {
    FirstWithValueAt(members, 0, i);
  }

  /** `RunCode[name].value`, as `enable-test` sends it for the chosen name. */
  function RunCodeValue(members: RunCodeEnum, name: string): (r: Option<int>)
    ensures r.Some? <==> exists i :: 0 <= i < |members| && members[i].0 == name
    ensures r.Some? ==> exists i :: 0 <= i < |members| && members[i] == (name, r.value)
  {
    match FirstNamed(members, name, 0)
    case None => None
    case Some(i) => Some(members[i].1)
  }

  /**
   * In an enum without aliases, a run code chosen by name when a test is
   * enabled is listed by `queue` under that same name.
   */
  lemma ChosenRunCodeListed(members: RunCodeEnum, name: string)
    requires forall i, j :: 0 <= i < j < |members| ==> members[i].1 != members[j].1
    requires RunCodeValue(members, name).Some?
    ensures RunCodeName(members, Numeric(RunCodeValue(members, name).value)) == Some(name)
  {
    var i := FirstNamed(members, name, 0).value;
    RunCodeNameOfValue(members, i);
  }

  /** Whether `queue` gets through this entry. */
  predicate Lists(members: RunCodeEnum, names: map<string, string>, e: QueueEntry) {
    RunCodeName(members, e.runCode).Some? && e.test in names
  }

  /** The entry as `queue` leaves it: run code replaced by its name, test name added. */
  function Listed(members: RunCodeEnum, names: map<string, string>, e: QueueEntry): (r: QueueEntry)
    requires Lists(members, names, e)
    ensures r.test == e.test && r.name == Some(names[e.test])
    ensures r.runCode.Named? && exists i :: 0 <= i < |members| && members[i] == (r.runCode.name, e.runCode.value)
    ensures !Lists(members, names, r)
  {
    e.(runCode := Named(RunCodeName(members, e.runCode).value), name := Some(names[e.test]))
  }

  /** The entry that stops `queue`, as it is left: the run code is replaced before the test lookup fails. */
  function Stuck(members: RunCodeEnum, names: map<string, string>, e: QueueEntry): (r: QueueEntry)
    requires !Lists(members, names, e)
    ensures r.test == e.test && r.name == e.name
    ensures RunCodeName(members, e.runCode).None? ==> r == e
    ensures RunCodeName(members, e.runCode).Some? ==> r.runCode == Named(RunCodeName(members, e.runCode).value)
  {
    if RunCodeName(members, e.runCode).Some? then e.(runCode := Named(RunCodeName(members, e.runCode).value)) else e
  }

  function ListError(members: RunCodeEnum, names: map<string, string>, e: QueueEntry): ViewError
    requires !Lists(members, names, e)
  {
    if RunCodeName(members, e.runCode).None? then UnknownRunCode(e.runCode) else UnknownTest(e.test)
  }

  /**
   * `queue`: rewrites the entries in place, in order; the first entry it
   * cannot rewrite raises, leaving earlier entries rewritten, that one
   * partly rewritten, and later ones untouched.
   */
  method Queue(members: RunCodeEnum, names: map<string, string>, active: array<QueueEntry>) returns (failure: Option<ViewError>)
    modifies active
    ensures failure.None? <==> forall i :: 0 <= i < active.Length ==> Lists(members, names, old(active[i]))
    ensures failure.None? ==> forall i :: 0 <= i < active.Length ==> active[i] == Listed(members, names, old(active[i]))
    ensures failure.Some? ==> (exists k :: 0 <= k < active.Length && !Lists(members, names, old(active[k]))
                                 && failure.value == ListError(members, names, old(active[k]))
                                 && active[k] == Stuck(members, names, old(active[k]))
                                 && (forall i :: 0 <= i < k ==> Lists(members, names, old(active[i])) && active[i] == Listed(members, names, old(active[i])))
                                 && forall i :: k < i < active.Length ==> active[i] == old(active[i]))
  {
    for i := 0 to active.Length
      invariant forall j :: 0 <= j < i ==> Lists(members, names, old(active[j])) && active[j] == Listed(members, names, old(active[j]))
      invariant forall j :: i <= j < active.Length ==> active[j] == old(active[j])
    {
      var name := RunCodeName(members, active[i].runCode);
      if name.None? {
        return Some(UnknownRunCode(active[i].runCode));
      }
      active[i] := active[i].(runCode := Named(name.value));
      if active[i].test !in names {
        return Some(UnknownTest(active[i].test));
      }
      active[i] := active[i].(name := Some(names[active[i].test]));
    }
    return None;
  }

  // ---------------------------------------------------------------- social statistics

  /** `ExitCode(int(code)).name` for a code key that converts. */
  function CodeName(code: string): string
    requires Converts(code)
  {
    ExitName(ExitCodeOf(ParseInt(code).value).value)
  }

  /** One platform's counts, keyed by exit-code name. */
  function NamedCounts(values: seq<(string, int)>): (r: seq<(string, int)>)
    requires AllConvert(values)
    ensures |r| == |values|
    ensures forall j :: 0 <= j < |values| ==> r[j] == (CodeName(values[j].0), values[j].1)
  {
    seq(|values|, j requires 0 <= j < |values| => (CodeName(values[j].0), values[j].1))
  }

  /** A rendered code is a key that converts, and it is renamed to its own table name. */
  lemma CodeNameOfValue(c: ExitCode)
    ensures Converts(IntToString(ExitValue(c))) && CodeName(IntToString(ExitValue(c))) == ExitName(c)
  {
    ParseIntToString(ExitValue(c));
    ExitValuesDistinct(c, ExitCodeOf(ExitValue(c)).value);
  }

  lemma NamedCountsStep(values: seq<(string, int)>, j: nat)
    requires j < |values| && AllConvert(values[..j]) && Converts(values[j].0)
    ensures AllConvert(values[..j + 1])
    ensures DictOf(NamedCounts(values[..j + 1])) == DictOf(NamedCounts(values[..j]))[CodeName(values[j].0) := values[j].1]
  {
    AllConvertStep(values, j);
    var named, front := NamedCounts(values[..j + 1]), NamedCounts(values[..j]);
    assert forall k :: 0 <= k < j ==> values[..j + 1][k] == values[..j][k];
    assert named[..j] == front;
    assert named[j] == (CodeName(values[j].0), values[j].1);
  }

  /** The inner loop of `social-stats`: one platform's counts keyed by exit-code name. */
  method NameCounts(values: seq<(string, int)>) returns (r: Result<map<string, int>, ViewError>)
    ensures r.Success? <==> AllConvert(values)
    ensures r.Success? ==> r.value == DictOf(NamedCounts(values))
    ensures r.Failure? ==> (exists j :: 0 <= j < |values| && !Converts(values[j].0)
                              && r.error == ConversionError(values[j].0) && AllConvert(values[..j]))
  {
    var platform: map<string, int> := map[];
    for j := 0 to |values|
      invariant AllConvert(values[..j])
      invariant platform == DictOf(NamedCounts(values[..j]))
    {
      var (code, count) := values[j];
      var value := ParseInt(code);
      if value.None? {
        return Failure(NotAnInteger(code));
      }
      var exit := ExitCodeOf(value.value);
      if exit.None? {
        return Failure(UnknownExitCode(value.value));
      }
      NamedCountsStep(values, j);
      platform := platform[ExitName(exit.value) := count];
    }
    assert values[..|values|] == values;
    return Success(platform);
  }

  /** Every key of `stats` comes from one of the first `i` platforms that has counts. */
  ghost predicate KeysFrom(raw: seq<(string, seq<(string, int)>)>, i: nat, stats: map<string, map<string, int>>)
    requires i <= |raw|
  {
    forall dos :: dos in stats ==> exists k :: 0 <= k < i && raw[k].0 == dos && |raw[k].1| > 0
  }

  /** One platform's counts regrouped by exit-code name; empty when some key does not convert. */
  function Regroup(values: seq<(string, int)>): map<string, int> {
    if AllConvert(values) then DictOf(NamedCounts(values)) else map[]
  }

  /**
   * Regrouping keeps every count under its code's name: a name is present
   * iff some code converts to it, with the count of the last such code.
   */
  lemma RegroupLookup(values: seq<(string, int)>, name: string)
    requires AllConvert(values)
    ensures name in Regroup(values) <==> exists j :: 0 <= j < |values| && CodeName(values[j].0) == name
    ensures name in Regroup(values) ==> (exists j :: 0 <= j < |values| && CodeName(values[j].0) == name
                                           && Regroup(values)[name] == values[j].1
                                           && forall l :: j < l < |values| ==> CodeName(values[l].0) != name)
  {
    var named := NamedCounts(values);
    DictOfLookup(named, name);
    if exists j :: 0 <= j < |values| && CodeName(values[j].0) == name {
      var j :| 0 <= j < |values| && CodeName(values[j].0) == name;
      assert named[j].0 == name;
    }
  }

  /** Each of the first `i` platforms that has counts holds its regrouped counts. */
  ghost predicate Regrouped(raw: seq<(string, seq<(string, int)>)>, i: nat, stats: map<string, map<string, int>>)
    requires i <= |raw|
  {
    forall k :: 0 <= k < i && |raw[k].1| > 0 ==> raw[k].0 in stats && stats[raw[k].0] == Regroup(raw[k].1)
  }

  lemma KeysFromStep(raw: seq<(string, seq<(string, int)>)>, i: nat, stats: map<string, map<string, int>>, platform: map<string, int>)
    requires i < |raw| && KeysFrom(raw, i, stats)
    ensures KeysFrom(raw, i + 1, if |raw[i].1| > 0 then stats[raw[i].0 := platform] else stats)
  {
    var next := if |raw[i].1| > 0 then stats[raw[i].0 := platform] else stats;
    forall dos | dos in next
      ensures exists k :: 0 <= k < i + 1 && raw[k].0 == dos && |raw[k].1| > 0
    {
      if dos !in stats {
        assert raw[i].0 == dos && |raw[i].1| > 0;
      } else {
        var k :| 0 <= k < i && raw[k].0 == dos && |raw[k].1| > 0;
      }
    }
  }

  lemma RegroupedStep(raw: seq<(string, seq<(string, int)>)>, i: nat, stats: map<string, map<string, int>>)
    requires i < |raw| && Regrouped(raw, i, stats)
    requires forall k :: 0 <= k < i ==> raw[k].0 != raw[i].0
    ensures Regrouped(raw, i + 1, if |raw[i].1| > 0 then stats[raw[i].0 := Regroup(raw[i].1)] else stats)
  {
    var next := if |raw[i].1| > 0 then stats[raw[i].0 := Regroup(raw[i].1)] else stats;
    forall k | 0 <= k < i + 1 && |raw[k].1| > 0
      ensures raw[k].0 in next && next[raw[k].0] == Regroup(raw[k].1)
    {
      if k < i {
        assert raw[k].0 != raw[i].0;
      }
    }
  }

  /** One pass of the `social-stats` loop: platform `i` regrouped into `stats`. */
  method AddPlatform(raw: seq<(string, seq<(string, int)>)>, i: nat, stats: map<string, map<string, int>>)
    returns (r: Result<map<string, map<string, int>>, ViewError>)
    requires i < |raw| && forall k :: 0 <= k < i ==> raw[k].0 != raw[i].0
    requires KeysFrom(raw, i, stats) && Regrouped(raw, i, stats)
    ensures r.Success? <==> AllConvert(raw[i].1)
    ensures r.Success? ==> KeysFrom(raw, i + 1, r.value) && Regrouped(raw, i + 1, r.value)
    ensures r.Failure? ==> (exists j :: 0 <= j < |raw[i].1| && !Converts(raw[i].1[j].0)
                              && r.error == ConversionError(raw[i].1[j].0) && AllConvert(raw[i].1[..j]))
  {
    var counts := NameCounts(raw[i].1);
    if counts.Failure? {
      return Failure(counts.error);
    }
    assert counts.value == Regroup(raw[i].1);
    KeysFromStep(raw, i, stats, counts.value);
    RegroupedStep(raw, i, stats);
    if |raw[i].1| > 0 {
      return Success(stats[raw[i].0 := counts.value]);
    }
    return Success(stats);
  }

  /**
   * `social-stats`: per platform, each count keyed by its exit-code name; a
   * platform with no counts gets no entry. The service's keys are distinct.
   */
  method SocialStatistics(raw: seq<(string, seq<(string, int)>)>) returns (r: Result<map<string, map<string, int>>, ViewError>)
    requires forall i, k :: 0 <= i < k < |raw| ==> raw[i].0 != raw[k].0
    ensures r.Success? <==> forall i :: 0 <= i < |raw| ==> AllConvert(raw[i].1)
    ensures r.Success? ==> forall i :: 0 <= i < |raw| && |raw[i].1| > 0 ==>
                             raw[i].0 in r.value && r.value[raw[i].0] == Regroup(raw[i].1)
    ensures r.Success? ==> forall dos :: dos in r.value ==> exists i :: 0 <= i < |raw| && raw[i].0 == dos && |raw[i].1| > 0
    ensures r.Failure? ==> (exists i, j :: 0 <= i < |raw| && 0 <= j < |raw[i].1|
                              && !Converts(raw[i].1[j].0) && r.error == ConversionError(raw[i].1[j].0)
                              && AllConvert(raw[i].1[..j]) && forall k :: 0 <= k < i ==> AllConvert(raw[k].1))
  {
    var stats: map<string, map<string, int>> := map[];
    for i := 0 to |raw|
      invariant forall k :: 0 <= k < i ==> AllConvert(raw[k].1)
      invariant KeysFrom(raw, i, stats)
      invariant Regrouped(raw, i, stats)
    {
      var next := AddPlatform(raw, i, stats);
      if next.Failure? {
        return Failure(next.error);
      }
      stats := next.value;
    }
    return Success(stats);
  }

}
