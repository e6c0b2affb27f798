/**
 * The constant tables of the JavaScript SDK's type module: exit codes, their
 * grouping into protected / unprotected / error, run codes, permissions and
 * control (partner) codes. The command-line views classify results through
 * these tables.
 */
module Codes {
  import opened Wrappers

  /** Keys of the `ExitCodes` table. */
  datatype ExitCode =
    | Missing | UnknownError | MalformedTest | ProcessBlocked | ProcessBlockedGracefully
    | Protected | Unprotected | TimedOut | FailedCleanup | TestNotRelevant
    | DynamicQuarantine | BlockedAtPerimeter | ExploitPrevented | EndpointNotRelevant
    | TestDisallowed | StaticQuarantine | Blocked | UnexpectedError

  /** The numeric value the table gives each exit code. */
  function ExitValue(c: ExitCode): int {
    match c
    case Missing => -1
    case UnknownError => 1
    case MalformedTest => 2
    case ProcessBlocked => 9
    case ProcessBlockedGracefully => 15
    case Protected => 100
    case Unprotected => 101
    case TimedOut => 102
    case FailedCleanup => 103
    case TestNotRelevant => 104
    case DynamicQuarantine => 105
    case BlockedAtPerimeter => 106
    case ExploitPrevented => 107
    case EndpointNotRelevant => 108
    case TestDisallowed => 126
    case StaticQuarantine => 127
    case Blocked => 137
    case UnexpectedError => 256
  }

  /** The table key of each exit code, as an enumeration's `.name` reports it. */
  function ExitName(c: ExitCode): string {
    match c
    case Missing => "MISSING"
    case UnknownError => "UNKNOWN_ERROR"
    case MalformedTest => "MALFORMED_TEST"
    case ProcessBlocked => "PROCESS_BLOCKED"
    case ProcessBlockedGracefully => "PROCESS_BLOCKED_GRACEFULLY"
    case Protected => "PROTECTED"
    case Unprotected => "UNPROTECTED"
    case TimedOut => "TIMED_OUT"
    case FailedCleanup => "FAILED_CLEANUP"
    case TestNotRelevant => "TEST_NOT_RELEVANT"
    case DynamicQuarantine => "DYNAMIC_QUARANTINE"
    case BlockedAtPerimeter => "BLOCKED_AT_PERIMETER"
    case ExploitPrevented => "EXPLOIT_PREVENTED"
    case EndpointNotRelevant => "ENDPOINT_NOT_RELEVANT"
    case TestDisallowed => "TEST_DISALLOWED"
    case StaticQuarantine => "STATIC_QUARANTINE"
    case Blocked => "BLOCKED"
    case UnexpectedError => "UNEXPECTED_ERROR"
  }

  /** The exit code with a given numeric value; None for a value outside the table. */
  function ExitCodeOf(v: int): (r: Option<ExitCode>)
    ensures r.Some? ==> ExitValue(r.value) == v
    ensures r.None? ==> forall c :: ExitValue(c) != v
  {
    match v
    case -1 => Some(Missing)
    case 1 => Some(UnknownError)
    case 2 => Some(MalformedTest)
    case 9 => Some(ProcessBlocked)
    case 15 => Some(ProcessBlockedGracefully)
    case 100 => Some(Protected)
    case 101 => Some(Unprotected)
    case 102 => Some(TimedOut)
    case 103 => Some(FailedCleanup)
    case 104 => Some(TestNotRelevant)
    case 105 => Some(DynamicQuarantine)
    case 106 => Some(BlockedAtPerimeter)
    case 107 => Some(ExploitPrevented)
    case 108 => Some(EndpointNotRelevant)
    case 126 => Some(TestDisallowed)
    case 127 => Some(StaticQuarantine)
    case 137 => Some(Blocked)
    case 256 => Some(UnexpectedError)
    case _ => None
  }

  /** Every exit code has its own value: looking a value up gives back the code it came from. */
  lemma ExitValuesDistinct(c: ExitCode, d: ExitCode)
    ensures ExitCodeOf(ExitValue(c)) == Some(c)
    ensures ExitValue(c) == ExitValue(d) ==> c == d
  {
  }

  /** Names are distinct too, so a name identifies its exit code. */
  lemma ExitNamesDistinct(c: ExitCode, d: ExitCode)
    ensures ExitName(c) == ExitName(d) ==> c == d
  {
  }

  // The `ExitCodeGroup` table.
  const NoneGroup: seq<int> := [ExitValue(Missing)]
  const ProtectedGroup: seq<int> := [
    ExitValue(ProcessBlocked), ExitValue(ProcessBlockedGracefully), ExitValue(Protected),
    ExitValue(DynamicQuarantine), ExitValue(BlockedAtPerimeter), ExitValue(Blocked),
    ExitValue(ExploitPrevented), ExitValue(TestDisallowed), ExitValue(StaticQuarantine),
    ExitValue(TestNotRelevant), ExitValue(EndpointNotRelevant)]
  const UnprotectedGroup: seq<int> := [ExitValue(Unprotected)]
  const ErrorGroup: seq<int> := [
    ExitValue(UnknownError), ExitValue(MalformedTest), ExitValue(TimedOut),
    ExitValue(FailedCleanup), ExitValue(UnexpectedError)]
  const NotRelevantGroup: seq<int> := [ExitValue(TestNotRelevant), ExitValue(EndpointNotRelevant)]

  /** The group an exit code belongs to (an exit code's `.state`). */
  datatype State = NoState | ProtectedState | UnprotectedState | ErrorState

  function StateOf(c: ExitCode): (s: State)
    ensures s == NoState <==> ExitValue(c) in NoneGroup
    ensures s == ProtectedState <==> ExitValue(c) in ProtectedGroup
    ensures s == UnprotectedState <==> ExitValue(c) in UnprotectedGroup
    ensures s == ErrorState <==> ExitValue(c) in ErrorGroup
  {
    match c
    case Missing => NoState
    case Unprotected => UnprotectedState
    case UnknownError | MalformedTest | TimedOut | FailedCleanup | UnexpectedError => ErrorState
    case _ => ProtectedState
  }

  /** The three outcome groups share no value. */
  lemma GroupsDisjoint()
    ensures forall v :: v in ProtectedGroup ==> v !in UnprotectedGroup && v !in ErrorGroup
    ensures forall v :: v in UnprotectedGroup ==> v !in ErrorGroup
    ensures forall v :: v in NoneGroup ==> v !in ProtectedGroup && v !in UnprotectedGroup && v !in ErrorGroup
  {
  }

  /** In how many of the three outcome groups a value appears. */
  function Membership(v: int): nat {
    (if v in ProtectedGroup then 1 else 0) + (if v in UnprotectedGroup then 1 else 0)
      + (if v in ErrorGroup then 1 else 0)
  }

  /** Every exit code but MISSING is in exactly one of the three outcome groups. */
  lemma GroupsCover(c: ExitCode)
    ensures c != Missing <==> Membership(ExitValue(c)) == 1
    ensures c == Missing ==> ExitValue(c) !in ProtectedGroup + UnprotectedGroup + ErrorGroup
  {
  }

  /** NONE is exactly MISSING, UNPROTECTED exactly 101, and NOT_RELEVANT lies inside PROTECTED. */
  lemma GroupShapes()
    ensures NoneGroup == [-1] && UnprotectedGroup == [101]
    ensures forall v :: v in NotRelevantGroup ==> v in ProtectedGroup
    ensures |ProtectedGroup| == 11 && |ErrorGroup| == 5
  {
  }

  /** Keys of the `RunCodes` table. */
  datatype RunCode = RunInvalid | Daily | Smart | Monday | Tuesday | Wednesday | Thursday
                   | Friday | Saturday | Sunday | Month1

  function RunValue(c: RunCode): int {
    match c
    case RunInvalid => -1
    case Daily => 1
    case Smart => 2
    case Monday => 10
    case Tuesday => 11
    case Wednesday => 12
    case Thursday => 13
    case Friday => 14
    case Saturday => 15
    case Sunday => 16
    case Month1 => 20
  }

  function RunName(c: RunCode): string {
    match c
    case RunInvalid => "INVALID"
    case Daily => "DAILY"
    case Smart => "SMART"
    case Monday => "MONDAY"
    case Tuesday => "TUESDAY"
    case Wednesday => "WEDNESDAY"
    case Thursday => "THURSDAY"
    case Friday => "FRIDAY"
    case Saturday => "SATURDAY"
    case Sunday => "SUNDAY"
    case Month1 => "MONTH_1"
  }

  /** The run code with a given value; None for a value outside the table. */
  function RunCodeOf(v: int): (r: Option<RunCode>)
    ensures r.Some? ==> RunValue(r.value) == v
    ensures r.None? ==> forall c :: RunValue(c) != v
  {
    match v
    case -1 => Some(RunInvalid)
    case 1 => Some(Daily)
    case 2 => Some(Smart)
    case 10 => Some(Monday)
    case 11 => Some(Tuesday)
    case 12 => Some(Wednesday)
    case 13 => Some(Thursday)
    case 14 => Some(Friday)
    case 15 => Some(Saturday)
    case 16 => Some(Sunday)
    case 20 => Some(Month1)
    case _ => None
  }

  lemma RunValuesDistinct(c: RunCode, d: RunCode)
    ensures RunCodeOf(RunValue(c)) == Some(c)
    ensures RunValue(c) == RunValue(d) ==> c == d
    ensures RunValue(RunInvalid) == -1
  {
  }

  /** Keys of the `Permissions` table. */
  datatype Permission = PermissionInvalid | Admin | Executive | Build | Service

  function PermissionValue(p: Permission): int {
    match p
    case PermissionInvalid => -1
    case Admin => 0
    case Executive => 1
    case Build => 2
    case Service => 3
  }

  lemma PermissionValuesDistinct(p: Permission, q: Permission)
    ensures PermissionValue(p) == PermissionValue(q) ==> p == q
    ensures PermissionValue(PermissionInvalid) == -1
  {
  }

  /** Keys of the `ControlCodes` table. */
  datatype ControlCode = ControlInvalid | ControlNone | CrowdStrike | Defender | Splunk | SentinelOne | Vectr

  function ControlValue(c: ControlCode): int {
    match c
    case ControlInvalid => -1
    case ControlNone => 0
    case CrowdStrike => 1
    case Defender => 2
    case Splunk => 3
    case SentinelOne => 4
    case Vectr => 5
  }

  lemma ControlValuesDistinct(c: ControlCode, d: ControlCode)
    ensures ControlValue(c) == ControlValue(d) ==> c == d
    ensures ControlValue(ControlInvalid) == -1
  {
  }
}
