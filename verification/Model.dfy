/** Entities of the controller: executions, their lifecycle, and the persisted
  * state (ctrlstate.go). */
module Model {

  type ExecId = string
  type AgentId = string

  /** A time stamp; ZERO_TIME is Go's zero time, "never". */
  type Time = int
  const ZERO_TIME: Time := 0

  datatype Option<+T> = None | Some(value: T)

  datatype Status =
    | Queued | Assigned | Running | Canceling
    | Success | Failed | Canceled | Aborted

  /** isExecutionTerminal */
  predicate Terminal(s: Status) {
    s.Success? || s.Failed? || s.Canceled? || s.Aborted?
  }

  /** isExecutionActive: the execution occupies an agent slot. */
  predicate Active(s: Status) {
    s.Assigned? || s.Running? || s.Canceling?
  }

  /** Text shown to operators. The fixed messages are told apart, not spelled. */
  datatype Text =
    | Said(text: string)
    | CanceledBeforeAssignment | CanceledBeforePermit | OperatorResolved
    | LostTrack(agent: AgentId)
    | CanceledBeforeStart | Interrupted

  const NO_TEXT := Said("")

  datatype Origin = Origin(machine: string, legacyRunId: string)

  /** Where a migrated execution came from. */
  datatype ExecutionOrigin = ExecutionOrigin(key: Origin, importedAt: Time)

  /** Everything captured at enqueue and handed to the agent. */
  datatype Work = Work(jobId: string, jobName: string, script: string, timeoutText: string, workdirPath: string,
                       parameters: map<string, string>, env: map<string, string>)

  datatype Exec = Exec(
    id: ExecId, work: Work, labels: seq<string>, origin: Option<ExecutionOrigin>, requestedAt: Time,
    status: Status, agent: AgentId,
    cancelRequested: bool, permitGranted: bool, permitRevoked: bool,
    needsAttention: bool, attention: Text,
    logOffset: int, logComplete: bool, logTruncated: bool,
    exitCode: int, error: Text, failureReason: string,
    assignedAt: Time, startedAt: Time, finishedAt: Time, canceledAt: Time)

  /** One ledger row: a legacy run that has already been imported. */
  datatype ImportedOrigin = ImportedOrigin(key: Origin, execId: ExecId, importedAt: Time)

  /** The single persisted snapshot. `last` holds AgentState.LastAssignedAt. */
  datatype State = State(sequence: nat, execs: seq<Exec>, last: map<AgentId, Time>, origins: seq<ImportedOrigin>)

  /** labelsSatisfied */
  predicate LabelsSatisfied(required: seq<string>, available: seq<string>) {
    forall l | l in required :: l in available
  }

  datatype Error =
    | ExecutionNotFound | NotExecutionOwner | ExecutionDone | ExecutionActive | LogClosed
    | NotBlockedOnAttention | InvalidResultStatus | PersistFailed
    | JobNotFound | JobDisabled | InvalidParameters
    | IdInUse | ImportedConcurrently | HistoryCapTooSmall | LogCopyFailed

  /** st.find: the position of the first execution with this id, or -1. */
  function FindIndex(execs: seq<Exec>, id: ExecId): (i: int)
    ensures -1 <= i < |execs|
    ensures i >= 0 ==> execs[i].id == id
    ensures i < 0 ==> forall j :: 0 <= j < |execs| ==> execs[j].id != id
  {
    if |execs| == 0 then -1
    else if execs[0].id == id then 0
    else
      var r := FindIndex(execs[1..], id);
      if r < 0 then -1
      else r + 1
  }

  function Find(execs: seq<Exec>, id: ExecId): (r: Option<Exec>)
    ensures r.Some? ==> r.value.id == id && r.value in execs
    ensures r.None? ==> forall x :: x in execs ==> x.id != id
  {
    var i := FindIndex(execs, id);
    if i < 0 then None else Some(execs[i])
  }

  ghost predicate UniqueIds(execs: seq<Exec>) {
    forall i, j :: 0 <= i < j < |execs| ==> execs[i].id != execs[j].id
  }

  /** With unique ids, membership and lookup coincide. */
  lemma FindMember(execs: seq<Exec>, i: nat)
    requires UniqueIds(execs) && i < |execs|
    ensures FindIndex(execs, execs[i].id) == i
    ensures Find(execs, execs[i].id) == Some(execs[i])
  {
  }
}
