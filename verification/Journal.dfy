/**
 * The durable state of a binding and its atomic transactions.
 *
 * Every function here is one stretch of code between two awaits of the durable binding: it sees one
 * state of the store and either commits one transaction or throws and commits nothing. `SqliteStore`
 * and `DurableBinding` carry out the same transactions in place; `Bridge` interleaves them.
 */
module Journal {
  import opened Prelude
  import opened A2A

  /** The JSON arrays the source builds as keys are injective in their parts, so they are records here. */
  datatype RecordKey = RecordKey(owner: string, tenant: string, messageId: string)
  datatype ContextKey = ContextKey(owner: string, tenant: string, contextId: string)
  datatype TaskKey = TaskKey(tenant: string, owner: string, id: string)

  datatype Phase = Accepted | Dispatching | Preparing | Intent | Stopped | Publishing | Done | Unresolved

  datatype Correlation = Correlation(agentId: string, conversationId: string, otid: string)

  /** `stopped` is true only for a stored `true`: an absent flag and `false` are tested alike. */
  datatype Record = Record(
    id: RecordKey,
    taskId: string,
    contextId: string,
    contextKey: ContextKey,
    artifactId: string,
    phase: Phase,
    createdAt: int,
    updatedAt: int,
    correlation: Option<Correlation>,
    sendReturned: bool,
    cancelRequested: bool,
    stopped: bool,
    publicChunks: seq<string>,
    runIds: seq<string>,
    resultText: Option<string>,
    publication: bool,
    evidence: Option<string>)

  datatype Journal = Journal(
    tasks: map<TaskKey, Task>,
    executions: map<RecordKey, Record>,
    publications: map<RecordKey, Task>,
    messages: map<RecordKey, int>,
    mappings: map<ContextKey, string>,
    agentId: Option<string>,
    domain: Option<string>,          // `sharingDomain`
    version: Option<int>)

  const EMPTY := Journal(map[], map[], map[], map[], map[], None, None, None)

  /** What `assertSize` is asked about; which sizes are refused is left open. */
  datatype Sized =
    | RecordSize(record: Record)
    | InitialTaskSize(task: Task)
    | SnapshotSize(snapshot: Task)
    | MappingSize(context: ContextKey, conversation: string)
    | KeySize(key: RecordKey)

  datatype Limits = Limits(maxTasks: nat, maxEntries: nat, fits: Sized -> bool)

  /** What a write takes from the outside: the clock and a fresh status message id. */
  datatype Stamp = Stamp(now: int, messageId: string)

  /** A runner turn: the owner-scoped context, the message and the host task id. */
  datatype Turn = Turn(context: ContextKey, messageId: string, taskId: string)

  datatype SdkMessage =
    | Assistant(content: string)
    | LoopStatus(activeRunIds: seq<string>)
    | ResultMessage(success: bool, settled: bool, runIds: seq<string>, result: string)
    | OtherMessage

  function TaskKeyOf(r: Record): TaskKey {
    TaskKey(r.id.tenant, r.id.owner, r.taskId)
  }

  function KeyOf(t: Turn): RecordKey {
    RecordKey(t.context.owner, t.context.tenant, t.messageId)
  }

  /** A stored name other than this one; an empty name counts as none. */
  predicate Other(stored: Option<string>, name: string) {
    stored.Some? && stored.value != "" && stored.value != name
  }

  /** The journal belongs to one agent. */
  function BindAgent(j: Journal, agentId: string): Result<Journal> {
    if agentId == "" || Other(j.agentId, agentId) then Err else Ok(j.(agentId := Some(agentId)))
  }

  /** The journal is always shared in the same domain. */
  function BindDomain(j: Journal, domain: string): Result<Journal> {
    if Other(j.domain, domain) then Err else Ok(j.(domain := Some(domain)))
  }

  /** No attempt of this context waits for reconciliation. */
  ghost predicate Available(j: Journal, c: ContextKey) {
    forall k :: k in j.executions ==> j.executions[k].contextKey != c || j.executions[k].phase != Unresolved
  }

  function Put(lim: Limits, j: Journal, r: Record, now: int): Result<Journal> {
    var stored := r.(updatedAt := now);
    if lim.fits(RecordSize(stored)) then Ok(j.(executions := j.executions[r.id := stored])) else Err
  }

  /** The record of a turn: same context and message, and the same task if the request names one. */
  predicate HasTurn(j: Journal, t: Turn) {
    var k := KeyOf(t);
    && k in j.executions
    && j.executions[k].contextKey == t.context
    && (t.taskId == "" || j.executions[k].taskId == t.taskId)
  }

  function UpdateTurn(lim: Limits, j: Journal, t: Turn, now: int, update: Record -> Record): Result<Journal> {
    if HasTurn(j, t) then Put(lim, j, update(j.executions[KeyOf(t)]), now) else Err
  }

  // ----- admission -----

  function ReserveMessage(lim: Limits, j: Journal, k: RecordKey, now: int): Result<Journal> {
    if k in j.messages then Err
    else if !lim.fits(KeySize(k)) then Err
    else if |j.messages| >= lim.maxEntries then Err
    else Ok(j.(messages := j.messages[k := now]))
  }

  function NewRecord(k: RecordKey, contextId: string, taskId: string, artifactId: string, now: int): Record {
    Record(k, taskId, contextId, ContextKey(k.owner, k.tenant, contextId), artifactId, Accepted, now, now,
           None, false, false, false, [], [], None, false, None)
  }

  /** The initial task and the attempt are committed together. */
  function Accept(lim: Limits, j: Journal, k: RecordKey, task: Task, artifactId: string, now: int): Result<Journal> {
    var tk := TaskKey(k.tenant, k.owner, task.id);
    if !lim.fits(InitialTaskSize(task)) then Err
    else if tk !in j.tasks && |j.tasks| >= lim.maxTasks then Err
    else if k in j.executions then Err
    else Put(lim, j.(tasks := j.tasks[tk := task]), NewRecord(k, task.contextId, task.id, artifactId, now), now)
  }

  ghost function Dispatched(lim: Limits, j: Journal, k: RecordKey, taskId: string, now: int): Result<Journal> {
    if k !in j.executions || j.executions[k].taskId != taskId then Err
    else if !Available(j, j.executions[k].contextKey) then Err
    else Put(lim, j, j.executions[k].(phase := Dispatching), now)
  }

  // ----- turn hooks -----

  ghost function BeforeTurn(lim: Limits, j: Journal, t: Turn, now: int): Result<Journal> {
    if !Available(j, t.context) then Err
    else UpdateTurn(lim, j, t, now, (r: Record) => r.(phase := Preparing))
  }

  /** A context keeps its first conversation, and no two contexts share one. */
  ghost function SetMapping(lim: Limits, j: Journal, c: ContextKey, conversation: string): Result<Journal> {
    if !lim.fits(MappingSize(c, conversation)) then Err
    else if c !in j.mappings && |j.mappings| >= lim.maxEntries then Err
    else if c in j.mappings && j.mappings[c] != conversation then Err
    else if exists other :: other in j.mappings && other != c && j.mappings[other] == conversation then Err
    else Ok(j.(mappings := j.mappings[c := conversation]))
  }

  /** The first half of `beforeSend`: the guards and the conversation mapping. */
  ghost function BeforeSend(lim: Limits, j: Journal, t: Turn, c: Correlation): Result<Journal> {
    if !Available(j, t.context) then Err
    else if Other(j.agentId, c.agentId) then Err
    else SetMapping(lim, j, t.context, c.conversationId)
  }

  /** The second half of `beforeSend`, after an await: correlation and intent in one transaction. */
  function CommitIntent(lim: Limits, j: Journal, t: Turn, c: Correlation, now: int): Result<Journal> {
    UpdateTurn(lim, j.(agentId := Some(c.agentId)), t, now,
               (r: Record) => r.(correlation := Some(c), phase := Intent))
  }

  function SendReturned(lim: Limits, j: Journal, t: Turn, now: int): Result<Journal> {
    UpdateTurn(lim, j, t, now, (r: Record) => r.(sendReturned := true))
  }

  function AddRuns(known: seq<string>, more: seq<string>): seq<string>
    decreases |more|
  {
    if more == [] then known
    else AddRuns(if more[0] in known then known else known + [more[0]], more[1..])
  }

  function Fold(r: Record, m: SdkMessage): Record {
    match m
    case Assistant(text) => r.(publicChunks := r.publicChunks + [text])
    case LoopStatus(ids) => r.(runIds := AddRuns(r.runIds, ids))
    case ResultMessage(success, _, ids, text) =>
      var observed := r.(runIds := AddRuns(r.runIds, ids));
      if success then observed.(resultText := Some(text)) else observed
    case OtherMessage => r
  }

  /** What is held across an await: a record read and changed, and the task reduced from it. */
  datatype Reading = Reading(record: Record, snapshot: Task)

  /** `observe` reads and reduces here; what it read is stored after an await. */
  function ReadObservation(j: Journal, t: Turn, m: SdkMessage, stamp: Stamp): Result<Reading> {
    if !HasTurn(j, t) then Err
    else
      var r := Fold(j.executions[KeyOf(t)], m);
      if TaskKeyOf(r) !in j.tasks then Err
      else Ok(Reading(r, Reduce(j.tasks[TaskKeyOf(r)], RecoveryEvents(r, Failed, ExecutionUnknown, None, stamp))))
  }

  function CommitObservation(lim: Limits, j: Journal, r: Record, preview: Task, now: int): Result<Journal> {
    if lim.fits(SnapshotSize(preview)) then Put(lim, j, r, now) else Err
  }

  function MarkStopped(lim: Limits, j: Journal, t: Turn, now: int): Result<Journal> {
    UpdateTurn(lim, j, t, now, (r: Record) => r.(phase := Stopped, stopped := true))
  }

  function MarkUnresolved(lim: Limits, j: Journal, t: Turn, now: int): Result<Journal> {
    UpdateTurn(lim, j, t, now, (r: Record) => r.(phase := Unresolved, stopped := false))
  }

  // ----- publication -----

  predicate KnownUnsent(r: Record) {
    r.phase.Accepted? || r.phase.Preparing?
  }

  /** `publication` reads and reduces here; the result is committed after an await. */
  function ReadPublication(j: Journal, k: RecordKey, taskId: string, events: seq<Event>, confirmed: bool)
    : Result<Reading>
  {
    if k !in j.executions || j.executions[k].taskId != taskId then Err
    else
      var r := j.executions[k];
      var marked := r.(stopped := confirmed || r.stopped || KnownUnsent(r));
      if TaskKeyOf(r) !in j.tasks then Err else Ok(Reading(marked, Reduce(j.tasks[TaskKeyOf(r)], events)))
  }

  function WithPublication(r: Record): Record {
    r.(publication := true, publicChunks := [], resultText := None)
  }

  function CommitPublication(lim: Limits, j: Journal, r: Record, snapshot: Task, now: int): Result<Journal> {
    if !lim.fits(SnapshotSize(snapshot)) then Err
    else Put(lim, j.(publications := j.publications[r.id := snapshot]), WithPublication(r.(phase := Publishing)), now)
  }

  /** The saved task is the one this record's journalled snapshot announces. */
  predicate Acknowledges(j: Journal, k: RecordKey, owner: string, tenant: string, task: Task) {
    && k in j.executions && k in j.publications
    && j.executions[k].phase.Publishing?
    && TaskKeyOf(j.executions[k]) == TaskKey(tenant, owner, task.id)
    && j.publications[k].status.messageId.Some?
    && j.publications[k].status.messageId == task.status.messageId
  }

  function Settle(r: Record, now: int): Record {
    r.(phase := if r.stopped then Done else Unresolved, updatedAt := now)
  }

  /** The SDK's save: the task and the records it acknowledges change together. */
  ghost function SaveTask(lim: Limits, j: Journal, owner: string, tenant: string, task: Task,
                          now: int): Result<Journal> {
    if !lim.fits(SnapshotSize(task)) then Err
    else if (exists k :: Acknowledges(j, k, owner, tenant, task)
                         && !lim.fits(RecordSize(Settle(j.executions[k], now)))) then Err
    else Ok(j.(tasks := j.tasks[TaskKey(tenant, owner, task.id) := task],
               executions := map k | k in j.executions ::
                 if Acknowledges(j, k, owner, tenant, task) then Settle(j.executions[k], now) else j.executions[k]))
  }

  // ----- operator and retention -----

  function RequestCancellation(lim: Limits, j: Journal, k: RecordKey, now: int): Result<Journal> {
    if k !in j.executions || j.executions[k].phase.Done? then Err
    else Put(lim, j, j.executions[k].(cancelRequested := true), now)
  }

  /** Cancellation is recorded one attempt after another, each write on its own, up to the first that throws. */
  function CancelEach(lim: Limits, j: Journal, keys: seq<RecordKey>, now: int): Journal
    decreases |keys|
  {
    if keys == [] then j
    else
      match RequestCancellation(lim, j, keys[0], now)
      case Ok(later) => CancelEach(lim, later, keys[1..], now)
      case Err => j
  }

  /** Evidence that a whole binding has stopped; `own` tells whether it names this one. */
  datatype BindingStop = BindingStop(own: bool, evidence: string)

  /** What `trim` removes. */
  predicate White(c: char) {
    var n := c as int;
    9 <= n <= 13 || n == 32 || n == 160 || n == 5760 || 8192 <= n <= 8202 || n == 8232 || n == 8233 || n == 8239
    || n == 8287 || n == 12288 || n == 65279
  }

  /** Nothing is left after `trim`. */
  predicate Blank(s: string) {
    forall i :: 0 <= i < |s| ==> White(s[i])
  }

  datatype Verdict = Verdict(
    conversationId: Option<string>,
    bindingStopped: Option<BindingStop>,
    evidence: string,
    state: TaskState,
    text: Option<string>)

  /** What is stored as evidence. */
  function EvidenceOf(v: Verdict): string {
    if v.bindingStopped.Some? then v.evidence + "\nBinding-wide stop: " + v.bindingStopped.value.evidence
      else v.evidence
  }

  /** The checks of `resolveWithVerifiedStop` that do not depend on the process. */
  function ReadResolution(j: Journal, k: RecordKey, v: Verdict, stamp: Stamp): Result<Reading> {
    if k !in j.executions || !j.executions[k].phase.Unresolved? || Blank(v.evidence) then Err
    else
      var r := j.executions[k];
      var correlated := if r.correlation.Some? then v.conversationId == Some(r.correlation.value.conversationId)
                        else v.bindingStopped.Some? && v.bindingStopped.value.own
                             && !Blank(v.bindingStopped.value.evidence);
      if !correlated || TaskKeyOf(r) !in j.tasks then Err
      else
        var attested := r.(stopped := true, evidence := Some(EvidenceOf(v)));
        Ok(Reading(attested, Reduce(j.tasks[TaskKeyOf(r)],
                                    RecoveryEvents(attested, v.state, OperatorResolved, v.text, stamp))))
  }

  function CommitResolution(lim: Limits, j: Journal, r: Record, snapshot: Task, now: int): Result<Journal> {
    var stored := WithPublication(r.(phase := Done, updatedAt := now));
    if !lim.fits(SnapshotSize(snapshot)) || !lim.fits(RecordSize(stored)) then Err
    else Ok(StoreRepair(j, stored, snapshot))
  }

  /** The task row, the attempt and its snapshot are written together. */
  function StoreRepair(j: Journal, r: Record, snapshot: Task): Journal {
    j.(tasks := j.tasks[TaskKeyOf(r) := snapshot],
       executions := j.executions[r.id := r],
       publications := j.publications[r.id := snapshot])
  }

  predicate Prunable(r: Record, before: int) {
    r.phase.Done? && r.stopped && r.updatedAt < before
  }

  /** The attempts of a stored task. */
  predicate Attempts(j: Journal, k: RecordKey, tk: TaskKey) {
    k in j.executions && TaskKeyOf(j.executions[k]) == tk
  }

  ghost predicate CanPrune(j: Journal, tk: TaskKey, before: int) {
    && tk in j.tasks && Final(j.tasks[tk].status.state)
    && (exists k :: Attempts(j, k, tk))
    && (forall k :: Attempts(j, k, tk) ==> Prunable(j.executions[k], before))
    && j.tasks[tk].status.timestamp.Some? && j.tasks[tk].status.timestamp.value < before
  }

  /** One task with all its attempts, or nothing. */
  ghost function PruneTask(j: Journal, tk: TaskKey, before: int): Journal {
    if !CanPrune(j, tk, before) then j
    else
      j.(tasks := j.tasks - {tk},
         executions := map k | k in j.executions && !Attempts(j, k, tk) :: j.executions[k],
         publications := map k | k in j.publications && !Attempts(j, k, tk) :: j.publications[k])
  }

  // ----- reopening -----

  ghost predicate ValidRecord(j: Journal, k: RecordKey)
    requires k in j.executions
  {
    var r := j.executions[k];
    && r.id == k
    && r.taskId != "" && k.messageId != "" && r.contextId != "" && r.artifactId != ""
    && r.contextKey == ContextKey(k.owner, k.tenant, r.contextId)
    && (r.phase.Done? || r.phase.Stopped? ==> r.stopped)
    && (r.publication ==>
          k in j.publications && j.publications[k].id == r.taskId && j.publications[k].contextId == r.contextId)
  }

  /** Exactly what `validate` accepts. */
  ghost predicate Validates(j: Journal) {
    && (j.version.None? ==> j.executions == map[])
    && (j.version.Some? ==> j.version.value == 1)
    && forall k :: k in j.executions ==> ValidRecord(j, k)
  }

  function RecoveryEvents(r: Record, state: TaskState, detail: Detail, text: Option<string>,
                          stamp: Stamp): (es: seq<Event>)
    ensures es != [] && es[|es| - 1] == StatusUpdate(Status(state, Some(stamp.messageId), detail, Some(stamp.now)))
  {
    var chunks :=
      if text.Some? then [text.value]
      else if r.publicChunks != [] then r.publicChunks
      else if r.resultText.Some? && r.resultText.value != "" then [r.resultText.value]
      else [];
    (if chunks == [] then [] else [ArtifactUpdate(Artifact(r.artifactId, chunks), r.stopped)])
    + [StatusUpdate(Status(state, Some(stamp.messageId), detail, Some(stamp.now)))]
  }

  /** Nothing is left to recover. */
  predicate Recovered(r: Record) {
    r.phase.Done? || (r.phase.Unresolved? && r.publication)
  }

  datatype Repair = Replay | Success | Unsent | Unknown

  /** Which outcome `recover` writes for a record that is not yet recovered. */
  function RepairOf(r: Record): Repair {
    if r.phase.Publishing? && r.publication then Replay
    else if KnownUnsent(r) then Unsent
    else if r.phase.Stopped? && r.stopped then Success
    else Unknown
  }

  /** One iteration of `recover`; throws only when the record's task is missing. No size limit applies. */
  function RecoverOne(j: Journal, k: RecordKey, stamp: Stamp): Result<Journal>
    requires k in j.executions
  {
    var r := j.executions[k];
    if Recovered(r) then Ok(j)
    else if RepairOf(r).Replay? then
      if k !in j.publications then Err
      else Ok(j.(tasks := j.tasks[TaskKeyOf(r) := j.publications[k]],
                 executions := j.executions[r.id := Settle(r, stamp.now)]))
    else if TaskKeyOf(r) !in j.tasks then Err
    else
      var repair := RepairOf(r);
      var marked := r.(stopped := repair.Unsent? || repair.Success?);
      var state := if repair.Success? then Completed else Failed;
      var detail := if repair.Success? then RecoveredTurn else if repair.Unsent? then NoInputSent else ExecutionUnknown;
      var snapshot := Reduce(j.tasks[TaskKeyOf(r)], RecoveryEvents(marked, state, detail, None, stamp));
      Ok(StoreRepair(j, WithPublication(Settle(marked, stamp.now)), snapshot))
  }
}
