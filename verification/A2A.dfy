/** Tasks and events of the A2A protocol, with the reducer the SDK applies to stored tasks. */
module A2A {
  import opened Prelude

  /** A2A Protocol specification 1.0, section 4.1.3. */
  datatype TaskState =
    | Unspecified
    | Submitted
    | Working
    | Completed
    | Failed
    | Canceled
    | InputRequired
    | Rejected
    | AuthRequired

  predicate Final(s: TaskState) {
    s.Completed? || s.Failed? || s.Canceled? || s.Rejected?
  }

  predicate Interrupted(s: TaskState) {
    s.InputRequired? || s.AuthRequired?
  }

  /** The public status texts that recovery and reconciliation write, and the two the executor writes. */
  datatype Detail = NoInputSent | RecoveredTurn | ExecutionUnknown | OperatorResolved | TurnSettled | RequestCanceled

  /** `messageId` identifies the status message; `timestamp` is absent when it cannot be parsed. */
  datatype Status = Status(state: TaskState, messageId: Option<string>, detail: Detail, timestamp: Option<int>)

  datatype Artifact = Artifact(artifactId: string, parts: seq<string>)

  datatype Task = Task(id: string, contextId: string, status: Status, artifacts: seq<Artifact>)

  datatype Event =
    | ArtifactUpdate(artifact: Artifact, lastChunk: bool)
    | StatusUpdate(status: Status)

  /** An artifact replaces the one with its id, or is appended. */
  function ReplaceArtifact(artifacts: seq<Artifact>, a: Artifact): seq<Artifact> {
    if artifacts == [] then [a]
    else if artifacts[0].artifactId == a.artifactId then [a] + artifacts[1..]
    else [artifacts[0]] + ReplaceArtifact(artifacts[1..], a)
  }

  function Apply(t: Task, e: Event): Task {
    match e
    case ArtifactUpdate(a, _) => t.(artifacts := ReplaceArtifact(t.artifacts, a))
    case StatusUpdate(s) => t.(status := s)
  }

  /** Reducing never moves a task: its id and context are those of the stored task. */
  function Reduce(t: Task, events: seq<Event>): (r: Task)
    ensures r.id == t.id && r.contextId == t.contextId
    ensures events != [] && events[|events| - 1].StatusUpdate? ==> r.status == events[|events| - 1].status
  {
    if events == [] then t
    else Apply(Reduce(t, events[..|events| - 1]), events[|events| - 1])
  }
}
