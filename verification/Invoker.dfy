/**
 * The polling invoker against an arbitrary peer: one submission, then polls until the task stops.
 *
 * The peer is a script of answers; a script that ends is an abort, a timeout or a lost connection. Every
 * operation on the peer, and every `onTask` hook, may fail.
 */
module Invoker {
  import opened Prelude
  import A2A

  /** A task as the peer reports it; identifiers may be empty and the state missing. */
  datatype Reply = Reply(id: string, contextId: string, state: Option<A2A.TaskState>)

  datatype Answer = TaskAnswer(task: Reply) | MessageAnswer(taskId: string, contextId: string) | Failure

  /** One answer, and whether the hook it is passed to succeeds. */
  datatype Turn = Turn(answer: Answer, hook: bool)

  /** Empty means not pinned. */
  datatype Identity = Identity(taskId: string, contextId: string)

  datatype Outcome = Returned(task: Reply) | Responded | Failed

  predicate Stopped(state: Option<A2A.TaskState>) {
    state.Some? && (A2A.Final(state.value) || A2A.Interrupted(state.value))
  }

  /** `checkIdentity`. */
  predicate Agrees(expected: Identity, taskId: string, contextId: string, requireTask: bool) {
    && (requireTask ==> taskId != "" && contextId != "")
    && (expected.taskId != "" ==> expected.taskId == taskId)
    && (expected.contextId != "" ==> expected.contextId == contextId)
  }

  /** What an invocation does from here on: the snapshots it delivers, in order, and how it ends. */
  datatype Course = Course(delivered: seq<Reply>, outcome: Outcome)

  /** The specification, one answer at a time. Only the submission itself may be answered by a message. */
  function Follow(expected: Identity, script: seq<Turn>, first: bool): Course
    decreases |script|
  {
    if script == [] || script[0].answer.Failure? then Course([], Failed)
    else if script[0].answer.MessageAnswer? then
      var a := script[0].answer;
      Course([], if first && Agrees(expected, a.taskId, a.contextId, false) then Responded else Failed)
    else
      var t := script[0].answer.task;
      if !Agrees(expected, t.id, t.contextId, true) then Course([], Failed)
      else if !script[0].hook then Course([t], Failed)
      else if Stopped(t.state) then Course([t], Returned(t))
      else
        var rest := Follow(Identity(t.id, t.contextId), script[1..], false);
        Course([t] + rest.delivered, rest.outcome)
  }

  /**
   * Whatever the peer answers, every snapshot delivered has one identity, which is the caller's where the caller gave
   * one.
   */
  lemma {:induction false} OneIdentity(expected: Identity, script: seq<Turn>, first: bool, i: nat, n: nat)
    requires i < |Follow(expected, script, first).delivered| && n < |Follow(expected, script, first).delivered|
    ensures var d := Follow(expected, script, first).delivered;
      && d[i].id == d[n].id && d[i].contextId == d[n].contextId && d[i].id != "" && d[i].contextId != ""
      && (expected.taskId != "" ==> d[i].id == expected.taskId)
      && (expected.contextId != "" ==> d[i].contextId == expected.contextId)
    decreases |script|
  {
    var t := script[0].answer.task;
    var pinned := Identity(t.id, t.contextId);
    var rest := Follow(pinned, script[1..], false).delivered;
    if i > 0 { OneIdentity(pinned, script[1..], false, i - 1, i - 1); }
    if n > 0 { OneIdentity(pinned, script[1..], false, n - 1, n - 1); }
  }

  /** A returned task is stopped and was delivered last; nothing delivered before it was stopped. */
  lemma {:induction false} ReturnedIsLast(expected: Identity, script: seq<Turn>, first: bool)
    ensures var c := Follow(expected, script, first);
      && (c.outcome.Returned? ==>
            |c.delivered| > 0 && c.delivered[|c.delivered| - 1] == c.outcome.task && Stopped(c.outcome.task.state))
      && (c.outcome.Responded? ==> first && c.delivered == [])
      && (forall i :: 0 <= i < |c.delivered| - 1 ==> !Stopped(c.delivered[i].state))
    decreases |script|
  {
    if script != [] && script[0].answer.TaskAnswer? {
      var t := script[0].answer.task;
      ReturnedIsLast(Identity(t.id, t.contextId), script[1..], false);
    }
  }

  /**
   * An invocation returns a task exactly when the peer's agreeing answers reach a stopped one before anything fails.
   */
  lemma {:induction false} ReturnsIff(expected: Identity, script: seq<Turn>, first: bool)
    ensures Follow(expected, script, first).outcome.Returned? <==>
      exists n: nat :: n < |script| && Reaches(expected, script, n)
    decreases |script|
  {
    if script != [] && Accepted(expected, script[0]) {
      var t := script[0].answer.task;
      var pinned := Identity(t.id, t.contextId);
      if Stopped(t.state) {
        assert Reaches(expected, script, 0);
      } else {
        ReturnsIff(pinned, script[1..], false);
        if n: nat :| n < |script[1..]| && Reaches(pinned, script[1..], n) { ReachesLater(expected, script, n); }
        if n: nat :| n < |script| && Reaches(expected, script, n) { ReachesRest(expected, script, n); }
      }
    }
  }

  predicate Accepted(expected: Identity, turn: Turn) {
    turn.answer.TaskAnswer? && turn.hook && Agrees(expected, turn.answer.task.id, turn.answer.task.contextId, true)
  }

  /** Answer n is the first stopped one, and all up to it are accepted under one identity. */
  predicate Reaches(expected: Identity, script: seq<Turn>, n: nat)
    requires n < |script|
  {
    && (forall i :: 0 <= i <= n ==> Accepted(expected, script[i]))
    && (forall i :: 0 <= i <= n ==> script[i].answer.task.id == script[0].answer.task.id
                                    && script[i].answer.task.contextId == script[0].answer.task.contextId)
    && (forall i :: 0 <= i < n ==> !Stopped(script[i].answer.task.state))
    && Stopped(script[n].answer.task.state)
  }

  lemma ReachesLater(expected: Identity, script: seq<Turn>, n: nat)
    requires script != [] && Accepted(expected, script[0]) && n < |script[1..]|
    requires var t := script[0].answer.task; Reaches(Identity(t.id, t.contextId), script[1..], n) && !Stopped(t.state)
    ensures Reaches(expected, script, n + 1)
  {
    var t := script[0].answer.task;
    forall i | 0 <= i <= n + 1
      ensures Accepted(expected, script[i]) && script[i].answer.task.id == t.id
        && script[i].answer.task.contextId == t.contextId
      ensures i < n + 1 ==> !Stopped(script[i].answer.task.state)
    {
      if i > 0 { assert script[i] == script[1..][i - 1]; }
    }
  }

  lemma ReachesRest(expected: Identity, script: seq<Turn>, n: nat)
    requires 0 < n < |script| && Reaches(expected, script, n)
    ensures var t := script[0].answer.task; Reaches(Identity(t.id, t.contextId), script[1..], n - 1)
  {
    forall i | 0 <= i <= n - 1 ensures script[1..][i] == script[i + 1] {}
  }

  // ----- the invoker as it runs -----

  class Execution {
    var identity: Identity
    var acceptedId: string          // empty until a task is accepted
    var submissions: nat
    var delivered: seq<Reply>
    var cancels: seq<string>
    var cancellation: Option<Reply>

    constructor (taskId: string, contextId: string)
      ensures identity == Identity(taskId, contextId) && acceptedId == "" && submissions == 0
      ensures delivered == [] && cancels == [] && cancellation == None
    {
      identity := Identity(taskId, contextId);
      acceptedId, submissions, delivered, cancels, cancellation := "", 0, [], [], None;
    }

    /** Pins the identity before anything else, then runs the hook. */
    method Accept(task: Reply, hook: bool) returns (ok: bool)
      modifies `identity, `acceptedId, `delivered
      ensures ok == (Agrees(old(identity), task.id, task.contextId, true) && hook)
      ensures if Agrees(old(identity), task.id, task.contextId, true)
              then identity == Identity(task.id, task.contextId) && acceptedId == task.id
                && delivered == old(delivered) + [task]
              else identity == old(identity) && acceptedId == old(acceptedId) && delivered == old(delivered)
      ensures Agrees(old(identity), task.id, task.contextId, true) ==> acceptedId != ""
    {
      if !Agrees(identity, task.id, task.contextId, true) { return false; }
      identity := Identity(task.id, task.contextId);
      acceptedId := task.id;
      delivered := delivered + [task];
      ok := hook;
    }

    /** Only accepted work is cancelled, and only an agreeing readback is kept. */
    method CancelAccepted(readback: Option<Reply>)
      modifies `cancels, `cancellation
      ensures cancels == old(cancels) + if acceptedId == "" then [] else [acceptedId]
      ensures cancellation == if acceptedId != "" && readback.Some?
        && Agrees(identity, readback.value.id, readback.value.contextId, true)
                              then readback else old(cancellation)
    {
      if acceptedId == "" { return; }
      cancels := cancels + [acceptedId];
      if readback.Some? && Agrees(identity, readback.value.id, readback.value.contextId, true) {
        cancellation := readback;
      }
    }

    /** The answers one by one: to the submission, then to each poll. */
    method Poll(script: seq<Turn>) returns (outcome: Outcome)
      requires acceptedId == "" && delivered == []
      modifies `identity, `acceptedId, `delivered
      ensures Follow(old(identity), script, true) == Course(delivered, outcome)
      ensures acceptedId == if delivered == [] then "" else delivered[|delivered| - 1].id
      ensures delivered != [] ==> acceptedId != ""
    {
      hide Follow, FollowsFrom, Agrees, Stopped;
      ghost var start := identity;
      FollowsAll(start, script);
      for i := 0 to |script|
        invariant FollowsFrom(start, script, delivered, identity, i)
        invariant acceptedId == if delivered == [] then "" else delivered[|delivered| - 1].id
        invariant |delivered| == i && (delivered != [] ==> acceptedId != "")
      {
        FollowsOn(start, script, delivered, identity, i);
        var turn := script[i];
        match turn.answer {
          case Failure =>
            return Failed;
          case MessageAnswer(taskId, contextId) =>
            if i == 0 && Agrees(identity, taskId, contextId, false) { return Responded; }
            return Failed;
          case TaskAnswer(task) =>
            var ok := Accept(task, turn.hook);
            if !ok { return Failed; }
            if Stopped(task.state) { return Returned(task); }
        }
      }
      FollowsOut(start, script, delivered, identity);
      return Failed;
    }

    /**
     * One submission; then polls until a stopped task. The submission is counted before it is made, and is
     * made only with a client in hand. A failure after acceptance asks the peer to cancel the accepted task.
     */
    method Invoke(connected: bool, script: seq<Turn>, readback: Option<Reply>) returns (outcome: Outcome)
      requires acceptedId == "" && submissions == 0 && delivered == [] && cancels == []
      modifies this
      ensures var course := if connected then Follow(old(identity), script, true) else Course([], Failed);
        && outcome == course.outcome && delivered == course.delivered
        && submissions == (if connected then 1 else 0)
        && cancels == (if outcome.Failed? && delivered != [] then [delivered[0].id] else [])
    {
      if !connected { return Failed; }
      submissions := submissions + 1;
      outcome := Poll(script);
      if outcome.Failed? {
        if delivered != [] { OneIdentity(old(identity), script, true, 0, |delivered| - 1); }
        CancelAccepted(readback);
      }
    }
  }

  /** What has been delivered so far, and what the rest of the script adds. */
  ghost predicate FollowsFrom(start: Identity, script: seq<Turn>, delivered: seq<Reply>, identity: Identity, i: nat) {
    && i <= |script|
    && var rest := Follow(identity, script[i..], i == 0);
      Follow(start, script, true) == Course(delivered + rest.delivered, rest.outcome)
  }

  lemma FollowsAll(start: Identity, script: seq<Turn>)
    ensures FollowsFrom(start, script, [], start, 0)
  {
    assert script[0..] == script;
    var whole := Follow(start, script, true);
    assert [] + whole.delivered == whole.delivered;
  }

  lemma FollowsOut(start: Identity, script: seq<Turn>, delivered: seq<Reply>, identity: Identity)
    requires FollowsFrom(start, script, delivered, identity, |script|)
    ensures Follow(start, script, true) == Course(delivered, Failed)
  {
    assert delivered + [] == delivered;
  }

  lemma FollowsOn(start: Identity, script: seq<Turn>, delivered: seq<Reply>, identity: Identity, i: nat)
    requires i < |script| && FollowsFrom(start, script, delivered, identity, i)
    ensures var turn, whole := script[i], Follow(start, script, true);
      match turn.answer
      case Failure => whole == Course(delivered, Failed)
      case MessageAnswer(taskId, contextId) =>
        whole == Course(delivered, if i == 0 && Agrees(identity, taskId, contextId, false) then Responded else Failed)
      case TaskAnswer(t) =>
        if !Agrees(identity, t.id, t.contextId, true) then whole == Course(delivered, Failed)
        else if !turn.hook then whole == Course(delivered + [t], Failed)
        else if Stopped(t.state) then whole == Course(delivered + [t], Returned(t))
        else FollowsFrom(start, script, delivered + [t], Identity(t.id, t.contextId), i + 1)
  {
    assert script[i..][1..] == script[i + 1..] && script[i..][0] == script[i];
    assert delivered + [] == delivered;
    if script[i].answer.TaskAnswer? {
      var t := script[i].answer.task;
      var rest := Follow(Identity(t.id, t.contextId), script[i + 1..], false);
      assert delivered + ([t] + rest.delivered) == delivered + [t] + rest.delivered;
    }
  }
}
