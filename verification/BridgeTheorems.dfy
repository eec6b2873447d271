/** What holds over every run of the bridge, whatever crashes, restarts and interleavings it contains. */
module BridgeTheorems {
  import opened Prelude
  import opened A2A
  import opened Journal
  import opened JournalProofs
  import opened Bridge
  import opened BridgeInvariant
  import opened BridgeSteps
  import opened BridgeProcess
  import opened BridgeSaves
  import opened BridgeLife

  // ----- the fence -----

  /** Where the i-th input of a run went. */
  function SentTo(s: State, i: nat): Sent
    requires i < |s.sends| && s.sends[i] in s.sent
  {
    s.sent[s.sends[i]]
  }

  /**
   * Never two inputs of unknown fate in one context: when an input is sent, every earlier input of its
   * context has a committed stop or one verified by the operator.
   */
  lemma Fence(home: Home, s: State, i: nat, n: nat)
    requires Reachable(home, s) && i < n < |s.sends|
    ensures
      && s.sends[i] in s.sent && s.sends[n] in s.sent
      && (SentTo(s, i).context == SentTo(s, n).context ==> s.sends[i] in s.stops || s.sends[i] in s.attested)
  {
    hide Reachable;
    ReachableInv(home, s);
  }

  /** The same at the moment of the send: nothing is left for later. */
  lemma FenceAtSend(home: Home, s: State, k: RecordKey, q: RecordKey)
    requires Reachable(home, s) && At(s, k) && s.attempts[k].pc.Ready?
    requires q in s.sent && s.sent[q].context == s.attempts[k].context
    ensures q != k && (q in s.stops || q in s.attested)
  {
    hide Reachable, Inv;
    ReachableInv(home, s);
    ReadyIsClear(home, s, k);
    assert ClearToSend(s, k, s.attempts[k]);
  }

  lemma ReadyIsClear(home: Home, s: State, k: RecordKey)
    requires At(s, k) && s.attempts[k].pc.Ready? && Inv(home, s)
    ensures ClearToSend(s, k, s.attempts[k])
  {
    hide JournalOk, HistoryOk, CacheOk, LifeOk, ClosingOk, AllRecords, AllSent, AllBlocked, AllCancels, AllParked,
         AllResolving, AllReserved, ClearToSend;
    assert AttemptOk(home, s, k);
  }

  /** For each owner, tenant and message, input reaches the session at most once in a whole run. */
  lemma AtMostOnce(home: Home, s: State, i: nat, n: nat)
    requires Reachable(home, s) && i < n < |s.sends|
    ensures s.sends[i] != s.sends[n]
  {
    hide Reachable;
    ReachableInv(home, s);
  }

  /**
   * Two inputs share a conversation exactly when they share a context; the durable mapping and the cache say the same.
   */
  lemma Isolation(home: Home, s: State, p: RecordKey, q: RecordKey)
    requires Reachable(home, s) && p in s.sent && q in s.sent
    ensures
      && (s.sent[p].context == s.sent[q].context <==> s.sent[p].conversation == s.sent[q].conversation)
      && s.sent[p].context in s.j.mappings && s.j.mappings[s.sent[p].context] == s.sent[p].conversation
      && (s.sent[p].context in s.cache ==> s.cache[s.sent[p].context] == s.sent[p].conversation)
  {
    hide Reachable;
    ReachableInv(home, s);
    assert SentOk(s, p) && SentOk(s, q);
  }

  /** The history of a run is never rewritten, and the journal forgets no tombstone and no mapping. */
  lemma HistoryGrows(home: Home, s: State, t: State)
    requires Reachable(home, s) && Onward(home, s, t)
    ensures Grows(s, t)
  {
    hide Reachable, Grows, Run;
    ReachableInv(home, s);
    var actions :| Run(home, s, actions) == t;
    RunGrows(home, s, actions);
  }

  lemma {:induction false} RunGrows(home: Home, s: State, actions: seq<Action>)
    requires Inv(home, s)
    ensures Grows(s, Run(home, s, actions))
  {
    hide Inv, Exec, Moves, Grows;
    if actions == [] {
      NothingGrew(s);
    } else {
      var init, last := actions[..|actions| - 1], actions[|actions| - 1];
      var r, t := Run(home, s, init), Run(home, s, actions);
      RunGrows(home, s, init);
      RunKeeps(home, s, init);
      StepKeeps(home, r, last);
      MovesGrow(r, t, last);
      GrowsTwice(s, r, t);
    }
  }

  lemma RunSnoc(home: Home, s: State, actions: seq<Action>, a: Action)
    ensures Run(home, s, actions + [a]) == Exec(home, Run(home, s, actions), a)
  {
    hide Exec;
    assert (actions + [a])[..|actions + [a]| - 1] == actions;
  }

  lemma NothingGrew(s: State)
    ensures Grows(s, s)
  {
  }

  lemma MovesGrow(s: State, t: State, a: Action)
    requires Moves(s, t, a)
    ensures Grows(s, t)
  {
  }

  lemma GrowsTwice(s: State, t: State, u: State)
    requires Grows(s, t) && Grows(t, u)
    ensures Grows(s, u)
  {
  }

  // ----- acknowledgments -----

  /** Somebody waits for the acknowledgment of k: its attempt, or the cancellation of its parked task. */
  ghost predicate Waits(s: State, k: RecordKey) {
    || (At(s, k) && s.attempts[k].pc.Awaiting?)
    || (exists taskId :: taskId in s.cancels && s.cancels[taskId] == CancelAwaiting(k))
  }

  /** Whoever waits for an acknowledgment has registered, and the record is still being published. */
  lemma WaitersRegistered(home: Home, s: State, k: RecordKey)
    requires Reachable(home, s) && Waits(s, k)
    ensures k in s.acks && Announcing(s.j, k)
  {
    hide Reachable, Inv;
    ReachableInv(home, s);
    InvWaits(home, s, k);
  }

  lemma InvWaits(home: Home, s: State, k: RecordKey)
    requires Waits(s, k) && Inv(home, s)
    ensures k in s.acks && Announcing(s.j, k)
  {
    if At(s, k) && s.attempts[k].pc.Awaiting? {
      AttemptWaits(home, s, k);
    } else {
      var taskId :| taskId in s.cancels && s.cancels[taskId] == CancelAwaiting(k);
      assert CancelOk(home, s, taskId);
    }
  }

  lemma AttemptWaits(home: Home, s: State, k: RecordKey)
    requires At(s, k) && s.attempts[k].pc.Awaiting? && Inv(home, s)
    ensures k in s.acks && Announcing(s.j, k)
  {
    assert AttemptOk(home, s, k);
  }

  /**
   * No lost acknowledgment. In a live process an announced publication is retired only by the save of its
   * own task with the journalled message, and after any step nobody, neither an attempt nor a cancellation,
   * waits for a record that is no longer announced.
   */
  lemma NoLostAcknowledgment(home: Home, s: State, a: Action, k: RecordKey)
    requires Reachable(home, s) && s.life.Attached? && Exec(home, s, a).life.Attached? && Announcing(s.j, k)
    ensures var t := Exec(home, s, a);
      && (!Stands(s.j, t.j, k) ==>
            a.Save? && k in s.j.publications && a.task.status.messageId.Some?
            && a.task.status.messageId == s.j.publications[k].status.messageId
            && TaskKey(a.tenant, a.owner, a.task.id) == TaskKeyOf(s.j.executions[k])
            && k in t.j.executions && (t.j.executions[k].phase.Done? || t.j.executions[k].phase.Unresolved?))
      && (Waits(t, k) ==> Announcing(t.j, k))
  {
    var t := Exec(home, s, a);
    hide Reachable, Exec, Inv, Waits;
    ReachableInv(home, s);
    StepKeeps(home, s, a);
    if Waits(t, k) { InvWaits(home, t, k); }
    if !Stands(s.j, t.j, k) { RetiredBySave(s, t, a, k); }
  }

  lemma RetiredBySave(s: State, t: State, a: Action, k: RecordKey)
    requires Moves(s, t, a) && s.life.Attached? && t.life.Attached? && Announcing(s.j, k) && !Stands(s.j, t.j, k)
    ensures a.Save? && Acknowledges(s.j, k, a.owner, a.tenant, a.task)
    ensures k in t.j.executions && (t.j.executions[k].phase.Done? || t.j.executions[k].phase.Unresolved?)
  {
    assert SameSnapshot(s.j, s.j, k);
  }
}
