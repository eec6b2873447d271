/** What recovery may say of an attempt, what a recorded stop means, and what a complete close means. */
module BridgeTruth {
  import opened Prelude
  import opened A2A
  import opened Journal
  import opened JournalProofs
  import opened Bridge
  import opened BridgeInvariant
  import opened BridgeSteps
  import opened BridgeSaves
  import opened BridgeLife
  import opened BridgeTheorems
  import opened BridgeReopen
  import opened BridgeOutcomes

  // ----- recovery tells the truth -----

  /**
   * What the row of attempt k says after its repair, and what the record says with it. A journalled
   * publication is replayed as it is; whatever the row, it does not claim more than the history knows, and
   * an input of unknown fate stays unresolved.
   */
  ghost predicate Truthful(s: State, k: RecordKey, row: Task, repaired: Record)
    requires k in s.j.executions
  {
    var r := s.j.executions[k];
    && Honest(s, k, row)
    && (k in s.sent && !Safe(s, k) ==> repaired.phase.Unresolved?)
    && if RepairOf(r).Replay? then
         k in s.j.publications && row == s.j.publications[k]
           && repaired.phase == (if r.stopped then Done else Unresolved)
       else
         && (row.status.state.Completed? || row.status.state.Failed?)
         && (row.status.state.Completed? <==> r.phase.Stopped?)
         && (row.status.state.Completed? ==> k in s.stops && row.status.detail == RecoveredTurn && repaired.phase.Done?)
         && (row.status.detail == NoInputSent ==> row.status.state.Failed? && repaired.phase.Done?)
         && (k in s.sent && !Safe(s, k) ==> row.status.detail == ExecutionUnknown)
  }

  lemma RepairTells(j: Journal, k: RecordKey, stamp: Stamp)
    requires k in j.executions && j.executions[k].id == k && !Recovered(j.executions[k]) && RecoverOne(j, k, stamp).Ok?
    requires j.executions[k].phase.Stopped? ==> j.executions[k].stopped
    ensures var r, later := j.executions[k], RecoverOne(j, k, stamp).value;
      && TaskKeyOf(r) in later.tasks && k in later.executions
      && var row := later.tasks[TaskKeyOf(r)];
        if RepairOf(r).Replay? then
          k in j.publications && row == j.publications[k]
            && later.executions[k].phase == (if r.stopped then Done else Unresolved)
        else
          && row.status.state == (if r.phase.Stopped? then Completed else Failed)
          && row.status.detail == (if r.phase.Stopped? then RecoveredTurn else if KnownUnsent(r) then NoInputSent
                                   else ExecutionUnknown)
          && later.executions[k].phase == (if r.phase.Stopped? || KnownUnsent(r) then Done else Unresolved)
  {
    hide Reduce, RecoveryEvents;
    if RepairOf(j.executions[k]).Replay? {
    } else {
    }
  }

  lemma RecordTells(home: Home, s: State, k: RecordKey)
    requires Inv(home, s) && k in s.j.executions
    ensures var r := s.j.executions[k];
      && r.id == k && (r.phase.Stopped? ==> r.stopped && k in s.stops)
      && (k in s.sent ==> !KnownUnsent(r))
      && (k in s.sent && !Safe(s, k) ==> !r.phase.Stopped? && !r.stopped)
  {
    assert RecordsOk(s, k) && RecordOk(home, s.j, s.j.executions[k]);
    if k in s.sent { assert SentOk(s, k); }
  }

  /**
   * "No input was sent" is written only for attempts that never sent; COMPLETED only where the stop was
   * committed or verified by the operator; a restart by itself never writes CANCELED; and an input of
   * unknown fate stays unresolved, also where a journalled publication is replayed.
   */
  lemma RecoveryTellsTheTruth(home: Home, s: State, k: RecordKey, stamp: Stamp)
    requires Reachable(home, s) && s.life.Recovering? && k in s.life.todo
    requires k in s.j.executions && !Recovered(s.j.executions[k])
    ensures var t := Exec(home, s, Recover(k, stamp));
      && TaskKeyOf(s.j.executions[k]) in t.j.tasks && k in t.j.executions
      && Truthful(s, k, t.j.tasks[TaskKeyOf(s.j.executions[k])], t.j.executions[k])
  {
    hide Reachable, Exec, Inv, RecoverOne, RepairOf, Recovered;
    ReachableInv(home, s);
    RecordTells(home, s, k);
    RecoveryNeverFails(home, s, k, stamp);
    RepairTells(s.j, k, stamp);
    if k in s.j.publications { JournalIsHonest(home, s, k); }
  }

  /** In a live process too, COMPLETED and an interruption are reduced only after the stop was committed. */
  lemma CompletionIsCommitted(home: Home, s: State, k: RecordKey)
    requires Reachable(home, s) && At(s, k) && s.attempts[k].pc.Reducing?
    requires var state := s.attempts[k].pc.snapshot.status.state; state.Completed? || Interrupted(state)
    ensures k in s.stops
  {
    hide Reachable;
    ReachableInv(home, s);
    assert AttemptOk(home, s, k);
  }

  // ----- a complete close -----

  /** What a complete close leaves: nothing runs, no token is out, every attempt is done. */
  ghost predicate Quiescent(s: State) {
    && s.life.Attached? && s.closed && s.attempts == map[] && s.cancels == map[] && s.pending == {} && s.failures == {}
    && forall k :: k in s.j.executions ==> s.j.executions[k].phase.Done?
  }

  lemma BeforeSendRests(s: State, a: Action)
    requires BeforeSendAction(a) && s.attempts == map[]
    ensures ExecBeforeSend(s, a) == s
  {
    forall k ensures !At(s, k) {}
    hide At, Move;
  }

  lemma TurnRests(s: State, a: Action)
    requires TurnAction(a) && s.attempts == map[]
    ensures ExecTurn(s, a) == s
  {
    forall k ensures !At(s, k) {}
    hide At, Move;
  }

  lemma EndingRests(s: State, a: Action)
    requires EndingAction(a) && s.attempts == map[]
    ensures ExecEnding(s, a) == s
  {
    forall k ensures !At(s, k) {}
    hide At, Move;
  }

  lemma HandlerRests(home: Home, s: State, a: Action)
    requires HandlerAction(a) && Quiescent(s)
    ensures ExecHandler(home, s, a) == s
  {
    hide ReserveMessage, Active;
  }

  lemma TaskRests(home: Home, s: State, a: Action)
    requires TaskAction(a) && !a.Save? && Quiescent(s)
    ensures ExecTask(home, s, a) == s
  {
    hide CommitPublication, Cancelling, Unpark;
  }

  /** Without an announced record a save rewrites one task row and nothing else. */
  lemma SaveRests(home: Home, s: State, owner: string, tenant: string, task: Task, now: int)
    requires Quiescent(s)
    ensures var t := DoSave(home, s, owner, tenant, task, now);
      t.j == s.j.(tasks := t.j.tasks) && t.attempts == map[] && t.cancels == map[]
  {
    var t := DoSave(home, s, owner, tenant, task, now);
    SaveShape(home, s, owner, tenant, task, now);
    hide DoSave;
    if t != s {
      SaveTaskShape(s.lim, s.j, owner, tenant, task, now);
      assert t.j.executions == s.j.executions;
    }
  }

  /** Neither retention nor the operator's own commit nor a new process. */
  predicate Ordinary(a: Action) {
    !a.Prune? && !a.ResolveStep? && !a.Open?
  }

  /** The state after a complete close, and after the release that follows it. */
  ghost predicate AtRest(s: State) {
    s.life.Dead? || Quiescent(s)
  }

  lemma LifeRests(s: State, a: Action)
    requires LifeAction(a) && Ordinary(a) && AtRest(s)
    ensures AtRest(ExecLife(s, a)) && ExecLife(s, a).j == s.j
  {
  }

  lemma ClosingRests(s: State, a: Action)
    requires ClosingAction(a) && Ordinary(a) && AtRest(s)
    ensures AtRest(ExecClosing(s, a)) && ExecClosing(s, a).j == s.j
  {
    hide ReadResolution, Unsettled;
  }

  lemma SavesRest(home: Home, s: State, a: Action)
    requires a.Save? && Quiescent(s)
    ensures AtRest(ExecTask(home, s, a)) && ExecTask(home, s, a).j == s.j.(tasks := ExecTask(home, s, a).j.tasks)
  {
    SaveRests(home, s, a.owner, a.tenant, a.task, a.now);
    hide SaveTask, Acknowledges, Wake;
  }

  lemma DeadRests(home: Home, s: State, a: Action)
    requires s.life.Dead? && Ordinary(a) && !LifeAction(a) && !ClosingAction(a)
    ensures Exec(home, s, a) == s
  {
    hide ExecBeforeSend, ExecTurn, ExecEnding, ExecHandler, ExecTask;
    if BeforeSendAction(a) {
      DeadBeforeSend(s, a);
    } else if TurnAction(a) {
      DeadTurn(s, a);
    } else if EndingAction(a) {
      DeadEnding(s, a);
    } else if HandlerAction(a) {
      DeadHandler(home, s, a);
    } else {
      DeadTask(home, s, a);
    }
  }

  lemma DeadBeforeSend(s: State, a: Action)
    requires s.life.Dead? && BeforeSendAction(a)
    ensures ExecBeforeSend(s, a) == s
  {
    forall k ensures !At(s, k) {}
    hide At, Move;
  }

  lemma DeadTurn(s: State, a: Action)
    requires s.life.Dead? && TurnAction(a)
    ensures ExecTurn(s, a) == s
  {
    forall k ensures !At(s, k) {}
    hide At, Move;
  }

  lemma DeadEnding(s: State, a: Action)
    requires s.life.Dead? && EndingAction(a)
    ensures ExecEnding(s, a) == s
  {
    forall k ensures !At(s, k) {}
    hide At, Move;
  }

  lemma DeadHandler(home: Home, s: State, a: Action)
    requires s.life.Dead? && HandlerAction(a)
    ensures ExecHandler(home, s, a) == s
  {
  }

  lemma DeadTask(home: Home, s: State, a: Action)
    requires s.life.Dead? && TaskAction(a)
    ensures ExecTask(home, s, a) == s
  {
  }

  /** An action of an attempt, of the handler or of a cancellation finds nothing to do. */
  lemma LiveRests(home: Home, s: State, a: Action)
    requires Quiescent(s) && !LifeAction(a) && !ClosingAction(a) && !a.Save?
    ensures Exec(home, s, a) == s
  {
    hide ExecBeforeSend, ExecTurn, ExecEnding, ExecHandler, ExecTask, ExecLife, ExecClosing;
    assert s.attempts == map[];
    hide Quiescent;
    if BeforeSendAction(a) {
      BeforeSendRests(s, a);
    } else if TurnAction(a) {
      TurnRests(s, a);
    } else if EndingAction(a) {
      EndingRests(s, a);
    } else if HandlerAction(a) {
      HandlerRests(home, s, a);
    } else {
      TaskRests(home, s, a);
    }
  }

  lemma SaveIs(home: Home, s: State, a: Action)
    requires a.Save?
    ensures Exec(home, s, a) == ExecTask(home, s, a)
  {
    hide ExecTask;
  }

  lemma ClosingIs(home: Home, s: State, a: Action)
    requires ClosingAction(a)
    ensures Exec(home, s, a) == ExecClosing(s, a)
  {
    hide ExecBeforeSend, ExecTurn, ExecEnding, ExecHandler, ExecTask, ExecLife, ExecClosing;
  }

  lemma StepRests(home: Home, s: State, a: Action)
    requires AtRest(s) && Ordinary(a)
    ensures var t := Exec(home, s, a);
      AtRest(t) && t.j == s.j.(tasks := t.j.tasks) && (!a.Save? ==> t.j == s.j)
  {
    hide Exec, Quiescent, ExecLife, ExecClosing, ExecTask, Ordinary;
    if LifeAction(a) {
      ExecLifeIs(home, s, a);
      LifeRests(s, a);
    } else if ClosingAction(a) {
      ClosingIs(home, s, a);
      ClosingRests(s, a);
    } else if s.life.Dead? {
      DeadRests(home, s, a);
    } else if a.Save? {
      SaveIs(home, s, a);
      SavesRest(home, s, a);
    } else {
      LiveRests(home, s, a);
    }
  }

  lemma {:induction false} RunRests(home: Home, s: State, more: seq<Action>)
    requires AtRest(s) && forall a :: a in more ==> Ordinary(a)
    ensures var t := Run(home, s, more);
      AtRest(t) && t.j == s.j.(tasks := t.j.tasks) && ((forall a :: a in more ==> !a.Save?) ==> t.j == s.j)
  {
    hide Run, AtRest, Ordinary, Exec;
    if more == [] {
      RunNone(home, s);
    } else {
      var init, last := more[..|more| - 1], more[|more| - 1];
      assert more == init + [last];
      RunRests(home, s, init);
      RunSnoc(home, s, init, last);
      StepRests(home, Run(home, s, init), last);
    }
  }

  lemma VerdictQuiescent(home: Home, s: State)
    requires Inv(home, s) && s.verdict == Some(true)
    ensures Quiescent(s) && s.life.Attached? && s.j.version == Some(1)
  {
  }

  /**
   * A complete close means a quiescent journal. Whatever happens afterwards, up to and past the release of
   * the owner, no attempt, snapshot, tombstone or mapping changes; with no further save nothing changes at
   * all; and recovery of that journal writes nothing.
   */
  lemma CompleteCloseIsQuiet(home: Home, s: State, more: seq<Action>, keys: seq<RecordKey>, stamps: RecordKey -> Stamp)
    requires Reachable(home, s) && s.verdict == Some(true)
    requires forall a :: a in more ==> Ordinary(a)
    requires forall k :: k in keys ==> k in s.j.executions
    ensures var t := Run(home, s, more);
      && Quiescent(s)
      && t.j == s.j.(tasks := t.j.tasks) && ((forall a :: a in more ==> !a.Save?) ==> t.j == s.j)
      && (t.life.Dead? || Quiescent(t))
      && RecoverAll(t.j, keys, stamps) == Ok(t.j)
  {
    hide Run, Reachable, Inv, Ordinary, RecoverAll;
    ReachableInv(home, s);
    VerdictQuiescent(home, s);
    RunRests(home, s, more);
    RecoverAllSkips(Run(home, s, more).j, keys, stamps);
  }

  /** The next process opens that journal and writes nothing. */
  lemma ReopenAfterClose(home: Home, s: State, lim: Limits, keys: seq<RecordKey>, stamps: RecordKey -> Stamp)
    requires Reachable(home, s) && s.verdict == Some(true)
    requires forall k :: k in keys <==> k in s.j.executions
    requires forall i, n :: 0 <= i < n < |keys| ==> keys[i] != keys[n]
    ensures var t := Reopen(home, Exec(home, s, ReleaseOwner), lim, keys, stamps);
      t.life.Detached? && t.j == s.j
  {
    var released := Exec(home, s, ReleaseOwner);
    hide Exec, Reopen, Reachable, RecoverAll, Inv, Quiescent;
    ReachableInv(home, s);
    VerdictQuiescent(home, s);
    Releases(home, s);
    StepKeeps(home, s, ReleaseOwner);
    assert AtRest(s);
    StepRests(home, s, ReleaseOwner);
    RestsDone(s);
    RecoverAllSkips(s.j, keys, stamps);
    ReopenOk(home, released, lim, keys, stamps);
    assert released.j.(version := Some(1)) == s.j;
  }

  lemma RestsDone(s: State)
    requires Quiescent(s)
    ensures forall k :: k in s.j.executions ==> Recovered(s.j.executions[k])
  {
  }

  lemma Releases(home: Home, s: State)
    requires s.verdict == Some(true) && s.life.Attached?
    ensures Exec(home, s, ReleaseOwner).life.Dead?
  {
    ExecLifeIs(home, s, ReleaseOwner);
    hide Exec;
  }
}
