/** The SDK's saves and the cancellation of interrupted tasks. */
module BridgeSaves {
  import opened Prelude
  import opened A2A
  import opened Journal
  import opened JournalProofs
  import opened Bridge
  import opened BridgeInvariant
  import opened BridgeSteps
  import opened BridgeProcess

  /** The records a save acknowledges, `own`, settle; who waits for one of them is woken. */
  ghost predicate Saved(s: State, t: State, own: set<RecordKey>, now: int) {
    && t == s.(j := t.j, acks := s.acks - own, attempts := t.attempts, cancels := t.cancels)
    && t.j.messages == s.j.messages && t.j.mappings == s.j.mappings && t.j.version == s.j.version
    && t.j.publications == s.j.publications
    && t.j.executions.Keys == s.j.executions.Keys
    && (forall q :: q in own ==> q in s.j.executions && s.j.executions[q].phase.Publishing?)
    && (forall q :: q in s.j.executions ==>
          t.j.executions[q] == if q in own then Settle(s.j.executions[q], now) else s.j.executions[q])
    && t.attempts.Keys == s.attempts.Keys
    && (forall q :: q in s.attempts ==>
          t.attempts[q] == if q in own && q in s.acks then Wake(s.attempts[q]) else s.attempts[q])
    && (forall u :: u in t.cancels ==> u in s.cancels && t.cancels[u] == s.cancels[u])
    && (forall u :: u in s.cancels && u !in t.cancels ==>
          s.cancels[u].CancelAwaiting? && s.cancels[u].key in own && s.cancels[u].key in s.acks)
    && (forall u :: u in t.cancels && t.cancels[u].CancelAwaiting? ==>
        t.cancels[u].key !in own || t.cancels[u].key !in s.acks)
  }

  ghost function Acknowledged(s: State, owner: string, tenant: string, task: Task): set<RecordKey> {
    set k | k in s.j.executions && Acknowledges(s.j, k, owner, tenant, task)
  }

  lemma SaveShape(home: Home, s: State, owner: string, tenant: string, task: Task, now: int)
    ensures var t := DoSave(home, s, owner, tenant, task, now);
      t == s || (Live(s) && home(TaskKey(tenant, owner, task.id)) == task.contextId
                 && SaveTask(s.lim, s.j, owner, tenant, task, now).Ok?
                    && t.j == SaveTask(s.lim, s.j, owner, tenant, task, now).value
                 && Saved(s, t, Acknowledged(s, owner, tenant, task), now))
  {
    var t := DoSave(home, s, owner, tenant, task, now);
    if t != s {
      var own := Acknowledged(s, owner, tenant, task);
      PublishingOnly(s.j, owner, tenant, task);
      SaveTaskShape(s.lim, s.j, owner, tenant, task, now);
      hide SaveTask, Acknowledges, Settle, Wake;
      var woken := set k | k in s.acks && Acknowledges(s.j, k, owner, tenant, task);
      assert woken == s.acks * own && s.acks - woken == s.acks - own;
      hide Saved;
      WokenSaved(s, t, own, woken, now);
    }
  }

  /** The fields a save sets, put together. */
  lemma WokenSaved(s: State, t: State, own: set<RecordKey>, woken: set<RecordKey>, now: int)
    requires woken == s.acks * own
    requires t == s.(j := t.j, acks := s.acks - own, attempts := t.attempts, cancels := t.cancels)
    requires t.j == s.j.(tasks := t.j.tasks, executions := t.j.executions) && t.j.executions.Keys == s.j.executions.Keys
    requires forall q :: q in own ==> q in s.j.executions && s.j.executions[q].phase.Publishing?
    requires forall q :: q in s.j.executions ==>
      t.j.executions[q] == if q in own then Settle(s.j.executions[q], now) else s.j.executions[q]
    requires t.attempts == map k | k in s.attempts :: if k in woken then Wake(s.attempts[k]) else s.attempts[k]
    requires t.cancels == map u | u in s.cancels
      && !(s.cancels[u].CancelAwaiting? && s.cancels[u].key in woken) :: s.cancels[u]
    ensures Saved(s, t, own, now)
  {
    hide Wake, Settle;
  }

  lemma SaveTaskShape(lim: Limits, j: Journal, owner: string, tenant: string, task: Task, now: int)
    requires SaveTask(lim, j, owner, tenant, task, now).Ok?
    ensures var later := SaveTask(lim, j, owner, tenant, task, now).value;
      && later == j.(tasks := j.tasks[TaskKey(tenant, owner, task.id) := task], executions := later.executions)
      && later.executions.Keys == j.executions.Keys
      && forall k :: k in j.executions ==>
           later.executions[k] == if Acknowledges(j, k, owner, tenant, task) then Settle(j.executions[k], now)
             else j.executions[k]
  {
  }

  lemma PublishingOnly(j: Journal, owner: string, tenant: string, task: Task)
    ensures forall k :: Acknowledges(j, k, owner, tenant, task) ==>
      k in j.executions && j.executions[k].phase.Publishing?
  {
  }

  lemma SavedAround(s: State, t: State, own: set<RecordKey>, now: int)
    requires Saved(s, t, own, now)
    ensures Around(s, t, own)
  {
  }

  /** Only an attempt whose publication is announced can be acknowledged. */
  lemma SavedPoint(home: Home, s: State, own: set<RecordKey>, q: RecordKey)
    requires q in s.attempts && q in s.j.executions && s.j.executions[q].phase.Publishing? && AttemptOk(home, s, q)
    ensures s.attempts[q].pc.Announced? || s.attempts[q].pc.Awaiting?
    ensures Published(s, q, s.attempts[q], s.attempts[q].pc.state) && (s.attempts[q].pc.Awaiting? ==> q in s.acks)
  {
  }

  lemma SavedAttempt(home: Home, s: State, t: State, own: set<RecordKey>, now: int, q: RecordKey)
    requires Saved(s, t, own, now) && q in own && q in s.attempts && AttemptOk(home, s, q)
    ensures AttemptOk(home, t, q)
  {
    hide Saved, PcOk, Published;
    SavedSame(s, t, own, now, q);
    SavedPoint(home, s, own, q);
    SavedPcOk(home, s, t, own, now, q);
  }

  lemma SavedSame(s: State, t: State, own: set<RecordKey>, now: int, q: RecordKey)
    requires Saved(s, t, own, now) && q in own && q in s.attempts
    ensures q in t.attempts && t.attempts[q].context == s.attempts[q].context
      && t.attempts[q].taskId == s.attempts[q].taskId
    ensures Holds(t.attempts[q].pc) ==> Holds(s.attempts[q].pc)
    ensures t.sent == s.sent && t.lock == s.lock && t.resolving == s.resolving && t.reserved == s.reserved
    ensures t.j.messages == s.j.messages && q in s.j.executions && s.j.executions[q].phase.Publishing?
  {
  }

  lemma SavedPcOk(home: Home, s: State, t: State, own: set<RecordKey>, now: int, q: RecordKey)
    requires Saved(s, t, own, now) && q in own && q in s.attempts
    requires s.attempts[q].pc.Announced? || s.attempts[q].pc.Awaiting?
    requires Published(s, q, s.attempts[q], s.attempts[q].pc.state) && (s.attempts[q].pc.Awaiting? ==> q in s.acks)
    ensures PcOk(home, t, q, t.attempts[q])
  {
    var state := s.attempts[q].pc.state;
    SavedPublished(s, t, own, now, q, state);
    assert t.attempts[q].pc == Announced(state) || t.attempts[q].pc == Pc.Acknowledged(state);
    hide Saved, Published;
    SettledPc(home, t, q, t.attempts[q], state);
  }

  lemma SavedPublished(s: State, t: State, own: set<RecordKey>, now: int, q: RecordKey, state: TaskState)
    requires Saved(s, t, own, now) && q in own && q in s.attempts
    requires Published(s, q, s.attempts[q], state)
    ensures Published(t, q, t.attempts[q], state)
    ensures q in t.j.executions && (t.j.executions[q].phase.Done? || t.j.executions[q].phase.Unresolved?)
  {
  }

  lemma SettledPc(home: Home, t: State, q: RecordKey, a: Attempt, state: TaskState)
    requires a.pc == Announced(state) || a.pc == Pc.Acknowledged(state)
    requires Published(t, q, a, state)
    requires q in t.j.executions && (t.j.executions[q].phase.Done? || t.j.executions[q].phase.Unresolved?)
    ensures PcOk(home, t, q, a)
  {
  }

  lemma SavedSent(s: State, t: State, own: set<RecordKey>, now: int, q: RecordKey)
    requires Saved(s, t, own, now) && q in own && q in s.sent && SentOk(s, q)
    ensures SentOk(t, q)
    ensures !Safe(s, q) && Blocked(s, q) ==> Blocked(t, q)
  {
  }

  lemma SavedKeys(home: Home, s: State, t: State, own: set<RecordKey>, now: int)
    requires Inv(home, s) && Live(s) && Saved(s, t, own, now)
    ensures forall q :: q in own ==> KeyOk(home, t, q)
  {
    hide JournalOk, LifeOk, ClosingOk, AllRecords, AllCancels, AllParked, AllResolving, AllReserved, HistoryOk, CacheOk,
         AttemptOk, SentOk, Blocked;
    forall q | q in own ensures KeyOk(home, t, q) {
      if q in s.attempts { SavedAttempt(home, s, t, own, now, q); }
      if q in s.sent { SavedSent(s, t, own, now, q); }
    }
  }

  lemma SavedRecords(home: Home, s: State, t: State, own: set<RecordKey>, now: int)
    requires Inv(home, s) && Live(s) && Saved(s, t, own, now)
    ensures AllRecords(t) && LifeOk(t) && ClosingOk(t)
  {
    hide JournalOk, AllCancels, AllParked, AllResolving, AllReserved, HistoryOk, CacheOk, AllAttempts, AllSent,
         AllBlocked;
    forall q | q in t.j.executions ensures RecordsOk(t, q) {
      assert RecordsOk(s, q);
    }
  }

  lemma SavedJobs(home: Home, s: State, t: State, own: set<RecordKey>, now: int)
    requires Inv(home, s) && Live(s) && Saved(s, t, own, now)
    ensures JobsOk(home, t)
  {
    AllKnown(home, s);
    hide JournalOk, LifeOk, ClosingOk, AllRecords, HistoryOk, CacheOk, AllAttempts, AllSent, AllBlocked,
         AllCancels, AllParked, AllResolving;
    SavedCancels(home, s, t, own, now);
    SavedParked(s, t, own, now);
    SavedResolving(home, s, t, own, now);
    SavedReserved(s, t, own, now);
    hide Known, Saved, AllReserved;
  }

  lemma SavedReserved(s: State, t: State, own: set<RecordKey>, now: int)
    requires Saved(s, t, own, now) && AllReserved(s) && Known(s)
    ensures AllReserved(t) && Apart(t)
  {
  }

  lemma SavedCancels(home: Home, s: State, t: State, own: set<RecordKey>, now: int)
    requires Saved(s, t, own, now) && AllCancels(home, s)
    ensures AllCancels(home, t)
  {
    hide Saved, CancelOk;
    forall u | u in t.cancels ensures CancelOk(home, t, u) { SavedCancel(home, s, t, own, now, u); }
  }

  lemma SavedCancel(home: Home, s: State, t: State, own: set<RecordKey>, now: int, u: string)
    requires Saved(s, t, own, now) && u in t.cancels && (u in s.cancels ==> CancelOk(home, s, u))
    ensures CancelOk(home, t, u)
  {
  }

  lemma SavedParked(s: State, t: State, own: set<RecordKey>, now: int)
    requires Saved(s, t, own, now) && AllParked(s)
    ensures AllParked(t)
  {
    forall u | u in t.interrupted ensures ParkedOk(t, u) { assert ParkedOk(s, u); }
  }

  lemma SavedResolving(home: Home, s: State, t: State, own: set<RecordKey>, now: int)
    requires Saved(s, t, own, now) && AllResolving(home, s)
    ensures AllResolving(home, t)
  {
    forall q | q in t.resolving ensures ResolvingOk(home, t, q) { assert ResolvingOk(home, s, q); }
  }

  /** A save retires exactly the announcements it acknowledges. */
  ghost predicate Retires(s: State, t: State, owner: string, tenant: string, task: Task) {
    && Grows(s, t)
    && (forall k :: Announcing(s.j, k) && !Acknowledges(s.j, k, owner, tenant, task) ==> Stands(s.j, t.j, k))
    && (forall k :: Acknowledges(s.j, k, owner, tenant, task) ==>
          k in t.j.executions && (t.j.executions[k].phase.Done? || t.j.executions[k].phase.Unresolved?)
          && (k in t.attempts ==> !t.attempts[k].pc.Awaiting?))
  }

  lemma SavedRetires(home: Home, s: State, t: State, own: set<RecordKey>, now: int, owner: string, tenant: string,
                     task: Task)
    requires Saved(s, t, own, now) && own == Acknowledged(s, owner, tenant, task)
    requires forall k :: k in s.attempts && s.attempts[k].pc.Awaiting? ==> k in s.acks
    ensures Retires(s, t, owner, tenant, task)
  {
    assert forall k :: Acknowledges(s.j, k, owner, tenant, task) <==> k in own;
    hide Acknowledges;
    SavedGrows(s, t, own, now);
    hide Grows;
    forall k | Announcing(s.j, k) && k !in own ensures Stands(s.j, t.j, k) { SavedStands(s, t, own, now, k); }
    forall k | k in own
      ensures k in t.j.executions && (t.j.executions[k].phase.Done? || t.j.executions[k].phase.Unresolved?)
      ensures k in t.attempts ==> !t.attempts[k].pc.Awaiting?
    {
      SavedSettles(s, t, own, now, k);
    }
    hide Saved;
  }

  lemma SavedGrows(s: State, t: State, own: set<RecordKey>, now: int)
    requires Saved(s, t, own, now)
    ensures Grows(s, t)
  {
  }

  lemma SavedStands(s: State, t: State, own: set<RecordKey>, now: int, k: RecordKey)
    requires Saved(s, t, own, now) && Announcing(s.j, k) && k !in own
    ensures Stands(s.j, t.j, k)
  {
  }

  lemma SavedSettles(s: State, t: State, own: set<RecordKey>, now: int, k: RecordKey)
    requires Saved(s, t, own, now) && k in own && (k in s.attempts && s.attempts[k].pc.Awaiting? ==> k in s.acks)
    ensures k in t.j.executions && (t.j.executions[k].phase.Done? || t.j.executions[k].phase.Unresolved?)
    ensures k in t.attempts ==> !t.attempts[k].pc.Awaiting?
  {
  }

  lemma WaitersKnown(home: Home, s: State)
    requires Inv(home, s)
    ensures forall k :: k in s.attempts && s.attempts[k].pc.Awaiting? ==> k in s.acks
  {
    forall k | k in s.attempts && s.attempts[k].pc.Awaiting? ensures k in s.acks { assert AttemptOk(home, s, k); }
  }

  /** The save that carries the journalled message settles the record and wakes its waiter in one step. */
  lemma SaveStepKeeps(home: Home, s: State, owner: string, tenant: string, task: Task, now: int)
    requires Inv(home, s)
    ensures var t := DoSave(home, s, owner, tenant, task, now);
      Inv(home, t) && Grows(s, t) && (t == s || Retires(s, t, owner, tenant, task))
  {
    var t := DoSave(home, s, owner, tenant, task, now);
    JournalOf(home, s);
    WaitersKnown(home, s);
    NothingGrows(s);
    SaveShape(home, s, owner, tenant, task, now);
    hide *;
    if t != s {
      var own := Acknowledged(s, owner, tenant, task);
      SaveSound(home, s, owner, tenant, task, now);
      SavedAround(s, t, own, now);
      SavedKeys(home, s, t, own, now);
      SavedRecords(home, s, t, own, now);
      SavedJobs(home, s, t, own, now);
      SavedRetires(home, s, t, own, now, owner, tenant, task);
      RetiresGrows(s, t, owner, tenant, task);
      Remains(home, s, t, own);
    }
  }

  lemma NothingGrows(s: State)
    ensures Grows(s, s)
  {
  }

  lemma RetiresGrows(s: State, t: State, owner: string, tenant: string, task: Task)
    requires Retires(s, t, owner, tenant, task)
    ensures Grows(s, t)
  {
  }

  lemma SaveSound(home: Home, s: State, owner: string, tenant: string, task: Task, now: int)
    requires JournalOk(home, s.j) && home(TaskKey(tenant, owner, task.id)) == task.contextId
    requires SaveTask(s.lim, s.j, owner, tenant, task, now).Ok?
    ensures JournalOk(home, SaveTask(s.lim, s.j, owner, tenant, task, now).value)
  {
    hide JournalOk, SaveTask;
    SaveKeeps(home, s.lim, s.j, owner, tenant, task, now);
  }
}
