/**
 * What every transaction of the journal keeps.
 *
 * `home` is the context each task id belongs to. It is an arbitrary function: the SDK never uses one
 * task id under two contexts.
 */
module JournalProofs {
  import opened Prelude
  import opened A2A
  import opened Journal

  type Home = TaskKey -> string

  /** A record that `validate` accepts and `recover` can repair, in the company of this journal. */
  ghost predicate RecordOk(home: Home, j: Journal, r: Record) {
    && r.id in j.messages
    && r.taskId != "" && r.id.messageId != "" && r.contextId != "" && r.artifactId != ""
    && r.contextKey == ContextKey(r.id.owner, r.id.tenant, r.contextId)
    && r.contextId == home(TaskKeyOf(r))
    && (r.phase.Done? || r.phase.Stopped? ==> r.stopped)
    && (r.phase.Publishing? ==> r.publication)
    && (!r.phase.Publishing? ==> TaskKeyOf(r) in j.tasks)
    && (r.publication ==> r.id in j.publications && TaskOk(home, TaskKeyOf(r), j.publications[r.id]))
  }

  ghost predicate TaskOk(home: Home, tk: TaskKey, t: Task) {
    t.id == tk.id && t.contextId == home(tk)
  }

  ghost predicate Injective(m: map<ContextKey, string>) {
    forall c, d :: c in m && d in m && m[c] == m[d] ==> c == d
  }

  ghost predicate JournalOk(home: Home, j: Journal) {
    && (forall k :: k in j.executions ==> j.executions[k].id == k && RecordOk(home, j, j.executions[k]))
    && (forall tk :: tk in j.tasks ==> TaskOk(home, tk, j.tasks[tk]))
    && (forall k :: k in j.publications ==> k in j.executions && j.executions[k].publication)
    && Injective(j.mappings)
    && (j.executions != map[] ==> j.version == Some(1))
    && (j.version == None || j.version == Some(1))
  }

  /** `later` forgets and changes no tombstone and no mapping. */
  ghost predicate Keeps(j: Journal, later: Journal) {
    && (forall k :: k in j.messages ==> k in later.messages && later.messages[k] == j.messages[k])
    && (forall c :: c in j.mappings ==> c in later.mappings && later.mappings[c] == j.mappings[c])
  }

  lemma EmptyOk(home: Home)
    ensures JournalOk(home, EMPTY)
  {
  }

  lemma Validated(home: Home, j: Journal)
    requires JournalOk(home, j)
    ensures Validates(j)
    ensures JournalOk(home, j.(version := Some(1)))
  {
    forall k | k in j.executions
      ensures ValidRecord(j, k)
    {
      assert RecordOk(home, j, j.executions[k]);
    }
    forall k | k in j.executions
      ensures RecordOk(home, j.(version := Some(1)), j.executions[k])
    {
      assert RecordOk(home, j, j.executions[k]);
    }
  }

  /** Storing a sound record for an attempt keeps the journal sound. */
  lemma PutKeeps(home: Home, lim: Limits, j: Journal, r: Record, now: int)
    requires JournalOk(home, j) && RecordOk(home, j, r) && j.version == Some(1)
    requires r.id in j.publications ==> r.publication
    ensures Put(lim, j, r, now).Ok? ==>
      JournalOk(home, Put(lim, j, r, now).value) && Keeps(j, Put(lim, j, r, now).value)
  {
    if Put(lim, j, r, now).Ok? {
      var later := Put(lim, j, r, now).value;
      forall k | k in later.executions
        ensures later.executions[k].id == k && RecordOk(home, later, later.executions[k])
      {
        if k != r.id { assert RecordOk(home, j, j.executions[k]); }
      }
    }
  }

  lemma ReserveKeeps(home: Home, lim: Limits, j: Journal, k: RecordKey, now: int)
    requires JournalOk(home, j)
    ensures var m := ReserveMessage(lim, j, k, now);
      m.Ok? ==> JournalOk(home, m.value) && Keeps(j, m.value) && k !in j.executions
  {
    if k in j.executions { assert RecordOk(home, j, j.executions[k]); }
    var m := ReserveMessage(lim, j, k, now);
    if m.Ok? {
      forall q | q in m.value.executions
        ensures RecordOk(home, m.value, m.value.executions[q])
      {
        assert RecordOk(home, j, j.executions[q]);
      }
    }
  }

  lemma AddTask(home: Home, j: Journal, tk: TaskKey, t: Task)
    requires JournalOk(home, j) && TaskOk(home, tk, t)
    ensures JournalOk(home, j.(tasks := j.tasks[tk := t]))
  {
    var later := j.(tasks := j.tasks[tk := t]);
    forall k | k in later.executions
      ensures RecordOk(home, later, later.executions[k])
    {
      assert RecordOk(home, j, j.executions[k]);
    }
  }

  lemma AcceptKeeps(home: Home, lim: Limits, j: Journal, k: RecordKey, task: Task, artifactId: string, now: int)
    requires JournalOk(home, j) && j.version == Some(1) && k in j.messages
    requires k.messageId != "" && task.id != "" && task.contextId != "" && artifactId != ""
    requires TaskOk(home, TaskKey(k.tenant, k.owner, task.id), task)
    ensures var m := Accept(lim, j, k, task, artifactId, now);
      m.Ok? ==> JournalOk(home, m.value) && Keeps(j, m.value)
  {
    if Accept(lim, j, k, task, artifactId, now).Ok? {
      var tk := TaskKey(k.tenant, k.owner, task.id);
      AddTask(home, j, tk, task);
      PutKeeps(home, lim, j.(tasks := j.tasks[tk := task]), NewRecord(k, task.contextId, task.id, artifactId, now),
               now);
    }
  }

  /** Every hook that only rewrites the flags of a stored record. */
  lemma FlagsKeep(home: Home, lim: Limits, j: Journal, r: Record, now: int)
    requires JournalOk(home, j) && j.version == Some(1)
    requires r.id in j.executions && !r.phase.Publishing? && !j.executions[r.id].phase.Publishing?
    requires var was := j.executions[r.id];
      r.taskId == was.taskId && r.contextId == was.contextId && r.contextKey == was.contextKey
      && r.artifactId == was.artifactId && r.publication == was.publication
    requires r.phase.Done? || r.phase.Stopped? ==> r.stopped
    ensures Put(lim, j, r, now).Ok? ==>
      JournalOk(home, Put(lim, j, r, now).value) && Keeps(j, Put(lim, j, r, now).value)
  {
    assert RecordOk(home, j, j.executions[r.id]);
    PutKeeps(home, lim, j, r, now);
  }

  lemma CancelKeeps(home: Home, lim: Limits, j: Journal, k: RecordKey, now: int)
    requires JournalOk(home, j) && j.version == Some(1)
    ensures var m := RequestCancellation(lim, j, k, now);
      m.Ok? ==> JournalOk(home, m.value) && Keeps(j, m.value)
  {
    if RequestCancellation(lim, j, k, now).Ok? {
      var r := j.executions[k].(cancelRequested := true);
      assert RecordOk(home, j, j.executions[k]);
      PutKeeps(home, lim, j, r, now);
    }
  }

  lemma MappingKeeps(home: Home, lim: Limits, j: Journal, c: ContextKey, conversation: string)
    requires JournalOk(home, j)
    ensures var m := SetMapping(lim, j, c, conversation);
      m.Ok? ==>
        && JournalOk(home, m.value) && Keeps(j, m.value)
        && c in m.value.mappings && m.value.mappings[c] == conversation
  {
    var m := SetMapping(lim, j, c, conversation);
    if m.Ok? {
      forall q | q in m.value.executions
        ensures RecordOk(home, m.value, m.value.executions[q])
      {
        assert RecordOk(home, j, j.executions[q]);
      }
    }
  }

  lemma IntentKeeps(home: Home, lim: Limits, j: Journal, t: Turn, c: Correlation, now: int)
    requires JournalOk(home, j) && j.version == Some(1)
    requires HasTurn(j, t) ==> !j.executions[KeyOf(t)].phase.Publishing?
    ensures var m := CommitIntent(lim, j, t, c, now);
      m.Ok? ==> JournalOk(home, m.value) && Keeps(j, m.value)
  {
    var m := CommitIntent(lim, j, t, c, now);
    if m.Ok? {
      var j1 := j.(agentId := Some(c.agentId));
      forall q | q in j1.executions
        ensures RecordOk(home, j1, j1.executions[q])
      {
        assert RecordOk(home, j, j.executions[q]);
      }
      FlagsKeep(home, lim, j1, j1.executions[KeyOf(t)].(correlation := Some(c), phase := Intent), now);
    }
  }

  /** A record read earlier for this attempt, with its snapshot, may be committed as a publication. */
  lemma PublicationKeeps(home: Home, lim: Limits, j: Journal, r: Record, snapshot: Task, now: int)
    requires JournalOk(home, j) && j.version == Some(1)
    requires r.id in j.messages && r.taskId != "" && r.id.messageId != "" && r.contextId != "" && r.artifactId != ""
    requires r.contextKey == ContextKey(r.id.owner, r.id.tenant, r.contextId) && r.contextId == home(TaskKeyOf(r))
    requires TaskOk(home, TaskKeyOf(r), snapshot)
    ensures var m := CommitPublication(lim, j, r, snapshot, now);
      m.Ok? ==> JournalOk(home, m.value) && Keeps(j, m.value)
  {
    var m := CommitPublication(lim, j, r, snapshot, now);
    if m.Ok? {
      forall q | q in m.value.executions
        ensures m.value.executions[q].id == q && RecordOk(home, m.value, m.value.executions[q])
      {
        if q != r.id { assert RecordOk(home, j, j.executions[q]); }
      }
    }
  }

  lemma StoreRepairKeeps(home: Home, j: Journal, r: Record, snapshot: Task)
    requires JournalOk(home, j) && j.version == Some(1)
    requires r.id in j.messages && r.taskId != "" && r.id.messageId != "" && r.contextId != "" && r.artifactId != ""
    requires r.contextKey == ContextKey(r.id.owner, r.id.tenant, r.contextId) && r.contextId == home(TaskKeyOf(r))
    requires r.publication && (r.phase.Done? || r.phase.Stopped? ==> r.stopped) && TaskOk(home, TaskKeyOf(r), snapshot)
    ensures var later := StoreRepair(j, r, snapshot); JournalOk(home, later) && Keeps(j, later)
  {
    var later := StoreRepair(j, r, snapshot);
    forall q | q in later.executions
      ensures later.executions[q].id == q && RecordOk(home, later, later.executions[q])
    {
      if q != r.id { assert RecordOk(home, j, j.executions[q]); }
    }
  }

  lemma SaveKeeps(home: Home, lim: Limits, j: Journal, owner: string, tenant: string, task: Task, now: int)
    requires JournalOk(home, j) && TaskOk(home, TaskKey(tenant, owner, task.id), task)
    ensures var m := SaveTask(lim, j, owner, tenant, task, now);
      m.Ok? ==> JournalOk(home, m.value) && Keeps(j, m.value)
  {
    var m := SaveTask(lim, j, owner, tenant, task, now);
    if m.Ok? {
      forall k | k in m.value.executions
        ensures m.value.executions[k].id == k && RecordOk(home, m.value, m.value.executions[k])
      {
        assert RecordOk(home, j, j.executions[k]);
      }
    }
  }

  lemma PruneSound(home: Home, j: Journal, tk: TaskKey, before: int)
    requires JournalOk(home, j) && CanPrune(j, tk, before)
    ensures JournalOk(home, PruneTask(j, tk, before))
  {
    var later := PruneTask(j, tk, before);
    hide CanPrune;
    forall k | k in later.executions
      ensures later.executions[k].id == k && RecordOk(home, later, later.executions[k])
    {
      assert RecordOk(home, j, j.executions[k]);
      assert TaskKeyOf(j.executions[k]) != tk;
    }
    forall k | k in later.publications
      ensures k in later.executions && later.executions[k].publication
    {
      assert k in j.executions;
    }
  }

  /**
   * Retention keeps tombstones, mappings and every attempt that is not done, and each remaining
   * attempt keeps its task row and its snapshot: the next open succeeds.
   */
  lemma PruneKeeps(home: Home, j: Journal, tk: TaskKey, before: int)
    requires JournalOk(home, j)
    ensures var later := PruneTask(j, tk, before);
      && JournalOk(home, later) && Validates(later)
      && later.messages == j.messages && later.mappings == j.mappings && later.agentId == j.agentId
      && (forall k :: k in j.executions && k !in later.executions ==>
            j.executions[k].phase.Done? && j.executions[k].stopped && j.executions[k].updatedAt < before
            && TaskKeyOf(j.executions[k]) !in later.tasks)
      && (forall k :: k in later.executions ==> k in j.executions && later.executions[k] == j.executions[k])
      && (forall t :: t in j.tasks && t !in later.tasks ==> Final(j.tasks[t].status.state))
  {
    hide JournalOk, Validates;
    if CanPrune(j, tk, before) { PruneSound(home, j, tk, before); }
    Validated(home, PruneTask(j, tk, before));
  }

  /** Any number of prunes, each of one task with its own cutoff. */
  ghost function Pruned(j: Journal, cuts: seq<(TaskKey, int)>): Journal {
    if cuts == [] then j else PruneTask(Pruned(j, cuts[..|cuts| - 1]), cuts[|cuts| - 1].0, cuts[|cuts| - 1].1)
  }

  /** However often it is pruned, a journal keeps its tombstones, mappings and unfinished attempts, and opens. */
  lemma {:induction false} PrunedKeeps(home: Home, j: Journal, cuts: seq<(TaskKey, int)>)
    requires JournalOk(home, j)
    ensures var later := Pruned(j, cuts);
      && JournalOk(home, later) && Validates(later)
      && later.messages == j.messages && later.mappings == j.mappings
      && (forall k :: k in j.executions && !j.executions[k].phase.Done? ==> k in later.executions)
      && (forall k :: k in later.executions ==> k in j.executions && later.executions[k] == j.executions[k])
      && (forall k :: k in later.executions && !later.executions[k].phase.Publishing? ==>
          TaskKeyOf(later.executions[k]) in later.tasks)
      && (forall k :: k in later.executions && later.executions[k].publication ==> k in later.publications)
      && (forall k :: k in later.publications ==> k in later.executions)
  {
    if cuts != [] {
      PrunedKeeps(home, j, cuts[..|cuts| - 1]);
      PruneKeeps(home, Pruned(j, cuts[..|cuts| - 1]), cuts[|cuts| - 1].0, cuts[|cuts| - 1].1);
    } else {
      Validated(home, j);
    }
    RowsKept(home, Pruned(j, cuts));
    hide JournalOk, PruneTask;
  }

  lemma RowsKept(home: Home, j: Journal)
    requires JournalOk(home, j)
    ensures forall k :: k in j.executions && !j.executions[k].phase.Publishing? ==>
      TaskKeyOf(j.executions[k]) in j.tasks
    ensures forall k :: k in j.executions && j.executions[k].publication ==> k in j.publications
    ensures forall k :: k in j.publications ==> k in j.executions
  {
    forall k | k in j.executions
      ensures !j.executions[k].phase.Publishing? ==> TaskKeyOf(j.executions[k]) in j.tasks
      ensures j.executions[k].publication ==> k in j.publications
    {
      assert RecordOk(home, j, j.executions[k]);
    }
  }

  // ----- recovery -----

  /** Recovering one attempt settles it and touches no other attempt. */
  lemma RecoverOneFrame(j: Journal, k: RecordKey, stamp: Stamp)
    requires k in j.executions && j.executions[k].id == k && RecoverOne(j, k, stamp).Ok?
    ensures var later := RecoverOne(j, k, stamp).value;
      && later.executions == j.executions[k := later.executions[k]]
      && (j.executions[k].phase.Publishing? ==> j.executions[k].publication ==> later.publications == j.publications)
      && later.messages == j.messages && later.mappings == j.mappings
      && later.agentId == j.agentId && later.domain == j.domain && later.version == j.version
      && Recovered(later.executions[k]) && (Recovered(j.executions[k]) ==> later == j)
  {
    var r := j.executions[k];
    if Recovered(r) {
      assert j.executions[k := r] == j.executions;
    }
  }

  lemma ReplayKeeps(home: Home, j: Journal, k: RecordKey, stamp: Stamp)
    requires JournalOk(home, j) && k in j.executions && !Recovered(j.executions[k]) && RepairOf(j.executions[k]).Replay?
    ensures RecoverOne(j, k, stamp).Ok? && JournalOk(home, RecoverOne(j, k, stamp).value)
  {
    var r := j.executions[k];
    RecordAt(home, j, k);
    hide JournalOk;
    AddTask(home, j, TaskKeyOf(r), j.publications[k]);
    PutKeeps(home, NO_SIZE_LIMIT, j.(tasks := j.tasks[TaskKeyOf(r) := j.publications[k]]), Settle(r, stamp.now),
             stamp.now);
  }

  const NO_SIZE_LIMIT := Limits(0, 0, _ => true)

  lemma RecordAt(home: Home, j: Journal, k: RecordKey)
    requires JournalOk(home, j) && k in j.executions
    ensures j.executions[k].id == k && RecordOk(home, j, j.executions[k]) && j.version == Some(1)
    ensures var tk := TaskKeyOf(j.executions[k]); tk in j.tasks ==> TaskOk(home, tk, j.tasks[tk])
  {
  }

  lemma RepairKeeps(home: Home, j: Journal, k: RecordKey, stamp: Stamp)
    requires JournalOk(home, j) && k in j.executions && !Recovered(j.executions[k])
      && !RepairOf(j.executions[k]).Replay?
    ensures RecoverOne(j, k, stamp).Ok? && JournalOk(home, RecoverOne(j, k, stamp).value)
  {
    var r := j.executions[k];
    RecordAt(home, j, k);
    hide JournalOk, Reduce, RecoveryEvents;
    var repair := RepairOf(r);
    var marked := r.(stopped := repair.Unsent? || repair.Success?);
    var stored := WithPublication(Settle(marked, stamp.now));
    StoreRepairKeeps(home, j, stored, RecoverOne(j, k, stamp).value.publications[k]);
  }

  /** On a sound journal recovery never throws, and leaves a sound journal. */
  lemma RecoverOneKeeps(home: Home, j: Journal, k: RecordKey, stamp: Stamp)
    requires JournalOk(home, j) && k in j.executions
    ensures RecoverOne(j, k, stamp).Ok? && JournalOk(home, RecoverOne(j, k, stamp).value)
  {
    hide JournalOk;
    if !Recovered(j.executions[k]) {
      if RepairOf(j.executions[k]).Replay? { ReplayKeeps(home, j, k, stamp); } else { RepairKeeps(home, j, k, stamp); }
    }
  }

  /** `recover`: one transaction for each key in turn. */
  function RecoverAll(j: Journal, keys: seq<RecordKey>, stamps: RecordKey -> Stamp): Result<Journal>
    decreases |keys|
  {
    if keys == [] then Ok(j)
    else if keys[0] !in j.executions then Err
    else
      var first := RecoverOne(j, keys[0], stamps(keys[0]));
      if first.Err? then Err else RecoverAll(first.value, keys[1..], stamps)
  }

  lemma KeyedBy(home: Home, j: Journal, k: RecordKey)
    requires JournalOk(home, j) && k in j.executions
    ensures j.executions[k].id == k
  {
  }

  lemma FirstRecovers(home: Home, j: Journal, k: RecordKey, stamp: Stamp)
    requires JournalOk(home, j) && k in j.executions
    ensures var m := RecoverOne(j, k, stamp);
      m.Ok? && JournalOk(home, m.value) && m.value.executions.Keys == j.executions.Keys
  {
    KeyedBy(home, j, k);
    hide JournalOk, RecoverOne, Recovered;
    RecoverOneKeeps(home, j, k, stamp);
    RecoverOneFrame(j, k, stamp);
  }

  lemma RecoverAllStep(j: Journal, keys: seq<RecordKey>, stamps: RecordKey -> Stamp)
    requires keys != [] && keys[0] in j.executions && RecoverOne(j, keys[0], stamps(keys[0])).Ok?
    ensures RecoverAll(j, keys, stamps) == RecoverAll(RecoverOne(j, keys[0], stamps(keys[0])).value, keys[1..], stamps)
  {
    hide RecoverOne;
  }

  lemma {:induction false} RecoverAllKeeps(home: Home, j: Journal, keys: seq<RecordKey>, stamps: RecordKey -> Stamp)
    requires JournalOk(home, j) && forall k :: k in keys ==> k in j.executions
    ensures RecoverAll(j, keys, stamps).Ok? && JournalOk(home, RecoverAll(j, keys, stamps).value)
    decreases |keys|
  {
    if keys != [] {
      FirstRecovers(home, j, keys[0], stamps(keys[0]));
      RecoverAllStep(j, keys, stamps);
      hide JournalOk, RecoverOne;
      RecoverAllKeeps(home, RecoverOne(j, keys[0], stamps(keys[0])).value, keys[1..], stamps);
    }
  }

  lemma {:induction false} RecoverAllSettles(j: Journal, keys: seq<RecordKey>, stamps: RecordKey -> Stamp)
    requires forall k :: k in j.executions ==> j.executions[k].id == k
    requires RecoverAll(j, keys, stamps).Ok?
    ensures Settles(j, RecoverAll(j, keys, stamps).value, keys)
    decreases |keys|
  {
    if keys != [] {
      var first := RecoverOne(j, keys[0], stamps(keys[0])).value;
      RecoverOneFrame(j, keys[0], stamps(keys[0]));
      assert first.executions[keys[0]].id == keys[0];
      RecoverAllSettles(first, keys[1..], stamps);
      var later := RecoverAll(j, keys, stamps).value;
      forall k | k in keys
        ensures k in later.executions && Recovered(later.executions[k])
      {
        if k != keys[0] { assert k in keys[1..]; }
      }
    }
  }

  /** `later` has the same attempts, tombstones and mappings; the listed attempts are recovered. */
  ghost predicate Settles(j: Journal, later: Journal, keys: seq<RecordKey>) {
    && later.messages == j.messages && later.mappings == j.mappings
    && later.executions.Keys == j.executions.Keys
    && (forall k :: k in j.executions && Recovered(j.executions[k]) ==> later.executions[k] == j.executions[k])
    && (forall k :: k in keys ==> k in later.executions && Recovered(later.executions[k]))
  }

  lemma {:induction false} RecoverAllConcat(home: Home, j: Journal, a: seq<RecordKey>, b: seq<RecordKey>,
                                            stamps: RecordKey -> Stamp)
    requires JournalOk(home, j) && forall k :: k in a + b ==> k in j.executions
    ensures RecoverAll(j, a, stamps).Ok?
    ensures RecoverAll(j, a + b, stamps) == RecoverAll(RecoverAll(j, a, stamps).value, b, stamps)
    decreases |a|
  {
    if a == [] {
      assert a + b == b;
    } else {
      assert a[0] in a + b;
      assert (a + b)[1..] == a[1..] + b;
      assert forall k :: k in a[1..] + b ==> k in a + b;
      FirstRecovers(home, j, a[0], stamps(a[0]));
      RecoverAllStep(j, a, stamps);
      RecoverAllStep(j, a + b, stamps);
      hide JournalOk, RecoverOne, RecoverAll;
      RecoverAllConcat(home, RecoverOne(j, a[0], stamps(a[0])).value, a[1..], b, stamps);
    }
  }

  lemma {:induction false} RecoverAllSkips(j: Journal, keys: seq<RecordKey>, stamps: RecordKey -> Stamp)
    requires forall k :: k in keys ==> k in j.executions && Recovered(j.executions[k])
    ensures RecoverAll(j, keys, stamps) == Ok(j)
    decreases |keys|
  {
    if keys != [] {
      assert keys[0] in keys;
      RecoverAllSkips(j, keys[1..], stamps);
    }
  }

  lemma {:induction false} RecoverAllStamps(j: Journal, keys: seq<RecordKey>, s1: RecordKey -> Stamp,
                                            s2: RecordKey -> Stamp)
    requires forall k :: k in keys ==> s1(k) == s2(k)
    ensures RecoverAll(j, keys, s1) == RecoverAll(j, keys, s2)
    decreases |keys|
  {
    if keys != [] && keys[0] in j.executions && RecoverOne(j, keys[0], s1(keys[0])).Ok? {
      RecoverAllStamps(RecoverOne(j, keys[0], s1(keys[0])).value, keys[1..], s1, s2);
    }
  }

  /** The stamps of two passes, the first of which got as far as `done`. */
  function Mixed(done: seq<RecordKey>, before: RecordKey -> Stamp, after: RecordKey -> Stamp): RecordKey -> Stamp {
    k => if k in done then before(k) else after(k)
  }

  /**
   * Reopening converges. Crash after any number of recovery transactions and open again, with other
   * clocks and other fresh ids: the journal is the one a single undisturbed pass writes, where each
   * attempt carries the stamp of the pass that repaired it.
   */
  lemma RecoveryConverges(home: Home, j: Journal, keys: seq<RecordKey>, crashed: nat,
                          before: RecordKey -> Stamp, after: RecordKey -> Stamp)
    requires JournalOk(home, j) && crashed <= |keys|
    requires forall k :: k in keys ==> k in j.executions
    requires forall i, n :: 0 <= i < n < |keys| ==> keys[i] != keys[n]
    ensures var partial := RecoverAll(j, keys[..crashed], before);
      && partial.Ok? && Validates(partial.value)
      && RecoverAll(partial.value, keys, after)
         == RecoverAll(j, keys, Mixed(keys[..crashed], before, after))
      && RecoverAll(partial.value, keys, after).Ok?
  {
    var done, rest := keys[..crashed], keys[crashed..];
    var mixed := Mixed(done, before, after);
    assert done + rest == keys;
    RecoverAllKeeps(home, j, done, before);
    RecoverAllSettles(j, done, before);
    var partial := RecoverAll(j, done, before).value;
    Validated(home, partial);
    RecoverAllKeeps(home, partial, keys, after);
    RecoverAllStamps(j, done, before, mixed);
    RecoverAllConcat(home, j, done, rest, mixed);
    RecoverAllConcat(home, partial, done, rest, after);
    RecoverAllSkips(partial, done, after);
    Disjoint(keys, crashed);
    RecoverAllStamps(partial, rest, mixed, after);
  }

  lemma Disjoint(keys: seq<RecordKey>, n: nat)
    requires n <= |keys| && forall i, m :: 0 <= i < m < |keys| ==> keys[i] != keys[m]
    ensures forall k :: k in keys[n..] ==> k !in keys[..n]
  {
    forall k | k in keys[n..]
      ensures k !in keys[..n]
    {
      var i :| 0 <= i < |keys[n..]| && keys[n..][i] == k;
      assert keys[n + i] == k;
    }
  }
}
