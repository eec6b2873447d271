/**
 * The durable binding as its methods run: records are read, changed and put back, loops scan the tables,
 * and a throw inside a transaction rolls it back. Each method commits exactly the transaction that
 * `Journal` describes, or throws and leaves the store as it was.
 *
 * `reduce` is the SDK's reducer (`Reduce`); the clock and fresh ids are parameters. Where the source awaits
 * between reading and writing, the two halves are two methods.
 */
module DurableBinding {
  import opened Prelude
  import opened A2A
  import opened Journal
  import J = Journal
  import opened SqliteStore
  import JournalProofs

  /** What `validate` guarantees of the rows, and every method keeps: each record is stored under its own key. */
  ghost predicate Keyed(j: Journal) {
    forall k :: k in j.executions ==>
      && j.executions[k].id == k
      && j.executions[k].contextKey.owner == k.owner && j.executions[k].contextKey.tenant == k.tenant
      && (j.executions[k].phase.Publishing? ==> k in j.publications)
  }

  /** A call commits this transaction, or throws and commits nothing. */
  ghost predicate Commits(before: Journal, m: Result<Journal>, after: Journal, ok: bool) {
    ok == m.Ok? && after == if m.Ok? then m.value else before
  }

  class Binding {
    const store: BindingStore
    const lim: Limits
    var attached: bool
    var acknowledgments: set<RecordKey>

    constructor (store: BindingStore, lim: Limits)
      ensures this.store == store && this.lim == lim && !attached && acknowledgments == {}
    {
      this.store, this.lim := store, lim;
      attached, acknowledgments := false, {};
    }

    /** Between two calls: open, no transaction in progress, every record under its key. */
    ghost predicate Ready()
      reads this, store
    {
      !store.closed && !store.inTransaction && Keyed(store.state)
    }

    /** Writes one record outside any transaction, or inside the one in progress. */
    method Put(r: Record, now: int) returns (ok: bool)
      requires !store.closed
      modifies store`state
      ensures Commits(old(store.state), J.Put(lim, old(store.state), r, now), store.state, ok)
    {
      var stored := r.(updatedAt := now);
      ok := lim.fits(RecordSize(stored));
      if ok { var _ := store.SetExecution(stored.id, stored); }
    }

    /** Two scans: some other attempt of the context, then this one. */
    method AssertAvailable(context: ContextKey, messageId: Option<string>) returns (ok: bool)
      requires !store.closed
      ensures ok == Available(store.state, context)
    {
      var keys := AllRows(store.state.executions.Keys);
      ok := true;
      for i := 0 to |keys|
        invariant ok <==> forall n :: 0 <= n < i ==> !Blocks(keys[n], context, messageId, false)
      {
        var r := store.state.executions[keys[i]];
        if r.contextKey == context && Some(keys[i].messageId) != messageId && r.phase.Unresolved? { ok := false; }
      }
      if !ok {
        assert exists n :: 0 <= n < |keys| && Blocks(keys[n], context, messageId, false);
        return;
      }
      for i := 0 to |keys|
        invariant ok <==> forall n :: 0 <= n < i ==> !Blocks(keys[n], context, messageId, true)
      {
        var r := store.state.executions[keys[i]];
        if r.contextKey == context && Some(keys[i].messageId) == messageId && r.phase.Unresolved? { ok := false; }
      }
      if ok {
        forall k | k in store.state.executions
          ensures store.state.executions[k].contextKey != context || store.state.executions[k].phase != Phase.Unresolved
        {
          var n :| 0 <= n < |keys| && keys[n] == k;
          assert !Blocks(keys[n], context, messageId, true) && !Blocks(keys[n], context, messageId, false);
        }
      } else {
        assert exists n :: 0 <= n < |keys| && Blocks(keys[n], context, messageId, true);
      }
    }

    /** Record k is an unresolved attempt of the context, with this message or with another one. */
    ghost predicate Blocks(k: RecordKey, context: ContextKey, messageId: Option<string>, same: bool)
      reads store
    {
      && k in store.state.executions && store.state.executions[k].contextKey == context
      && store.state.executions[k].phase.Unresolved? && (same <==> Some(k.messageId) == messageId)
    }

    /** Scans for the record of a turn; at most one can match, because records are stored under their keys. */
    method TurnRecord(t: Turn) returns (found: Option<Record>)
      requires !store.closed && Keyed(store.state)
      ensures found == if HasTurn(store.state, t) then Some(store.state.executions[KeyOf(t)]) else None
    {
      var keys := AllRows(store.state.executions.Keys);
      var i := 0;
      while i < |keys|
        invariant 0 <= i <= |keys|
        invariant forall n :: 0 <= n < i ==> !(keys[n] == KeyOf(t) && HasTurn(store.state, t))
      {
        var r := store.state.executions[keys[i]];
        if r.contextKey == t.context && keys[i].messageId == t.messageId && (t.taskId == "" || r.taskId == t.taskId) {
          assert keys[i] == KeyOf(t);
          return Some(r);
        }
        i := i + 1;
      }
      return None;
    }

    method UpdateTurn(t: Turn, now: int, update: Record -> Record) returns (ok: bool)
      requires Ready()
      modifies store`state
      ensures Commits(old(store.state), J.UpdateTurn(lim, old(store.state), t, now, update), store.state, ok)
    {
      var found := TurnRecord(t);
      if found.None? { return false; }
      ok := Put(update(found.value), now);
    }

    // ----- the turn hooks -----

    method BeforeTurn(t: Turn, now: int) returns (ok: bool)
      requires Ready()
      modifies store`state
      ensures Commits(old(store.state), J.BeforeTurn(lim, old(store.state), t, now), store.state, ok)
      ensures Ready()
    {
      ok := AssertAvailable(t.context, Some(t.messageId));
      if ok { ok := UpdateTurn(t, now, (r: Record) => r.(phase := Preparing)); }
    }

    /** Sets a context's conversation: it may not change, and no other context may own it. */
    method SetMapping(c: ContextKey, conversation: string) returns (ok: bool)
      requires !store.closed
      modifies store`state
      ensures Commits(old(store.state), J.SetMapping(lim, old(store.state), c, conversation), store.state, ok)
    {
      if !lim.fits(MappingSize(c, conversation)) { return false; }
      var rows := AllRows(store.state.mappings.Keys);
      if c !in store.state.mappings && |store.state.mappings| >= lim.maxEntries { return false; }
      if c in store.state.mappings && store.state.mappings[c] != conversation { return false; }
      for i := 0 to |rows|
        invariant forall n :: 0 <= n < i ==> rows[n] == c || store.state.mappings[rows[n]] != conversation
      {
        if rows[i] != c && store.state.mappings[rows[i]] == conversation { return false; }
      }
      assert forall other :: other in store.state.mappings ==> other in rows;
      var _ := store.SetMapping(c, conversation);
      ok := true;
    }

    method BeforeSend(t: Turn, c: Correlation) returns (ok: bool)
      requires Ready()
      modifies store`state
      ensures Commits(old(store.state), J.BeforeSend(lim, old(store.state), t, c), store.state, ok)
      ensures Ready()
    {
      ok := AssertAvailable(t.context, Some(t.messageId));
      if !ok { return; }
      if Other(store.state.agentId, c.agentId) { return false; }
      ok := SetMapping(t.context, c.conversationId);
    }

    /** Correlation and intent in one transaction. */
    method CommitIntent(t: Turn, c: Correlation, now: int) returns (ok: bool)
      requires Ready()
      modifies store
      ensures Commits(old(store.state), J.CommitIntent(lim, old(store.state), t, c, now), store.state, ok)
      ensures Ready()
    {
      ok := store.Begin();
      var _ := store.SetAgent(c.agentId);
      var found := TurnRecord(t);
      if found.Some? {
        ok := Put(found.value.(correlation := Some(c), phase := Intent), now);
      } else {
        ok := false;
      }
      if ok { store.Commit(); } else { store.Rollback(); }
    }

    method Sent(t: Turn, now: int) returns (ok: bool)
      requires Ready()
      modifies store`state
      ensures Commits(old(store.state), SendReturned(lim, old(store.state), t, now), store.state, ok)
      ensures Ready()
    {
      ok := UpdateTurn(t, now, (r: Record) => r.(sendReturned := true));
    }

    method Stopped(t: Turn, now: int) returns (ok: bool)
      requires Ready()
      modifies store`state
      ensures Commits(old(store.state), MarkStopped(lim, old(store.state), t, now), store.state, ok)
      ensures Ready()
    {
      ok := UpdateTurn(t, now, (r: Record) => r.(phase := Phase.Stopped, stopped := true));
    }

    method Unresolved(t: Turn, now: int) returns (ok: bool)
      requires Ready()
      modifies store`state
      ensures Commits(old(store.state), MarkUnresolved(lim, old(store.state), t, now), store.state, ok)
      ensures Ready()
    {
      ok := UpdateTurn(t, now, (r: Record) => r.(phase := Phase.Unresolved, stopped := false));
    }

    /** The loop that collects run ids once each, in order. */
    static method Collect(known: seq<string>, more: seq<string>) returns (all: seq<string>)
      ensures all == AddRuns(known, more)
    {
      all := known;
      for i := 0 to |more|
        invariant AddRuns(all, more[i..]) == AddRuns(known, more)
      {
        assert more[i..][1..] == more[i + 1..];
        if more[i] !in all { all := all + [more[i]]; }
      }
    }

    /** `observe` up to its await: the record it read is changed in memory. */
    method Observe(t: Turn, m: SdkMessage, stamp: Stamp) returns (read: Result<Reading>)
      requires Ready()
      ensures read == ReadObservation(store.state, t, m, stamp)
    {
      var found := TurnRecord(t);
      if found.None? { return Err; }
      var r := found.value;
      match m {
        case Assistant(text) => r := r.(publicChunks := r.publicChunks + [text]);
        case LoopStatus(ids) =>
          var runs := Collect(r.runIds, ids);
          r := r.(runIds := runs);
        case ResultMessage(success, _, ids, text) =>
          var runs := Collect(r.runIds, ids);
          r := r.(runIds := runs);
          if success { r := r.(resultText := Some(text)); }
        case OtherMessage =>
      }
      if TaskKeyOf(r) !in store.state.tasks { return Err; }
      read := Ok(Reading(r, Reduce(store.state.tasks[TaskKeyOf(r)],
                                   RecoveryEvents(r, Failed, ExecutionUnknown, None, stamp))));
    }

    method CommitObserved(r: Record, preview: Task, now: int) returns (ok: bool)
      requires !store.closed
      modifies store`state
      ensures Commits(old(store.state), CommitObservation(lim, old(store.state), r, preview, now), store.state, ok)
    {
      if !lim.fits(SnapshotSize(preview)) { return false; }
      ok := Put(r, now);
    }

    // ----- admission -----

    method ReserveMessage(k: RecordKey, now: int) returns (ok: bool)
      requires Ready()
      modifies store`state
      ensures Commits(old(store.state), J.ReserveMessage(lim, old(store.state), k, now), store.state, ok)
      ensures Ready()
    {
      if k in store.state.messages { return false; }
      if !lim.fits(KeySize(k)) { return false; }
      if |store.state.messages| >= lim.maxEntries { return false; }
      var _ := store.SetMessage(k, now);
      ok := true;
    }

    /** Checked before the reduction and again inside the insertion transaction. */
    method Accept(k: RecordKey, task: Task, artifactId: string, now: int) returns (ok: bool)
      requires Ready()
      modifies store
      ensures Commits(old(store.state), J.Accept(lim, old(store.state), k, task, artifactId, now), store.state, ok)
      ensures Ready()
    {
      var tk := TaskKey(k.tenant, k.owner, task.id);
      if k in store.state.executions { return false; }
      if tk !in store.state.tasks && |store.state.tasks| >= lim.maxTasks { return false; }
      if !lim.fits(InitialTaskSize(task)) { return false; }
      ok := store.Begin();
      if (tk !in store.state.tasks && |store.state.tasks| >= lim.maxTasks) || k in store.state.executions {
        ok := false;
      } else {
        var _ := store.SaveTask(tk, task);
        ok := Put(NewRecord(k, task.contextId, task.id, artifactId, now), now);
      }
      if ok { store.Commit(); } else { store.Rollback(); }
    }

    method Dispatched(k: RecordKey, taskId: string, now: int) returns (ok: bool)
      requires Ready()
      modifies store`state
      ensures Commits(old(store.state), J.Dispatched(lim, old(store.state), k, taskId, now), store.state, ok)
      ensures Ready()
    {
      if k !in store.state.executions || store.state.executions[k].taskId != taskId { return false; }
      var r := store.state.executions[k];
      ok := AssertAvailable(r.contextKey, Some(k.messageId));
      if ok { ok := Put(r.(phase := Dispatching), now); }
    }

    // ----- publication -----

    /** `publication` up to its await. */
    method Publication(k: RecordKey, taskId: string, events: seq<Event>, confirmed: bool)
      returns (read: Result<Reading>)
      requires Ready()
      ensures read == ReadPublication(store.state, k, taskId, events, confirmed)
    {
      if k !in store.state.executions || store.state.executions[k].taskId != taskId { return Err; }
      var r := store.state.executions[k];
      var knownUnsent := r.phase.Accepted? || r.phase.Preparing?;
      r := r.(stopped := confirmed || r.stopped || knownUnsent);
      if TaskKeyOf(r) !in store.state.tasks { return Err; }
      read := Ok(Reading(r, Reduce(store.state.tasks[TaskKeyOf(r)], events)));
    }

    method SavePublication(r: Record, snapshot: Task) returns (ok: bool, marked: Record)
      requires !store.closed
      modifies store`state
      ensures ok == lim.fits(SnapshotSize(snapshot)) && marked == WithPublication(r)
      ensures store.state == if ok then old(store.state).(publications :=
                                                          old(store.state).publications[r.id := snapshot])
                             else old(store.state)
    {
      marked := r.(publication := true, publicChunks := [], resultText := None);
      ok := lim.fits(SnapshotSize(snapshot));
      if ok { var _ := store.SetPublication(r.id, snapshot); }
    }

    /** Snapshot and record in one transaction. */
    method CommitPublished(r: Record, snapshot: Task, now: int) returns (ok: bool)
      requires Ready() && r.contextKey.owner == r.id.owner && r.contextKey.tenant == r.id.tenant
      modifies store
      ensures Commits(old(store.state), CommitPublication(lim, old(store.state), r, snapshot, now), store.state, ok)
      ensures Ready()
    {
      ok := store.Begin();
      var marked;
      ok, marked := SavePublication(r.(phase := Publishing), snapshot);
      if ok { ok := Put(marked, now); }
      if ok { store.Commit(); } else { store.Rollback(); }
    }

    /** Registers a waiter unless the save has come first. */
    method WaitPublished(k: RecordKey, taskId: string) returns (found: bool, waits: bool)
      requires Ready()
      modifies `acknowledgments
      ensures found == (k in store.state.executions && store.state.executions[k].taskId == taskId)
      ensures waits == (found && store.state.executions[k].phase.Publishing?)
      ensures acknowledgments == old(acknowledgments) + if waits then {k} else {}
    {
      found := k in store.state.executions && store.state.executions[k].taskId == taskId;
      waits := found && store.state.executions[k].phase.Publishing?;
      if waits { acknowledgments := acknowledgments + {k}; }
    }

    /** The records of a task that are being published. */
    ghost predicate Announces(j: Journal, k: RecordKey, tk: TaskKey) {
      k in j.executions && TaskKeyOf(j.executions[k]) == tk && j.executions[k].phase.Publishing?
    }

    method AnnouncedOf(tk: TaskKey) returns (records: seq<RecordKey>)
      requires !store.closed
      ensures forall k :: k in records <==> Announces(store.state, k, tk)
      ensures forall i, n :: 0 <= i < n < |records| ==> records[i] != records[n]
    {
      records := [];
      var keys := AllRows(store.state.executions.Keys);
      for i := 0 to |keys|
        invariant forall k :: k in records <==> k in keys[..i] && Announces(store.state, k, tk)
        invariant forall m, n :: 0 <= m < n < |records| ==> records[m] != records[n]
      {
        var r := store.state.executions[keys[i]];
        assert keys[i] !in keys[..i];
        if TaskKeyOf(r) == tk && r.phase.Publishing? { records := records + [keys[i]]; }
        assert keys[..i + 1] == keys[..i] + [keys[i]];
      }
      assert keys[..|keys|] == keys;
    }

    /** The journal part-way through the save's loop. */
    ghost function Settled(j: Journal, done: seq<RecordKey>, owner: string, tenant: string, task: Task,
                           now: int): Journal {
      j.(tasks := j.tasks[TaskKey(tenant, owner, task.id) := task],
         executions := map k | k in j.executions ::
           if k in done && Acknowledges(j, k, owner, tenant, task) then Settle(j.executions[k], now)
             else j.executions[k])
    }

    lemma SettledAll(j: Journal, records: seq<RecordKey>, owner: string, tenant: string, task: Task, now: int)
      requires forall k :: k in records <==> Announces(j, k, TaskKey(tenant, owner, task.id))
      requires SaveTask(lim, j, owner, tenant, task, now).Ok?
      ensures SaveTask(lim, j, owner, tenant, task, now).value == Settled(j, records, owner, tenant, task, now)
    {
      assert forall k :: Acknowledges(j, k, owner, tenant, task) ==> k in records;
    }

    lemma SettledSnoc(j: Journal, done: seq<RecordKey>, k: RecordKey, owner: string, tenant: string, task: Task,
                      now: int)
      requires k in j.executions && k !in done
      ensures var before, after := Settled(j, done, owner, tenant, task, now),
        Settled(j, done + [k], owner, tenant, task, now);
        && before.executions[k] == j.executions[k]
        && after == before.(executions := if Acknowledges(j, k, owner, tenant, task)
                                          then before.executions[k := Settle(j.executions[k], now)]
                                            else before.executions)
    {
      var before, after := Settled(j, done, owner, tenant, task, now), Settled(j, done + [k], owner, tenant, task, now);
      hide Acknowledges, Settle;
      assert forall q :: q in after.executions ==> q in before.executions;
    }

    /** Some acknowledged record does not fit, so the whole save throws. */
    ghost predicate Refused(j: Journal, k: RecordKey, owner: string, tenant: string, task: Task, now: int) {
      Acknowledges(j, k, owner, tenant, task) && !lim.fits(RecordSize(Settle(j.executions[k], now)))
    }

    /** One announced record inside the save's transaction: settled if the task carries its message, else left. */
    method SettleOne(k: RecordKey, owner: string, tenant: string, task: Task, now: int, ghost j: Journal,
                     ghost before: seq<RecordKey>)
      returns (ok: bool, acknowledged: bool)
      requires !store.closed && store.state == Settled(j, before, owner, tenant, task, now) && k !in before
      requires Announces(j, k, TaskKey(tenant, owner, task.id)) && k in j.publications && j.executions[k].id == k
      modifies store`state
      ensures ok ==> store.state == Settled(j, before + [k], owner, tenant, task, now)
      ensures ok == !Refused(j, k, owner, tenant, task, now)
      ensures acknowledged ==> ok
      ensures ok ==> acknowledged == Acknowledges(j, k, owner, tenant, task)
    {
      ok, acknowledged := true, false;
      SettledSnoc(j, before, k, owner, tenant, task, now);
      var r := store.state.executions[k];
      var expected := store.state.publications[k].status.messageId;
      if expected.Some? && expected == task.status.messageId {
        ok := Put(r.(phase := if r.stopped then Done else Phase.Unresolved), now);
        acknowledged := ok;
      }
    }

    /** The loop of the save, inside its transaction. */
    method SettleEach(records: seq<RecordKey>, owner: string, tenant: string, task: Task, now: int, ghost j: Journal)
      returns (ok: bool, settled: set<RecordKey>)
      requires !store.closed && store.inTransaction && store.state == Settled(j, [], owner, tenant, task, now)
      requires forall k :: k in records ==>
        Announces(j, k, TaskKey(tenant, owner, task.id)) && k in j.publications && j.executions[k].id == k
      requires forall i, n :: 0 <= i < n < |records| ==> records[i] != records[n]
      modifies store`state
      ensures ok ==> store.state == Settled(j, records, owner, tenant, task, now)
      ensures ok ==> forall k :: k in records ==> !Refused(j, k, owner, tenant, task, now)
      ensures !ok ==> exists k :: Refused(j, k, owner, tenant, task, now)
      ensures ok ==> forall k :: k in settled <==> k in records && Acknowledges(j, k, owner, tenant, task)
    {
      hide Settled, Refused, Acknowledges, Announces;
      ok, settled := true, {};
      assert records[..0] == [];
      for i := 0 to |records|
        invariant ok && store.state == Settled(j, records[..i], owner, tenant, task, now)
        invariant forall k :: k in records[..i] ==> !Refused(j, k, owner, tenant, task, now)
        invariant forall k :: k in settled <==> k in records[..i] && Acknowledges(j, k, owner, tenant, task)
      {
        var k := records[i];
        assert k in records && k !in records[..i];
        assert records[..i + 1] == records[..i] + [k];
        var acknowledged;
        ok, acknowledged := SettleOne(k, owner, tenant, task, now, j, records[..i]);
        if !ok { return; }
        if acknowledged { settled := settled + {k}; }
      }
      assert records[..|records|] == records;
    }

    /** The task and the records it acknowledges are stored together, then their waiters are woken. */
    method Save(owner: string, tenant: string, task: Task, now: int) returns (ok: bool)
      requires Ready()
      modifies store, `acknowledgments
      ensures Commits(old(store.state), SaveTask(lim, old(store.state), owner, tenant, task, now), store.state, ok)
      ensures forall k :: k in acknowledgments <==>
        k in old(acknowledgments) && !(ok && Acknowledges(old(store.state), k, owner, tenant, task))
      ensures Ready()
    {
      if !lim.fits(SnapshotSize(task)) { return false; }
      var tk := TaskKey(tenant, owner, task.id);
      var records := AnnouncedOf(tk);
      ghost var j := store.state;
      ok := store.Begin();
      var _ := store.SaveTask(tk, task);
      assert store.state.executions == Settled(j, [], owner, tenant, task, now).executions;
      var settled;
      ok, settled := SettleEach(records, owner, tenant, task, now, j);
      SaveOutcome(j, records, owner, tenant, task, now);
      if ok {
        store.Commit();
        acknowledgments := acknowledgments - settled;
      } else {
        store.Rollback();
      }
    }

    lemma SaveOutcome(j: Journal, records: seq<RecordKey>, owner: string, tenant: string, task: Task, now: int)
      requires lim.fits(SnapshotSize(task)) && Keyed(j)
      requires forall k :: k in records <==> Announces(j, k, TaskKey(tenant, owner, task.id))
      ensures (forall k :: k in records ==> !Refused(j, k, owner, tenant, task, now)) ==>
        SaveTask(lim, j, owner, tenant, task, now) == Ok(Settled(j, records, owner, tenant, task, now))
      ensures (exists k :: Refused(j, k, owner, tenant, task, now)) ==> SaveTask(lim, j, owner, tenant, task, now).Err?
      ensures forall k :: Acknowledges(j, k, owner, tenant, task) ==> k in records
      ensures Keyed(Settled(j, records, owner, tenant, task, now))
    {
      assert forall k :: Acknowledges(j, k, owner, tenant, task) ==> Announces(j, k, TaskKey(tenant, owner, task.id));
      SettledKeyed(j, records, owner, tenant, task, now);
      SaveRefuses(j, owner, tenant, task, now);
      hide Acknowledges, SaveTask, Keyed, Settled;
      if forall k :: k in records ==> !Refused(j, k, owner, tenant, task, now) {
        assert forall k :: !Refused(j, k, owner, tenant, task, now);
        SettledAll(j, records, owner, tenant, task, now);
      }
    }

    lemma SaveRefuses(j: Journal, owner: string, tenant: string, task: Task, now: int)
      requires lim.fits(SnapshotSize(task))
      ensures SaveTask(lim, j, owner, tenant, task, now).Err? <==> exists k :: Refused(j, k, owner, tenant, task, now)
    {
      if k :| Refused(j, k, owner, tenant, task, now) {
        assert Acknowledges(j, k, owner, tenant, task);
      } else {
        assert forall k :: Acknowledges(j, k, owner, tenant, task) ==> !Refused(j, k, owner, tenant, task, now);
      }
    }

    lemma SettledKeyed(j: Journal, done: seq<RecordKey>, owner: string, tenant: string, task: Task, now: int)
      requires Keyed(j)
      ensures Keyed(Settled(j, done, owner, tenant, task, now))
    {
      hide Acknowledges;
    }

    // ----- operator and retention -----

    /** The unfinished attempts of a task. */
    ghost predicate Unfinished(j: Journal, k: RecordKey, tk: TaskKey) {
      k in j.executions && TaskKeyOf(j.executions[k]) == tk && !j.executions[k].phase.Done?
    }

    method UnfinishedOf(tk: TaskKey) returns (keys: seq<RecordKey>)
      requires !store.closed
      ensures forall k :: k in keys <==> Unfinished(store.state, k, tk)
      ensures forall m, n :: 0 <= m < n < |keys| ==> keys[m] != keys[n]
    {
      keys := [];
      var rows := AllRows(store.state.executions.Keys);
      for i := 0 to |rows|
        invariant forall k :: k in keys <==> k in rows[..i] && Unfinished(store.state, k, tk)
        invariant forall m, n :: 0 <= m < n < |keys| ==> keys[m] != keys[n]
      {
        assert rows[i] !in rows[..i] && rows[..i + 1] == rows[..i] + [rows[i]];
        var r := store.state.executions[rows[i]];
        if TaskKeyOf(r) == tk && !r.phase.Done? { keys := keys + [rows[i]]; }
      }
      assert rows[..|rows|] == rows;
    }

    method MarkCancelled(r: Record, now: int) returns (ok: bool)
      requires Ready() && r.id in store.state.executions && store.state.executions[r.id] == r && !r.phase.Done?
      modifies store`state
      ensures Commits(old(store.state), J.RequestCancellation(lim, old(store.state), r.id, now), store.state, ok)
      ensures Ready() && forall k :: k != r.id && k in old(store.state).executions ==>
        k in store.state.executions && store.state.executions[k] == old(store.state).executions[k]
    {
      ok := Put(r.(cancelRequested := true), now);
    }

    /** Marks the unfinished attempts of a task one write at a time: a throw leaves those before it marked. */
    method RequestCancellation(tk: TaskKey, now: int) returns (ghost order: seq<RecordKey>)
      requires Ready()
      modifies store`state
      ensures forall k :: k in order <==> Unfinished(old(store.state), k, tk)
      ensures store.state == CancelEach(lim, old(store.state), order, now)
      ensures Ready()
    {
      var j := store.state;
      var keys := UnfinishedOf(tk);
      order := keys;
      assert keys[0..] == keys;
      assert forall n :: 0 <= n < |keys| ==> keys[n] in keys;
      for i := 0 to |keys|
        invariant Ready() && CancelEach(lim, store.state, keys[i..], now) == CancelEach(lim, j, keys, now)
        invariant forall n :: i <= n < |keys| ==> keys[n] in j.executions && Unfinished(j, keys[n], tk)
        invariant forall n :: i <= n < |keys| ==>
          keys[n] in store.state.executions && store.state.executions[keys[n]] == j.executions[keys[n]]
      {
        assert keys[i..][1..] == keys[i + 1..];
        var ok := MarkCancelled(j.executions[keys[i]], now);
        if !ok { return; }
      }
    }

    /** Operator reconciliation up to its await: refused while a bridge is attached. */
    method Resolve(k: RecordKey, v: Verdict, stamp: Stamp) returns (read: Result<Reading>)
      requires Ready()
      ensures read == if attached then Err else ReadResolution(store.state, k, v, stamp)
    {
      if attached || k !in store.state.executions { return Err; }
      var r := store.state.executions[k];
      var correlated := if r.correlation.Some? then v.conversationId == Some(r.correlation.value.conversationId)
                        else v.bindingStopped.Some? && v.bindingStopped.value.own
                             && !Blank(v.bindingStopped.value.evidence);
      if !r.phase.Unresolved? || !correlated || Blank(v.evidence) { return Err; }
      var evidence := v.evidence;
      if v.bindingStopped.Some? { evidence := evidence + "\nBinding-wide stop: " + v.bindingStopped.value.evidence; }
      r := r.(evidence := Some(evidence));
      r := r.(stopped := true);
      if TaskKeyOf(r) !in store.state.tasks { return Err; }
      read := Ok(Reading(r, Reduce(store.state.tasks[TaskKeyOf(r)],
                                   RecoveryEvents(r, v.state, OperatorResolved, v.text, stamp))));
    }

    method CommitResolved(r: Record, snapshot: Task, now: int) returns (ok: bool)
      requires Ready() && r.contextKey.owner == r.id.owner && r.contextKey.tenant == r.id.tenant
      modifies store
      ensures Commits(old(store.state), CommitResolution(lim, old(store.state), r, snapshot, now), store.state, ok)
      ensures Ready()
    {
      ok := store.Begin();
      var _ := store.SaveTask(TaskKeyOf(r), snapshot);
      var marked;
      ok, marked := SavePublication(r.(phase := Done), snapshot);
      if ok { ok := Put(marked, now); }
      if ok { store.Commit(); } else { store.Rollback(); }
    }

    /** Whether a task may be forgotten, and the attempts that go with it. */
    method Retired(tk: TaskKey, before: int) returns (yes: bool, records: seq<RecordKey>)
      requires !store.closed && tk in store.state.tasks
      ensures yes == CanPrune(store.state, tk, before)
      ensures forall k :: k in records <==> Attempts(store.state, k, tk)
    {
      records := [];
      var keys := AllRows(store.state.executions.Keys);
      var prunable := true;
      for i := 0 to |keys|
        invariant forall k :: k in records <==> k in keys[..i] && Attempts(store.state, k, tk)
        invariant prunable <==> forall k :: k in records ==> Prunable(store.state.executions[k], before)
      {
        assert keys[..i + 1] == keys[..i] + [keys[i]];
        var r := store.state.executions[keys[i]];
        if TaskKeyOf(r) == tk {
          records := records + [keys[i]];
          if !r.phase.Done? || !r.stopped || r.updatedAt >= before { prunable := false; }
        }
      }
      assert keys[..|keys|] == keys;
      var status := store.state.tasks[tk].status;
      yes := Final(status.state) && |records| != 0 && prunable && status.timestamp.Some?
        && status.timestamp.value < before;
      if |records| != 0 { assert records[0] in records; }
    }

    /** The journal part-way through the transaction of one prune. */
    ghost function Forgotten(j: Journal, tk: TaskKey, done: seq<RecordKey>): Journal {
      j.(tasks := j.tasks - {tk},
         executions := map k | k in j.executions && k !in done :: j.executions[k],
         publications := map k | k in j.publications && k !in done :: j.publications[k])
    }

    lemma ForgottenSnoc(j: Journal, tk: TaskKey, done: seq<RecordKey>, k: RecordKey)
      ensures var part := Forgotten(j, tk, done);
        Forgotten(j, tk, done + [k]) == part.(executions := part.executions - {k},
                                              publications := part.publications - {k})
    {
      var part, more := Forgotten(j, tk, done), Forgotten(j, tk, done + [k]);
      assert more.executions == part.executions - {k};
      assert more.publications == part.publications - {k};
    }

    lemma ForgottenAll(j: Journal, tk: TaskKey, records: seq<RecordKey>, before: int)
      requires CanPrune(j, tk, before) && forall k :: k in records <==> Attempts(j, k, tk)
      ensures Forgotten(j, tk, records) == PruneTask(j, tk, before)
    {
      var whole, pruned := Forgotten(j, tk, records), PruneTask(j, tk, before);
      assert whole.executions == pruned.executions;
      assert whole.publications == pruned.publications;
    }

    /** The transaction of one prune: the row, then each attempt with its snapshot. */
    method Forget(tk: TaskKey, records: seq<RecordKey>, before: int)
      requires Ready() && CanPrune(store.state, tk, before)
      requires forall k :: k in records <==> Attempts(store.state, k, tk)
      modifies store
      ensures store.state == PruneTask(old(store.state), tk, before) && Ready()
    {
      ghost var j := store.state;
      var _ := store.Begin();
      var _ := store.DeleteTask(tk);
      assert store.state.executions == Forgotten(j, tk, []).executions;
      assert store.state.publications == Forgotten(j, tk, []).publications;
      assert records[..0] == [];
      for i := 0 to |records|
        invariant !store.closed && store.inTransaction && store.state == Forgotten(j, tk, records[..i])
      {
        assert records[..i + 1] == records[..i] + [records[i]];
        ForgottenSnoc(j, tk, records[..i], records[i]);
        var _ := store.DeleteAttempt(records[i]);
      }
      assert records[..|records|] == records;
      ForgottenAll(j, tk, records, before);
      store.Commit();
      PruneKeyed(j, tk, before);
    }

    lemma PruneKeyed(j: Journal, tk: TaskKey, before: int)
      requires Keyed(j)
      ensures Keyed(PruneTask(j, tk, before))
    {
    }

    /** What one more cutoff does to a journal already pruned. */
    lemma PrunedSnoc(j: Journal, cuts: seq<(TaskKey, int)>, tk: TaskKey, before: int)
      ensures JournalProofs.Pruned(j, cuts + [(tk, before)]) == PruneTask(JournalProofs.Pruned(j, cuts), tk, before)
      ensures var was, next := JournalProofs.Pruned(j, cuts), PruneTask(JournalProofs.Pruned(j, cuts), tk, before);
        && next.tasks == (if CanPrune(was, tk, before) then was.tasks - {tk} else was.tasks)
        && |next.tasks| == (if CanPrune(was, tk, before) then |was.tasks| - 1 else |was.tasks|)
    {
      var all := cuts + [(tk, before)];
      assert all[..|all| - 1] == cuts;
      var was := JournalProofs.Pruned(j, cuts);
      if CanPrune(was, tk, before) {
        assert was.tasks.Keys == (was.tasks - {tk}).Keys + {tk};
        assert |was.tasks| == |was.tasks.Keys| && |was.tasks - {tk}| == |(was.tasks - {tk}).Keys|;
      }
    }

    /** One pass over the tasks; each prune is its own transaction. */
    method Prune(before: int) returns (count: nat, ghost cuts: seq<(TaskKey, int)>)
      requires Ready()
      modifies store
      ensures store.state == JournalProofs.Pruned(old(store.state), cuts) && Ready()
      ensures forall c :: c in cuts <==> c.0 in old(store.state).tasks && c.1 == before
      ensures count == |old(store.state).tasks| - |store.state.tasks|
    {
      ghost var j := store.state;
      var rows := AllRows(store.state.tasks.Keys);
      count, cuts := 0, [];
      for i := 0 to |rows|
        invariant Ready() && store.state == JournalProofs.Pruned(j, cuts)
        invariant forall c :: c in cuts <==> c.0 in rows[..i] && c.1 == before
        invariant forall n :: i <= n < |rows| ==> rows[n] in store.state.tasks
        invariant count == |j.tasks| - |store.state.tasks|
      {
        assert rows[..i + 1] == rows[..i] + [rows[i]];
        PrunedSnoc(j, cuts, rows[i], before);
        var yes, records := Retired(rows[i], before);
        if yes {
          Forget(rows[i], records, before);
          count := count + 1;
        }
        cuts := cuts + [(rows[i], before)];
      }
      assert rows[..|rows|] == rows;
    }

    // ----- reopening -----

    /** Scans every record; accepts exactly the journals that `Validates` describes. */
    method Validate() returns (ok: bool)
      requires !store.closed
      modifies store`state
      ensures ok == Validates(old(store.state))
      ensures store.state == if ok then old(store.state).(version := Some(1)) else old(store.state)
    {
      var j := store.state;
      if (j.version.None? && |j.executions| != 0) || (j.version.Some? && j.version.value != 1) { return false; }
      var keys := AllRows(j.executions.Keys);
      ok := true;
      for i := 0 to |keys|
        invariant ok && forall n :: 0 <= n < i ==> ValidRecord(j, keys[n])
        invariant store.state == j
      {
        var k, r := keys[i], j.executions[keys[i]];
        if r.taskId == "" || k.messageId == "" || r.contextId == "" || r.artifactId == "" || r.id != k
           || r.contextKey != ContextKey(k.owner, k.tenant, r.contextId)
           || ((r.phase.Done? || r.phase.Stopped?) && !r.stopped) {
          return false;
        }
        if r.publication {
          if k !in j.publications { return false; }
          var task := j.publications[k];
          if task.id != r.taskId || task.contextId != r.contextId { return false; }
        }
      }
      assert forall k :: k in j.executions ==> k in keys;
      var _ := store.SetVersion(1);
    }

    /** A journalled publication is stored again as it is. */
    method Replay(r: Record, now: int) returns (ok: bool)
      requires !store.closed && !store.inTransaction
      modifies store
      ensures !store.closed && !store.inTransaction && ok == (r.id in old(store.state).publications)
      ensures store.state == if !ok then old(store.state) else
        old(store.state).(tasks := old(store.state).tasks[TaskKeyOf(r) := old(store.state).publications[r.id]],
                          executions := old(store.state).executions[r.id := Settle(r, now)])
    {
      ok := store.Begin();
      if r.id !in store.state.publications {
        ok := false;
        store.Rollback();
        return;
      }
      var _ := store.SaveTask(TaskKeyOf(r), store.state.publications[r.id]);
      var settled := r.(phase := if r.stopped then Done else Phase.Unresolved);
      var _ := store.SetExecution(settled.id, settled.(updatedAt := now));
      store.Commit();
    }

    /** Row, snapshot and record of an attempt whose outcome recovery decides. */
    method StoreRepaired(r: Record, snapshot: Task, now: int)
      requires !store.closed && !store.inTransaction
      modifies store
      ensures !store.closed && !store.inTransaction
      ensures store.state == StoreRepair(old(store.state), WithPublication(Settle(r, now)), snapshot)
    {
      var _ := store.Begin();
      var _ := store.SaveTask(TaskKeyOf(r), snapshot);
      var settled := r.(phase := if r.stopped then Done else Phase.Unresolved);
      var _ := store.SetPublication(settled.id, snapshot);
      settled := settled.(publication := true, publicChunks := [], resultText := None);
      var _ := store.SetExecution(settled.id, settled.(updatedAt := now));
      store.Commit();
    }

    /** One attempt's recovery: its transaction, or a throw that changes nothing. `r` was read before the pass. */
    method RecoverOne(r: Record, stamp: Stamp) returns (ok: bool)
      requires !store.closed && !store.inTransaction && r.id in store.state.executions
        && store.state.executions[r.id] == r
      modifies store
      ensures Commits(old(store.state), J.RecoverOne(old(store.state), r.id, stamp), store.state, ok)
      ensures !store.closed && !store.inTransaction
    {
      if r.phase.Done? || (r.phase.Unresolved? && r.publication) { return true; }
      if r.phase.Publishing? && r.publication {
        ok := Replay(r, stamp.now);
        return;
      }
      var unsent := r.phase.Accepted? || r.phase.Preparing?;
      var stopped := r.phase.Stopped? && r.stopped;
      if TaskKeyOf(r) !in store.state.tasks { return false; }
      var marked := r.(stopped := unsent || stopped);
      var events := RecoveryEvents(marked, if stopped then Completed else Failed,
        if stopped then RecoveredTurn else if unsent then NoInputSent else ExecutionUnknown, None, stamp);
      StoreRepaired(marked, Reduce(store.state.tasks[TaskKeyOf(r)], events), stamp.now);
      ok := true;
    }

    /** Reads the records once, then recovers them one transaction after another. */
    method Recover(stamps: RecordKey -> Stamp) returns (ok: bool, ghost order: seq<RecordKey>)
      requires Ready()
      modifies store
      ensures Lists(order, old(store.state).executions.Keys)
      ensures ok == JournalProofs.RecoverAll(old(store.state), order, stamps).Ok?
      ensures ok ==> store.state == JournalProofs.RecoverAll(old(store.state), order, stamps).value
      ensures !store.closed && !store.inTransaction
    {
      var j := store.state;
      var keys := AllRows(j.executions.Keys);
      order := keys;
      assert keys[0..] == keys;
      for i := 0 to |keys|
        invariant !store.closed && !store.inTransaction
        invariant JournalProofs.RecoverAll(store.state, keys[i..], stamps) == JournalProofs.RecoverAll(j, keys, stamps)
        invariant forall n :: i <= n < |keys| ==> keys[n] in store.state.executions
                                                       && store.state.executions[keys[n]] == j.executions[keys[n]]
      {
        assert keys[i..][1..] == keys[i + 1..];
        ghost var was := store.state;
        ok := RecoverOne(j.executions[keys[i]], stamps(keys[i]));
        if !ok { return; }
        JournalProofs.RecoverOneFrame(was, keys[i], stamps(keys[i]));
      }
      ok := true;
    }

    /** Validation, then recovery; either failure closes the store. */
    method Open(stamps: RecordKey -> Stamp) returns (ok: bool, ghost order: seq<RecordKey>)
      requires !store.closed && !store.inTransaction
      requires Validates(store.state) ==> Keyed(store.state)
      modifies store
      ensures !Validates(old(store.state)) ==> !ok && store.state == old(store.state)
      ensures Validates(old(store.state)) ==>
        var all := JournalProofs.RecoverAll(old(store.state).(version := Some(1)), order, stamps);
        && Lists(order, old(store.state).executions.Keys) && ok == all.Ok? && (ok ==> store.state == all.value)
      ensures store.closed == !ok
    {
      order := [];
      ok := Validate();
      if ok { ok, order := Recover(stamps); }
      if !ok { var _ := store.Close(); }
    }

    /** The journal belongs to one agent. */
    method BindAgent(agentId: string) returns (ok: bool)
      requires Ready()
      modifies store`state
      ensures Commits(old(store.state), J.BindAgent(old(store.state), agentId), store.state, ok)
      ensures Ready()
    {
      ok := agentId != "" && !Other(store.state.agentId, agentId);
      if ok { var _ := store.SetAgent(agentId); }
    }

    /** One bridge at a time may attach, and always for the same sharing domain. */
    method Attach(domain: string) returns (ok: bool)
      requires Ready()
      modifies this`attached, store`state
      ensures if old(attached) then !ok && store.state == old(store.state)
              else Commits(old(store.state), J.BindDomain(old(store.state), domain), store.state, ok)
      ensures attached == (old(attached) || ok)
      ensures Ready()
    {
      if attached { return false; }
      if Other(store.state.domain, domain) { return false; }
      var _ := store.SetDomain(domain);
      attached := true;
      ok := true;
    }

    /** Only a complete close gives the store back. */
    method Release(complete: bool)
      requires Ready()
      modifies this`attached, store`closed
      ensures attached == (old(attached) && !complete) && store.closed == complete
      ensures store.state == old(store.state)
    {
      if complete {
        attached := false;
        var _ := store.Close();
      }
    }
  }
}
