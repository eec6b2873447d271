/**
 * The service's `send` as it runs: records are reassigned and written step by step. Each method is the code
 * between two awaits and does to the fields what the step of `ToolJournal` says.
 */
module ToolService {
  import opened Prelude
  import opened ToolJournal
  import opened ToolJournalProofs

  class Service {
    var store: map<Key, Rec>
    var locks: map<Key, nat>
    var calls: map<nat, Call>
    ghost var used: map<string, Key>
    ghost var subs: seq<Submission>
    ghost var settled: set<string>
    ghost var noted: set<string>
    ghost var overruled: set<Mark>

    ghost function State(): State
      reads this
    {
      ToolJournal.State(store, locks, calls, used, subs, settled, noted, overruled)
    }

    ghost predicate Valid()
      reads this
    {
      Inv(State())
    }

    constructor ()
      ensures Valid() && State() == INIT
    {
      store, locks, calls := map[], map[], map[];
      used, subs, settled, noted, overruled := map[], [], {}, {}, {};
      new;
      InitOk();
    }

    method Finish(i: nat)
      requires Valid() && i in calls
      modifies `calls, `locks
      ensures Valid() && State() == End(old(State()), i)
    {
      hide Inv, CallOk;
      ToolJournalProofs.StopKeeps(State(), i);
      calls := map n | n in calls && n != i :: calls[n];
      locks := map k | k in locks && locks[k] != i :: locks[k];
    }

    /** The binding is loaded and must pass readback; the context comes from the caller, the task or the binding. */
    method ReadBinding(i: nat, found: Option<Reply>, legacy: bool)
      requires Valid() && At(State(), i, Bound)
      modifies `calls, `locks
      ensures Valid() && State() == DoReadBinding(old(State()), i, found, legacy)
    {
      hide Inv, CallOk;
      ToolJournalProofs.ReadBindingKeeps(State(), i, found, legacy);
      var c := calls[i];
      var binding := Load(store, BindingOf(c));
      if binding.unknown || (binding.pending && (binding.taskId.None? || binding.state.None?)) {
        Finish(i);
        return;
      }
      if binding.contextId.None? && c.input.contextId.None? && !c.input.newContext {
        if legacy {
          Finish(i);
          return;
        }
      }
      var contextId := c.input.contextId;
      if contextId.None? && !c.input.newContext { contextId := binding.contextId; }
      if c.input.taskId.Some? {
        if found.None? || !Matches(found.value, c.input.taskId, contextId) {
          Finish(i);
          return;
        }
        contextId := Some(found.value.contextId);
      }
      calls := calls[i := c.(pc := Located, binding := binding, context := contextId)];
    }

    /** Both records are loaded and merged: the binding is a recovery journal too. */
    method Merged(i: nat) returns (record: Rec)
      requires At(State(), i, Entered)
      ensures record == Merge(calls[i].context, calls[i].binding, ContextRecord(State(), calls[i]))
    {
      var c := calls[i];
      record := NOTHING;
      if c.context.Some? { record := Load(store, ExecutionOf(c, c.context.value)); }
      if c.context == c.binding.contextId
         && ((c.binding.pending && !record.pending)
             || (c.binding.taskId.Some? && c.binding.messageId == record.messageId
                 && (record.taskId.None? || (record.unknown && !c.binding.unknown)))) {
        record := c.binding;
      }
    }

    /** The records are merged; an unfinished task is read again and stored; the caller's task must be interrupted. */
    method Check(i: nat, current: Option<Reply>, target: Option<Reply>)
      requires Valid() && At(State(), i, Entered)
      modifies `calls, `locks, `store, `overruled
      ensures Valid() && State() == DoCheck(old(State()), i, current, target)
    {
      hide Inv, CallOk;
      ghost var s := State();
      var c := calls[i];
      var record := Merged(i);
      if Fenced(record) {
        Finish(i);
        return;
      }
      MergedOk(s, i);
      if c.context.Some? && !Unfinished(record) { CheckClears(s, i); }
      Proceed(i, record, current, target);
    }

    method Proceed(i: nat, merged: Rec, current: Option<Reply>, target: Option<Reply>)
      requires Valid() && At(State(), i, Entered) && !Fenced(merged) && Sound(State(), merged)
      requires calls[i].context.Some? && !Unfinished(merged) ==>
        ContextClear(State(), ExecutionOf(calls[i], calls[i].context.value))
      modifies `calls, `locks, `store, `overruled
      ensures Valid() && State() == Reread(old(State()), i, merged, current, target)
    {
      hide Inv, CallOk;
      RereadKeeps(State(), i, merged, current, target);
      var c, record := calls[i], merged;
      if record.taskId.Some? && !Terminal(record.state) {
        if c.context.None? || current.None? || !Matches(current.value, record.taskId, c.context) {
          Finish(i);
          return;
        }
        record := Snapshot(current.value, record.messageId);
        ToolJournalProofs.ReadKeeps(State(), i, record);
        overruled := overruled + Lost(State(), ExecutionOf(c, c.context.value), record);
        store := store[ExecutionOf(c, c.context.value) := record];
        if !Terminal(record.state) && !(Interrupted(record.state) && c.input.taskId == record.taskId) {
          Finish(i);
          return;
        }
      }
      if c.input.taskId.Some? && (target.None? || !Matches(target.value, c.input.taskId, c.context)
                                  || !Interrupted(target.value.state)) {
        Finish(i);
        return;
      }
      calls := calls[i := c.(pc := Cleared, previous := record)];
    }

    /** The note goes under the binding first, also when no context is known yet. */
    method WriteNote(i: nat)
      requires Valid() && At(State(), i, Cleared)
      modifies `calls, `store, `noted
      ensures Valid() && State() == DoWriteNote(old(State()), i)
    {
      hide Inv, CallOk;
      ToolJournalProofs.WriteNoteKeeps(State(), i);
      var c := calls[i];
      store := store[BindingOf(c) := Rec(c.context, c.input.taskId, None, Some(c.input.messageId), true, true)];
      noted := noted + {c.input.messageId};
      calls := calls[i := c.(pc := Noted)];
    }

    method WriteContextNote(i: nat)
      requires Valid() && At(State(), i, Noted)
      modifies `calls, `store, `overruled
      ensures Valid() && State() == DoWriteContextNote(old(State()), i)
    {
      hide Inv, CallOk;
      ToolJournalProofs.ContextNoteKeeps(State(), i);
      var c := calls[i];
      if c.context.Some? {
        overruled := overruled + Lost(State(), ExecutionOf(c, c.context.value), NoteOf(c));
        store := store[ExecutionOf(c, c.context.value) :=
                       Rec(c.context, c.input.taskId, None, Some(c.input.messageId), true, true)];
      }
      calls := calls[i := c.(pc := Prepared)];
    }

    /** The first half of `writeTask`. */
    method WriteTask(i: nat, task: Reply, acceptance: bool)
      requires Valid() && At(State(), i, Open) && Heard(calls[i], task)
      modifies `calls, `store, `settled
      ensures Valid() && State() == DoHear(old(State()), i, task, acceptance)
    {
      hide Inv, CallOk;
      ToolJournalProofs.HearKeeps(State(), i, task, acceptance);
      var c := calls[i];
      var observed := c.observed;
      if acceptance { observed := true; }
      var record := Snapshot(task, Some(c.input.messageId));
      record := record.(unknown := !observed);
      store := store[BindingOf(c) := record];
      settled := settled + if observed then {c.input.messageId} else {};
      calls := calls[i := c.(pc := Relaying(false), accepted := Some(task), observed := observed, record := record)];
    }

    /** The second half: the context's record, under its lock. The last one ends the call. */
    method Relay(i: nat)
      requires Valid() && i in calls && calls[i].pc.Relaying? && calls[i].locked.Some?
        && calls[i].record.contextId.Some?
      modifies `calls, `locks, `store, `overruled
      ensures Valid() && State() == DoRelay(old(State()), i)
    {
      hide Inv, CallOk;
      ghost var s := State();
      var c := calls[i];
      RelayedKeeps(s, i, if c.pc.last then c else c.(pc := Open));
      var key := ExecutionOf(c, c.record.contextId.value);
      overruled := overruled + Lost(State(), key, c.record);
      store := store[key := c.record];
      if c.pc.last {
        assert State() == Goto(Relayed(s, i), i, c);
        Finish(i);
      } else {
        calls := calls[i := c.(pc := Open)];
      }
    }
  }
}
