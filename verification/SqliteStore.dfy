/**
 * The binding's storage: one table of tasks and keyed records, updated in place, with a single
 * transaction at a time. The database file is the field `state`; `BEGIN` remembers what `ROLLBACK` restores.
 */
module SqliteStore {
  import opened Prelude
  import opened A2A
  import opened Journal

  /** Each element once. */
  ghost predicate Lists<T(!new)>(s: seq<T>, all: set<T>) {
    && (forall x :: x in s <==> x in all)
    && (forall i, n :: 0 <= i < n < |s| ==> s[i] != s[n])
  }

  /** The rows of a table in the order a query returns them. */
  method AllRows<T(==,!new)>(all: set<T>) returns (s: seq<T>)
    ensures Lists(s, all)
  {
    s := [];
    var rest := all;
    while rest != {}
      invariant rest <= all
      invariant Lists(s, all - rest)
    {
      var x :| x in rest;
      s := s + [x];
      rest := rest - {x};
    }
    assert all - rest == all;
  }

  class BindingStore {
    var state: Journal
    var closed: bool
    var inTransaction: bool
    var undo: Journal

    constructor (state: Journal)
      ensures this.state == state && !closed && !inTransaction
    {
      this.state := state;
      closed := false;
      inTransaction := false;
      undo := state;
    }

    /** What is durable: an open transaction is not. */
    function Durable(): Journal
      reads this
    {
      if inTransaction then undo else state
    }

    /** Refuses a closed store and a nested transaction. */
    method Begin() returns (ok: bool)
      modifies this
      ensures ok == (!old(closed) && !old(inTransaction))
      ensures state == old(state) && closed == old(closed) && Durable() == old(Durable())
      ensures inTransaction == (ok || old(inTransaction))
    {
      ok := !closed && !inTransaction;
      if ok {
        undo := state;
        inTransaction := true;
      }
    }

    method Commit()
      requires inTransaction
      modifies this
      ensures !inTransaction && state == old(state) && closed == old(closed) && Durable() == old(state)
    {
      inTransaction := false;
    }

    method Rollback()
      requires inTransaction
      modifies this
      ensures !inTransaction && state == old(Durable()) && closed == old(closed) && Durable() == old(Durable())
    {
      state := undo;
      inTransaction := false;
    }

    /** Every other statement: refused once closed, and part of the open transaction if there is one. */
    ghost predicate Wrote(ok: bool, before: Journal, wasClosed: bool, wasOpen: bool, after: Journal)
      reads this
    {
      && ok == !wasClosed && closed == wasClosed && inTransaction == wasOpen
      && state == if ok then after else before
    }

    method SaveTask(tk: TaskKey, task: Task) returns (ok: bool)
      modifies `state
      ensures var j := old(state); Wrote(ok, j, old(closed), old(inTransaction), j.(tasks := j.tasks[tk := task]))
      ensures undo == old(undo)
    {
      ok := !closed;
      if ok { state := state.(tasks := state.tasks[tk := task]); }
    }

    method DeleteTask(tk: TaskKey) returns (ok: bool)
      modifies `state
      ensures var j := old(state); Wrote(ok, j, old(closed), old(inTransaction), j.(tasks := j.tasks - {tk}))
      ensures undo == old(undo)
    {
      ok := !closed;
      if ok { state := state.(tasks := state.tasks - {tk}); }
    }

    method SetExecution(k: RecordKey, r: Record) returns (ok: bool)
      modifies `state
      ensures var j := old(state); Wrote(ok, j, old(closed), old(inTransaction), j.(executions := j.executions[k := r]))
      ensures undo == old(undo)
    {
      ok := !closed;
      if ok { state := state.(executions := state.executions[k := r]); }
    }

    method SetPublication(k: RecordKey, snapshot: Task) returns (ok: bool)
      modifies `state
      ensures var j := old(state); Wrote(ok, j, old(closed), old(inTransaction),
                                         j.(publications := j.publications[k := snapshot]))
      ensures undo == old(undo)
    {
      ok := !closed;
      if ok { state := state.(publications := state.publications[k := snapshot]); }
    }

    /** The attempt and its snapshot, two deletions of one prune. */
    method DeleteAttempt(k: RecordKey) returns (ok: bool)
      modifies `state
      ensures var j := old(state);
        Wrote(ok, j, old(closed), old(inTransaction),
              j.(executions := j.executions - {k}, publications := j.publications - {k}))
      ensures undo == old(undo)
    {
      ok := !closed;
      if ok { state := state.(executions := state.executions - {k}, publications := state.publications - {k}); }
    }

    method SetMessage(k: RecordKey, now: int) returns (ok: bool)
      modifies `state
      ensures var j := old(state); Wrote(ok, j, old(closed), old(inTransaction), j.(messages := j.messages[k := now]))
      ensures undo == old(undo)
    {
      ok := !closed;
      if ok { state := state.(messages := state.messages[k := now]); }
    }

    method SetMapping(c: ContextKey, conversation: string) returns (ok: bool)
      modifies `state
      ensures var j := old(state); Wrote(ok, j, old(closed), old(inTransaction),
                                         j.(mappings := j.mappings[c := conversation]))
      ensures undo == old(undo)
    {
      ok := !closed;
      if ok { state := state.(mappings := state.mappings[c := conversation]); }
    }

    method SetAgent(agentId: string) returns (ok: bool)
      modifies `state
      ensures var j := old(state); Wrote(ok, j, old(closed), old(inTransaction), j.(agentId := Some(agentId)))
      ensures undo == old(undo)
    {
      ok := !closed;
      if ok { state := state.(agentId := Some(agentId)); }
    }

    method SetDomain(domain: string) returns (ok: bool)
      modifies `state
      ensures var j := old(state); Wrote(ok, j, old(closed), old(inTransaction), j.(domain := Some(domain)))
      ensures undo == old(undo)
    {
      ok := !closed;
      if ok { state := state.(domain := Some(domain)); }
    }

    method SetVersion(version: int) returns (ok: bool)
      modifies `state
      ensures var j := old(state); Wrote(ok, j, old(closed), old(inTransaction), j.(version := Some(version)))
      ensures undo == old(undo)
    {
      ok := !closed;
      if ok { state := state.(version := Some(version)); }
    }

    /** Closing twice is fine; closing inside a transaction is refused. */
    method Close() returns (ok: bool)
      modifies `closed
      ensures ok == (old(closed) || !inTransaction)
      ensures closed == (old(closed) || ok)
    {
      ok := closed || !inTransaction;
      if ok { closed := true; }
    }
  }
}
