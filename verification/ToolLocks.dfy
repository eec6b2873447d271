/**
 * No set of client calls ever waits for one another: a call waits only for locks above all it holds. The
 * machine of `ToolJournal` is run under the file store's write lock, which every write of a record takes
 * and gives back.
 */
module ToolLocks {
  import opened Prelude
  import opened ToolJournal
  import opened ToolJournalProofs
  import opened ToolTheorems

  /** What a call may wait for: the lock of a record, or the write lock of the store's file. */
  datatype Lock = RecordLock(key: Key) | FileLock

  /** Binding below execution below file write. */
  function Rank(l: Lock): nat {
    match l
    case RecordLock(Binding(_, _)) => 0
    case RecordLock(Execution(_, _)) => 1
    case FileLock => 2
  }

  datatype System = System(s: State, writer: Option<nat>)

  datatype Event = TakeFile(i: nat) | Do(a: Action)

  /** The record lock that call i needs before it can go on, if it needs one. */
  function Awaits(s: State, i: nat): Option<Key>
    requires i in s.calls
  {
    var c := s.calls[i];
    if c.pc.Queued? then Some(BindingOf(c))
    else if c.pc.Located? && c.context.Some? then Some(ExecutionOf(c, c.context.value))
    else if c.pc.Relaying? && c.locked.None? && c.record.contextId.Some?
    then Some(ExecutionOf(c, c.record.contextId.value))
    else None
  }

  /** Call i may write a record next. */
  predicate MayWrite(s: State, i: nat)
    requires i in s.calls
  {
    Awaits(s, i).None? && !s.calls[i].pc.Bound? && !s.calls[i].pc.Located?
  }

  /** A write waits for the file lock and gives it back when it is done; everything else runs as it is. */
  function Next(f: System, e: Event): System {
    match e
    case TakeFile(i) =>
      if f.writer.None? && i in f.s.calls && MayWrite(f.s, i) then f.(writer := Some(i)) else f
    case Do(a) =>
      if Exec(f.s, a).store != f.s.store && f.writer != Some(a.i) then f
      else System(Exec(f.s, a), if f.writer == Some(a.i) then None else f.writer)
  }

  function Runs(events: seq<Event>): System {
    if events == [] then System(INIT, None) else Next(Runs(events[..|events| - 1]), events[|events| - 1])
  }

  ghost predicate Comes(f: System) {
    exists events :: Runs(events) == f
  }

  predicate WriterOk(f: System) {
    f.writer.Some? ==> f.writer.value in f.s.calls && MayWrite(f.s, f.writer.value)
  }

  lemma NextOk(f: System, e: Event)
    requires WriterOk(f) && Reachable(f.s)
    ensures WriterOk(Next(f, e)) && Reachable(Next(f, e).s)
  {
    hide Reachable, Exec;
    if e.Do? {
      ReachableInv(f.s);
      StepAlone(f.s, e.a);
      Reach(f.s, e.a);
      hide Inv;
    }
  }

  lemma {:induction false} RunsOk(events: seq<Event>)
    ensures WriterOk(Runs(events)) && Reachable(Runs(events).s)
  {
    if events == [] {
      ReachInit();
    } else {
      RunsOk(events[..|events| - 1]);
      hide Next, WriterOk, Reachable;
      NextOk(Runs(events[..|events| - 1]), events[|events| - 1]);
    }
  }

  lemma ComesOk(f: System)
    requires Comes(f)
    ensures WriterOk(f) && Reachable(f.s) && Inv(f.s)
  {
    hide Runs, WriterOk, Reachable, Inv;
    var events :| Runs(events) == f;
    RunsOk(events);
    ReachableInv(f.s);
  }

  /** The lock that call i waits for, if any: a record's, else the file's if it may write and is not the writer. */
  function Waits(f: System, i: nat): Option<Lock>
    requires i in f.s.calls
  {
    if Awaits(f.s, i).Some? then Some(RecordLock(Awaits(f.s, i).value))
    else if MayWrite(f.s, i) && f.writer != Some(i) then Some(FileLock)
    else None
  }

  predicate Holds(f: System, i: nat, l: Lock) {
    match l
    case RecordLock(key) => key in f.s.locks && f.s.locks[key] == i
    case FileLock => f.writer == Some(i)
  }

  /** The lock that call i waits for is held. */
  ghost predicate Blocked(f: System, i: nat)
    requires i in f.s.calls
  {
    Waits(f, i).Some? && exists n :: Holds(f, n, Waits(f, i).value)
  }

  /**
   * Every acquisition strictly increases the rank, also that of a context learned in mid-invocation and of the file.
   */
  lemma RanksIncrease(f: System, i: nat, held: Lock)
    requires Comes(f) && i in f.s.calls && Waits(f, i).Some? && Holds(f, i, held)
    ensures Rank(held) < Rank(Waits(f, i).value)
  {
    hide Comes;
    ComesOk(f);
    OwnOf(f.s, i);
    if held.RecordLock? { assert LockOk(f.s, held.key); }
  }

  /** Who holds a record's lock is under way; who holds a context's lock waits for no record. */
  lemma HolderMoves(s: State, k: Key)
    requires Inv(s) && k in s.locks
    ensures s.locks[k] in s.calls && (k.Execution? ==> Awaits(s, s.locks[k]).None?)
  {
    assert LockOk(s, k);
    OwnOf(s, s.locks[k]);
  }

  /** Some call waits for no record's lock that is held. */
  lemma RecordsMove(s: State) returns (i: nat)
    requires Inv(s) && s.calls != map[]
    ensures i in s.calls && (Awaits(s, i).Some? ==> Awaits(s, i).value !in s.locks)
  {
    i :| i in s.calls;
    if Awaits(s, i).Some? && Awaits(s, i).value in s.locks {
      var first := Awaits(s, i).value;
      HolderMoves(s, first);
      i := s.locks[first];
      if Awaits(s, i).Some? && Awaits(s, i).value in s.locks {
        var second := Awaits(s, i).value;
        OwnOf(s, i);
        assert LockOk(s, first);
        HolderMoves(s, second);
        i := s.locks[second];
      }
    }
  }

  /** However many calls there are and whatever they wait for, one of them can move. */
  lemma NoDeadlock(f: System)
    requires Comes(f) && f.s.calls != map[]
    ensures exists i :: i in f.s.calls && !Blocked(f, i)
  {
    hide Comes;
    ComesOk(f);
    if f.writer.Some? {
      assert !Blocked(f, f.writer.value);
    } else {
      var i := RecordsMove(f.s);
      assert !Blocked(f, i);
    }
  }
}
