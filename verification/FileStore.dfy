/**
 * The file context store: lock files with tokens, and read, modify, atomic replace under the write lock.
 *
 * Any number of processes run operations; a step is one file-system call, and a process may die between any
 * two. A lock file left behind stays until an operator, who has made sure that nobody uses it, removes it.
 */
module FileStore {
  import opened Prelude

  /** The lock around every write of the file, and one lock for each key. */
  datatype Path = WriteLock | KeyLock(key: string)

  /** `token` is absent while the file exists but its token is not written; `owner` is who created it (history). */
  datatype LockFile = LockFile(token: Option<nat>, owner: nat)

  datatype Pc =
    | Acquiring                                // opening the lock file exclusively, again and again
    | Created                                  // opened; the token is not written yet
    | Holding                                  // token written: the work runs
    | Loaded(content: map<string, string>)     // the file has been read
    | Staged(content: map<string, string>)     // the temporary file is written
    | Releasing                                // work ended, by success or failure
    | Unlinking                                // the lock file carried the own token when it was read

  /** A write of one key under the write lock, or a key's critical section. */
  datatype Op = Op(path: Path, key: string, value: string, pc: Pc)

  datatype State = State(
    file: map<string, string>,                 // an absent file is an empty map
    locks: map<Path, LockFile>,
    ops: map<nat, Op>,                         // operations of live processes
    used: set<nat>,                            // tokens are never reused
    commits: seq<(string, string)>,            // history: replacements of the file, in order
    stolen: bool)                              // history: a release removed a lock file that was not its own

  const INIT := State(map[], map[], map[], {}, [], false)

  datatype Action =
    | Begin(i: nat, path: Path, key: string, value: string)
    | Create(i: nat)
    | WriteToken(i: nat)
    | ReadFile(i: nat)
    | WriteTemporary(i: nat)
    | Rename(i: nat)
    | EndWork(i: nat)
    | ReadToken(i: nat)
    | Unlink(i: nat)
    | Die(i: nat)
    | Reclaim(path: Path)

  function Move(s: State, i: nat, pc: Pc): State
    requires i in s.ops
  {
    s.(ops := s.ops[i := s.ops[i].(pc := pc)])
  }

  function Drop(s: State, i: nat): State {
    s.(ops := map n | n in s.ops && n != i :: s.ops[n])
  }

  /** An exclusive open succeeds only without a file; otherwise the loop tries again. */
  function Exec(s: State, a: Action): State {
    match a
    case Begin(i, path, key, value) =>
      if i in s.used then s else s.(ops := s.ops[i := Op(path, key, value, Acquiring)], used := s.used + {i})
    case Create(i) =>
      if i !in s.ops || s.ops[i].pc != Acquiring || s.ops[i].path in s.locks then s
      else Move(s, i, Created).(locks := s.locks[s.ops[i].path := LockFile(None, i)])
    case WriteToken(i) =>
      if i !in s.ops || s.ops[i].pc != Created || s.ops[i].path !in s.locks then s
      else Move(s, i, Holding).(locks := s.locks[s.ops[i].path := s.locks[s.ops[i].path].(token := Some(i))])
    case ReadFile(i) =>
      if i !in s.ops || s.ops[i].pc != Holding || s.ops[i].path != WriteLock then s else Move(s, i, Loaded(s.file))
    case WriteTemporary(i) =>
      if i !in s.ops || !s.ops[i].pc.Loaded? then s
      else Move(s, i, Staged(s.ops[i].pc.content[s.ops[i].key := s.ops[i].value]))
    case Rename(i) =>
      if i !in s.ops || !s.ops[i].pc.Staged? then s
      else Move(s, i, Releasing).(file := s.ops[i].pc.content, commits := s.commits + [(s.ops[i].key, s.ops[i].value)])
    case EndWork(i) =>
      if i !in s.ops || !(s.ops[i].pc.Holding? || s.ops[i].pc.Loaded? || s.ops[i].pc.Staged?) then s
      else Move(s, i, Releasing)
    case ReadToken(i) =>
      if i !in s.ops || s.ops[i].pc != Releasing then s
      else if s.ops[i].path in s.locks && s.locks[s.ops[i].path].token == Some(i) then Move(s, i, Unlinking)
      else Drop(s, i)
    case Unlink(i) =>
      if i !in s.ops || s.ops[i].pc != Unlinking then s
      else
        var path := s.ops[i].path;
        Drop(s, i).(locks := s.locks - {path},
                    stolen := s.stolen || (path in s.locks && s.locks[path].token != Some(i)))
    case Die(i) => Drop(s, i)
    case Reclaim(path) =>
      if path in s.locks && s.locks[path].owner !in s.ops then s.(locks := s.locks - {path}) else s
  }

  function Run(actions: seq<Action>): State {
    if actions == [] then INIT else Exec(Run(actions[..|actions| - 1]), actions[|actions| - 1])
  }

  /** What the committed writes add up to. */
  function Fold(commits: seq<(string, string)>): map<string, string> {
    if commits == [] then map[]
    else
      var last := commits[|commits| - 1];
      Fold(commits[..|commits| - 1])[last.0 := last.1]
  }

  // ----- the invariant -----

  predicate Owns(pc: Pc) {
    !pc.Acquiring?
  }

  predicate OpOk(s: State, i: nat)
    requires i in s.ops
  {
    var op := s.ops[i];
    && i in s.used
    && (Owns(op.pc) ==> op.path in s.locks && s.locks[op.path].owner == i
                        && (s.locks[op.path].token == if op.pc.Created? then None else Some(i)))
    && (op.pc.Loaded? ==> op.path == WriteLock && op.pc.content == s.file)
    && (op.pc.Staged? ==> op.path == WriteLock && op.pc.content == s.file[op.key := op.value])
  }

  ghost predicate Inv(s: State) {
    && (forall i :: i in s.ops ==> OpOk(s, i))
    && s.file == Fold(s.commits) && !s.stolen
  }

  lemma StepKeeps(s: State, a: Action)
    requires Inv(s)
    ensures Inv(Exec(s, a))
  {
    var t := Exec(s, a);
    FileKeeps(s, a);
    hide Exec, Fold, OpOk;
    forall i | i in t.ops ensures OpOk(t, i) {
      if i in s.ops { assert OpOk(s, i); }
      if !a.Reclaim? && a.i in s.ops { assert OpOk(s, a.i); }
      OpStays(s, a, i);
    }
  }

  lemma FileKeeps(s: State, a: Action)
    requires s.file == Fold(s.commits) && !s.stolen && (!a.Reclaim? && a.i in s.ops ==> OpOk(s, a.i))
    ensures Exec(s, a).file == Fold(Exec(s, a).commits) && !Exec(s, a).stolen
  {
    var t := Exec(s, a);
    if a.Rename? && t.commits != s.commits {
      assert t.commits[..|t.commits| - 1] == s.commits;
    }
  }

  lemma OpStays(s: State, a: Action, i: nat)
    requires i in Exec(s, a).ops && (i in s.ops ==> OpOk(s, i))
    requires !a.Reclaim? && a.i in s.ops ==> OpOk(s, a.i)
    ensures OpOk(Exec(s, a), i)
  {
  }

  lemma {:induction false} RunKeeps(actions: seq<Action>)
    ensures Inv(Run(actions))
  {
    hide Inv, Exec;
    if actions != [] {
      RunKeeps(actions[..|actions| - 1]);
      StepKeeps(Run(actions[..|actions| - 1]), actions[|actions| - 1]);
    } else {
      InitOk();
    }
  }

  lemma InitOk()
    ensures Inv(INIT)
  {
  }

  // ----- what holds over every run -----

  /**
   * Whatever dies and whoever interleaves, the file is the fold of the committed writes in the order of their locks.
   */
  lemma Serialisable(actions: seq<Action>)
    ensures Run(actions).file == Fold(Run(actions).commits)
  {
    RunKeeps(actions);
  }

  /** No committed write is lost: the last one to a key is what a read without any lock sees. */
  lemma LastWriteWins(actions: seq<Action>, n: nat)
    requires var s := Run(actions); n < |s.commits| && forall m :: n < m < |s.commits| ==>
      s.commits[m].0 != s.commits[n].0
    ensures var s := Run(actions); s.commits[n].0 in s.file && s.file[s.commits[n].0] == s.commits[n].1
  {
    hide Run, Fold;
    Serialisable(actions);
    FoldLast(Run(actions).commits, n);
  }

  /** And nothing that was not committed, whatever died between staging and replacement. */
  lemma OnlyWritten(actions: seq<Action>, key: string)
    ensures var s := Run(actions); key in s.file <==> exists n :: 0 <= n < |s.commits| && s.commits[n].0 == key
  {
    hide Run, Fold;
    Serialisable(actions);
    FoldKeys(Run(actions).commits, key);
  }

  lemma {:induction false} FoldLast(commits: seq<(string, string)>, n: nat)
    requires n < |commits| && forall m :: n < m < |commits| ==> commits[m].0 != commits[n].0
    ensures commits[n].0 in Fold(commits) && Fold(commits)[commits[n].0] == commits[n].1
  {
    if n < |commits| - 1 { FoldLast(commits[..|commits| - 1], n); }
  }

  lemma {:induction false} FoldKeys(commits: seq<(string, string)>, key: string)
    ensures key in Fold(commits) <==> exists n :: 0 <= n < |commits| && commits[n].0 == key
  {
    if commits != [] {
      var init := commits[..|commits| - 1];
      FoldKeys(init, key);
      if n :| 0 <= n < |init| && init[n].0 == key { assert commits[n].0 == key; }
      if n :| 0 <= n < |commits| && commits[n].0 == key && n < |init| { assert init[n].0 == key; }
    }
  }

  /** Two operations never hold the lock of one path at once. */
  lemma OneHolder(actions: seq<Action>, i: nat, n: nat)
    requires var s := Run(actions);
      i in s.ops && n in s.ops && Owns(s.ops[i].pc) && Owns(s.ops[n].pc) && s.ops[i].path == s.ops[n].path
    ensures i == n
  {
    RunKeeps(actions);
    assert OpOk(Run(actions), i) && OpOk(Run(actions), n);
  }

  /** A release removes only a lock file that carries its own token, although it reads and removes in two steps. */
  lemma ReleasesOnlyItsOwn(actions: seq<Action>, i: nat)
    requires var s := Run(actions); i in s.ops && s.ops[i].pc.Unlinking?
    ensures var s := Run(actions);
      && s.ops[i].path in s.locks && s.locks[s.ops[i].path].token == Some(i) && !Run(actions + [Unlink(i)]).stolen
  {
    RunKeeps(actions);
    assert OpOk(Run(actions), i);
    RunKeeps(actions + [Unlink(i)]);
  }

  /** A lock file without its token, or of a dead process, keeps everyone else out until it is removed by hand. */
  lemma OrphanFailsClosed(s: State, path: Path, a: Action)
    requires Inv(s) && path in s.locks && s.locks[path].owner !in s.ops && !a.Reclaim?
    ensures path in Exec(s, a).locks && Exec(s, a).locks[path] == s.locks[path]
  {
    if !a.Begin? && !a.Reclaim? && a.i in s.ops { assert OpOk(s, a.i); }
  }

  // ----- the store as its methods run -----

  /** What a process finds on disk: the file, and the lock files with their tokens. */
  datatype Disk = Disk(file: map<string, string>, locks: map<Path, Option<nat>>)

  /** The first attempt that finds no lock file. */
  ghost predicate FreeAt(world: seq<Disk>, path: Path, n: nat) {
    n < |world| && path !in world[n].locks && forall m :: 0 <= m < n ==> path in world[m].locks
  }

  class Store {
    var disk: Disk

    constructor (disk: Disk)
      ensures this.disk == disk
    {
      this.disk := disk;
    }

    /** The retry loop. `world[n]` is the disk at the n-th exclusive open; the loop ends with it, by an abort. */
    method Acquire(path: Path, token: nat, world: seq<Disk>) returns (held: bool)
      modifies this
      ensures held <==> exists n: nat :: FreeAt(world, path, n)
      ensures held ==>
        exists n: nat :: FreeAt(world, path, n) && disk == world[n].(locks := world[n].locks[path := Some(token)])
      ensures !held && world != [] ==> disk == world[|world| - 1]
    {
      held := false;
      for n := 0 to |world|
        invariant !held && forall m :: 0 <= m < n ==> path in world[m].locks
        invariant n > 0 ==> disk == world[n - 1]
      {
        disk := world[n];
        if path !in disk.locks {
          disk := disk.(locks := disk.locks[path := None]);
          disk := disk.(locks := disk.locks[path := Some(token)]);
          held := true;
          assert FreeAt(world, path, n);
          assert disk.locks == world[n].locks[path := Some(token)];
          return;
        }
      }
    }

    /** Removes the lock file only if it still carries the token. */
    method Release(path: Path, token: nat)
      modifies this
      ensures disk == if path in old(disk).locks && old(disk).locks[path] == Some(token)
                      then old(disk).(locks := old(disk).locks - {path}) else old(disk)
    {
      if path !in disk.locks { return; }
      var current := disk.locks[path];
      if current == Some(token) { disk := disk.(locks := disk.locks - {path}); }
    }

    /**
     * Read, modify, replace what the lock was found with; a failed replacement leaves the file. The lock is given back
     * either way.
     */
    method Set(key: string, value: string, token: nat, world: seq<Disk>, replaced: bool) returns (ok: bool)
      modifies this
      ensures ok <==> replaced && exists n: nat :: FreeAt(world, WriteLock, n)
      ensures forall n: nat :: FreeAt(world, WriteLock, n) ==>
        disk == Disk(if ok then world[n].file[key := value] else world[n].file, world[n].locks)
    {
      var held := Acquire(WriteLock, token, world);
      if !held { return false; }
      ghost var n: nat :| FreeAt(world, WriteLock, n)
        && disk == world[n].(locks := world[n].locks[WriteLock := Some(token)]);
      var current := disk.file;
      current := current[key := value];
      if replaced { disk := disk.(file := current); }
      Release(WriteLock, token);
      assert disk.locks == world[n].locks;
      ok := replaced;
    }
  }
}
