/** Reopening after a crash at any step, what recovery tells, and what a complete close means. */
module BridgeReopen {
  import opened Prelude
  import opened A2A
  import opened Journal
  import opened JournalProofs
  import opened Bridge
  import opened BridgeInvariant
  import opened BridgeSteps
  import opened BridgeLife
  import opened BridgeTheorems

  // ----- reopening -----

  lemma ExecLifeIs(home: Home, s: State, a: Action)
    requires LifeAction(a)
    ensures Exec(home, s, a) == ExecLife(s, a)
  {
    hide ExecBeforeSend, ExecTurn, ExecEnding, ExecHandler, ExecTask, ExecLife, ExecClosing;
  }

  lemma Opens(home: Home, s: State, lim: Limits)
    requires s.life.Dead? && Validates(s.j)
    ensures var t := Exec(home, s, Open(lim));
      t.life == Recovering(s.j.executions.Keys) && t.j == s.j.(version := Some(1))
  {
    ExecLifeIs(home, s, Open(lim));
    hide Exec, Validates;
  }

  lemma Recovers(home: Home, s: State, k: RecordKey, stamp: Stamp)
    requires s.life.Recovering? && k in s.life.todo && k in s.j.executions && RecoverOne(s.j, k, stamp).Ok?
    ensures Exec(home, s, Recover(k, stamp)) ==
      s.(j := RecoverOne(s.j, k, stamp).value, life := Recovering(s.life.todo - {k}))
  {
    ExecLifeIs(home, s, Recover(k, stamp));
    hide Exec, RecoverOne;
  }

  lemma OpenOk(home: Home, s: State, lim: Limits)
    requires Inv(home, s) && s.life.Dead?
    ensures var t := Exec(home, s, Open(lim));
      && Validates(s.j) && t.life == Recovering(s.j.executions.Keys) && t.j == s.j.(version := Some(1))
      && Inv(home, t)
  {
    hide *;
    JournalOf(home, s);
    Validated(home, s.j);
    Opens(home, s, lim);
    StepKeeps(home, s, Open(lim));
  }

  /** Whatever run a crash ended, with whatever limits the next process chooses, its journal is accepted. */
  lemma ReopenAccepted(home: Home, s: State, lim: Limits)
    requires Reachable(home, s) && s.life.Dead?
    ensures var t := Exec(home, s, Open(lim));
      Validates(s.j) && t.life == Recovering(s.j.executions.Keys) && t.j == s.j.(version := Some(1))
  {
    hide *;
    ReachableInv(home, s);
    OpenOk(home, s, lim);
  }

  lemma RecoveryOk(home: Home, s: State, k: RecordKey, stamp: Stamp)
    requires Inv(home, s) && s.life.Recovering? && k in s.life.todo
    ensures var t := Exec(home, s, Recover(k, stamp));
      && k in s.j.executions && RecoverOne(s.j, k, stamp).Ok?
      && t == s.(j := RecoverOne(s.j, k, stamp).value, life := Recovering(s.life.todo - {k})) && Inv(home, t)
  {
    hide *;
    RecoveringOk(home, s, k);
    RecoverOneKeeps(home, s.j, k, stamp);
    Recovers(home, s, k, stamp);
    StepKeeps(home, s, Recover(k, stamp));
  }

  lemma RecoveringOk(home: Home, s: State, k: RecordKey)
    requires Inv(home, s) && s.life.Recovering? && k in s.life.todo
    ensures k in s.j.executions && JournalOk(home, s.j)
  {
  }

  /** No attempt can strand recovery. */
  lemma RecoveryNeverFails(home: Home, s: State, k: RecordKey, stamp: Stamp)
    requires Reachable(home, s) && s.life.Recovering? && k in s.life.todo
    ensures k in s.j.executions && RecoverOne(s.j, k, stamp).Ok?
    ensures Exec(home, s, Recover(k, stamp)) ==
      s.(j := RecoverOne(s.j, k, stamp).value, life := Recovering(s.life.todo - {k}))
  {
    hide *;
    ReachableInv(home, s);
    RecoveryOk(home, s, k, stamp);
  }

  function Recoveries(keys: seq<RecordKey>, stamps: RecordKey -> Stamp): seq<Action> {
    if keys == [] then []
    else Recoveries(keys[..|keys| - 1], stamps) + [Recover(keys[|keys| - 1], stamps(keys[|keys| - 1]))]
  }

  /** The process has done what one pass of recovery over these keys does. */
  ghost predicate Passed(j: Journal, s: State, keys: seq<RecordKey>, stamps: RecordKey -> Stamp) {
    && RecoverAll(j, keys, stamps) == Ok(s.j)
    && s.life.Recovering? && forall k :: k in s.life.todo <==> k in j.executions && k !in keys
  }

  /** Visiting each attempt once does to the journal what one pass of recovery does. */
  lemma {:induction false} RecoveriesRun(home: Home, s: State, keys: seq<RecordKey>, stamps: RecordKey -> Stamp)
    requires Inv(home, s) && s.life == Recovering(s.j.executions.Keys)
    requires forall k :: k in keys ==> k in s.j.executions
    requires forall i, n :: 0 <= i < n < |keys| ==> keys[i] != keys[n]
    ensures Passed(s.j, Run(home, s, Recoveries(keys, stamps)), keys, stamps)
  {
    hide Run, RecoverOne, Inv;
    if keys == [] {
      assert Run(home, s, []) == s by { RunNone(home, s); }
    } else {
      var init, last := keys[..|keys| - 1], keys[|keys| - 1];
      assert keys == init + [last] && last !in init;
      hide RecoverAll, Passed;
      RecoveriesRun(home, s, init, stamps);
      RunKeeps(home, s, Recoveries(init, stamps));
      RunSnoc(home, s, Recoveries(init, stamps), Recover(last, stamps(last)));
      JournalOf(home, s);
      RecoveriesStep(home, s.j, Run(home, s, Recoveries(init, stamps)), init, last, stamps);
    }
  }

  lemma RunNone(home: Home, s: State)
    ensures Run(home, s, []) == s
  {
    hide Exec;
  }

  lemma RecoveriesStep(home: Home, j: Journal, s: State, init: seq<RecordKey>, last: RecordKey,
                       stamps: RecordKey -> Stamp)
    requires last in j.executions && last !in init && forall k :: k in init ==> k in j.executions
    requires Passed(j, s, init, stamps) && JournalOk(home, j) && Inv(home, s)
    ensures Passed(j, Exec(home, s, Recover(last, stamps(last))), init + [last], stamps)
  {
    hide Exec, RecoverAll, RecoverOne, JournalOk, Inv;
    RecoveryOk(home, s, last, stamps(last));
    RecoverSnoc(home, j, init, last, stamps);
  }

  lemma RecoverSnoc(home: Home, j: Journal, keys: seq<RecordKey>, last: RecordKey, stamps: RecordKey -> Stamp)
    requires JournalOk(home, j) && last in j.executions && forall k :: k in keys ==> k in j.executions
    ensures var init := RecoverAll(j, keys, stamps);
      && init.Ok? && last in init.value.executions
      && RecoverAll(j, keys + [last], stamps) == RecoverOne(init.value, last, stamps(last))
  {
    KeyedAll(home, j);
    hide JournalOk, RecoverOne, RecoverAll;
    RecoverAllKeeps(home, j, keys, stamps);
    RecoverAllSettles(j, keys, stamps);
    RecoverAllConcat(home, j, keys, [last], stamps);
    var init := RecoverAll(j, keys, stamps).value;
    RecoverOneKeeps(home, init, last, stamps(last));
    RecoverLast(init, last, stamps);
  }

  lemma KeyedAll(home: Home, j: Journal)
    requires JournalOk(home, j)
    ensures forall k :: k in j.executions ==> j.executions[k].id == k
  {
  }

  lemma RecoverLast(j: Journal, k: RecordKey, stamps: RecordKey -> Stamp)
    requires k in j.executions && RecoverOne(j, k, stamps(k)).Ok?
    ensures RecoverAll(j, [k], stamps) == RecoverOne(j, k, stamps(k))
  {
    assert [k][1..] == [];
  }

  /** A new process opens the journal, visits these attempts and finishes opening. */
  ghost function Reopen(home: Home, s: State, lim: Limits, keys: seq<RecordKey>, stamps: RecordKey -> Stamp): State {
    Exec(home, Run(home, Exec(home, s, Open(lim)), Recoveries(keys, stamps)), FinishOpen)
  }

  lemma ReopenOk(home: Home, s: State, lim: Limits, keys: seq<RecordKey>, stamps: RecordKey -> Stamp)
    requires s.life.Dead? && forall k :: k in keys <==> k in s.j.executions
    requires forall i, n :: 0 <= i < n < |keys| ==> keys[i] != keys[n]
    requires Inv(home, s)
    ensures var t := Reopen(home, s, lim, keys, stamps);
      && t.life.Detached? && RecoverAll(s.j.(version := Some(1)), keys, stamps) == Ok(t.j)
      && t.j.executions.Keys == s.j.executions.Keys
      && forall k :: k in t.j.executions ==> Recovered(t.j.executions[k])
  {
    var begun := Exec(home, s, Open(lim));
    hide Exec, Run, RecoverAll, Recoveries, Recovered, JournalOk, Inv;
    OpenOk(home, s, lim);
    RecoveriesRun(home, begun, keys, stamps);
    assert Run(home, begun, Recoveries(keys, stamps)).life == Recovering({});
    FinishesOpening(home, Run(home, begun, Recoveries(keys, stamps)));
    JournalOf(home, begun);
    KeyedAll(home, begun.j);
    RecoverAllSettles(begun.j, keys, stamps);
  }

  /**
   * Reopening succeeds and settles everything: from the journal any run leaves behind, opening, visiting
   * every attempt in any order and finishing leaves a process that may attach, whose journal is the one
   * a pass of recovery writes; each attempt is done, or unresolved with a snapshot.
   */
  lemma ReopenCompletes(home: Home, s: State, lim: Limits, keys: seq<RecordKey>, stamps: RecordKey -> Stamp)
    requires Reachable(home, s) && s.life.Dead?
    requires forall k :: k in keys <==> k in s.j.executions
    requires forall i, n :: 0 <= i < n < |keys| ==> keys[i] != keys[n]
    ensures var t := Reopen(home, s, lim, keys, stamps);
      && t.life.Detached? && RecoverAll(s.j.(version := Some(1)), keys, stamps) == Ok(t.j)
      && t.j.executions.Keys == s.j.executions.Keys
      && forall k :: k in t.j.executions ==> Recovered(t.j.executions[k])
  {
    hide *;
    ReachableInv(home, s);
    ReopenOk(home, s, lim, keys, stamps);
  }

  lemma FinishesOpening(home: Home, s: State)
    requires s.life == Recovering({})
    ensures Exec(home, s, FinishOpen) == s.(life := Detached)
  {
    ExecLifeIs(home, s, FinishOpen);
    hide Exec;
  }

  /** One recovery that a crash cuts short: its limits, how many attempts it visited, its clock and ids. */
  datatype Cut = Cut(lim: Limits, visited: nat, stamps: RecordKey -> Stamp)

  /** What a process leaves that dies in its recovery. */
  ghost function Died(home: Home, s: State, keys: seq<RecordKey>, cut: Cut): State
    requires cut.visited <= |keys|
  {
    Exec(home, Run(home, Exec(home, s, Open(cut.lim)), Recoveries(keys[..cut.visited], cut.stamps)), Crash)
  }

  /** What any number of them leave, one after the other. */
  ghost function AllDied(home: Home, s: State, keys: seq<RecordKey>, cuts: seq<Cut>): State
    requires forall c :: c in cuts ==> c.visited <= |keys|
    decreases |cuts|
  {
    if cuts == [] then s else AllDied(home, Died(home, s, keys, cuts[0]), keys, cuts[1..])
  }

  /** The stamp of the first pass that reached each attempt. */
  function FirstStamps(keys: seq<RecordKey>, cuts: seq<Cut>, last: RecordKey -> Stamp): RecordKey -> Stamp
    requires forall c :: c in cuts ==> c.visited <= |keys|
    decreases |cuts|
  {
    if cuts == [] then last else Mixed(keys[..cuts[0].visited], cuts[0].stamps, FirstStamps(keys, cuts[1..], last))
  }

  /**
   * Reopening converges: crash any number of times, each time after any number of recovery transactions,
   * reopen with other limits, clocks and fresh ids, and in the end the journal is the one an undisturbed
   * pass writes, each attempt with the stamp of the pass that repaired it.
   */
  lemma ReopenConverges(home: Home, s: State, keys: seq<RecordKey>, cuts: seq<Cut>, again: Limits,
                        last: RecordKey -> Stamp)
    requires Reachable(home, s) && s.life.Dead? && forall c :: c in cuts ==> c.visited <= |keys|
    requires forall k :: k in keys <==> k in s.j.executions
    requires forall i, n :: 0 <= i < n < |keys| ==> keys[i] != keys[n]
    ensures var t := Reopen(home, AllDied(home, s, keys, cuts), again, keys, last);
      && t.life.Detached?
      && RecoverAll(s.j.(version := Some(1)), keys, FirstStamps(keys, cuts, last)) == Ok(t.j)
  {
    hide *;
    ReachableInv(home, s);
    ConvergesFrom(home, s, keys, cuts, again, last);
  }

  lemma {:induction false} ConvergesFrom(home: Home, s: State, keys: seq<RecordKey>, cuts: seq<Cut>, again: Limits,
                                         last: RecordKey -> Stamp)
    requires s.life.Dead? && forall c :: c in cuts ==> c.visited <= |keys|
    requires forall k :: k in keys <==> k in s.j.executions
    requires forall i, n :: 0 <= i < n < |keys| ==> keys[i] != keys[n]
    requires Inv(home, s)
    ensures var t := Reopen(home, AllDied(home, s, keys, cuts), again, keys, last);
      && t.life.Detached?
      && RecoverAll(s.j.(version := Some(1)), keys, FirstStamps(keys, cuts, last)) == Ok(t.j)
    decreases |cuts|
  {
    hide Inv, Reopen, Died, RecoverAll, Mixed;
    if cuts == [] {
      ReopenOk(home, s, again, keys, last);
    } else {
      var down := Died(home, s, keys, cuts[0]);
      DiedOk(home, s, keys, cuts[0], FirstStamps(keys, cuts[1..], last));
      ConvergesFrom(home, down, keys, cuts[1..], again, last);
    }
  }

  /** A pass cut short changes nothing about where a later pass ends, but for the stamps. */
  lemma DiedOk(home: Home, s: State, keys: seq<RecordKey>, cut: Cut, later: RecordKey -> Stamp)
    requires s.life.Dead? && cut.visited <= |keys|
    requires forall k :: k in keys <==> k in s.j.executions
    requires forall i, n :: 0 <= i < n < |keys| ==> keys[i] != keys[n]
    requires Inv(home, s)
    ensures var t := Died(home, s, keys, cut);
      && t.life.Dead? && t.j.executions.Keys == s.j.executions.Keys && Inv(home, t)
      && RecoverAll(t.j.(version := Some(1)), keys, later)
         == RecoverAll(s.j.(version := Some(1)), keys, Mixed(keys[..cut.visited], cut.stamps, later))
  {
    hide *;
    OpenOk(home, s, cut.lim);
    DiedIs(home, s, keys, cut);
    DiedFrom(home, Exec(home, s, Open(cut.lim)), keys, cut, later);
  }

  lemma DiedIs(home: Home, s: State, keys: seq<RecordKey>, cut: Cut)
    requires cut.visited <= |keys|
    ensures Died(home, s, keys, cut) ==
      Exec(home, Run(home, Exec(home, s, Open(cut.lim)), Recoveries(keys[..cut.visited], cut.stamps)), Crash)
  {
    hide Exec, Run, Recoveries;
  }

  lemma DiedFrom(home: Home, s: State, keys: seq<RecordKey>, cut: Cut, later: RecordKey -> Stamp)
    requires s.life == Recovering(s.j.executions.Keys) && cut.visited <= |keys|
      && forall k :: k in keys <==> k in s.j.executions
    requires forall i, n :: 0 <= i < n < |keys| ==> keys[i] != keys[n]
    requires Inv(home, s)
    ensures var t := Exec(home, Run(home, s, Recoveries(keys[..cut.visited], cut.stamps)), Crash);
      && t.life.Dead? && t.j.executions.Keys == s.j.executions.Keys && Inv(home, t)
      && RecoverAll(t.j.(version := Some(1)), keys, later) ==
         RecoverAll(s.j, keys, Mixed(keys[..cut.visited], cut.stamps, later))
  {
    hide *;
    var t := Exec(home, Run(home, s, Recoveries(keys[..cut.visited], cut.stamps)), Crash);
    CrashedRecovery(home, s, keys[..cut.visited], cut.stamps);
    VersionIs(t.j);
    JournalOf(home, s);
    RecoveryConverges(home, s.j, keys, cut.visited, cut.stamps, later);
  }

  lemma VersionIs(j: Journal)
    requires j.version == Some(1)
    ensures j.(version := Some(1)) == j
  {
  }

  /** What a crash during recovery leaves. */
  lemma CrashedRecovery(home: Home, s: State, keys: seq<RecordKey>, stamps: RecordKey -> Stamp)
    requires s.life == Recovering(s.j.executions.Keys) && forall k :: k in keys ==> k in s.j.executions
    requires forall i, n :: 0 <= i < n < |keys| ==> keys[i] != keys[n]
    requires Inv(home, s)
    ensures var t := Exec(home, Run(home, s, Recoveries(keys, stamps)), Crash);
      && t.life.Dead? && RecoverAll(s.j, keys, stamps) == Ok(t.j) && t.j.executions.Keys == s.j.executions.Keys
      && t.j.version == Some(1) && Inv(home, t)
  {
    var part := Run(home, s, Recoveries(keys, stamps));
    hide Exec, Run, RecoverAll, Recoveries, Recovered, Inv, JournalOk;
    RecoveriesRun(home, s, keys, stamps);
    RunKeeps(home, s, Recoveries(keys, stamps));
    VersionKept(home, part);
    Crashes(home, part);
    StepKeeps(home, part, Crash);
    JournalOf(home, s);
    KeyedAll(home, s.j);
    RecoverAllSettles(s.j, keys, stamps);
  }

  lemma Crashes(home: Home, s: State)
    ensures var t := Exec(home, s, Crash); t.life.Dead? && t.j == s.j
  {
    ExecLifeIs(home, s, Crash);
    hide Exec;
  }

  lemma VersionKept(home: Home, s: State)
    requires !s.life.Dead? && Inv(home, s)
    ensures s.j.version == Some(1)
  {
  }
}
