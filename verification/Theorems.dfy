/**
 * What all runs have in common. The agent's log is lawful (`Agent.Run` and `Ledger.KeepsLawfulLog`), and these
 * are theorems about every lawful log: they speak of the actions alone, of what must or must not lie between
 * two of them.
 */
module Theorems {
  import opened Wrappers
  import opened CloudApi
  import opened Backoff
  import opened History
  import opened PgBackRest

  // ------------------------------------------------------------------ restores and passes exclude each other

  lemma {:induction false} LockHolds(site: Site, log: seq<Action>, i: nat, j: nat)
    requires Lawful(site, log) && i < j <= |log| && log[i].RestoreQueued?
    requires forall k :: i < k < j ==> !log[k].RestoreFinished?
    ensures At(site, log, j).m.restorePending
    decreases j
  {
    assert LawfulAt(site, log, j - 1);
    if i + 1 < j {
      LockHolds(site, log, i, j - 1);
    }
  }

  /** No pass starts between the moment a restore is asked for and the moment it has been dealt with. */
  lemma {:induction false} NoPassBeforeRestore(site: Site, log: seq<Action>, i: nat, j: nat)
    requires Lawful(site, log) && i < j < |log|
    requires log[i].RestoreQueued? && log[j].PassStarted?
    ensures exists k :: i < k < j && log[k].RestoreFinished?
  {
    assert LawfulAt(site, log, j);
    if forall k :: i < k < j ==> !log[k].RestoreFinished? {
      LockHolds(site, log, i, j);
      assert false;
    }
  }

  lemma {:induction false} PassRuns(site: Site, log: seq<Action>, i: nat, j: nat)
    requires Lawful(site, log) && i < j <= |log| && log[i].PassStarted?
    requires forall k :: i < k < j ==> !log[k].PassEnded?
    ensures At(site, log, j).m.inPass
    decreases j
  {
    assert LawfulAt(site, log, j - 1);
    if i + 1 < j {
      PassRuns(site, log, i, j - 1);
    }
  }

  /** A pass runs to its end before anything of a restore happens, and before another pass starts. */
  lemma {:induction false} NothingInsidePass(site: Site, log: seq<Action>, i: nat, j: nat)
    requires Lawful(site, log) && i < j < |log| && log[i].PassStarted?
    requires log[j].RestoreQueued? || log[j].RestoreRan? || log[j].RestoreFinished? || log[j].PassStarted?
    ensures exists k :: i < k < j && log[k].PassEnded?
  {
    assert LawfulAt(site, log, j);
    if forall k :: i < k < j ==> !log[k].PassEnded? {
      PassRuns(site, log, i, j);
      assert false;
    }
  }

  lemma {:induction false} PendingWasQueued(site: Site, log: seq<Action>, j: nat) returns (i: nat)
    requires Lawful(site, log) && j <= |log| && At(site, log, j).m.restorePending
    ensures i < j && log[i].RestoreQueued? && forall k :: i < k < j ==> !log[k].RestoreFinished?
    decreases j
  {
    assert LawfulAt(site, log, j - 1);
    if log[j - 1].RestoreQueued? {
      i := j - 1;
    } else {
      i := PendingWasQueued(site, log, j - 1);
    }
  }

  /**
   * A restore runs only on request, never inside a pass, and with none of the containers present whose removal
   * before it succeeded.
   */
  lemma {:induction false} RestoreIsExclusive(site: Site, log: seq<Action>, j: nat) returns (i: nat)
    requires Lawful(site, log) && j < |log| && log[j].RestoreRan?
    ensures i < j && log[i].RestoreQueued?
    ensures forall k :: i < k < j ==> !log[k].RestoreFinished? && !log[k].PassStarted?
    ensures log[j].removed !! log[j].present
  {
    assert LawfulAt(site, log, j);
    i := PendingWasQueued(site, log, j);
    forall k | i < k < j ensures !log[k].PassStarted? {
      if log[k].PassStarted? {
        NoPassBeforeRestore(site, log, i, k);
        assert false;
      }
    }
  }

  // ------------------------------------------------------------------ backoff

  lemma {:induction false} TimeGoesOn(site: Site, log: seq<Action>, i: nat, j: nat)
    requires Lawful(site, log) && i <= j <= |log|
    ensures At(site, log, i).m.now <= At(site, log, j).m.now
    decreases j
  {
    if i < j {
      TimeGoesOn(site, log, i, j - 1);
      assert LawfulAt(site, log, j - 1);
    }
  }

  /** Only clearing it, or a pass, touches an open window. */
  lemma {:induction false} WindowStays(site: Site, log: seq<Action>, i: nat, j: nat)
    requires Lawful(site, log) && i < j <= |log| && log[i].BackedOff?
    requires forall k :: i < k < j ==> !log[k].PassStarted? && !log[k].WindowCleared?
    ensures At(site, log, j).m.backedOff && At(site, log, j).m.notBefore == log[i].at + log[i].window
    ensures At(site, log, j).m.inPass ==> !At(site, log, j).m.passIssued && !At(site, log, j).m.passApplied
    decreases j
  {
    assert LawfulAt(site, log, j - 1);
    if i + 1 < j {
      WindowStays(site, log, i, j - 1);
    }
  }

  lemma {:induction false} FirstPassAfter(log: seq<Action>, i: nat, j: nat) returns (k: nat)
    requires i < j < |log| && log[j].PassStarted?
    ensures i < k <= j && log[k].PassStarted? && forall l :: i < l < k ==> !log[l].PassStarted?
    decreases j
  {
    if l: nat :| i < l < j && log[l].PassStarted? {
      k := FirstPassAfter(log, i, l);
    } else {
      k := j;
    }
  }

  /**
   * After a backoff no pass starts before the window is over, not even for a new generation, unless a force
   * re-check or a recreate was handled in between.
   */
  lemma {:induction false} BackoffIsKept(site: Site, log: seq<Action>, i: nat, j: nat)
    requires Lawful(site, log) && i < j < |log| && log[i].BackedOff? && log[j].PassStarted?
    requires forall k :: i < k < j ==> !log[k].WindowCleared?
    ensures log[i].at + log[i].window <= log[j].at
  {
    var k := FirstPassAfter(log, i, j);
    WindowStays(site, log, i, k);
    assert LawfulAt(site, log, k);
    assert LawfulAt(site, log, j);
    if k < j {
      TimeGoesOn(site, log, k + 1, j);
    }
  }

  /** Failures in a row: since the last issuance, completed pass or teardown. */
  function FailuresSince(log: seq<Action>, i: nat): nat
    requires i <= |log|
  {
    if i == 0 then 0
    else match log[i - 1]
      case BackoffReset => 0
      case WentOffline(_) => 0
      case Applied(_) => 0
      case BackedOff(_, _) => FailuresSince(log, i - 1) + 1
      case _ => FailuresSince(log, i - 1)
  }

  lemma {:induction false} FailuresAreCounted(site: Site, log: seq<Action>, i: nat)
    requires Lawful(site, log) && i <= |log|
    ensures At(site, log, i).m.failures == FailuresSince(log, i)
  {
    if i > 0 {
      assert LawfulAt(site, log, i - 1);
      FailuresAreCounted(site, log, i - 1);
    }
  }

  /** The n-th failure in a row backs off for 30 s doubled n - 1 times, and never for more than 30 min. */
  lemma {:induction false} BackoffClosedForm(site: Site, log: seq<Action>, i: nat)
    requires Lawful(site, log) && i < |log| && log[i].BackedOff?
    ensures log[i].window == Min(30 * Pow2(FailuresSince(log, i)), 1800)
  {
    assert LawfulAt(site, log, i);
    FailuresAreCounted(site, log, i);
    OpenBacked(log[i].window, FailuresSince(log, i) + 1);
    WindowClosedForm(BackoffBase, BackoffCap, FailuresSince(log, i) + 1);
  }

  lemma {:induction false} BackedOffUntilPass(site: Site, log: seq<Action>, i: nat, j: nat)
    requires Lawful(site, log) && i < j <= |log| && log[i].BackedOff?
    requires forall k :: i < k < j ==> !log[k].PassStarted?
    ensures At(site, log, j).m.backedOff
    decreases j
  {
    assert LawfulAt(site, log, j - 1);
    if i + 1 < j {
      BackedOffUntilPass(site, log, i, j - 1);
    }
  }

  /** A pass backs off once at most, whether it was throttled or has failed. */
  lemma {:induction false} OneBackoffPerPass(site: Site, log: seq<Action>, i: nat, j: nat)
    requires Lawful(site, log) && i < j < |log| && log[i].BackedOff? && log[j].BackedOff?
    ensures exists k :: i < k < j && log[k].PassStarted?
  {
    assert LawfulAt(site, log, j);
    if forall k :: i < k < j ==> !log[k].PassStarted? {
      BackedOffUntilPass(site, log, i, j);
      assert false;
    }
  }

  lemma {:induction false} BackedOffSince(site: Site, log: seq<Action>, i: nat, j: nat)
    requires Lawful(site, log) && LastPass(log, i, j)
    ensures At(site, log, j).m.backedOff <==> exists k :: i < k < j && log[k].BackedOff?
    decreases j
  {
    if i + 1 < j {
      BackedOffSince(site, log, i, j - 1);
      if log[j - 1].BackedOff? {
        assert At(site, log, j).m.backedOff;
      }
    }
  }

  lemma {:induction false} FailureStays(site: Site, log: seq<Action>, e: nat, j: nat)
    requires Lawful(site, log) && e < j <= |log| && log[e].PassEnded?
    requires forall k :: e < k < j ==> !log[k].PassStarted?
    ensures At(site, log, j).m.lastFailed <==> log[e].end.FailedAt?
    ensures !At(site, log, j).m.inPass
    decreases j
  {
    assert LawfulAt(site, log, j - 1);
    if e + 1 < j {
      FailureStays(site, log, e, j - 1);
    }
  }

  /** Between a pass and the next the agent backs off if and only if the pass failed or was throttled. */
  lemma {:induction false} BackoffHasItsCause(site: Site, log: seq<Action>, i: nat, e: nat, j: nat)
    requires Lawful(site, log) && i < e < j < |log|
    requires LastPass(log, i, j) && log[e].PassEnded? && log[j].PassStarted?
    ensures (exists k :: i < k < j && log[k].BackedOff?)
       <==> (log[e].end.FailedAt? || log[e].end == BlockedOn(OnRateLimit))
  {
    assert LawfulAt(site, log, e) && LawfulAt(site, log, j);
    BackedOffSince(site, log, i, e);
    FailureStays(site, log, e, j);
    BackedOffSince(site, log, i, j);
    if k: nat :| e < k < j && log[k].BackedOff? {
      assert LawfulAt(site, log, k);
      FailureStays(site, log, e, k);
    }
  }

  /**
   * An instance: a restore is asked for, the removal of Postgres fails, and the restore starts beside it.
   */
  lemma {:induction false} RestoreBesideLeftover(site: Site, log: seq<Action>, s: State)
    returns (log': seq<Action>, s': State)
    requires Lawful(site, log) && At(site, log, |log|) == s && !s.m.inPass
    ensures log' == log + [RestoreQueued, RestoreRan({CoreServer, Commerce}, {Postgres})]
    ensures Lawful(site, log') && At(site, log', |log'|) == s'
  {
    log', s' := Then(site, log, s, RestoreQueued);
    log', s' := Then(site, log', s', RestoreRan({CoreServer, Commerce}, {Postgres}));
  }

  // ------------------------------------------------------------------ backups

  lemma {:induction false} BaseWasTaken(site: Site, log: seq<Action>, j: nat) returns (i: nat)
    requires Lawful(site, log) && j <= |log| && At(site, log, j).m.base
    ensures i < j && log[i].BackupTried? && log[i].kind.Full? && log[i].ok
    ensures forall k :: i < k < j ==> !log[k].BackupsOff?
    decreases j
  {
    assert LawfulAt(site, log, j - 1);
    if log[j - 1].BackupTried? && log[j - 1].kind.Full? && log[j - 1].ok {
      i := j - 1;
    } else {
      i := BaseWasTaken(site, log, j - 1);
    }
  }

  /** Every scheduled or manual backup has a full one to build on, taken since backups were last off. */
  lemma {:induction false} EveryBackupHasABase(site: Site, log: seq<Action>, j: nat) returns (i: nat)
    requires Lawful(site, log) && j < |log| && log[j].BackupTried?
    requires log[j].trigger.Scheduled? || log[j].trigger.Manual?
    ensures i < j && log[i].BackupTried? && log[i].kind.Full? && log[i].ok
    ensures forall k :: i < k < j ==> !log[k].BackupsOff?
  {
    assert LawfulAt(site, log, j);
    i := BaseWasTaken(site, log, j);
  }

  /** Archiving never runs without a base backup. */
  lemma {:induction false} ArchivingHasABase(site: Site, log: seq<Action>, i: nat)
    requires Lawful(site, log) && i <= |log|
    ensures At(site, log, i).m.archiving ==> At(site, log, i).m.base
  {
    if i > 0 {
      ArchivingHasABase(site, log, i - 1);
      assert LawfulAt(site, log, i - 1);
    }
  }

  /** What ends a period of archiving: a stop, switching backups off, or the handover to an external database. */
  predicate EndsPeriod(a: Action) {
    a.WentOffline? || a == BackupsOff(false) || a.HandoverDue?
  }

  lemma {:induction false} PeriodGoesOn(site: Site, log: seq<Action>, i: nat, j: nat)
    requires Lawful(site, log) && i < j <= |log| && log[i].ArchivingOn?
    requires forall k :: i < k < j ==> !EndsPeriod(log[k])
    ensures At(site, log, j).m.archiving && !At(site, log, j).m.handover
    ensures forall k :: i < k < j ==> !TriesFinal(log[k])
    decreases j
  {
    assert LawfulAt(site, log, j - 1);
    if i + 1 < j {
      PeriodGoesOn(site, log, i, j - 1);
    }
  }

  /** A final backup is owed only within a pass over an external database. */
  lemma {:induction false} OwedInPass(site: Site, log: seq<Action>, j: nat)
    requires Lawful(site, log) && j <= |log|
    ensures var s := At(site, log, j);
            s.m.handover ==>
              s.m.inPass && s.c.current.Some? && !s.c.current.value.stopped && s.c.current.value.DbExternal()
  {
    if j > 0 {
      OwedInPass(site, log, j - 1);
      assert LawfulAt(site, log, j - 1);
    }
  }

  /** After a stop, or after backups were switched off, no final backup is attempted until archiving is on again. */
  lemma {:induction false} NoFinalBackupAfterStop(site: Site, log: seq<Action>, e: nat, j: nat)
    requires Lawful(site, log) && e < j <= |log| && (log[e].WentOffline? || log[e] == BackupsOff(false))
    requires forall k :: e < k < j ==> !log[k].ArchivingOn?
    ensures !At(site, log, j).m.archiving && !At(site, log, j).m.handover
    ensures forall k :: e < k < j ==> !TriesFinal(log[k])
    decreases j
  {
    assert LawfulAt(site, log, j - 1);
    if e + 1 < j {
      NoFinalBackupAfterStop(site, log, e, j - 1);
    } else {
      OwedInPass(site, log, e);
    }
  }

  lemma {:induction false} FirstEnd(log: seq<Action>, i: nat, k: nat) returns (e: nat)
    requires i < k < |log| && EndsPeriod(log[k])
    ensures i < e <= k && EndsPeriod(log[e]) && forall l :: i < l < e ==> !EndsPeriod(log[l])
    decreases k
  {
    if l: nat :| i < l < k && EndsPeriod(log[l]) {
      e := FirstEnd(log, i, l);
    } else {
      e := k;
    }
  }

  /**
   * From managed to external: when a pass over an external database comes to its pruning, the last period of
   * archiving has ended, and a final full backup was attempted since it began if and only if the handover is what
   * ended it. It is skipped exactly when the deployment was stopped, or backups were switched off, first.
   */
  lemma {:induction false} FinalBackupBeforePruning(site: Site, log: seq<Action>, i: nat, p: nat, j: nat)
    returns (e: nat)
    requires Lawful(site, log) && i < j < |log| && log[i].ArchivingOn?
    requires RunsFrom(log, p, j) && log[p].ds.DbExternal() && log[j].PassEnded? && CameToPruning(log[j].end)
    requires forall k :: i < k < j ==> !log[k].ArchivingOn?
    ensures i < e < j && EndsPeriod(log[e]) && forall k :: i < k < e ==> !EndsPeriod(log[k])
    ensures (exists k :: i < k < j && TriesFinal(log[k])) <==> log[e].HandoverDue?
  {
    assert LawfulAt(site, log, j);
    var p' := RunningPass(site, log, j);
    assert p' == p;
    if forall k :: i < k < j ==> !EndsPeriod(log[k]) {
      PeriodGoesOn(site, log, i, j);
      assert false;
    }
    var k: nat :| i < k < j && EndsPeriod(log[k]);
    e := FirstEnd(log, i, k);
    PeriodGoesOn(site, log, i, e);
    if log[e].HandoverDue? {
      if forall k :: e < k < j ==> !TriesFinal(log[k]) {
        HandoverIsOwed(site, log, e, j);
        assert false;
      }
    } else {
      NoFinalBackupAfterStop(site, log, e, j);
    }
  }

  lemma {:induction false} SamePrefix(site: Site, log: seq<Action>, a: Action, i: nat)
    requires i <= |log|
    ensures At(site, log + [a], i) == At(site, log, i)
  {
    if i > 0 {
      SamePrefix(site, log, a, i - 1);
      assert (log + [a])[i - 1] == log[i - 1];
    }
  }

  /** One more allowed action. */
  lemma {:induction false} Then(site: Site, log: seq<Action>, s: State, a: Action)
    returns (log': seq<Action>, s': State)
    requires Lawful(site, log) && At(site, log, |log|) == s && Allowed(site, s.m, s.c, a)
    ensures log' == log + [a] && s' == Next(s, a)
    ensures Lawful(site, log') && At(site, log', |log'|) == s'
  {
    log', s' := log + [a], Next(s, a);
    forall i: nat | i < |log'| ensures LawfulAt(site, log', i) {
      SamePrefix(site, log, a, i);
      if i < |log| {
        assert LawfulAt(site, log, i) && log'[i] == log[i];
      }
    }
    SamePrefix(site, log, a, |log|);
  }

  /** A verified state without an edge of its own. */
  predicate Carries(key: string, signed: SignedDesiredState, generation: int) {
    && VerifyDeployment(key, signed) && signed.payload.decoded.Some?
    && signed.payload.decoded.value.generation == generation && !signed.payload.decoded.value.ManagedEdge()
  }

  /** Between passes at time 0, with no error and nothing pending. */
  predicate Idle(s: State, applied: int, archiving: bool) {
    && !s.m.inPass && !s.m.restorePending && !s.m.lastFailed && s.m.now == 0 && s.m.notBefore == 0 && !s.m.handover
    && s.c.marked == {} && s.m.applied == applied && s.m.archiving == archiving
  }

  /** A pass over `ds`, begun at time 0, that nothing holds up. */
  predicate Underway(s: State, ds: DesiredState, migrations: nat, archiving: bool) {
    && Passing(s.m, s.c, ds.stopped) && s.c.current == Some(ds) && !s.m.backedOff && !s.m.handover
    && !s.m.restorePending && s.m.now == 0 && s.m.notBefore == 0 && s.c.marked == {}
    && s.m.migrations == migrations && s.m.archiving == archiving
  }

  /** The log goes on, without a final backup. */
  predicate GoesOn(log: seq<Action>, log': seq<Action>) {
    log <= log' && forall k :: |log| <= k < |log'| ==> !TriesFinal(log'[k])
  }

  /** A state is pushed, and a pass over it begins. */
  lemma {:induction false} Begins(site: Site, log: seq<Action>, s: State, signed: SignedDesiredState, archiving: bool)
    returns (log': seq<Action>, s': State)
    requires Lawful(site, log) && At(site, log, |log|) == s && Idle(s, s.m.applied, archiving)
    requires Carries(site.key, signed, s.m.applied + 1)
    ensures GoesOn(log, log') && Underway(s', signed.payload.decoded.value, 0, archiving)
    ensures Lawful(site, log') && At(site, log', |log'|) == s' && s'.m.base == s.m.base
  {
    log', s' := Then(site, log, s, Received(signed));
    log', s' := Then(site, log', s', PassStarted(signed.payload.decoded.value, 0, {}));
  }

  lemma {:induction false} MigratesBoth(site: Site, log: seq<Action>, s: State, ds: DesiredState, archiving: bool)
    returns (log': seq<Action>, s': State)
    requires Lawful(site, log) && At(site, log, |log|) == s && Underway(s, ds, 0, archiving) && !ds.stopped
    ensures GoesOn(log, log')
    ensures Lawful(site, log') && At(site, log', |log'|) == s' && Underway(s', ds, 2, archiving)
  {
    log', s' := Then(site, log, s, Migrated(CoreMigrate));
    log', s' := Then(site, log', s', Migrated(CommerceMigrate));
  }

  lemma {:induction false} AppliesAndEnds(site: Site, log: seq<Action>, s: State, ds: DesiredState, archiving: bool)
    returns (log': seq<Action>, s': State, p: nat)
    requires Lawful(site, log) && At(site, log, |log|) == s && Underway(s, ds, 2, archiving)
    requires !ds.stopped && !ds.ManagedEdge() && (ds.DbExternal() ==> !archiving)
    ensures GoesOn(log, log') && |log'| == |log| + 2 && log'[|log| + 1] == PassEnded(Complete)
    ensures RunsFrom(log', p, |log| + 1) && log'[p].ds == ds
    ensures Lawful(site, log') && At(site, log', |log'|) == s' && Idle(s', ds.generation, archiving)
  {
    log', s' := Then(site, log, s, Applied(ds.generation));
    p := RunningPass(site, log', |log'|);
    log', s' := Then(site, log', s', PassEnded(Complete));
  }

  /** The agent starts, and a managed database comes up with its backups. */
  lemma {:induction false} BackupsComeUp(site: Site, signed: SignedDesiredState)
    returns (log: seq<Action>, s: State, i: nat)
    requires Carries(site.key, signed, 1)
    requires !signed.payload.decoded.value.stopped && signed.payload.decoded.value.Backups()
    ensures Lawful(site, log) && At(site, log, |log|) == s && Idle(s, 1, true)
    ensures GoesOn([], log) && i < |log| && log[i] == ArchivingOn
  {
    var ds := signed.payload.decoded.value;
    log, s := Begins(site, [], Init(site), signed, false);
    i := |log| + 1;
    log, s := ArchivingStarts(site, log, s, ds);
    log, s := MigratesBoth(site, log, s, ds, true);
    var p;
    log, s, p := AppliesAndEnds(site, log, s, ds, true);
  }

  lemma {:induction false} ArchivingStarts(site: Site, log: seq<Action>, s: State, ds: DesiredState)
    returns (log': seq<Action>, s': State)
    requires Lawful(site, log) && At(site, log, |log|) == s && Underway(s, ds, 0, false)
    requires !ds.stopped && ds.Backups() && !s.m.base
    ensures GoesOn(log, log') && |log'| == |log| + 2 && log'[|log| + 1] == ArchivingOn
    ensures Lawful(site, log') && At(site, log', |log'|) == s' && Underway(s', ds, 0, true)
  {
    log', s' := Then(site, log, s, BackupTried(Full, Initial, true));
    log', s' := Then(site, log', s', ArchivingOn);
  }

  lemma {:induction false} StopsAndEnds(site: Site, log: seq<Action>, s: State, ds: DesiredState)
    returns (log': seq<Action>, s': State)
    requires Lawful(site, log) && At(site, log, |log|) == s && Underway(s, ds, 0, true) && ds.stopped
    ensures GoesOn(log, log')
    ensures Lawful(site, log') && At(site, log', |log'|) == s' && Idle(s', ds.generation, false)
  {
    log', s' := Then(site, log, s, WentOffline(ds.generation));
    log', s' := Then(site, log', s', PassEnded(TornDown));
  }

  lemma {:induction false} SwitchesOff(site: Site, log: seq<Action>, s: State, ds: DesiredState)
    returns (log': seq<Action>, s': State)
    requires Lawful(site, log) && At(site, log, |log|) == s && Underway(s, ds, 0, false) && !ds.stopped
    requires ds.DbExternal()
    ensures GoesOn(log, log')
    ensures Lawful(site, log') && At(site, log', |log'|) == s' && Underway(s', ds, 0, false)
  {
    log', s' := Then(site, log, s, BackupsOff(true));
  }

  /** Stopped, and then switched to an external database while it is down. */
  lemma {:induction false} StopsThenSwitches(site: Site, log: seq<Action>, s: State, stopped: SignedDesiredState,
                                             external: SignedDesiredState)
    returns (log': seq<Action>, s': State)
    requires Lawful(site, log) && At(site, log, |log|) == s && Idle(s, 1, true)
    requires Carries(site.key, stopped, 2) && Carries(site.key, external, 3) && stopped.payload.decoded.value.stopped
    requires !external.payload.decoded.value.stopped && external.payload.decoded.value.DbExternal()
    ensures Lawful(site, log') && At(site, log', |log'|) == s' && GoesOn(log, log')
    ensures Underway(s', external.payload.decoded.value, 0, false)
  {
    log', s' := Begins(site, log, s, stopped, true);
    log', s' := StopsAndEnds(site, log', s', stopped.payload.decoded.value);
    log', s' := Begins(site, log', s', external, false);
    log', s' := SwitchesOff(site, log', s', external.payload.decoded.value);
  }

  /**
   * An instance: a deployment with backups on is stopped, switched to an external database while it is down, and
   * started. The pass over the external database completes without a final backup.
   */
  lemma {:induction false} StoppedFirstSkipsTheFinalBackup(site: Site, managed: SignedDesiredState,
                                                           stopped: SignedDesiredState,
                                                           external: SignedDesiredState)
    returns (log: seq<Action>, i: nat, p: nat, j: nat)
    requires Carries(site.key, managed, 1) && Carries(site.key, stopped, 2) && Carries(site.key, external, 3)
    requires !managed.payload.decoded.value.stopped && managed.payload.decoded.value.Backups()
    requires stopped.payload.decoded.value.stopped
    requires !external.payload.decoded.value.stopped && external.payload.decoded.value.DbExternal()
    ensures Lawful(site, log) && i < j < |log| && log[i].ArchivingOn? && log[j] == PassEnded(Complete)
    ensures RunsFrom(log, p, j) && log[p].ds.DbExternal()
    ensures forall k :: 0 <= k < |log| ==> !TriesFinal(log[k])
  {
    var s;
    log, s, i := BackupsComeUp(site, managed);
    log, s := StopsThenSwitches(site, log, s, stopped, external);
    log, s := MigratesBoth(site, log, s, external.payload.decoded.value, false);
    j := |log| + 1;
    log, s, p := AppliesAndEnds(site, log, s, external.payload.decoded.value, false);
  }

  lemma {:induction false} HandoverEndsArchiving(site: Site, log: seq<Action>, i: nat)
    requires Lawful(site, log) && i <= |log|
    ensures At(site, log, i).m.handover ==> !At(site, log, i).m.archiving
  {
    if i > 0 {
      HandoverEndsArchiving(site, log, i - 1);
      assert LawfulAt(site, log, i - 1);
    }
  }

  lemma {:induction false} NothingOwedAfterFinal(site: Site, log: seq<Action>, i: nat, j: nat)
    requires Lawful(site, log) && i < j <= |log| && TriesFinal(log[i])
    requires forall k :: i < k < j ==> !log[k].ArchivingOn?
    ensures !At(site, log, j).m.archiving && !At(site, log, j).m.handover
    decreases j
  {
    assert LawfulAt(site, log, j - 1);
    if i + 1 < j {
      NothingOwedAfterFinal(site, log, i, j - 1);
    } else {
      HandoverEndsArchiving(site, log, i);
    }
  }

  /** A period of archiving has one final backup at most, however often the pass is retried. */
  lemma {:induction false} OneFinalBackupPerPeriod(site: Site, log: seq<Action>, i: nat, j: nat)
    requires Lawful(site, log) && i < j < |log| && TriesFinal(log[i]) && TriesFinal(log[j])
    ensures exists k :: i < k < j && log[k].ArchivingOn?
  {
    assert LawfulAt(site, log, j);
    if forall k :: i < k < j ==> !log[k].ArchivingOn? {
      NothingOwedAfterFinal(site, log, i, j);
      assert false;
    }
  }

  lemma {:induction false} HandoverIsOwed(site: Site, log: seq<Action>, i: nat, j: nat)
    requires Lawful(site, log) && i < j <= |log| && log[i].HandoverDue?
    requires forall k :: i < k < j ==> !TriesFinal(log[k])
    ensures At(site, log, j).m.handover
    decreases j
  {
    if i + 1 < j {
      HandoverIsOwed(site, log, i, j - 1);
    }
  }

  /** A handover that has begun has its final backup attempted before the pass ends, however it ends. */
  lemma {:induction false} HandoverIsFinished(site: Site, log: seq<Action>, i: nat, j: nat)
    requires Lawful(site, log) && i < j < |log| && log[i].HandoverDue? && log[j].PassEnded?
    ensures exists k :: i < k < j && TriesFinal(log[k])
  {
    assert LawfulAt(site, log, j);
    if forall k :: i < k < j ==> !TriesFinal(log[k]) {
      HandoverIsOwed(site, log, i, j);
      assert false;
    }
  }

  // ------------------------------------------------------------------ generations and reports

  /** The generation last applied, as the log has it. */
  function LastApplied(log: seq<Action>, i: nat): int
    requires i <= |log|
  {
    if i == 0 then 0
    else if Applies(log[i - 1]) then log[i - 1].generation
    else LastApplied(log, i - 1)
  }

  lemma {:induction false} AppliedIsLast(site: Site, log: seq<Action>, i: nat)
    requires Lawful(site, log) && i <= |log|
    ensures At(site, log, i).m.applied == LastApplied(log, i)
  {
    if i > 0 {
      AppliedIsLast(site, log, i - 1);
    }
  }

  /** The pass that is running at `j`. */
  ghost predicate RunsFrom(log: seq<Action>, i: nat, j: nat) {
    && i < j <= |log| && log[i].PassStarted?
    && forall k :: i < k < j ==> !log[k].PassStarted? && !log[k].PassEnded?
  }

  /** The pass that is running at `j`, or else the last one before it. */
  ghost predicate LastPass(log: seq<Action>, i: nat, j: nat) {
    && i < j <= |log| && log[i].PassStarted?
    && forall k :: i < k < j ==> !log[k].PassStarted?
  }

  lemma {:induction false} RunningPass(site: Site, log: seq<Action>, j: nat) returns (i: nat)
    requires Lawful(site, log) && j <= |log| && At(site, log, j).m.inPass
    ensures RunsFrom(log, i, j)
    ensures At(site, log, j).c.current == Some(log[i].ds) && At(site, log, j).c.force == log[i].force
    decreases j
  {
    assert LawfulAt(site, log, j - 1);
    if log[j - 1].PassStarted? {
      i := j - 1;
    } else {
      i := RunningPass(site, log, j - 1);
    }
  }

  lemma {:induction false} EndedGrows(site: Site, log: seq<Action>, i: nat, j: nat)
    requires i <= j <= |log|
    ensures At(site, log, i).m.ended.value <= At(site, log, j).m.ended.value
    decreases j
  {
    if i < j {
      EndedGrows(site, log, i, j - 1);
    }
  }

  /** The number of passes that ended before `j`. */
  function EndsBefore(log: seq<Action>, j: nat): nat
    requires j <= |log|
  {
    if j == 0 then 0 else EndsBefore(log, j - 1) + (if log[j - 1].PassEnded? then 1 else 0)
  }

  lemma {:induction false} EndsAreCounted(site: Site, log: seq<Action>, j: nat)
    requires j <= |log|
    ensures |At(site, log, j).m.ended.value| == EndsBefore(log, j)
  {
    if j > 0 {
      EndsAreCounted(site, log, j - 1);
    }
  }

  /** The end of a pass is counted among the ended ones, in order, with what it worked on and was to rebuild. */
  lemma {:induction false} EndIsCounted(site: Site, log: seq<Action>, i: nat, j: nat)
    requires Lawful(site, log) && j < |log| && RunsFrom(log, i, j) && log[j].PassEnded?
    ensures var ended, k := At(site, log, |log|).m.ended.value, EndsBefore(log, j);
            k < |ended| && ended[k] == Ended(Some(log[i].ds), log[i].force, log[j].end)
  {
    assert LawfulAt(site, log, j);
    var i' := RunningPass(site, log, j);
    assert i' == i;
    EndsAreCounted(site, log, j);
    EndedGrows(site, log, j + 1, |log|);
    assert At(site, log, j + 1).m.ended.value[EndsBefore(log, j)] == Ended(Some(log[i].ds), log[i].force, log[j].end);
  }

  /** A generation counts as applied only through a pass over a desired state of that generation. */
  lemma {:induction false} AppliedByItsPass(site: Site, log: seq<Action>, j: nat) returns (i: nat)
    requires Lawful(site, log) && j < |log| && Applies(log[j])
    ensures RunsFrom(log, i, j) && log[j].generation == log[i].ds.generation
    ensures log[j].WentOffline? <==> log[i].ds.stopped
  {
    assert LawfulAt(site, log, j);
    i := RunningPass(site, log, j);
  }

  lemma {:induction false} AppliedInPass(site: Site, log: seq<Action>, i: nat, j: nat)
    requires Lawful(site, log) && LastPass(log, i, j)
    ensures At(site, log, j).m.passApplied <==> exists k :: i < k < j && Applies(log[k])
    decreases j
  {
    if i + 1 < j {
      AppliedInPass(site, log, i, j - 1);
      if Applies(log[j - 1]) {
        assert At(site, log, j).m.passApplied;
      }
    }
  }

  /** A pass has applied its generation if and only if it ended complete or torn down: no blocked or failed one has. */
  lemma {:induction false} AppliedIffCompleted(site: Site, log: seq<Action>, i: nat, j: nat)
    requires Lawful(site, log) && j < |log| && RunsFrom(log, i, j) && log[j].PassEnded?
    ensures (log[j].end.Complete? || log[j].end.TornDown?) <==> exists k :: i < k < j && Applies(log[k])
  {
    assert LawfulAt(site, log, j);
    AppliedInPass(site, log, i, j);
  }

  /** The desired state last received, as the log has it. */
  function LastReceived(log: seq<Action>, i: nat): Option<DesiredState>
    requires i <= |log|
  {
    if i == 0 then None
    else if log[i - 1].Received? then log[i - 1].signed.payload.decoded
    else LastReceived(log, i - 1)
  }

  lemma {:induction false} DesiredIsLast(site: Site, log: seq<Action>, i: nat)
    requires Lawful(site, log) && i <= |log|
    ensures At(site, log, i).c.desired == LastReceived(log, i)
  {
    if i > 0 {
      DesiredIsLast(site, log, i - 1);
    }
  }

  /** Whether a restore is due or under way, as the log has it. */
  predicate RestoreDue(log: seq<Action>, i: nat)
    requires i <= |log|
  {
    i > 0 && (log[i - 1].RestoreQueued? || (!log[i - 1].RestoreFinished? && RestoreDue(log, i - 1)))
  }

  lemma {:induction false} PendingIsDue(site: Site, log: seq<Action>, i: nat)
    requires Lawful(site, log) && i <= |log|
    ensures At(site, log, i).m.restorePending <==> RestoreDue(log, i)
  {
    if i > 0 {
      PendingIsDue(site, log, i - 1);
    }
  }

  /**
   * Outside a pass a report carries the generation last applied; inside one it can also carry the generation of
   * that pass, and is then not Ready. Ready is never said during a pass, and, unless a restore is due, only of
   * the generation last received.
   */
  lemma {:induction false} ReportsAreSound(site: Site, log: seq<Action>, j: nat)
    requires Lawful(site, log) && j < |log| && log[j].Reported?
    ensures log[j].generation == LastApplied(log, j)
         || (!log[j].ready && exists i: nat :: RunsFrom(log, i, j) && log[i].ds.generation == log[j].generation)
    ensures log[j].ready ==> forall i: nat :: !RunsFrom(log, i, j)
    ensures log[j].ready && LastReceived(log, j).Some? && !RestoreDue(log, j) ==>
              log[j].generation == LastReceived(log, j).value.generation == LastApplied(log, j)
  {
    assert LawfulAt(site, log, j);
    AppliedIsLast(site, log, j);
    DesiredIsLast(site, log, j);
    PendingIsDue(site, log, j);
    if At(site, log, j).m.inPass {
      var i := RunningPass(site, log, j);
    }
    if log[j].ready {
      forall i: nat | RunsFrom(log, i, j) ensures false {
        PassRuns(site, log, i, j);
      }
    }
  }

  /** The last state received at `j`. */
  ghost predicate ReceivedLast(log: seq<Action>, i: nat, j: nat) {
    && i < j <= |log| && log[i].Received?
    && forall k :: i < k < j ==> !log[k].Received?
  }

  lemma {:induction false} ReceiptOf(log: seq<Action>, j: nat) returns (i: nat)
    requires j <= |log| && LastReceived(log, j).Some?
    ensures ReceivedLast(log, i, j) && log[i].signed.payload.decoded == LastReceived(log, j)
    decreases j
  {
    if log[j - 1].Received? {
      i := j - 1;
    } else {
      i := ReceiptOf(log, j - 1);
    }
  }

  /** Every pass works on the decoding of the last bytes received, and those were signed with the trusted key. */
  lemma {:induction false} OnlySignedStatesAreApplied(site: Site, log: seq<Action>, j: nat) returns (i: nat)
    requires Lawful(site, log) && j < |log| && log[j].PassStarted?
    ensures ReceivedLast(log, i, j) && log[i].signed.payload.decoded == Some(log[j].ds)
    ensures VerifyDeployment(site.key, log[i].signed)
  {
    assert LawfulAt(site, log, j);
    DesiredIsLast(site, log, j);
    i := ReceiptOf(log, j);
    assert LawfulAt(site, log, i);
  }

  // ------------------------------------------------------------------ when passes run

  /** The end of the last pass that has ended. */
  function LastEnd(log: seq<Action>, i: nat): Option<PassEnd>
    requires i <= |log|
  {
    if i == 0 then None else if log[i - 1].PassEnded? then Some(log[i - 1].end) else LastEnd(log, i - 1)
  }

  lemma {:induction false} FailureIsLastEnd(site: Site, log: seq<Action>, i: nat)
    requires Lawful(site, log) && i <= |log|
    ensures At(site, log, i).m.lastFailed <==> LastEnd(log, i).Some? && LastEnd(log, i).value.FailedAt?
  {
    if i > 0 {
      FailureIsLastEnd(site, log, i - 1);
    }
  }

  lemma {:induction false} LastPassTime(site: Site, log: seq<Action>, i: nat, j: nat)
    requires Lawful(site, log) && LastPass(log, i, j)
    ensures At(site, log, j).m.lastPassAt == Some(log[i].at)
    decreases j
  {
    if i + 1 < j {
      LastPassTime(site, log, i, j - 1);
    }
  }

  /**
   * A pass that follows another without a new generation and without an error keeps the resync interval, and so
   * do the rebuilds asked for: a recreate or a force re-check clears the backoff window but does not open the gate.
   */
  lemma {:induction false} QuietPassesAreSpaced(site: Site, log: seq<Action>, i: nat, j: nat)
    requires Lawful(site, log) && j < |log| && LastPass(log, i, j) && log[j].PassStarted?
    requires log[j].ds.generation == LastApplied(log, j)
    requires LastEnd(log, j).Some? && !LastEnd(log, j).value.FailedAt?
    ensures log[j].at - log[i].at >= 300
  {
    assert LawfulAt(site, log, j);
    AppliedIsLast(site, log, j);
    FailureIsLastEnd(site, log, j);
    LastPassTime(site, log, i, j);
  }

  // ------------------------------------------------------------------ recreate requests

  /** `n` was taken off the queue and no pass has started since. */
  ghost predicate Waiting(log: seq<Action>, j: nat, n: Name) {
    exists i: nat :: WaitsSince(log, i, j, n)
  }

  ghost predicate WaitsSince(log: seq<Action>, i: nat, j: nat, n: Name) {
    && i < j <= |log| && log[i] == RecreateTaken(n)
    && forall k :: i < k < j ==> !log[k].PassStarted?
  }

  lemma WaitingStep(log: seq<Action>, j: nat, n: Name)
    requires j < |log|
    ensures Waiting(log, j + 1, n) <==> log[j] == RecreateTaken(n) || (!log[j].PassStarted? && Waiting(log, j, n))
  {
    if log[j] == RecreateTaken(n) {
      assert WaitsSince(log, j, j + 1, n);
    }
    if Waiting(log, j, n) && !log[j].PassStarted? {
      var i: nat :| WaitsSince(log, i, j, n);
      assert WaitsSince(log, i, j + 1, n);
    }
    if Waiting(log, j + 1, n) && log[j] != RecreateTaken(n) {
      var i: nat :| WaitsSince(log, i, j + 1, n);
      assert WaitsSince(log, i, j, n);
    }
  }

  lemma {:induction false} MarkedIsWaiting(site: Site, log: seq<Action>, j: nat, n: Name)
    requires Lawful(site, log) && j <= |log|
    ensures n in At(site, log, j).c.marked <==> Waiting(log, j, n)
  {
    if j > 0 {
      MarkedIsWaiting(site, log, j - 1, n);
      WaitingStep(log, j - 1, n);
    }
  }

  /**
   * A pass is told to rebuild exactly the services taken off the queue since the last pass began: none is lost or
   * repeated.
   */
  lemma {:induction false} RecreatesAreDelivered(site: Site, log: seq<Action>, j: nat)
    requires Lawful(site, log) && j < |log| && log[j].PassStarted?
    ensures forall n :: n in log[j].force <==> Waiting(log, j, n)
  {
    assert LawfulAt(site, log, j);
    forall n ensures n in log[j].force <==> Waiting(log, j, n) {
      MarkedIsWaiting(site, log, j, n);
    }
  }

  // ------------------------------------------------------------------ migrations

  lemma {:induction false} MigrationsDone(site: Site, log: seq<Action>, i: nat, j: nat)
    requires Lawful(site, log) && RunsFrom(log, i, j)
    ensures At(site, log, j).m.inPass
    ensures At(site, log, j).m.migrations >= 1 ==> exists a: nat :: i < a < j && log[a] == Migrated(CoreMigrate)
    ensures At(site, log, j).m.migrations >= 2 ==>
              exists a: nat, b: nat :: i < a < b < j && log[a] == Migrated(CoreMigrate)
                  && log[b] == Migrated(CommerceMigrate)
    decreases j
  {
    if i + 1 < j {
      MigrationsDone(site, log, i, j - 1);
      assert LawfulAt(site, log, j - 1);
      if log[j - 1].Migrated? {
        if At(site, log, j - 1).m.migrations == 0 {
          assert log[j - 1] == Migrated(CoreMigrate);
        } else {
          var a: nat :| i < a < j - 1 && log[a] == Migrated(CoreMigrate);
          assert i < a < j - 1 < j && log[j - 1] == Migrated(CommerceMigrate);
        }
      }
    }
  }

  /**
   * A pass that completed, or got as far as Gitea or a service, has in that very pass run core's migration and
   * then commerce's to success.
   */
  lemma {:induction false} MigrationsComeFirst(site: Site, log: seq<Action>, i: nat, j: nat)
    requires Lawful(site, log) && j < |log| && RunsFrom(log, i, j)
    requires log[j].PassEnded? && AfterMigrations(log[j].end)
    ensures exists a: nat, b: nat :: i < a < b < j && log[a] == Migrated(CoreMigrate)
              && log[b] == Migrated(CommerceMigrate)
  {
    assert LawfulAt(site, log, j);
    MigrationsDone(site, log, i, j);
  }

  // ------------------------------------------------------------------ certificate first

  lemma {:induction false} IssuedInPass(site: Site, log: seq<Action>, i: nat, j: nat)
    requires Lawful(site, log) && LastPass(log, i, j) && At(site, log, j).m.passIssued
    ensures exists k :: i < k < j && Issues(log[k])
    decreases j
  {
    if i + 1 < j && !Issues(log[j - 1]) {
      IssuedInPass(site, log, i, j - 1);
    }
  }

  /** With a managed edge a pass goes beyond acme-dns only after the wildcard was issued in that very pass. */
  lemma {:induction false} EveryPassIsCertFirst(site: Site, log: seq<Action>, i: nat, j: nat)
    requires Lawful(site, log) && j < |log| && RunsFrom(log, i, j)
    requires log[j].PassEnded? && WentBeyond(log[j].end) && log[i].ds.ManagedEdge()
    ensures exists k :: i < k < j && Issues(log[k])
  {
    assert LawfulAt(site, log, j);
    var i' := RunningPass(site, log, j);
    assert i' == i;
    IssuedInPass(site, log, i, j);
  }

  lemma {:induction false} IssuedBefore(site: Site, log: seq<Action>, j: nat)
    requires Lawful(site, log) && j <= |log|
    ensures At(site, log, j).m.issued <==> exists k :: 0 <= k < j && Issues(log[k])
  {
    if j > 0 {
      IssuedBefore(site, log, j - 1);
      if Issues(log[j - 1]) {
        assert At(site, log, j).m.issued;
      }
    }
  }

  /** A pass that asks for app containers has a managed edge in front of them. */
  predicate EdgeComesFirst(a: Action) {
    a.PassStarted? ==> a.ds.stopped || a.ds.ManagedEdge()
  }

  lemma {:induction false} EdgeFirstSoFar(site: Site, log: seq<Action>, j: nat)
    requires Lawful(site, log) && j <= |log|
    requires site.clean && forall k :: 0 <= k < j ==> EdgeComesFirst(log[k])
    ensures At(site, log, j).m.edgeFirst
  {
    if j > 0 {
      EdgeFirstSoFar(site, log, j - 1);
      assert EdgeComesFirst(log[j - 1]);
    }
  }
}
