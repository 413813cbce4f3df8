/**
 * What holds of every pass of every run, and of every state between two inputs (`Agent.Run` keeps `Boundary`
 * over every script).
 */
module Runs {
  import opened Guards
  import opened Wrappers
  import opened CloudApi
  import opened Dockerx
  import opened Drift
  import opened Events
  import opened Specs
  import opened History
  import opened Passes
  import opened Theorems
  import opened Acme
  import Agent

  // ------------------------------------------------------------------ passes

  /** A container that a completed pass would take for its own although it is not. */
  ghost predicate Impostor(me: string, r: PassRecord, n: Name) {
    && n in r.plan && n in r.before && r.before[n].hash == SpecHash(r.plan[n])
    && !Forced(n, r.force) && r.before[n].owner != me
  }

  /**
   * From any starting world: after a completed pass every name of the topology runs with the hash of the spec
   * wanted for it, and the owned names are exactly the topology if and only if there was no impostor.
   */
  lemma CompletePassConverges(me: string, r: PassRecord)
    requires PassLaw(me, r) && r.end.Complete?
    ensures ResolveDBConn(r.ds, r.vault).Some?
    ensures forall n :: n in Topology(r.ds) ==>
              && n in r.after && r.after[n].running
              && n in r.plan && Wanted(n, r.plan[n], r.ds, r.vault, r.token)
              && r.after[n].hash == SpecHash(r.plan[n])
    ensures (forall n :: Owned(r.after, n, me) <==> n in Topology(r.ds)) <==> forall n :: !Impostor(me, r, n)
  {
    OpenPass(me, r);
    OpenPlan(r.plan, r.ds, r.vault, r.token);
    ConvergenceExact(r.before, r.after, r.plan, r.force, me, r.floor);
    assert Redis in r.plan && Wanted(Redis, r.plan[Redis], r.ds, r.vault, r.token) && PlanGuard(0);
    if forall n :: !Impostor(me, r, n) {
      forall n | n in r.plan && n in r.before && r.before[n].hash == SpecHash(r.plan[n]) && !Forced(n, r.force)
        ensures r.before[n].owner == me
      {
        assert !Impostor(me, r, n);
      }
    }
    if forall n :: Owned(r.after, n, me) <==> n in Topology(r.ds) {
      assert InPlace(r.after, r.plan, me);
      forall n ensures !Impostor(me, r, n) {
      }
    }
  }

  /** Between two passes containers have at most been stopped. */
  ghost predicate OnlyStopped(w: World, w': World) {
    forall n :: Get(w', n) == Get(w, n) || (n in w && n in w' && w'[n] == w[n].(running := false))
  }

  /**
   * Idempotence: a completed pass, with no impostor, followed by another one over the same desired state,
   * secrets and token with nothing to rebuild, leaves every container of the topology the one the first pass left,
   * also those that were stopped in between, which are started in place. No other container changes, but for the
   * migration one-shots.
   */
  lemma SecondPassIsIdle(me: string, p: PassRecord, q: PassRecord)
    requires PassLaw(me, p) && PassLaw(me, q) && p.end.Complete? && q.end.Complete?
    requires p.ds == q.ds && p.vault == q.vault && p.token == q.token && OnlyStopped(p.after, q.before)
    requires forall n :: !Impostor(me, p, n)
    requires forall n :: n in Topology(q.ds) ==> !Forced(n, q.force)
    ensures forall n :: !OneShot(n) ==>
              Get(q.after, n) == if n in Topology(q.ds) then Get(p.after, n) else Get(q.before, n)
  {
    OpenPass(me, p);
    OpenPass(me, q);
    SamePlan(p.plan, q.plan, p.ds, p.vault, p.token);
    CompletePassConverges(me, p);
    assert InPlace(p.after, p.plan, me);
    forall n | !OneShot(n)
      ensures Get(q.after, n) == if n in Topology(q.ds) then Get(p.after, n) else Get(q.before, n)
    {
      KeptByIdlePass(me, p, q, n);
    }
  }

  lemma KeptByIdlePass(me: string, p: PassRecord, q: PassRecord, n: Name)
    requires p.plan == q.plan && q.plan.Keys == Topology(q.ds) && InPlace(p.after, p.plan, me)
    requires OnlyStopped(p.after, q.before)
    requires Converged(q.before, q.after, q.plan, q.force, me, q.floor) && !OneShot(n)
    requires n in Topology(q.ds) ==> !Forced(n, q.force)
    ensures Get(q.after, n) == if n in Topology(q.ds) then Get(p.after, n) else Get(q.before, n)
  {
    if n in q.plan {
      assert Landed(Get(q.before, n), Get(q.after, n), q.plan[n], Forced(n, q.force), me, q.floor);
      assert p.after[n].running && p.after[n].hash == SpecHash(p.plan[n]);
    }
  }

  /** What was asked to be rebuilt is rebuilt by a completed pass, its spec changed or not; acme-dns never is. */
  lemma RecreatedByCompletePass(me: string, r: PassRecord, n: Name)
    requires PassLaw(me, r) && r.end.Complete? && n in r.force && n in Topology(r.ds) && n != AcmeDns
    ensures n in r.after && r.after[n].owner == me && r.after[n].running
    ensures forall m :: m in r.before ==> r.before[m].id != r.after[n].id
  {
    OpenPass(me, r);
    ForcedIsRebuilt(r.before, r.after, r.plan, r.force, me, r.floor, n);
  }

  lemma AcmeDnsIsFixed(spec: RunSpec, ds: DesiredState, vault: Vault, token: Option<string>)
    requires Wanted(AcmeDns, spec, ds, vault, token)
    ensures spec == AcmeDnsSpec()
  {
    assert PlanGuard(0);
  }

  /** A forced acme-dns that has not drifted stays the container it was. */
  lemma AcmeDnsIsNeverForced(me: string, r: PassRecord)
    requires PassLaw(me, r) && r.end.Complete? && r.ds.ManagedEdge()
    requires AcmeDns in r.before && r.before[AcmeDns].hash == SpecHash(AcmeDnsSpec())
    ensures AcmeDns in r.after && r.after[AcmeDns].id == r.before[AcmeDns].id
  {
    OpenPass(me, r);
    OpenPlan(r.plan, r.ds, r.vault, r.token);
    assert AcmeDns in r.plan;
    AcmeDnsIsFixed(r.plan[AcmeDns], r.ds, r.vault, r.token);
    assert Landed(Get(r.before, AcmeDns), Get(r.after, AcmeDns), r.plan[AcmeDns], Forced(AcmeDns, r.force), me,
                  r.floor);
  }

  /** The pass stopped before its pruning, blocked or failed. */
  predicate StoppedEarly(end: PassEnd) {
    end.BlockedOn? || (end.FailedAt? && !end.stage.PruneStage? && !end.stage.TeardownStage?)
  }

  /**
   * Wherever a pass stops before its pruning, a container it removed or replaced is one of the topology that
   * had drifted or was to be rebuilt, or a migration one-shot. Everything else keeps its identity, and surplus
   * containers survive.
   */
  lemma EarlyStopKeeps(me: string, r: PassRecord, n: Name)
    requires PassLaw(me, r) && StoppedEarly(r.end)
    requires n in r.before && (n !in r.after || r.after[n].id != r.before[n].id)
    ensures OneShot(n) || (
              && n in Topology(r.ds) && ResolveDBConn(r.ds, r.vault).Some?
              && (r.before[n].hash != SpecHash(SpecOf(n, r.ds, r.vault, ResolveDBConn(r.ds, r.vault).value,
                                                      r.token.GetOr("")))
                  || Forced(n, r.force)))
  {
    OpenPass(me, r);
    OpenPlan(r.plan, r.ds, r.vault, r.token);
    if !OneShot(n) {
      EarlyStopIsSafe(r.before, r.after, r.plan, r.force, me, r.floor, n);
      assert Wanted(n, r.plan[n], r.ds, r.vault, r.token) && PlanGuard(0);
    }
  }

  /** A pass that is blocked, or fails before provisioning, touches no app container at all. */
  lemma BlockedPassTouchesNoApp(me: string, r: PassRecord, n: Name)
    requires PassLaw(me, r) && StoppedEarly(r.end) && Agent.AppName(n)
    requires r.end.FailedAt? ==> BeforeContainers(r.end.stage) || r.end.stage.WildcardStage?
    ensures Get(r.after, n) == Get(r.before, n)
  {
    OpenPass(me, r);
    if r.after != r.before {
      assert n !in r.plan.Keys;
      assert Elsewhere(n, Get(r.before, n), Get(r.after, n), me, r.floor);
    }
  }

  /**
   * A pass that fails on its way up has not touched what comes after the stage it failed at. In particular a
   * migration that fails leaves every app service running as it was.
   */
  lemma LaterStagesAreUntouched(me: string, r: PassRecord, n: Name)
    requires PassLaw(me, r) && r.end.FailedAt? && Midway(r.end.stage)
    requires n !in Reach(r.end.stage) && !OneShot(n)
    ensures Get(r.after, n) == Get(r.before, n)
  {
    OpenPass(me, r);
    assert n !in r.plan.Keys;
    assert Elsewhere(n, Get(r.before, n), Get(r.after, n), me, r.floor);
  }

  /** A pass that fails at this stage was at `n`, whose container may be as it was or not. */
  predicate StoppedAt(s: Stage, n: Name) {
    n in OwnOf(s) || (s.BackupStage? && n == Postgres)
  }

  /** A pass that fails at this stage has not come to `n`. */
  predicate NotReached(s: Stage, n: Name) {
    BeforeContainers(s) || s.WildcardStage? || (Midway(s) && n !in Reach(s))
  }

  /**
   * What becomes of a service to be rebuilt when the pass fails, whose request is not put back: unless the pass
   * failed at that very service, it is untouched if and only if the pass had not come to it, and rebuilt otherwise.
   */
  lemma ForcedAtFailure(me: string, r: PassRecord, n: Name)
    requires PassLaw(me, r) && r.end.FailedAt? && !r.end.stage.TeardownStage? && !StoppedAt(r.end.stage, n)
    requires n in r.force && n in Topology(r.ds) && n != AcmeDns && n in r.before
    ensures Get(r.after, n) == Get(r.before, n) <==> NotReached(r.end.stage, n)
    ensures NotReached(r.end.stage, n) || (n in r.after && r.after[n].owner == me && r.after[n].id >= r.floor)
  {
    OpenPass(me, r);
    if NotReached(r.end.stage, n) {
      if r.after != r.before {
        assert n !in r.plan.Keys;
        assert Elsewhere(n, Get(r.before, n), Get(r.after, n), me, r.floor);
      }
    } else {
      assert n in r.plan.Keys;
      assert Landed(Get(r.before, n), Get(r.after, n), r.plan[n], Forced(n, r.force), me, r.floor);
      assert r.before[n].id < r.floor;
    }
  }

  /** A deployment taken down has no container left, but for the one-off inventory reader of its backups. */
  lemma TornDownIsEmpty(me: string, r: PassRecord, n: Name)
    requires PassLaw(me, r) && r.end.TornDown? && Owned(r.after, n, me)
    ensures n == DbInfo && r.ds.Backups()
  {
    OpenPass(me, r);
    assert n != DbInfo || !r.ds.Backups() ==>
      Get(r.after, n) == if Owned(r.before, n, me) then None else Get(r.before, n);
  }

  /** An instance: the inventory reader of a deployment with backups is still there after it was taken down. */
  lemma InventoryReaderCanStay(me: string, ds: DesiredState, reader: Container, vault: Vault) returns (r: PassRecord)
    requires ds.stopped && ds.Backups() && reader.owner == me
    ensures PassLaw(me, r) && r.end.TornDown? && r.ds == ds && r.before == map[] && Owned(r.after, DbInfo, me)
  {
    var start := Start(map[], 0, me, {});
    var w: World := map[DbInfo := reader];
    r := RecordOf(start, ds, TornDown, map[], w, vault, None);
    TakenDown(start, ds, true, w, vault, None);
  }

  // ------------------------------------------------------------------ reachable states

  /** The record of the pass that ends at `j`: the records are in the order of the ends. */
  ghost function RecordAt(a: Agent.Agent, j: nat): PassRecord
    requires j < |a.ledger.log| && EndsBefore(a.ledger.log, j) < |a.book.passes|
    reads a, a.ledger, a.book
  {
    a.book.passes[EndsBefore(a.ledger.log, j)]
  }

  /**
   * Every pass in the log has its record, with the same desired state, the same services to rebuild and the same
   * end, in the same order, and it kept the law of passes. So all of the above holds of it.
   */
  lemma EveryPassKeptTheLaw(a: Agent.Agent, i: nat, j: nat)
    requires a.Boundary()
    requires j < |a.ledger.log| && RunsFrom(a.ledger.log, i, j) && a.ledger.log[j].PassEnded?
    ensures EndsBefore(a.ledger.log, j) < |a.book.passes| && PassLaw(a.dx.deploymentID, RecordAt(a, j))
    ensures RecordAt(a, j).ds == a.ledger.log[i].ds && RecordAt(a, j).force == a.ledger.log[i].force
    ensures RecordAt(a, j).end == a.ledger.log[j].end
  {
    a.OpenInv();
    a.ledger.KeepsLawfulLog();
    EndIsCounted(a.ledger.site, a.ledger.log, i, j);
    OpenRecorded(a.book.passes, a.ledger.m.ended);
    a.book.OpenValid();
    var k := EndsBefore(a.ledger.log, j);
    assert a.ledger.m.ended.value[k] == Ended(Some(a.book.passes[k].ds), a.book.passes[k].force, a.book.passes[k].end);
  }

  /** Without being taken down, a pass over an external database loses Postgres to its pruning only. */
  lemma PostgresGoesWithPruning(me: string, r: PassRecord)
    requires PassLaw(me, r) && !r.ds.stopped && r.ds.DbExternal()
    requires Postgres in r.before && Postgres !in r.after
    ensures CameToPruning(r.end)
  {
    OpenPass(me, r);
    OpenPlan(r.plan, r.ds, r.vault, r.token);
    if Postgres in r.plan {
      assert Wanted(Postgres, r.plan[Postgres], r.ds, r.vault, r.token) && PlanGuard(0);
    }
  }

  /**
   * The managed database and its final backup: where a pass over an external database removed Postgres, and
   * archiving was last turned on at `i`, that period ended at `e`, and a final full backup was attempted if and
   * only if the handover is what ended it.
   */
  lemma PostgresGoesAfterItsBackup(a: Agent.Agent, i: nat, p: nat, j: nat) returns (e: nat)
    requires a.Boundary() && j < |a.ledger.log| && RunsFrom(a.ledger.log, p, j) && a.ledger.log[j].PassEnded?
    requires !a.ledger.log[p].ds.stopped && a.ledger.log[p].ds.DbExternal()
    requires EndsBefore(a.ledger.log, j) < |a.book.passes|
    requires Postgres in RecordAt(a, j).before && Postgres !in RecordAt(a, j).after
    requires i < j && a.ledger.log[i].ArchivingOn? && forall k :: i < k < j ==> !a.ledger.log[k].ArchivingOn?
    ensures i < e < j && EndsPeriod(a.ledger.log[e]) && forall k :: i < k < e ==> !EndsPeriod(a.ledger.log[k])
    ensures (exists k :: i < k < j && TriesFinal(a.ledger.log[k])) <==> a.ledger.log[e].HandoverDue?
  {
    EveryPassKeptTheLaw(a, p, j);
    PostgresGoesWithPruning(a.dx.deploymentID, RecordAt(a, j));
    a.OpenInv();
    a.ledger.KeepsLawfulLog();
    e := FinalBackupBeforePruning(a.ledger.site, a.ledger.log, i, p, j);
  }

  /**
   * A pass with a managed edge that changed an app container in any way, and was not taking the stack down, had
   * the wildcard issued in that very pass.
   */
  lemma AppsChangeBehindTheEdge(a: Agent.Agent, i: nat, j: nat, n: Name)
    requires a.Boundary() && j < |a.ledger.log| && RunsFrom(a.ledger.log, i, j) && a.ledger.log[j].PassEnded?
    requires !a.ledger.log[i].ds.stopped && a.ledger.log[i].ds.ManagedEdge() && Agent.AppName(n)
    requires EndsBefore(a.ledger.log, j) < |a.book.passes|
    requires Get(RecordAt(a, j).after, n) != Get(RecordAt(a, j).before, n)
    ensures exists k :: i < k < j && Issues(a.ledger.log[k])
  {
    EveryPassKeptTheLaw(a, i, j);
    var r := RecordAt(a, j);
    if !WentBeyond(r.end) {
      OpenPass(a.dx.deploymentID, r);
      BlockedPassTouchesNoApp(a.dx.deploymentID, r, n);
      assert false;
    }
    a.OpenInv();
    a.ledger.KeepsLawfulLog();
    EveryPassIsCertFirst(a.ledger.site, a.ledger.log, i, j);
  }

  /** The restore lock is held exactly while a restore is queued. */
  lemma LockIsQueue(a: Agent.Agent)
    requires a.Boundary()
    ensures a.restoring <==> |a.restoreQ| == 1
    ensures a.restoring <==> RestoreDue(a.ledger.log, |a.ledger.log|)
  {
    a.OpenInv();
    a.ledger.KeepsLawfulLog();
    PendingIsDue(a.ledger.site, a.ledger.log, |a.ledger.log|);
  }

  /** The block flags agree with each other, and with what is told to the operator. */
  lemma FlagsAgree(a: Agent.Agent)
    requires a.Boundary()
    ensures a.blocked == (a.awaitingSecretStore || a.awaitingDns)
    ensures !(a.awaitingDns && a.rateLimited)
    ensures a.acmeDelegation.Some? ==> a.awaitingDns || a.rateLimited
  {
    a.OpenInv();
  }

  /**
   * Pre-flighting over a whole run: once an account is persisted, a later call was made with the delegation seen
   * live if and only if the target was remembered or the account file could be read. `Agent.Run` takes no call back.
   */
  lemma CallsArePreflighted(a: Agent.Agent, i: nat, j: nat)
    requires a.Boundary() && i <= j < |a.edge.calls| && a.edge.calls[i].onDisk
    ensures a.edge.calls[j].ready <==> a.edge.calls[j].remembered || a.edge.calls[j].readable
    ensures NeedsIssue(a.edge.calls[j].chain, a.edge.calls[j].now)
  {
    LaterCallsArePreflighted(a.edge, i, j);
  }

  /**
   * What changes containers over a whole run: where they differ after an input, others acted, or a restore ran, or
   * the input ran a pass, and the record of that pass has them before and after. So heartbeats, backups, commands
   * and anything on a closed stream leave them alone.
   */
  lemma OnlyPassesAndRestoresTouch(script: seq<Agent.Input>, trace: seq<Agent.Moment>, passes: seq<PassRecord>, i: nat)
    requires Agent.Accounts(script, trace, passes) && i < |script| && trace[i + 1].world != trace[i].world
    ensures script[i].Outside? || script[i].RestoreReady? || Agent.MayPass(script[i])
    ensures script[i].Outside? || script[i].RestoreReady? ||
              var k := trace[i].passes;
              k < |passes| && passes[k].before == trace[i].world && passes[k].after == trace[i + 1].world
  {
    assert Agent.AccountsFor(script[i], trace[i], trace[i + 1], passes);
  }

  /**
   * An instance: an owned container is down, the listing fails, and with no error and no flag the report is Ready.
   */
  method UnlistedLooksReady(a: Agent.Agent, n: Name) returns (ghost said: Agent.Said)
    requires a.Boundary() && a.Unblocked()
    requires Owned(a.dx.containers, n, a.dx.deploymentID) && !a.dx.containers[n].running
    modifies a.events, a.ledger
    ensures !said.listed ==> said.ready && Agent.EndsSaying(a.ledger.log, a.lastGeneration, true)
    ensures Owned(a.dx.containers, n, a.dx.deploymentID) && !a.dx.containers[n].running
  {
    said := a.ReportHeartbeat();
  }

  /** Nothing that was emitted is lost, repeated or put in another order: it was delivered, or waits its turn. */
  lemma EventsAreConserved(a: Agent.Agent)
    requires a.Boundary()
    ensures a.events.delivered + a.events.pendingEvents == a.events.emitted
  {
    a.events.OpenValid();
  }

  /** As long as received generations never decreased, every step was told at most once per generation. */
  lemma StepsNeverRepeat(a: Agent.Agent, i: nat, j: nat)
    requires a.Boundary() && NeverOlder(a.ledger.log)
    requires i < j < |a.events.steps|
    ensures a.events.steps[i] != a.events.steps[j]
  {
    a.OpenInv();
    a.ledger.KeepsLawfulLog();
    MonotoneSoFar(a.ledger.site, a.ledger.log, |a.ledger.log|);
    a.events.StepsAreDistinct(i, j);
  }

  /** Over the whole run: a step was told twice if and only if the run returned to it from another generation. */
  lemma StepsRepeatExactly(a: Agent.Agent)
    requires a.Boundary()
    ensures Repeats(a.events.steps) <==> Returns(a.events.asked)
  {
    a.events.RepeatsExactly();
  }

  /** A restore that is asked for and run. */
  method RestoreOnce(a: Agent.Agent, req: RestoreReq)
    requires a.Boundary() && a.restoreQ == [] && a.lastDesired.Some? && a.lastDesired.value.Backups()
    modifies a, a.store, a.events, a.events.restore, a.ledger, a.ledger.pass, a.events.pass, a.edge.pass,
             a.book, a.dx, a.edge, a.ledger.turn, a.events.turn, a.edge.turn, a.book.turn
    ensures a.Boundary() && a.restoreQ == [] && a.lastDesired == old(a.lastDesired)
    ensures exists asked :: old(a.events.asked) <= asked
                            && Agent.Asks(asked, a.events.asked,
                                          Raised(RestoringDatabase, a.lastDesired.value.generation))
  {
    ghost var said;
    var tick;
    tick, said := a.Serve(Agent.Frame(CommandFrame(RestoreDB(req))), 0);
    assert a.Waiting().restore == [req];
    ghost var asked := a.events.asked;
    tick, said := a.Serve(Agent.RestoreReady, tick);
    assert Agent.Asks(asked, a.events.asked, Raised(RestoringDatabase, a.lastDesired.value.generation));
  }

  /** A pushed state with backups, and a restore of it. */
  method PushAndRestore(a: Agent.Agent, signed: SignedDesiredState, req: RestoreReq) returns (ghost k: nat)
    requires a.Boundary() && a.restoreQ == []
    requires Agent.Acceptable(a.deploymentPubKey, signed) && signed.payload.decoded.value.Backups()
    modifies a, a.store, a.events, a.events.restore, a.ledger, a.ledger.pass, a.events.pass, a.edge.pass,
             a.book, a.dx, a.edge, a.ledger.turn, a.events.turn, a.edge.turn, a.book.turn
    ensures a.Boundary() && a.restoreQ == []
    ensures old(a.events.asked) <= a.events.asked && |old(a.events.asked)| <= k < |a.events.asked|
    ensures a.events.asked[k] == Raised(RestoringDatabase, signed.payload.decoded.value.generation)
  {
    ghost var said;
    var tick;
    tick, said := a.Serve(Agent.Frame(DesiredStatePush(signed)), 0);
    assert a.Waiting().restore == [];
    ghost var asked1 := a.events.asked;
    RestoreOnce(a, req);
    ghost var asked :| asked1 <= asked
      && Agent.Asks(asked, a.events.asked, Raised(RestoringDatabase, a.lastDesired.value.generation));
    k := |asked|;
  }

  /**
   * An instance, through the loop itself: a deployment is restored, rolled back to another generation and
   * restored, and brought back and restored. One step has been told twice for one generation.
   */
  method RestoreBackAndForth(a: Agent.Agent, signed: SignedDesiredState, other: SignedDesiredState, req: RestoreReq)
    requires a.Boundary() && a.restoreQ == []
    requires Agent.Acceptable(a.deploymentPubKey, signed) && signed.payload.decoded.value.Backups()
    requires Agent.Acceptable(a.deploymentPubKey, other) && other.payload.decoded.value.Backups()
    requires other.payload.decoded.value.generation != signed.payload.decoded.value.generation
    modifies a, a.store, a.events, a.events.restore, a.ledger, a.ledger.pass, a.events.pass, a.edge.pass,
             a.book, a.dx, a.edge, a.ledger.turn, a.events.turn, a.edge.turn, a.book.turn
    ensures a.Boundary() && Repeats(a.events.steps)
  {
    ghost var i := PushAndRestore(a, signed, req);
    ghost var j := PushAndRestore(a, other, req);
    ghost var k := PushAndRestore(a, signed, req);
    assert ReturnsAt(a.events.asked, i, j, k);
    StepsRepeatExactly(a);
  }

  /**
   * An instance: a deployment that waits for its DNS delegation is stopped. Its flags stay as they were, and the
   * report that answers the push is not Ready.
   */
  method StoppedWhileAwaitingDns(a: Agent.Agent, signed: SignedDesiredState)
    requires a.Boundary() && a.awaitingDns
    requires Agent.Acceptable(a.deploymentPubKey, signed) && signed.payload.decoded.value.stopped
    modifies a, a.store, a.events, a.events.restore, a.ledger, a.ledger.pass, a.events.pass, a.edge.pass,
             a.book, a.dx, a.edge, a.ledger.turn, a.events.turn, a.edge.turn, a.book.turn
    ensures a.Boundary() && a.awaitingDns && a.lastDesired == signed.payload.decoded
    ensures Agent.EndsSaying(a.ledger.log, a.lastGeneration, false)
  {
    ghost var flags, before := a.Blocks(), a.lastDesired;
    ghost var said;
    var tick;
    tick, said := a.Serve(Agent.Frame(DesiredStatePush(signed)), 0);
    assert a.Heard(signed, before, flags, said);
    assert a.Blocks() == flags;
  }

  /** No received generation lies below the one received before it. */
  ghost predicate NeverOlder(log: seq<Action>) {
    forall i: nat :: i < |log| && log[i].Received? ==> NotOlder(LastReceived(log, i), log[i].signed)
  }

  lemma {:induction false} MonotoneSoFar(site: Site, log: seq<Action>, j: nat)
    requires Lawful(site, log) && NeverOlder(log) && j <= |log|
    ensures At(site, log, j).m.monotone
  {
    if j > 0 {
      MonotoneSoFar(site, log, j - 1);
      DesiredIsLast(site, log, j - 1);
    }
  }

  /**
   * Certificate first, over whole runs: where no app container was there to begin with and every state applied
   * is stopped or has a managed edge, an app container exists only after the wildcard has been issued.
   */
  lemma CertificateFirst(a: Agent.Agent, n: Name)
    requires a.Boundary() && a.ledger.site.clean
    requires forall k :: 0 <= k < |a.ledger.log| ==> EdgeComesFirst(a.ledger.log[k])
    requires n in a.dx.containers && Agent.AppName(n)
    ensures exists k :: 0 <= k < |a.ledger.log| && Issues(a.ledger.log[k])
  {
    a.OpenInv();
    a.ledger.KeepsLawfulLog();
    EdgeFirstSoFar(a.ledger.site, a.ledger.log, |a.ledger.log|);
    IssuedBefore(a.ledger.site, a.ledger.log, |a.ledger.log|);
  }

  /** The agent's own backoff is that of the failures in its log, and its archiving has a base backup in its log. */
  lemma FieldsFollowTheLog(a: Agent.Agent) returns (i: nat)
    requires a.Boundary()
    ensures Lawful(a.ledger.site, a.ledger.log)
    ensures a.lastGeneration == LastApplied(a.ledger.log, |a.ledger.log|)
    ensures a.lastDesired == LastReceived(a.ledger.log, |a.ledger.log|)
    ensures a.archiving ==> a.hadFullBackup
    ensures a.hadFullBackup ==> i < |a.ledger.log| && TakesBase(a.ledger.log[i])
                                && forall k :: i < k < |a.ledger.log| ==> !a.ledger.log[k].BackupsOff?
  {
    a.OpenInv();
    a.ledger.KeepsLawfulLog();
    var n := |a.ledger.log|;
    AppliedIsLast(a.ledger.site, a.ledger.log, n);
    DesiredIsLast(a.ledger.site, a.ledger.log, n);
    i := 0;
    if a.hadFullBackup {
      i := BaseWasTaken(a.ledger.site, a.ledger.log, n);
    }
  }
}
