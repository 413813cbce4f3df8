/** What one reconcile pass may do to the containers, whatever way it ends. */
module Passes {
  import opened Guards
  import opened Wrappers
  import opened CloudApi
  import opened Dockerx
  import opened Env
  import opened Drift
  import opened Specs
  import opened Plans
  import opened History

  /** One reconcile pass: how it ended, the worlds before and after, what it set out to apply, and from what. */
  datatype PassRecord = PassRecord(
    ds: DesiredState, force: set<Name>, end: PassEnd, before: World, after: World, floor: nat, plan: Plan,
    vault: Vault, token: Option<string>)

  /** Stages that come before any container is touched. */
  predicate BeforeContainers(s: Stage) {
    s.UnsealStage? || s.ProviderStage? || s.SecretsStage? || s.ConnectionStage? || s.HostStage?
  }

  /** Every owned container is gone and no other was touched. */
  ghost predicate Emptied(w: World, w': World, me: string) {
    forall n :: Get(w', n) == if Owned(w, n, me) then None else Get(w, n)
  }

  /** The stack is offline: nothing owned is left but, with backups, the one-off inventory reader. */
  ghost predicate Offline(ds: DesiredState, w: World, w': World, me: string) {
    && (forall n :: n != DbInfo || !ds.Backups() ==>
          Get(w', n) == if Owned(w, n, me) then None else Get(w, n))
  }

  /** Only the one-off inventory reader came and went. */
  ghost predicate InventoryOnly(ds: DesiredState, w: World, w': World) {
    if ds.Backups() then OnlyAt(w, w', DbInfo) else w' == w
  }

  lemma OfflineAfter(ds: DesiredState, w0: World, w1: World, w2: World, me: string)
    requires Emptied(w0, w1, me) && InventoryOnly(ds, w1, w2)
    ensures Offline(ds, w0, w2, me)
  {
  }

  ghost predicate OnlyOwnedRemoved(w: World, w': World, me: string) {
    forall n :: Get(w', n) == Get(w, n) || (n !in w' && Owned(w, n, me))
  }

  /** The names a pass can have come to when it fails at a stage: each stage builds on the ones before it. */
  function Reach(s: Stage): set<Name> {
    match s
    case PostgresStage => {AcmeDns, Postgres}
    case BackupStage => {AcmeDns, Postgres}
    case MigrateStage => {AcmeDns, Postgres}
    case GiteaStage => {AcmeDns, Postgres, Gitea}
    case ServiceStage(n) =>
      if n == Postgres then {AcmeDns, Postgres}
      else if n == Gitea then {AcmeDns, Postgres, Gitea}
      else if n == Redis then {AcmeDns, Postgres, Gitea, Redis}
      else if n == Nats then {AcmeDns, Postgres, Gitea, Redis, Nats}
      else if n == Commerce then {AcmeDns, Postgres, Gitea, Redis, Nats, Commerce}
      else {AcmeDns, Postgres, Gitea, Redis, Nats, Commerce, CoreServer}
    case _ => {AcmeDns, Postgres, Gitea, Redis, Nats, Commerce, CoreServer, Nginx}
  }

  /** The names that have landed when a pass fails at a stage; backups are prepared before Postgres is applied. */
  function Behind(s: Stage): set<Name> {
    Reach(s) - OwnOf(s) - (if s.BackupStage? then {Postgres} else {})
  }

  /** What a pass has done to the containers, by the way it ended. */
  ghost predicate PassEffect(me: string, r: PassRecord) {
    && NoOneShots(r.plan)
    && PlanFor(r.plan, r.ds, r.vault, r.token)
    && IdsBelow(r.before, r.floor)
    && match r.end
       case Complete =>
         && !r.ds.stopped
         && r.plan.Keys == Topology(r.ds)
         && Converged(r.before, r.after, r.plan, r.force, me, r.floor)
       case TornDown => r.ds.stopped && Offline(r.ds, r.before, r.after, me)
       case BlockedOn(b) =>
         && !r.ds.stopped
         && (if b.OnSecretStore? then r.after == r.before else r.plan.Keys == {AcmeDns})
         && Gentle(r.before, r.after, r.plan, r.force, me, r.floor)
       case FailedAt(s) =>
         if s.TeardownStage? then r.ds.stopped && OnlyOwnedRemoved(r.before, r.after, me)
         else
           && !r.ds.stopped
           && (BeforeContainers(s) || Midway(s) || s.WildcardStage? || s.PruneStage?)
           && (BeforeContainers(s) ==> r.after == r.before)
           && (s.WildcardStage? ==> r.plan.Keys <= {AcmeDns})
           && (Midway(s) ==>
                 && Behind(s) * Topology(r.ds) <= r.plan.Keys <= Reach(s)
                 && DoneBut(r.before, r.after, r.plan, OwnOf(s), r.force, me, r.floor))
           && (if s.PruneStage? then
                 r.plan.Keys == Topology(r.ds) && Swept(r.before, r.after, r.plan, r.force, me, r.floor)
               else Gentle(r.before, r.after, r.plan, r.force, me, r.floor))
  }

  /** `PassEffect`, to be opened with `OpenPass` only. */
  ghost predicate PassLaw(me: string, r: PassRecord) {
    forall k {:trigger PassGuard(k)} :: PassGuard(k) ==> PassEffect(me, r)
  }

  lemma OpenPass(me: string, r: PassRecord)
    requires PassLaw(me, r)
    ensures PassEffect(me, r)
  {
    assert PassGuard(0);
  }

  /** The pass that began at `start`. */
  function RecordOf(start: Start, ds: DesiredState, end: PassEnd, plan: Plan, after: World, vault: Vault,
                    token: Option<string>): PassRecord
  {
    PassRecord(ds, start.force, end, start.world, after, start.floor, plan, vault, token)
  }

  /** A pass that ended before it touched a container. */
  lemma NothingTouched(start: Start, ds: DesiredState, end: PassEnd, vault: Vault, token: Option<string>)
    requires IdsBelow(start.world, start.floor) && !ds.stopped
    requires end == BlockedOn(OnSecretStore) || (end.FailedAt? && BeforeContainers(end.stage))
    ensures PassLaw(start.me, RecordOf(start, ds, end, map[], start.world, vault, token))
  {
    GentleRefl(start.world, start.force, start.me, start.floor);
  }

  /** A pass that was torn down, or was to be. */
  lemma TakenDown(start: Start, ds: DesiredState, ok: bool, w: World, vault: Vault, token: Option<string>)
    requires IdsBelow(start.world, start.floor) && ds.stopped
    requires if ok then Offline(ds, start.world, w, start.me) else OnlyOwnedRemoved(start.world, w, start.me)
    ensures PassLaw(start.me,
                    RecordOf(start, ds, if ok then TornDown else FailedAt(TeardownStage), map[], w, vault, token))
  {
  }

  /** A pass that stopped at the edge. */
  lemma StoppedAtEdge(start: Start, ds: DesiredState, end: PassEnd, plan: Plan, late: set<Name>, w: World, next: nat,
                      vault: Vault, token: Option<string>)
    requires Tracks(start, plan, late, w, next) && PlanFor(plan, ds, vault, token) && !ds.stopped
    requires end in {BlockedOn(OnDelegation), BlockedOn(OnRateLimit)} ==> plan.Keys == {AcmeDns}
    requires end == FailedAt(WildcardStage) ==> plan.Keys <= {AcmeDns}
    requires end in {BlockedOn(OnDelegation), BlockedOn(OnRateLimit), FailedAt(WildcardStage)}
    ensures IdsBelow(w, next)
    ensures PassLaw(start.me, RecordOf(start, ds, end, plan, w, vault, token))
  {
    OpenTracks(start, plan, late, w, next);
  }

  lemma EdgeStop(start: Start, ds: DesiredState, s: PassSecrets, end: PassEnd, late: set<Name>, w: World, next: nat,
                 vault: Vault, token: Option<string>)
    requires Tracks(start, EdgePlan(ds), late, w, next) && SecretsOf(s, ds, vault) && !ds.stopped
    requires end.BlockedOn? ==> ds.ManagedEdge()
    requires end in {BlockedOn(OnDelegation), BlockedOn(OnRateLimit), FailedAt(WildcardStage)}
    ensures IdsBelow(w, next)
    ensures PassLaw(start.me, RecordOf(start, ds, end, EdgePlan(ds), w, vault, token))
  {
    EdgePlanIsWanted(ds, s, vault, token);
    StoppedAtEdge(start, ds, end, EdgePlan(ds), late, w, next, vault, token);
  }

  /** A stage on the way up, and what it has come to. To be proved by the lemmas below only. */
  ghost predicate Within(s: Stage, plan: Plan, ds: DesiredState) {
    forall k {:trigger PassGuard(k)} :: PassGuard(k) ==> Midway(s) && Behind(s) * Topology(ds) <= plan.Keys <= Reach(s)
  }

  /** Up to the migrations nothing but acme-dns and the database is touched. */
  predicate DatabaseStages(s: Stage) {
    s.PostgresStage? || s.BackupStage? || s.MigrateStage? || s == ServiceStage(Postgres)
  }

  lemma WithinDatabase(ds: DesiredState, conn: DBConn, begun: bool, s: Stage)
    requires DatabaseStages(s) && (begun || s.BackupStage?)
    ensures Within(s, DatabaseStagePlan(ds, conn, begun), ds)
  {
  }

  lemma FailedAtDatabase(ds: DesiredState, s: PassSecrets, begun: bool, stage: Stage, vault: Vault,
                         token: Option<string>)
    requires DatabaseStages(stage) && (begun || stage.BackupStage?) && SecretsOf(s, ds, vault)
    ensures Within(stage, DatabaseStagePlan(ds, s.conn, begun), ds)
    ensures PlanFor(DatabaseStagePlan(ds, s.conn, begun), ds, vault, token)
  {
    WithinDatabase(ds, s.conn, begun, stage);
    DatabasePlanIsWanted(ds, s, begun, vault, token);
  }

  lemma WithinGitea(ds: DesiredState, secrets: PassSecrets, s: Stage)
    requires s in {GiteaStage, ServiceStage(Gitea)}
    ensures Within(s, EarlyPlan(ds, secrets), ds)
  {
  }

  lemma Came(plan: Plan, specs: seq<RunSpec>, count: nat, n: Name)
    requires count <= |specs| && (n in plan || exists i :: 0 <= i < count && specs[i].name == n)
    ensures n in AddAll(plan, specs[..count])
  {
    AddAllKeys(plan, specs[..count]);
    if n !in plan {
      var i :| 0 <= i < count && specs[i].name == n;
      assert specs[..count][i].name == n;
    }
  }

  lemma ServicesBehind(ds: DesiredState, s: PassSecrets, specs: seq<RunSpec>, count: nat, n: Name)
    requires |specs| == 4 && 0 < count <= 4
    requires specs[0].name == Redis && specs[1].name == Nats && specs[2].name == Commerce && specs[3].name == CoreServer
    requires n in Behind(ServiceStage(specs[count - 1].name)) * Topology(ds)
    ensures n in EarlyPlan(ds, s) || exists i :: 0 <= i < count && specs[i].name == n
  {
    if n !in EarlyPlan(ds, s) {
      var i := if n == Redis then 0 else if n == Nats then 1 else 2;
      assert specs[i].name == n && i < count;
    }
  }

  lemma WithinServices(ds: DesiredState, s: PassSecrets, commerceEnv: seq<string>, core: RunSpec, count: nat)
    requires core.name == CoreServer && 0 < count <= 4
    ensures var specs := CoreServices(ds, s, commerceEnv, core);
            Within(ServiceStage(specs[count - 1].name), AddAll(EarlyPlan(ds, s), specs[..count]), ds)
  {
    var specs := CoreServices(ds, s, commerceEnv, core);
    var last := ServiceStage(specs[count - 1].name);
    assert specs[0].name == Redis && specs[1].name == Nats && specs[2].name == Commerce && specs[3].name == CoreServer;
    AddAllWithin(EarlyPlan(ds, s), specs[..count], Reach(last));
    forall n | n in Behind(last) * Topology(ds) ensures n in AddAll(EarlyPlan(ds, s), specs[..count]) {
      ServicesBehind(ds, s, specs, count, n);
      Came(EarlyPlan(ds, s), specs, count, n);
    }
  }

  /** However far the services came: all of them, or up to the one that failed. */
  lemma ServicesCame(ds: DesiredState, s: PassSecrets, vault: Vault, token: Option<string>, commerceEnv: seq<string>,
                     core: RunSpec, count: nat, ok: bool)
    requires SecretsOf(s, ds, vault) && (ds.GiteaOn() ==> token.Some?) && commerceEnv == Canonical(s.commerceEnv)
    requires core == CoreServerSpecOf(ds, Canonical(CoreServerMap(ds, vault, token.GetOr(""))))
    requires if ok then count == 4 else 0 < count <= 4
    ensures var specs := CoreServices(ds, s, commerceEnv, core);
            var plan := AddAll(EarlyPlan(ds, s), specs[..count]);
            && PlanFor(plan, ds, vault, token)
            && (if ok then plan.Keys == Topology(ds) - {Nginx} && NamesOf(specs) == CoreNames()
                else Within(ServiceStage(specs[count - 1].name), plan, ds))
  {
    ServicesAreWanted(ds, s, vault, token, commerceEnv, core, count);
    if ok {
      var specs := CoreServices(ds, s, commerceEnv, core);
      assert specs[..count] == specs;
      OnlyNginxIsMissing(ds, s, commerceEnv, core);
      CoreServicesNames(ds, s, commerceEnv, core);
    } else {
      WithinServices(ds, s, commerceEnv, core, count);
    }
  }

  lemma WithinNginx(ds: DesiredState, plan: Plan)
    requires plan.Keys == Topology(ds)
    ensures Within(NginxStage, plan, ds)
  {
  }

  /** A pass that failed on its way up. */
  lemma FailedMidway(start: Start, ds: DesiredState, stage: Stage, plan: Plan, w: World, next: nat, vault: Vault,
                     token: Option<string>)
    requires Tracks(start, plan, OwnOf(stage), w, next) && PlanFor(plan, ds, vault, token)
    requires Within(stage, plan, ds) && !ds.stopped
    ensures Midway(stage) && IdsBelow(w, next)
    ensures PassLaw(start.me, RecordOf(start, ds, FailedAt(stage), plan, w, vault, token))
  {
    assert PassGuard(0);
    OpenTracks(start, plan, OwnOf(stage), w, next);
  }

  lemma SweptBy(start: Start, plan: Plan, w1: World, next1: nat, w: World)
    requires Tracks(start, plan, {}, w1, next1)
    requires forall n :: Get(w, n) == Get(w1, n) || (n !in w && Owned(w1, n, start.me) && n !in plan)
    ensures NoOneShots(plan) && IdsBelow(start.world, start.floor)
    ensures Swept(start.world, w, plan, start.force, start.me, start.floor)
  {
    OpenTracks(start, plan, {}, w1, next1);
    SweepAfter(start.world, w1, w, plan, start.force, start.me, start.floor);
  }

  lemma PruningFailed(start: Start, ds: DesiredState, plan: Plan, w: World, vault: Vault, token: Option<string>)
    requires NoOneShots(plan) && IdsBelow(start.world, start.floor) && PlanFor(plan, ds, vault, token) && !ds.stopped
    requires plan.Keys == Topology(ds)
    requires Swept(start.world, w, plan, start.force, start.me, start.floor)
    ensures PassLaw(start.me, RecordOf(start, ds, FailedAt(PruneStage), plan, w, vault, token))
  {
    assert !Midway(PruneStage) && !BeforeContainers(PruneStage);
    var r := RecordOf(start, ds, FailedAt(PruneStage), plan, w, vault, token);
    assert PassEffect(start.me, r) by {
      assert r.plan == plan && r.before == start.world && r.after == w;
    }
  }

  lemma PruningDone(start: Start, ds: DesiredState, plan: Plan, w: World, vault: Vault, token: Option<string>)
    requires NoOneShots(plan) && IdsBelow(start.world, start.floor) && PlanFor(plan, ds, vault, token) && !ds.stopped
    requires plan.Keys == Topology(ds)
    requires Swept(start.world, w, plan, start.force, start.me, start.floor)
    requires forall n :: Owned(w, n, start.me) ==> n in plan
    ensures PassLaw(start.me, RecordOf(start, ds, Complete, plan, w, vault, token))
  {
  }

  /** A pass that came to the pruning, whether that failed half-way or not. */
  lemma PrunedOrNot(start: Start, ds: DesiredState, ok: bool, plan: Plan, w: World, vault: Vault, token: Option<string>)
    requires NoOneShots(plan) && IdsBelow(start.world, start.floor) && PlanFor(plan, ds, vault, token) && !ds.stopped
    requires plan.Keys == Topology(ds)
    requires Swept(start.world, w, plan, start.force, start.me, start.floor)
    requires ok ==> forall n :: Owned(w, n, start.me) ==> n in plan
    ensures PassLaw(start.me, RecordOf(start, ds, if ok then Complete else FailedAt(PruneStage), plan, w, vault, token))
  {
    if ok {
      PruningDone(start, ds, plan, w, vault, token);
    } else {
      PruningFailed(start, ds, plan, w, vault, token);
    }
  }

  /** Each pass that has ended, in order, has its record. To be opened with `OpenRecorded` only. */
  ghost predicate Recorded(passes: seq<PassRecord>, ended: Whole<seq<Ended>>) {
    forall k {:trigger PassGuard(k)} :: PassGuard(k) ==> SameEnds(passes, ended.value)
  }

  ghost predicate SameEnds(passes: seq<PassRecord>, ended: seq<Ended>) {
    && |passes| == |ended|
    && forall i :: 0 <= i < |passes| ==> ended[i] == Ended(Some(passes[i].ds), passes[i].force, passes[i].end)
  }

  lemma OpenRecorded(passes: seq<PassRecord>, ended: Whole<seq<Ended>>)
    requires Recorded(passes, ended)
    ensures SameEnds(passes, ended.value)
  {
    assert PassGuard(0);
  }

  lemma RecordedToo(passes: seq<PassRecord>, ended: Whole<seq<Ended>>, passes': seq<PassRecord>, r: PassRecord)
    requires Recorded(passes, ended)
    requires passes <= passes' && |passes'| == |passes| + 1 && EndsWith(passes', r)
    ensures Recorded(passes', Whole(ended.value + [Ended(Some(r.ds), r.force, r.end)]))
  {
    OpenRecorded(passes, ended);
  }

  /** The last of the passes was this one. */
  predicate EndsWith(passes: seq<PassRecord>, r: PassRecord) {
    |passes| > 0 && passes[|passes| - 1] == r
  }

  /** One more pass, over these containers and with this result. */
  ghost predicate NextPass(passes: seq<PassRecord>, later: seq<PassRecord>, ds: DesiredState, force: set<Name>,
                           err: Option<Error>, before: World, after: World, floor: nat, vault: Vault,
                           token: Option<string>)
  {
    && passes <= later && |later| == |passes| + 1
    && exists end, plan ::
         && EndsWith(later, PassRecord(ds, force, end, before, after, floor, plan, vault, token))
         && (if err.Some? then end == FailedAt(err.value.stage) else !end.FailedAt?)
  }

  /** The passes of a run, in order. */
  class PassBook {
    ghost const me: string
    ghost var passes: seq<PassRecord>

    ghost const turn: Bookmark<seq<PassRecord>>

    ghost predicate Valid()
      reads this, turn
    {
      forall k {:trigger PassGuard(k)} :: PassGuard(k) ==>
        && turn.kept <= passes
        && forall i {:trigger passes[i]} :: 0 <= i < |passes| ==> PassLaw(me, passes[i])
    }

    lemma OpenValid()
      requires Valid()
      ensures turn.kept <= passes
      ensures forall i {:trigger passes[i]} :: 0 <= i < |passes| ==> PassLaw(me, passes[i])
    {
      assert PassGuard(0);
    }

    constructor (ghost me: string)
      ensures Valid() && this.me == me && passes == [] && fresh(turn)
    {
      this.turn := new Bookmark([]);
      this.me := me;
      this.passes := [];
    }

    /** Sets the bookmark. */
    ghost method Remember()
      requires Valid()
      modifies turn
      ensures Valid() && turn.kept == passes
    {
      assert PassGuard(0);
      turn.kept := passes;
    }

    ghost method Add(r: PassRecord)
      requires Valid() && PassLaw(me, r)
      modifies this
      ensures Valid() && old(passes) <= passes && |passes| == |old(passes)| + 1 && EndsWith(passes, r)
    {
      assert PassGuard(0);
      passes := passes + [r];
    }
  }
}
