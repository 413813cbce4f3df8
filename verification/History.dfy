/**
 * The history of a run: what the agent did, action by action, and what each action is allowed to follow.
 *
 * `At(site, log, i)` is what the first `i` actions amount to; it is computed from the log alone. `Allowed`
 * says which action may come next. The agent records every action as it takes it, and can only record an
 * allowed one, so every run leaves a lawful log. What lawful logs have in common is proved in Theorems.
 */
module History {
  import opened Guards
  import opened Wrappers
  import opened CloudApi
  import opened Specs
  import opened PgBackRest
  import opened Backoff
  import Acme

  datatype Block = OnSecretStore | OnDelegation | OnRateLimit

  datatype Stage =
    | TeardownStage
    | UnsealStage | ProviderStage | SecretsStage(folder: Folder) | ConnectionStage | HostStage
    | WildcardStage
    | PostgresStage | BackupStage | MigrateStage | GiteaStage | ServiceStage(name: Name) | NginxStage
    | PruneStage
    | SignatureStage

  datatype Error = Error(stage: Stage, detail: string)

  datatype PassEnd = Complete | TornDown | BlockedOn(block: Block) | FailedAt(stage: Stage)

  /** Stages between the wildcard and the pruning. */
  predicate Midway(s: Stage) {
    s.PostgresStage? || s.BackupStage? || s.MigrateStage? || s.GiteaStage? || s.ServiceStage? || s.NginxStage?
  }

  /** The container that a failing stage was at. */
  function OwnOf(s: Stage): set<Name> {
    match s
    case WildcardStage => {AcmeDns}
    case ServiceStage(n) => {n}
    case NginxStage => {Nginx}
    case _ => {}
  }

  /** The containers that may not have landed. */
  function LateAt(err: Option<Error>): set<Name> {
    if err.Some? then OwnOf(err.value.stage) else {}
  }

  /** The pass came as far as removing what is not wanted. */
  predicate CameToPruning(end: PassEnd) {
    end.Complete? || end == FailedAt(PruneStage)
  }

  /** The pass went beyond the edge. */
  predicate WentBeyond(end: PassEnd) {
    CameToPruning(end) || (end.FailedAt? && Midway(end.stage))
  }

  /** How a pass ended that nothing blocked. */
  function EndOf(err: Option<Error>): PassEnd {
    if err.Some? then FailedAt(err.value.stage) else Complete
  }

  datatype Action =
    | Received(signed: SignedDesiredState)          // a verified desired state became the current one
    | RestoreQueued
    | RestoreRan(removed: set<Name>, present: set<Name>) // the restore container is about to run
    | RestoreFinished
    | RecreateTaken(name: Name)
    | WindowCleared                                 // ForceRecheck or Recreate cleared the next-attempt time
    | BackedOff(at: nat, window: nat)
    | BackoffReset
    | PassStarted(ds: DesiredState, at: nat, force: set<Name>)
    | WildcardTried(outcome: Acme.Outcome)
    | Migrated(name: Name)                          // a migration one-shot ran and exited with 0
    | BackupTried(kind: BackupKind, trigger: Trigger, ok: bool)
    | ArchivingOn
    | HandoverDue                                   // managed to external with backups on
    | BackupsOff(external: bool)                    // a pass found backups not wanted
    | WentOffline(generation: int)                  // the stack was taken down completely
    | Applied(generation: int)                      // the stack was brought up completely
    | PassEnded(end: PassEnd)
    | Reported(generation: int, ready: bool)

  /** Where the agent runs: the key it trusts, and whether it started without app containers. */
  datatype Site = Site(key: string, clean: bool)

  /** A pass that has ended: what it worked on, what it was to rebuild, and how it ended. */
  datatype Ended = Ended(ds: Option<DesiredState>, force: set<Name>, end: PassEnd)

  /** The scalar part of what a log amounts to, and the passes ended so far. */
  datatype Monitor = Monitor(
    now: nat,
    monotone: bool,            // received generations have never decreased
    restorePending: bool,
    failures: nat,             // backoffs since the last reset
    notBefore: nat,            // end of the open backoff window
    backedOff: bool,           // a backoff since the last pass started
    inPass: bool,
    passIssued: bool,          // the running pass has the wildcard
    passApplied: bool,         // the running pass has completed
    migrations: nat,           // migrations the running pass has done
    lastPassAt: Option<nat>,
    lastFailed: bool,
    ended: Whole<seq<Ended>>,  // passes ended so far
    applied: int,              // the generation last applied
    base: bool,                // a full backup since backups were last off
    archiving: bool,
    handover: bool,            // a final backup is due
    issued: bool,
    edgeFirst: bool)           // clean start, and only managed edges asked for

  /** The rest: what is wanted, by whom, and what is to be rebuilt. */
  datatype Context = Context(
    desired: Option<DesiredState>,   // last received
    current: Option<DesiredState>,   // what the running or last pass works on
    force: set<Name>,                // recreates that pass was given
    marked: set<Name>)               // recreates taken since it started

  datatype State = State(m: Monitor, c: Context)

  function Init(site: Site): State {
    State(Monitor(0, true, false, 0, 0, false, false, false, false, 0, None, false, Whole([]), 0, false, false, false,
                  false, site.clean),
          Context(None, None, {}, {}))
  }

  function NextContext(c: Context, a: Action): Context {
    match a
    case Received(s) => c.(desired := s.payload.decoded)
    case RecreateTaken(n) => c.(marked := c.marked + {n})
    case PassStarted(ds, _, force) => c.(current := Some(ds), force := force, marked := {})
    case _ => c
  }

  predicate KeepsContext(a: Action) {
    !a.Received? && !a.RecreateTaken? && !a.PassStarted?
  }

  predicate NotOlder(desired: Option<DesiredState>, s: SignedDesiredState) {
    desired.Some? && s.payload.decoded.Some? ==> desired.value.generation <= s.payload.decoded.value.generation
  }

  /** The wildcard was issued. */
  predicate Issues(a: Action) {
    a.WildcardTried? && a.outcome.Issued?
  }

  /** A full backup was taken. */
  predicate TakesBase(a: Action) {
    a.BackupTried? && a.kind.Full? && a.ok
  }

  /** A final backup was attempted. */
  predicate TriesFinal(a: Action) {
    a.BackupTried? && a.trigger.FinalTrigger?
  }

  /** The whole stack is as it was asked to be, up or down. */
  predicate Applies(a: Action) {
    a.WentOffline? || a.Applied?
  }

  /** What every action changes, field by field. */
  function NextMonitor(m: Monitor, c: Context, a: Action): Monitor {
    Monitor(
      now := if a.BackedOff? || a.PassStarted? then a.at else m.now,
      monotone := m.monotone && (a.Received? ==> NotOlder(c.desired, a.signed)),
      restorePending := a.RestoreQueued? || (m.restorePending && !a.RestoreFinished?),
      failures :=
        if a.BackoffReset? || Applies(a) then 0 else if a.BackedOff? then m.failures + 1 else m.failures,
      notBefore :=
        if a.BackoffReset? || Applies(a) || a.WindowCleared? then 0
        else if a.BackedOff? then a.at + a.window else m.notBefore,
      backedOff := a.BackedOff? || (m.backedOff && !a.PassStarted?),
      inPass := a.PassStarted? || (m.inPass && !a.PassEnded?),
      passIssued := Issues(a) || (m.passIssued && !a.PassStarted?),
      passApplied := Applies(a) || (m.passApplied && !a.PassStarted?),
      migrations := if a.PassStarted? then 0 else if a.Migrated? then m.migrations + 1 else m.migrations,
      lastPassAt := if a.PassStarted? then Some(a.at) else m.lastPassAt,
      lastFailed := if a.PassEnded? then a.end.FailedAt? else m.lastFailed,
      ended := if a.PassEnded? then Whole(m.ended.value + [Ended(c.current, c.force, a.end)]) else m.ended,
      applied := if Applies(a) then a.generation else m.applied,
      base := TakesBase(a) || (m.base && !a.BackupsOff?),
      archiving := a.ArchivingOn? || (m.archiving && !a.HandoverDue? && !a.BackupsOff? && !a.WentOffline?),
      handover := a.HandoverDue? || (m.handover && !TriesFinal(a)),
      issued := Issues(a) || m.issued,
      edgeFirst := m.edgeFirst && (a.PassStarted? ==> a.ds.stopped || a.ds.ManagedEdge()))
  }

  /** What a backoff changes. */
  function BackedOffMonitor(m: Monitor, at: nat, until: nat): Monitor {
    m.(now := at, failures := m.failures + 1, notBefore := until, backedOff := true)
  }

  /** What the end of a pass changes. */
  function EndedMonitor(m: Monitor, failed: bool, e: Ended): Monitor {
    m.(inPass := false, lastFailed := failed, ended := Whole(m.ended.value + [e]))
  }

  function Next(s: State, a: Action): State {
    State(NextMonitor(s.m, s.c, a), NextContext(s.c, a))
  }

  /** A pass may start: another generation, a lingering error, or the resync interval. */
  predicate GateOpen(m: Monitor, generation: int, at: nat) {
    || generation != m.applied
    || m.lastFailed
    || m.lastPassAt.None?
    || at - m.lastPassAt.value >= ResyncInterval
  }

  /** The agent's own gate: outside a backoff window, on one of the reasons for a pass. */
  predicate Due(backoff: nat, nextAttempt: nat, applied: int, failed: bool, lastResync: Option<nat>, generation: int,
                now: nat) {
    && !(backoff > 0 && now < nextAttempt)
    && (generation != applied || failed || lastResync.None? || now - lastResync.value >= ResyncInterval)
  }

  /** A pass with this kind of desired state is running. */
  predicate Passing(m: Monitor, c: Context, stopped: bool) {
    m.inPass && !m.passApplied && c.current.Some? && c.current.value.stopped == stopped
  }

  /** Core's migration first, then commerce's. */
  predicate NextMigration(done: nat, n: Name) {
    (done == 0 && n == CoreMigrate) || (done == 1 && n == CommerceMigrate)
  }

  /** A pass that ends like this has come to the services, or further. */
  predicate AfterMigrations(end: PassEnd) {
    || end.Complete?
    || (end.FailedAt?
        && (end.stage.GiteaStage? || end.stage.NginxStage? || end.stage.PruneStage?
            || (end.stage.ServiceStage? && end.stage.name != Postgres)))
  }

  ghost predicate Allowed(site: Site, m: Monitor, c: Context, a: Action) {
    match a
    case Received(s) => VerifyDeployment(site.key, s) && s.payload.decoded.Some?
    case RestoreQueued => !m.inPass
    case RestoreRan(removed, present) => m.restorePending && !m.inPass && removed !! present
    case RestoreFinished => m.restorePending && !m.inPass
    case RecreateTaken(_) => !m.inPass
    case WindowCleared => !m.inPass
    case BackedOff(at, window) =>
      && !m.backedOff && m.now <= at && m.notBefore <= at
      && (if m.inPass then !m.passIssued && !m.passApplied else m.lastFailed)
      && Backed(window, m.failures + 1)
    case BackoffReset => m.inPass && m.passIssued
    case PassStarted(ds, at, force) =>
      && !m.inPass && !m.restorePending && (m.lastFailed ==> m.backedOff)
      && m.now <= at && m.notBefore <= at
      && c.desired == Some(ds) && GateOpen(m, ds.generation, at)
      && force == c.marked
    case WildcardTried(_) =>
      Passing(m, c, false) && c.current.value.ManagedEdge() && !m.backedOff && !m.passIssued
    case BackupTried(kind, trigger, _) =>
      (match trigger
       case Initial => kind.Full? && !m.base && Passing(m, c, false) && c.current.value.Backups()
       case Scheduled => m.archiving && m.base && !m.inPass
       case Manual => m.archiving && m.base && !m.inPass
       case FinalTrigger => kind.Full? && m.handover)
    case ArchivingOn => m.base && !m.handover && Passing(m, c, false) && c.current.value.Backups()
    case HandoverDue => m.archiving && Passing(m, c, false) && c.current.value.DbExternal()
    case BackupsOff(external) => Passing(m, c, false) && HandedOver(m, c, external)
    case WentOffline(g) => Passing(m, c, true) && !m.backedOff && g == c.current.value.generation
    case Migrated(n) => Passing(m, c, false) && NextMigration(m.migrations, n)
    case Applied(g) => Passing(m, c, false) && !m.backedOff && m.migrations == 2 && g == c.current.value.generation
    case PassEnded(end) =>
      && m.inPass && c.current.Some? && !m.handover
      && (end.Complete? || end.TornDown? <==> m.passApplied)
      && MayEnd(m, c.current.value, end)
    case Reported(g, ready) => MayReport(m, c, g, ready)
  }

  /**
   * How a pass may end: it backed off if and only if the authority throttled it, it came to the services only after
   * both migrations, beyond a managed edge only with the wildcard, and under an external database it does not come
   * to its pruning with archiving on.
   */
  predicate MayEnd(m: Monitor, ds: DesiredState, end: PassEnd) {
    && (m.backedOff <==> end == BlockedOn(OnRateLimit))
    && (AfterMigrations(end) ==> m.migrations == 2)
    && (WentBeyond(end) && ds.ManagedEdge() ==> m.passIssued)
    && (CameToPruning(end) && ds.DbExternal() ==> !m.archiving)
  }

  /** Under an external database no backup is owed: archiving is over and its final backup has been tried. */
  predicate HandedOver(m: Monitor, c: Context, external: bool)
    requires c.current.Some?
  {
    && external == c.current.value.DbExternal()
    && (external ==> !m.archiving && !m.handover)
  }

  /**
   * A report carries the generation last applied; only the interim report of a running pass carries its own.
   * A report that says Ready follows a pass that did not fail and, unless a restore is due, carries the
   * generation last received.
   */
  predicate MayReport(m: Monitor, c: Context, g: int, ready: bool) {
    && (g == m.applied || (!ready && m.inPass && c.current.Some? && g == c.current.value.generation))
    && (ready ==> !m.lastFailed && !m.inPass)
    && (ready && c.desired.Some? && !m.restorePending ==> g == c.desired.value.generation)
  }

  /** What the first `i` actions of the log amount to. */
  function At(site: Site, log: seq<Action>, i: nat): State
    requires i <= |log|
  {
    if i == 0 then Init(site) else Next(At(site, log, i - 1), log[i - 1])
  }

  /** Every action was allowed when it was taken. */
  ghost predicate Lawful(site: Site, log: seq<Action>) {
    forall i: nat :: i < |log| ==> LawfulAt(site, log, i)
  }

  ghost predicate LawfulAt(site: Site, log: seq<Action>, i: nat)
    requires i < |log|
  {
    Allowed(site, At(site, log, i).m, At(site, log, i).c, log[i])
  }

  /** `past` holds what each prefix of a lawful log amounts to. */
  ghost predicate Traced(site: Site, log: seq<Action>, past: seq<State>) {
    && |past| == |log| + 1
    && past[0] == Init(site)
    && (forall i {:trigger log[i]} :: 0 <= i < |log| ==>
          Allowed(site, past[i].m, past[i].c, log[i]) && past[i + 1] == Next(past[i], log[i]))
  }

  lemma {:induction false} TraceIsAt(site: Site, log: seq<Action>, past: seq<State>, i: nat)
    requires Traced(site, log, past) && i <= |log|
    ensures At(site, log, i) == past[i]
  {
    if i > 0 {
      TraceIsAt(site, log, past, i - 1);
      assert past[i - 1 + 1] == Next(past[i - 1], log[i - 1]);
    }
  }

  /** The record a run keeps; recording is the only way to extend it. */
  class Ledger {
    ghost const site: Site
    ghost var log: seq<Action>
    ghost var past: seq<State>
    ghost var m: Monitor
    ghost var c: Whole<Context>

    ghost const turn: Bookmark<seq<Action>>
    ghost const pass: Bookmark<seq<Action>>

    /** The log is lawful, `m` and `c` are what it amounts to, and it goes on from both bookmarks. */
    ghost predicate Valid()
      reads this, turn, pass
    {
      forall k {:trigger LogGuard(k)} :: LogGuard(k) ==>
        && Traced(site, log, past) && State(m, c.value) == past[|log|]
        && turn != pass && turn.kept <= log && pass.kept <= log
    }

    constructor (ghost site: Site)
      ensures Valid() && this.site == site && log == [] && m == Init(site).m && c == Whole(Init(site).c)
      ensures fresh(turn) && fresh(pass)
    {
      this.turn := new Bookmark([]);
      this.pass := new Bookmark([]);
      this.site := site;
      this.log := [];
      this.past := [Init(site)];
      this.m := Init(site).m;
      this.c := Whole(Init(site).c);
    }

    /** Sets a bookmark. */
    ghost method Remember(mark: Bookmark<seq<Action>>)
      requires Valid() && mark in {turn, pass}
      modifies mark
      ensures Valid() && mark.kept == log && turn != pass
    {
      assert LogGuard(0);
      mark.kept := log;
    }

    /** The log goes on from where the bookmarks are. */
    lemma GoesOn()
      requires Valid()
      ensures turn.kept <= log && pass.kept <= log
    {
      assert LogGuard(0);
    }

    ghost method Record(a: Action)
      requires Valid() && Allowed(site, m, c.value, a)
      modifies this
      ensures Valid() && log == old(log) + [a]
      ensures m == NextMonitor(old(m), old(c).value, a)
      ensures KeepsContext(a) ==> c == old(c)
      ensures !KeepsContext(a) ==> c == Whole(NextContext(old(c).value, a))
    {
      assert LogGuard(0);
      ghost var log0, past0 := log, past;
      m, c := NextMonitor(m, c.value, a), Whole(NextContext(c.value, a));
      log := log + [a];
      past := past + [State(m, c.value)];
      forall i | 0 <= i < |log|
        ensures Allowed(site, past[i].m, past[i].c, log[i]) && past[i + 1] == Next(past[i], log[i])
      {
        if i < |log0| {
          assert log[i] == log0[i] && past[i] == past0[i] && past[i + 1] == past0[i + 1];
        }
      }
    }

    ghost method RecordBackoff(at: nat, window: nat)
      requires Valid() && !m.backedOff && m.now <= at && m.notBefore <= at && Backed(window, m.failures + 1)
      requires if m.inPass then !m.passIssued && !m.passApplied else m.lastFailed
      modifies this
      ensures Valid() && c == old(c) && m == BackedOffMonitor(old(m), at, at + window)
    {
      Record(BackedOff(at, window));
    }

    ghost method RecordBaseBackup(ok: bool)
      requires Valid() && Allowed(site, m, c.value, BackupTried(Full, Initial, ok))
      modifies this
      ensures Valid() && c == old(c) && m == old(m).(base := old(m).base || ok)
    {
      Record(BackupTried(Full, Initial, ok));
    }

    ghost method RecordFinalBackup(ok: bool)
      requires Valid() && Allowed(site, m, c.value, BackupTried(Full, FinalTrigger, ok))
      modifies this
      ensures Valid() && c == old(c) && log == old(log) + [BackupTried(Full, FinalTrigger, ok)]
      ensures m == old(m).(base := old(m).base || ok, handover := false)
    {
      Record(BackupTried(Full, FinalTrigger, ok));
    }

    ghost method RecordEnd(end: PassEnd)
      requires Valid() && m.inPass && c.value.current.Some? && !m.handover
      requires (end.Complete? || end.TornDown? <==> m.passApplied)
      requires MayEnd(m, c.value.current.value, end)
      modifies this
      ensures Valid() && c == old(c)
      ensures m == EndedMonitor(old(m), end.FailedAt?, Ended(c.value.current, c.value.force, end))
    {
      Record(PassEnded(end));
    }

    ghost method RecordOffline(g: int)
      requires Valid() && Allowed(site, m, c.value, WentOffline(g))
      modifies this
      ensures Valid() && c == old(c)
      ensures m == old(m).(archiving := false, failures := 0, notBefore := 0, applied := g, passApplied := true)
    {
      Record(WentOffline(g));
    }

    ghost method RecordTaken(service: Name)
      requires Valid() && !m.inPass
      modifies this
      ensures Valid() && m == old(m) && c == Whole(old(c).value.(marked := old(c).value.marked + {service}))
    {
      Record(RecreateTaken(service));
    }

    ghost method RecordRestoreQueued()
      requires Valid() && !m.inPass
      modifies this
      ensures Valid() && c == old(c) && m == old(m).(restorePending := true)
    {
      Record(RestoreQueued);
    }

    /** A valid ledger holds a lawful log, and its monitor is what that log amounts to. */
    lemma KeepsLawfulLog()
      requires Valid()
      ensures Lawful(site, log) && State(m, c.value) == At(site, log, |log|)
    {
      assert LogGuard(0);
      TraceIsAt(site, log, past, |log|);
      forall i: nat | i < |log| ensures LawfulAt(site, log, i) {
        TraceIsAt(site, log, past, i);
        assert Allowed(site, past[i].m, past[i].c, log[i]);
      }
    }
  }
}
