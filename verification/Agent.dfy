/**
 * The orchestration loop (internal/agent/agent.go). One goroutine owns every field; the loop takes one input
 * at a time and a reconcile pass runs to its end within one input.
 */
module Agent {
  import opened Guards
  import opened Wrappers
  import opened CloudApi
  import opened Dockerx
  import opened Env
  import opened Drift
  import opened Specs
  import opened PgBackRest
  import opened Acme
  import opened Backoff
  import opened Events
  import opened History
  import opened Passes
  import opened Plans

  /** The secret store, and the Gitea admin token the agent keeps in its state file. */
  class Store {
    var folders: Vault
    var token: Option<string>
    var backupConf: seq<Setting>    // pgbackrest.conf on the host

    constructor (folders: Vault, token: Option<string>)
      ensures this.folders == folders && this.token == token
    {
      this.folders := folders;
      this.token := token;
      this.backupConf := [];
    }

    method Fetch(folder: Folder) returns (env: Option<Secrets>)
      ensures env.Some? ==> folder in folders && env.value == folders[folder]
    {
      var reachable: bool := *;
      env := if reachable && folder in folders then Some(folders[folder]) else None;
    }

    /** Reuses the stored token, or mints and stores a new one when there is none to read. */
    method ProvisionAdminToken() returns (minted: string, err: Option<string>, ghost unreadable: bool)
      modifies this`token
      ensures err.None? ==> token == Some(minted)
      ensures err.Some? ==> token == old(token)
      ensures old(token).Some? && old(token.value) != "" && !unreadable ==> err.None? && token == old(token)
    {
      var readable: bool := *;
      unreadable := !readable;
      err := None;
      if readable && token.Some? && token.value != "" {
        return token.value, None, unreadable;
      }
      minted := *;
      var fails: bool := *;
      if fails || minted == "" {
        err := Some("gitea admin token");
        return;
      }
      token := Some(minted);
    }
  }

  predicate AppName(n: Name) {
    n.Postgres? || n.Redis? || n.Nats? || n.Commerce? || n.CoreServer? || n.Gitea? || n.Nginx?
  }

  ghost predicate NoAppContainers(w: World) {
    forall n :: n in w ==> !AppName(n)
  }

  /** No app container before the wildcard, where the wildcard comes first. */
  ghost predicate CertFirst(m: Monitor, w: World) {
    m.edgeFirst && !m.issued ==> NoAppContainers(w)
  }

  lemma StillNoApps(w: World, w': World, n: Name)
    requires OnlyAt(w, w', n) && !AppName(n)
    ensures NoAppContainers(w) ==> NoAppContainers(w')
  {
    assert forall m :: m in w' && m != n ==> Get(w', m) == Get(w, m);
  }

  /** Taking containers down leaves none of the apps where there was none. */
  lemma StillNoAppsDown(ds: DesiredState, w: World, w': World, me: string)
    requires Offline(ds, w, w', me) || OnlyOwnedRemoved(w, w', me)
    requires NoAppContainers(w)
    ensures NoAppContainers(w')
  {
    forall n | n in w' ensures !AppName(n) {
      assert Get(w', n) == Get(w, n) || n == DbInfo;
    }
  }

  /** A pass over `ds` is running. */
  predicate WorkingOn(m: Monitor, c: Context, ds: DesiredState) {
    && m.inPass && !m.passApplied
    && c.current == Some(ds) && c.desired == Some(ds)
    && (m.edgeFirst ==> ds.stopped || ds.ManagedEdge())
  }

  /** Two moments of one pass: what only the ends of passes and the inputs between them change is the same. */
  predicate SamePass(m: Monitor, m': Monitor) {
    && m'.inPass == m.inPass && m'.passApplied == m.passApplied && m'.ended == m.ended
    && m'.lastFailed == m.lastFailed && m'.lastPassAt == m.lastPassAt && m'.applied == m.applied
    && m'.monotone == m.monotone && m'.restorePending == m.restorePending && m'.edgeFirst == m.edgeFirst
    && m'.handover == m.handover
  }

  /** `SamePass`, to be opened with `OpenStays` only. */
  ghost predicate Stays(m: Monitor, m': Monitor) {
    forall k {:trigger StaysGuard(k)} :: StaysGuard(k) ==> SamePass(m, m')
  }

  lemma OpenStays(m: Monitor, m': Monitor)
    requires Stays(m, m')
    ensures SamePass(m, m')
  {
    assert StaysGuard(0);
  }

  lemma StaysOn(m: Monitor, m': Monitor, m'': Monitor)
    requires Stays(m, m') && Stays(m', m'')
    ensures Stays(m, m'')
  {
    assert StaysGuard(0);
  }

  /** Between two moments of one pass nothing has changed but the state of backups. */
  ghost predicate ButBackups(m: Monitor, m': Monitor) {
    forall k {:trigger StaysGuard(k)} :: StaysGuard(k) ==> m' == m.(base := m'.base, archiving := m'.archiving)
  }

  lemma OpenButBackups(m: Monitor, m': Monitor)
    requires ButBackups(m, m')
    ensures m' == m.(base := m'.base, archiving := m'.archiving)
  {
    assert StaysGuard(0);
  }

  lemma ButBackupsOn(m: Monitor, m': Monitor, m'': Monitor)
    requires ButBackups(m, m') && ButBackups(m', m'')
    ensures ButBackups(m, m'')
  {
    assert StaysGuard(0);
  }

  /** Between two moments of one pass nothing has changed but the state of backups and the migrations done. */
  ghost predicate ButData(m: Monitor, m': Monitor) {
    forall k {:trigger StaysGuard(k)} :: StaysGuard(k) ==>
      m' == m.(base := m'.base, archiving := m'.archiving, migrations := m'.migrations)
  }

  lemma OpenButData(m: Monitor, m': Monitor)
    requires ButData(m, m')
    ensures m' == m.(base := m'.base, archiving := m'.archiving, migrations := m'.migrations)
  {
    assert StaysGuard(0);
  }

  function WithMigrations(m: Monitor, done: nat): Monitor {
    m.(migrations := done)
  }

  lemma WithItsMigrations(m: Monitor)
    ensures WithMigrations(m, m.migrations) == m
    ensures forall j, k :: WithMigrations(WithMigrations(m, j), k) == WithMigrations(m, k)
  {
  }

  lemma MigrationsStill(m: Monitor, m': Monitor, c: Context, ds: DesiredState)
    requires ButBackups(m, m') && WorkingOn(m, c, ds)
    ensures m'.migrations == m.migrations && WorkingOn(m', c, ds)
  {
    OpenButBackups(m, m');
  }

  lemma InStepMigrated(m: Monitor, done: nat, pace: Pace, desired: Option<DesiredState>)
    ensures InStep(WithMigrations(m, done), pace, desired) <==> InStep(m, pace, desired)
  {
  }

  lemma ButDataBy(m: Monitor, m': Monitor, m'': Monitor)
    requires ButBackups(m, m') && m'' == WithMigrations(m', m''.migrations)
    ensures ButData(m, m'')
  {
    OpenButBackups(m, m');
  }

  /**
   * Two moments of one pass: with `applied` the pass has completed in between, and generation `g` is the one
   * last applied.
   */
  ghost predicate Concluded(m: Monitor, m': Monitor, applied: bool, g: int) {
    forall k {:trigger StaysGuard(k)} :: StaysGuard(k) ==>
      SamePass(m, m'.(passApplied := m.passApplied, applied := m.applied))
      && m'.passApplied == applied && m'.applied == (if applied then g else m.applied)
  }

  lemma OpenConcluded(m: Monitor, m': Monitor, applied: bool, g: int)
    requires Concluded(m, m', applied, g)
    ensures SamePass(m, m'.(passApplied := m.passApplied, applied := m.applied))
    ensures m'.passApplied == applied && m'.applied == (if applied then g else m.applied)
  {
    assert StaysGuard(0);
  }

  lemma NotConcluded(m: Monitor, m': Monitor, g: int)
    requires Stays(m, m') && !m.passApplied
    ensures Concluded(m, m', false, g)
  {
    assert StaysGuard(0);
  }

  /** A pass that the edge did not let through. */
  lemma HeldAtEdge(start: Start, ds: DesiredState, s: PassSecrets, err: Option<Error>, m: Monitor, m': Monitor,
                   w: World, next: nat, vault: Vault, token: Option<string>) returns (end: PassEnd)
    requires Tracks(start, EdgePlan(ds), LateAt(err), w, next) && SecretsOf(s, ds, vault) && !ds.stopped
    requires Stays(m, m') && !m.passApplied
    requires if err.Some? then err.value.stage == WildcardStage && !m'.backedOff else ds.ManagedEdge()
    ensures end == if err.Some? then FailedAt(WildcardStage)
                   else BlockedOn(if m'.backedOff then OnRateLimit else OnDelegation)
    ensures PassLaw(start.me, RecordOf(start, ds, end, EdgePlan(ds), w, vault, token)) && IdsBelow(w, next)
    ensures Concluded(m, m', false, ds.generation) && MayEnd(m', ds, end)
  {
    end := if err.Some? then FailedAt(WildcardStage) else BlockedOn(if m'.backedOff then OnRateLimit else OnDelegation);
    EdgeStop(start, ds, s, end, LateAt(err), w, next, vault, token);
    NotConcluded(m, m', ds.generation);
  }

  lemma FailedWith(m: Monitor, m': Monitor, g: int)
    requires ButData(m, m') && !m.passApplied
    ensures Concluded(m, m', false, g)
    ensures m'.issued == m.issued && m'.passIssued == m.passIssued && m'.backedOff == m.backedOff
    ensures m'.notBefore == m.notBefore && m'.edgeFirst == m.edgeFirst
  {
    OpenButData(m, m');
  }

  lemma AppliedNext(m: Monitor, m': Monitor, g: int)
    requires m' == m.(failures := 0, notBefore := 0, applied := g, passApplied := true)
    ensures Concluded(m, m', true, g)
    ensures m'.issued == m.issued && m'.passIssued == m.passIssued && m'.backedOff == m.backedOff
    ensures m'.migrations == m.migrations
    ensures m'.notBefore == 0 && m'.edgeFirst == m.edgeFirst
  {
  }

  lemma ButDataConcluded(m: Monitor, m': Monitor, m'': Monitor, applied: bool, g: int)
    requires ButData(m, m') && Concluded(m', m'', applied, g)
    ensures Concluded(m, m'', applied, g)
  {
    OpenButData(m, m');
    OpenConcluded(m', m'', applied, g);
  }

  lemma AppliedWith(m: Monitor, m': Monitor, m'': Monitor, g: int)
    requires ButData(m, m') && !m.passApplied
    requires m'' == m'.(failures := 0, notBefore := 0, applied := g, passApplied := true)
    ensures Concluded(m, m'', true, g)
    ensures m''.issued == m.issued && m''.passIssued == m.passIssued && m''.backedOff == m.backedOff
    ensures m''.migrations == m'.migrations
    ensures m''.notBefore == 0 && m''.edgeFirst == m.edgeFirst
  {
    FailedWith(m, m', g);
    AppliedNext(m', m'', g);
    ButDataConcluded(m, m', m'', true, g);
  }

  lemma ButArchivingConcluded(m: Monitor, m': Monitor, m'': Monitor, applied: bool, g: int)
    requires m' == m.(archiving := m'.archiving) && Concluded(m', m'', applied, g)
    ensures Concluded(m, m'', applied, g)
  {
    OpenConcluded(m', m'', applied, g);
  }

  lemma ButArchivingNotConcluded(m: Monitor, m': Monitor, g: int)
    requires m' == m.(archiving := m'.archiving) && !m.passApplied
    ensures Concluded(m, m', false, g)
  {
  }

  lemma StaysConcluded(m: Monitor, m': Monitor, m'': Monitor, applied: bool, g: int)
    requires Stays(m, m') && Concluded(m', m'', applied, g)
    ensures Concluded(m, m'', applied, g)
  {
    OpenStays(m, m');
    OpenConcluded(m', m'', applied, g);
  }

  lemma WorkingStill(m: Monitor, m': Monitor, c: Context, ds: DesiredState)
    requires WorkingOn(m, c, ds) && (Stays(m, m') || ButData(m, m'))
    ensures WorkingOn(m', c, ds) && m'.handover == m.handover && m'.edgeFirst == m.edgeFirst
  {
    assert StaysGuard(0);
  }

  lemma StillInPass(m: Monitor, m': Monitor, applied: bool, g: int)
    requires Concluded(m, m', applied, g) && m.inPass
    ensures m'.inPass && m'.passApplied == applied && m'.handover == m.handover && m'.monotone == m.monotone
  {
    OpenConcluded(m, m', applied, g);
  }

  /** From the last moment between passes, over a whole pass, to the next such moment. */
  lemma PassOver(m0: Monitor, m1: Monitor, m2: Monitor, m3: Monitor, at: nat, edgeFirst: bool, applied: bool, g: int,
                 failed: bool, e: Ended)
    requires m1 == m0.(now := at, backedOff := false, inPass := true, passIssued := false, passApplied := false,
                       migrations := 0, lastPassAt := Some(at), edgeFirst := edgeFirst)
    requires Concluded(m1, m2, applied, g)
    requires m3 == EndedMonitor(m2, failed, e)
    ensures m3.handover == m0.handover && m3.lastPassAt == Some(at) && m3.monotone == m0.monotone
    ensures m3.ended == Whole(m0.ended.value + [e]) && m3.restorePending == m0.restorePending
    ensures m3.applied == if applied then g else m0.applied
  {
    OpenConcluded(m1, m2, applied, g);
  }

  /** acme-dns may not have landed. */
  function LateWith(outcome: Acme.Outcome): set<Name> {
    if outcome == IssueError then {AcmeDns} else {}
  }

  /** App containers may be created: the wildcard was issued, or was never to come first. */
  predicate MayProvision(m: Monitor, ds: DesiredState) {
    && (m.edgeFirst ==> m.issued)
    && (ds.ManagedEdge() ==> m.passIssued)
  }

  /** While received generations have not decreased, neither have those of the steps. */
  predicate InStep(m: Monitor, pace: Pace, desired: Option<DesiredState>) {
    m.monotone && pace.Pace? ==> desired.Some? && OnTime(pace, desired.value.generation)
  }

  lemma InStepStill(m: Monitor, m': Monitor, pace: Pace, desired: Option<DesiredState>)
    requires ButBackups(m, m') && InStep(m, pace, desired)
    ensures InStep(m', pace, desired)
  {
    OpenButBackups(m, m');
  }

  /** The signature verifies, and the signed bytes decode. */
  predicate Acceptable(key: string, signed: SignedDesiredState) {
    VerifyDeployment(key, signed) && signed.payload.decoded.Some?
  }

  ghost predicate AllUp(services: seq<ServiceStatus>) {
    forall s :: s in services ==> !Down(s) && !ComingUp(s)
  }

  /** What a listing that succeeded, or failed, shows of the owned containers. */
  ghost predicate Shows(services: seq<ServiceStatus>, listed: bool, w: World, me: string) {
    && (forall s :: s in services ==> Owned(w, s.name, me))
    && (if listed then forall n :: Owned(w, n, me) ==> exists s :: s in services && s.name == n else services == [])
  }

  ghost predicate SeesUp(services: seq<ServiceStatus>, n: Name) {
    exists s :: s in services && s.name == n && !Down(s) && !ComingUp(s)
  }

  /**
   * Where no service is down or coming up, every owned container was seen up if and only if the listing succeeded
   * or there is none: a listing that fails shows nothing, and nothing looks healthy.
   */
  lemma {:induction false} HealthyMeansSeen(services: seq<ServiceStatus>, listed: bool, w: World, me: string)
    requires Shows(services, listed, w, me) && AllUp(services)
    ensures (forall n :: Owned(w, n, me) ==> SeesUp(services, n)) <==> listed || forall n :: !Owned(w, n, me)
  {
    if listed {
      forall n | Owned(w, n, me) ensures SeesUp(services, n) {
        var s :| s in services && s.name == n;
      }
    }
  }

  /** What a report said: what it was built from, and whether it was Ready. */
  datatype Said = Said(services: seq<ServiceStatus>, listed: bool, ready: bool)

  predicate Down(s: ServiceStatus) {
    s.health.Unhealthy? || s.state.Exited? || s.state.Dead?
  }

  predicate ComingUp(s: ServiceStatus) {
    !Down(s) && (s.health.Starting? || s.state.Restarting? || s.state.Created?)
  }

  function DownAmong(services: seq<ServiceStatus>): seq<Name> {
    if services == [] then []
    else
      var k := |services| - 1;
      DownAmong(services[..k]) + (if Down(services[k]) then [services[k].service] else [])
  }

  function ComingUpAmong(services: seq<ServiceStatus>): seq<Name> {
    if services == [] then []
    else
      var k := |services| - 1;
      ComingUpAmong(services[..k]) + (if ComingUp(services[k]) then [services[k].service] else [])
  }

  lemma {:induction false} NoneAmong(services: seq<ServiceStatus>)
    ensures DownAmong(services) == [] <==> forall s :: s in services ==> !Down(s)
    ensures ComingUpAmong(services) == [] <==> forall s :: s in services ==> !ComingUp(s)
  {
    if services != [] {
      var k := |services| - 1;
      NoneAmong(services[..k]);
      assert services == services[..k] + [services[k]];
    }
  }

  const DatabaseKeys: seq<string> := [DB_NAME, DB_OWNER_PASSWORD, DB_APP_PASSWORD]

  ghost predicate AllSet(env: Secrets, keys: seq<string>) {
    forall k :: k in keys ==> !Blank(Value(env, k))
  }

  function ExternalSecret(sealed: map<SecretName, SealedSecret>): Option<SealedSecret> {
    if ExternalDbSecret in sealed then Some(sealed[ExternalDbSecret]) else None
  }

  /** The secret halves of the store's authentication among `names`, under their suffixes. */
  ghost predicate AuthAmong(auth: Secrets, sealed: map<SecretName, SealedSecret>, names: set<SecretName>)
    requires names <= sealed.Keys
  {
    && (forall suffix :: suffix in auth <==> SecretStoreAuth(suffix) in names)
    && (forall suffix :: suffix in auth ==> auth[suffix] == sealed[SecretStoreAuth(suffix)].plain)
  }

  const RecreateCapacity: nat := 8
  const BackupCapacity: nat := 4

  /** What other parties do between two inputs: time passes, containers die, secrets change, certificates get lost. */
  datatype Change =
    | TimePasses(seconds: nat)
    | ContainerGone(name: Name)
    | ContainerStopped(name: Name)
    | ContainerStarted(name: Name)
    | ContainerCreated(name: Name, owner: string, service: Name, hash: Digest, running: bool)
    | SecretsChanged(folders: Vault)
    | CertificateLost(base: string)

  /** Nobody else creates a container under an app's name, and the engine refuses a name that is taken. */
  function Disturbed(w: World, next: nat, change: Change): World {
    match change
    case ContainerGone(n) => w - {n}
    case ContainerStopped(n) => if n in w then w[n := w[n].(running := false)] else w
    case ContainerStarted(n) => if n in w then w[n := w[n].(running := true)] else w
    case ContainerCreated(n, owner, service, hash, running) =>
      if n in w || AppName(n) then w else w[n := Container(next, owner, service, hash, running)]
    case _ => w
  }

  lemma DisturbedStill(w: World, next: nat, change: Change)
    requires IdsBelow(w, next)
    ensures IdsBelow(Disturbed(w, next, change), next + 1)
    ensures NoAppContainers(w) ==> NoAppContainers(Disturbed(w, next, change))
  {
  }

  /** What the operator is told stands in the way. */
  datatype Flags = Flags(secretStore: bool, dns: bool, throttled: bool)

  const NoFlags := Flags(false, false, false)

  /** No container outside these names is another one. */
  ghost predicate SameBut(w: World, w': World, names: set<Name>) {
    forall n :: n !in names ==> Get(w', n) == Get(w, n)
  }

  /** `a` is the next step asked for after `asked`. */
  predicate Asks(asked: seq<Raised>, later: seq<Raised>, a: Raised) {
    asked + [a] <= later
  }

  predicate EndsSaying(log: seq<Action>, generation: int, ready: bool) {
    log != [] && log[|log| - 1] == Reported(generation, ready)
  }

  /** What waits to be taken by the loop. */
  datatype Queues = Queues(
    recheck: bool, recreate: seq<Name>, backup: seq<Option<BackupKind>>, restore: seq<RestoreReq>)

  datatype Orders = Orders(desired: Option<DesiredState>, restoring: bool, waiting: Queues)

  /** A bounded queue drops what does not fit. */
  function Offer<T>(queue: seq<T>, x: T, capacity: nat): seq<T> {
    if |queue| < capacity then queue + [x] else queue
  }

  /** What a command adds to the queues: an unnamed service, logs, a status request and the unknown add nothing. */
  function Enqueued(q: Queues, command: Command): Queues {
    match command
    case ForceRecheck => q.(recheck := true)
    case Recreate(service) =>
      if service.Some? then q.(recreate := Offer(q.recreate, service.value, RecreateCapacity)) else q
    case TakeBackup(kind) => q.(backup := Offer(q.backup, kind, BackupCapacity))
    case RestoreDB(req) => q.(restore := Offer(q.restore, req, 1))
    case _ => q
  }

  function Rest<T>(queue: seq<T>): seq<T> {
    if queue == [] then [] else queue[1..]
  }

  /** What is left in the queues after an input has been served. */
  function Served(q: Queues, input: Input): Queues {
    match input
    case Frame(CommandFrame(command)) => Enqueued(q, command)
    case RecheckReady => q.(recheck := false)
    case RecreateReady => q.(recreate := Rest(q.recreate))
    case BackupReady => q.(backup := Rest(q.backup))
    case RestoreReady => q.(restore := Rest(q.restore))
    case _ => q
  }

  /** The loop can take this input now. */
  predicate Ready(q: Queues, blocked: bool, input: Input) {
    match input
    case RecheckReady => q.recheck
    case RecreateReady => q.recreate != []
    case BackupReady => q.backup != []
    case RestoreReady => q.restore != []
    case FastTick => blocked
    case Frame(_) => true
    case HeartbeatTick => true
    case ResyncTick => true
    case BackupTick => true
    case _ => false
  }

  const RestoreClears: seq<Name> := [CoreServer, Commerce, Postgres]

  /** The containers whose removal succeeded. */
  ghost function Removed(errs: seq<Option<string>>): set<Name>
    requires |errs| == |RestoreClears|
  {
    set i | 0 <= i < |errs| && errs[i].None? :: RestoreClears[i]
  }

  /** All three are gone if and only if no removal failed. */
  lemma AllRemoved(errs: seq<Option<string>>)
    requires |errs| == |RestoreClears|
    ensures Removed(errs) == {Postgres, CoreServer, Commerce} <==> forall e :: e in errs ==> e.None?
  {
    assert RestoreClears[0] == CoreServer && RestoreClears[1] == Commerce && RestoreClears[2] == Postgres;
    if Removed(errs) == {Postgres, CoreServer, Commerce} {
      assert CoreServer in Removed(errs) && Commerce in Removed(errs) && Postgres in Removed(errs);
    }
    if forall e :: e in errs ==> e.None? {
      assert errs[0].None? && errs[1].None? && errs[2].None?;
    }
  }

  /** What the loop can be woken by. An input that is not ready is never taken. */
  datatype Input =
    | SubscribeOpened
    | SubscribeFailed
    | StreamDropped
    | Frame(event: ServerEvent)
    | HeartbeatTick
    | ResyncTick
    | FastTick
    | BackupTick
    | RecheckReady
    | RecreateReady
    | BackupReady
    | RestoreReady
    | Outside(change: Change)

  /** Inputs after which a pass can run; each runs one at most. */
  predicate MayPass(i: Input) {
    || (i.Frame? && i.event.DesiredStatePush?)
    || i.ResyncTick? || i.FastTick? || i.RecheckReady? || i.RecreateReady? || i.RestoreReady?
  }

  const RestoreNames: set<Name> := {Postgres, CoreServer, Commerce, DbRestore}

  /** One pass, which found these containers and left those, or none, and they are the same. */
  ghost predicate OnePass(ran: bool, passes: seq<PassRecord>, later: seq<PassRecord>, w: World, w': World) {
    if ran then
      && passes <= later && |later| == |passes| + 1
      && later[|passes|].before == w && later[|passes|].after == w'
    else later == passes && w' == w
  }

  /** A restore, which touches its own containers, and a pass after it or none. */
  ghost predicate RestoreThenPass(ran: bool, passes: seq<PassRecord>, later: seq<PassRecord>, w: World, w': World) {
    exists v :: SameBut(w, v, RestoreNames) && OnePass(ran, passes, later, v, w')
  }

  /** What an input has to do with the containers: they change by a recorded pass or by a restore, and not else. */
  ghost predicate Accounted(input: Input, passes: seq<PassRecord>, later: seq<PassRecord>, w: World, w': World) {
    if input.RestoreReady? then
      RestoreThenPass(false, passes, later, w, w') || RestoreThenPass(true, passes, later, w, w')
    else
      || OnePass(false, passes, later, w, w')
      || (MayPass(input) && OnePass(true, passes, later, w, w'))
  }

  lemma NothingIsAccounted(input: Input, passes: seq<PassRecord>, w: World)
    ensures Accounted(input, passes, passes, w, w)
  {
    assert SameBut(w, w, RestoreNames);
  }

  /** The same for any input of a script, also for what others do. */
  ghost predicate Explained(input: Input, passes: seq<PassRecord>, later: seq<PassRecord>, w: World, w': World) {
    if input.Outside? then later == passes && exists next: nat :: w' == Disturbed(w, next, input.change)
    else OnePass(false, passes, later, w, w') || Accounted(input, passes, later, w, w')
  }

  /** The containers, and the number of passes recorded, between two inputs. */
  datatype Moment = Moment(world: World, passes: nat)

  ghost predicate AccountsFor(input: Input, m: Moment, m': Moment, passes: seq<PassRecord>) {
    && m.passes <= m'.passes <= |passes|
    && Explained(input, passes[..m.passes], passes[..m'.passes], m.world, m'.world)
  }

  /** From each moment of a run to the next the containers are explained by the input between them. */
  ghost predicate Accounts(script: seq<Input>, trace: seq<Moment>, passes: seq<PassRecord>) {
    && |trace| == |script| + 1 && trace[|script|].passes == |passes|
    && forall i :: 0 <= i < |script| ==> AccountsFor(script[i], trace[i], trace[i + 1], passes)
  }

  lemma AccountsGoOn(script: seq<Input>, i: nat, trace: seq<Moment>, passes: seq<PassRecord>, later: seq<PassRecord>,
                     w: World)
    requires i < |script| && Accounts(script[..i], trace, passes) && passes <= later
    requires Explained(script[i], passes, later, trace[i].world, w)
    ensures Accounts(script[..i + 1], trace + [Moment(w, |later|)], later)
  {
    var trace' := trace + [Moment(w, |later|)];
    forall k | 0 <= k < i + 1 ensures AccountsFor(script[..i + 1][k], trace'[k], trace'[k + 1], later) {
      if k < i {
        assert AccountsFor(script[..i][k], trace[k], trace[k + 1], passes);
        assert later[..trace[k].passes] == passes[..trace[k].passes];
        assert later[..trace[k + 1].passes] == passes[..trace[k + 1].passes];
      } else {
        assert later[..|passes|] == passes && later[..|later|] == later;
      }
    }
  }

  /** The subscription: whether the stream is open, and the failures in a row since it last was. */
  datatype Link = Link(connected: bool, misses: nat)

  function NextLink(l: Link, i: Input): Link {
    match i
    case SubscribeOpened => if l.connected then l else Link(true, 0)
    case SubscribeFailed => if l.connected then l else Link(false, l.misses + 1)
    case StreamDropped => if l.connected then Link(false, l.misses + 1) else l
    case _ => l
  }

  function LinkAfter(script: seq<Input>): Link {
    if script == [] then Link(false, 0) else NextLink(LinkAfter(script[..|script| - 1]), script[|script| - 1])
  }

  class Agent {
    const ledger: Ledger
    const book: PassBook
    const events: EventLog
    const dx: Client
    const edge: EdgeHost
    const store: Store
    const deploymentPubKey: string

    var clock: nat
    var lastGeneration: int
    var lastDesired: Option<DesiredState>
    var archiving: bool
    var stopped: bool
    var restoring: bool
    var backupState: BackupState
    var backupInfo: Option<nat>
    var backupAnnotate: bool
    var hadFullBackup: bool
    var edgeManaged: bool
    var certs: seq<CertReport>
    var acmeDelegation: Option<Delegation>

    var lastReconcileErr: Option<Error>
    var lastResync: Option<nat>
    var awaitingSecretStore: bool
    var awaitingDns: bool
    var rateLimited: bool
    var hadCert: bool
    var giteaProvisioned: bool

    var blocked: bool
    var backoff: nat
    var nextAttempt: nat

    var forceRecheckQ: bool
    var recreateQ: seq<Name>
    var forceRecreate: set<Name>
    var backupQ: seq<Option<BackupKind>>
    var restoreQ: seq<RestoreReq>

    // ------------------------------------------------------------------ invariants

    /** The agent's fields say what its history says. */
    ghost predicate Agrees()
      reads this`clock, this`lastGeneration, this`lastDesired, this`archiving, this`restoring, this`hadFullBackup,
            this`acmeDelegation, this`awaitingDns, this`rateLimited, this`hadCert, this`backoff, this`nextAttempt,
            this`forceRecreate, ledger, ledger.turn, ledger.pass
    {
      && ledger.Valid()
      && ledger.site.key == deploymentPubKey
      && ledger.m.now <= clock
      && lastGeneration == ledger.m.applied
      && lastDesired == ledger.c.value.desired
      && restoring == ledger.m.restorePending
      && archiving == ledger.m.archiving
      && hadFullBackup == ledger.m.base
      && (archiving ==> hadFullBackup)
      && forceRecreate == ledger.c.value.marked
      && Backed(backoff, ledger.m.failures)
      && nextAttempt == ledger.m.notBefore
      && (nextAttempt > 0 ==> backoff > 0)
      && !(awaitingDns && rateLimited)
      && (acmeDelegation.Some? ==> awaitingDns || rateLimited)
      && (hadCert ==> ledger.m.issued)
    }

    /** `Agrees`, to be opened with `OpenInv` only. Holds whenever a method is called, also within a pass. */
    ghost predicate Inv()
      reads this`clock, this`lastGeneration, this`lastDesired, this`archiving, this`restoring, this`hadFullBackup,
            this`acmeDelegation, this`awaitingDns, this`rateLimited, this`hadCert, this`backoff, this`nextAttempt,
            this`forceRecreate, ledger, ledger.turn, ledger.pass
    {
      forall k {:trigger InvGuard(k)} :: InvGuard(k) ==> Agrees()
    }

    lemma OpenInv()
      requires Inv()
      ensures Agrees()
    {
      assert InvGuard(0);
    }

    /** Nothing stands in the way of reporting Ready but the health of the services. */
    predicate Unblocked()
      reads this`lastReconcileErr, this`awaitingSecretStore, this`rateLimited, this`awaitingDns
    {
      lastReconcileErr.None? && !awaitingSecretStore && !rateLimited && !awaitingDns
    }

    /** Between passes. A backoff window still open means that the last pass failed or was throttled. */
    ghost predicate Settled()
      reads this, ledger, ledger.turn, ledger.pass, events, events.turn, events.pass, events.restore, dx
    {
      && Inv() && events.Valid()
      && IdsBelow(dx.containers, dx.nextId) && CertFirst(ledger.m, dx.containers)
      && InStep(ledger.m, events.pace, lastDesired)
      && !ledger.m.inPass
      && !ledger.m.handover
      && lastResync == ledger.m.lastPassAt
      && lastReconcileErr.Some? == ledger.m.lastFailed
      && (ledger.m.lastFailed ==> ledger.m.backedOff)
      && (clock < nextAttempt ==> lastReconcileErr.Some? || rateLimited)
    }

    /** Between passes, with the fast re-check armed as it should be. */
    ghost predicate Calm()
      reads this, ledger, ledger.turn, ledger.pass, events, events.turn, events.pass, events.restore, dx
    {
      Settled() && blocked == (awaitingSecretStore || awaitingDns)
    }

    /** With no error and no block to show, the desired state has been applied (or a restore is due). */
    ghost predicate Honest()
      reads this
    {
      lastDesired.Some? && !restoring && Unblocked() ==> lastGeneration == lastDesired.value.generation
    }

    /** Every pass so far kept the law of passes. */
    ghost predicate Kept()
      reads book, book.turn, ledger`m
    {
      book.Valid() && book.me == dx.deploymentID && Recorded(book.passes, ledger.m.ended)
    }

    /** The queues keep their capacities, and the restore lock is held exactly while a restore is queued. */
    ghost predicate Bounded()
      reads this`restoring, this`restoreQ, this`recreateQ, this`backupQ
    {
      && (restoring <==> |restoreQ| == 1)
      && |restoreQ| <= 1
      && |recreateQ| <= RecreateCapacity
      && |backupQ| <= BackupCapacity
    }

    /** What holds each time the loop takes its next input. */
    ghost predicate Boundary()
      reads this, ledger, ledger.turn, ledger.pass, events, events.turn, events.pass, events.restore, book, book.turn,
            dx, edge, edge.turn, edge.pass
    {
      Calm() && Honest() && Kept() && edge.Valid() && Bounded()
    }

    /** A pass toward the last desired state would start now, with a backoff window that ends at `window`. */
    predicate PassDue(window: nat, now: nat)
      reads this`lastDesired, this`restoring, this`backoff, this`lastGeneration, this`lastReconcileErr, this`lastResync
    {
      lastDesired.Some? && !restoring
      && Due(backoff, window, lastGeneration, lastReconcileErr.Some?, lastResync, lastDesired.value.generation, now)
    }

    function Blocks(): Flags
      reads this`awaitingSecretStore, this`awaitingDns, this`rateLimited
    {
      Flags(awaitingSecretStore, awaitingDns, rateLimited)
    }

    function Waiting(): Queues
      reads this`forceRecheckQ, this`recreateQ, this`backupQ, this`restoreQ
    {
      Queues(forceRecheckQ, recreateQ, backupQ, restoreQ)
    }

    /** What cloud and the operators have asked for and no pass has a say in. */
    function Standing(): Orders
      reads this`lastDesired, this`restoring, this`forceRecheckQ, this`recreateQ, this`backupQ, this`restoreQ
    {
      Orders(lastDesired, restoring, Waiting())
    }

    constructor (dx: Client, edge: EdgeHost, store: Store, key: string)
      requires IdsBelow(dx.containers, dx.nextId) && edge.Valid()
      ensures Boundary() && this.dx == dx && this.edge == edge && this.store == store
      ensures fresh(ledger) && fresh(events) && fresh(book)
      ensures ledger.log == [] && ledger.site == Site(key, NoAppContainers(dx.containers))
      ensures Waiting() == Queues(false, [], [], []) && forceRecreate == {} && lastDesired.None? && lastGeneration == 0
      ensures events.emitted == [] && book.passes == []
    {
      NotBacked();
      var history := new Ledger(Site(key, NoAppContainers(dx.containers)));
      var told := new EventLog();
      var passes := new PassBook(dx.deploymentID);
      this.ledger, this.events, this.book := history, told, passes;
      this.dx, this.edge, this.store, this.deploymentPubKey := dx, edge, store, key;
      clock, lastGeneration, lastDesired := 0, 0, None;
      archiving, stopped, restoring := false, false, false;
      backupState, backupInfo, backupAnnotate, hadFullBackup := Off, None, false, false;
      edgeManaged, certs, acmeDelegation := false, [], None;
      lastReconcileErr, lastResync := None, None;
      awaitingSecretStore, awaitingDns, rateLimited, hadCert, giteaProvisioned := false, false, false, false, false;
      blocked, backoff, nextAttempt := false, 0, 0;
      forceRecheckQ, recreateQ, forceRecreate, backupQ, restoreQ := false, [], {}, [], [];
    }

    // ------------------------------------------------------------------ clock and reports

    /** Reads the clock; time passes between readings. */
    method Now() returns (t: nat)
      requires Inv()
      modifies this`clock
      ensures Inv() && t == clock && old(clock) <= clock
    {
      OpenInv();
      var d: nat :| true;
      clock := clock + d;
      t := clock;
    }

    /** Owned containers as the engine lists them; a listing that fails shows none. */
    method CollectServices() returns (services: seq<ServiceStatus>, ghost listed: bool)
      ensures Shows(services, listed, dx.containers, dx.deploymentID)
    {
      var err;
      services, err := dx.List();
      listed := err.None?;
      if err.Some? {
        services := [];
      }
    }

    /**
     * The conditions to report, as a strict ladder: error, secret store, throttle, delegation, unhealthy,
     * starting, in sync.
     */
    method BuildConditions(reconcileErr: Option<Error>, services: seq<ServiceStatus>) returns (cs: seq<Condition>)
      ensures |cs| >= 1 && cs[0].kind.ReadyCond?
      ensures forall i :: 0 < i < |cs| ==> !cs[i].kind.ReadyCond? && cs[i].status
      ensures cs[0].status <==>
                reconcileErr.None? && !awaitingSecretStore && !rateLimited && !awaitingDns && AllUp(services)
      ensures cs[0].status <==> |cs| == 1
      ensures cs[0].reason ==
                if reconcileErr.Some? then ReconcileError
                else if awaitingSecretStore then AwaitingSecretStore
                else if rateLimited then RateLimited
                else if awaitingDns then AwaitingDnsDelegation
                else if DownAmong(services) != [] then ServiceUnhealthy
                else if ComingUpAmong(services) != [] then Reconciling
                else InSync
      ensures cs[0].reason.ServiceUnhealthy? ==> cs[0].about == DownAmong(services)
      ensures cs[0].reason.Reconciling? ==> cs[0].about == ComingUpAmong(services)
    {
      if reconcileErr.Some? {
        return [Condition(ReadyCond, false, ReconcileError, NoComponent, [], reconcileErr.value.detail),
                Condition(DegradedCond, true, ReconcileError, NoComponent, [], reconcileErr.value.detail)];
      }
      if awaitingSecretStore {
        return [Condition(ReadyCond, false, AwaitingSecretStore, NoComponent, [], ""),
                Condition(BlockedCond, true, AwaitingSecretStore, SecretStore, [], "")];
      }
      if rateLimited {
        return [Condition(ReadyCond, false, RateLimited, NoComponent, [], ""),
                Condition(BlockedCond, true, RateLimited, Edge, [], "")];
      }
      if awaitingDns {
        return [Condition(ReadyCond, false, AwaitingDnsDelegation, NoComponent, [], ""),
                Condition(BlockedCond, true, AwaitingDnsDelegation, Edge, [], "")];
      }
      var unhealthy, starting: seq<Name> := [], [];
      for i := 0 to |services|
        invariant unhealthy == DownAmong(services[..i]) && starting == ComingUpAmong(services[..i])
      {
        var s := services[i];
        assert services[..i + 1][..i] == services[..i];
        if s.health.Unhealthy? || s.state.Exited? || s.state.Dead? {
          unhealthy := unhealthy + [s.service];
        } else if s.health.Starting? || s.state.Restarting? || s.state.Created? {
          starting := starting + [s.service];
        }
      }
      assert services[..|services|] == services;
      NoneAmong(services);
      if |unhealthy| > 0 {
        return [Condition(ReadyCond, false, ServiceUnhealthy, NoComponent, unhealthy, ""),
                Condition(DegradedCond, true, ServiceUnhealthy, NoComponent, unhealthy, "")];
      }
      if |starting| > 0 {
        return [Condition(ReadyCond, false, Reconciling, NoComponent, starting, ""),
                Condition(ReconcilingCond, true, Reconciling, NoComponent, starting, "")];
      }
      return [Condition(ReadyCond, true, InSync, NoComponent, [], "")];
    }

    /** A progress step of the current generation. */
    method Progress(ds: DesiredState, component: Component, reason: Reason)
      requires events.Valid() && InStep(ledger.m, events.pace, Some(ds))
      modifies events
      ensures events.Valid() && InStep(ledger.m, events.pace, Some(ds))
      ensures events.asked == old(events.asked) + [Raised(reason, ds.generation)]
      ensures events.curBlockReason == old(events.curBlockReason)
      ensures events.emitted ==
                if old(reason in events.emittedSteps && events.emittedSteps[reason] == ds.generation)
                then old(events.emitted)
                else old(events.emitted) + [Event(Info, component, reason, "")]
    {
      events.Step(ds.generation, component, reason);
    }

    /** A transition; when it is emitted exactly is the caller's business. */
    method Tell(level: Level, component: Component, reason: Reason)
      requires events.Valid()
      modifies events
      ensures events.Valid() && events.pace == old(events.pace)
      ensures events.emitted == old(events.emitted) + [Event(level, component, reason, "")]
    {
      events.Emit(level, component, reason, "");
    }

    /**
     * Pushes a status report: all buffered events reach cloud with it, or, if it fails, none, and they stay buffered.
     */
    method Report(generation: int, conditions: seq<Condition>, services: seq<ServiceStatus>)
      requires Inv() && events.Valid() && |conditions| >= 1
      requires MayReport(ledger.m, ledger.c.value, generation, conditions[0].status)
      modifies events, ledger
      ensures Inv() && events.Valid() && ledger.m == old(ledger.m) && ledger.c == old(ledger.c)
      ensures ledger.log == old(ledger.log) + [Reported(generation, conditions[0].status)]
      ensures events.emitted == old(events.emitted) && events.pace == old(events.pace)
      ensures events.asked == old(events.asked)
      ensures (events.pendingEvents == [] && events.delivered == events.emitted)
           || (events.pendingEvents == old(events.pendingEvents) && events.delivered == old(events.delivered))
    {
      OpenInv();
      ledger.Record(Reported(generation, conditions[0].status));
      events.Push(generation, conditions, services);
    }

    method Observe() returns (services: seq<ServiceStatus>, conditions: seq<Condition>, ghost said: Said)
      ensures |conditions| >= 1 && said == Said(services, said.listed, conditions[0].status)
      ensures said.ready <==> Unblocked() && AllUp(services)
      ensures Shows(services, said.listed, dx.containers, dx.deploymentID)
    {
      ghost var listed;
      services, listed := CollectServices();
      conditions := BuildConditions(lastReconcileErr, services);
      said := Said(services, listed, conditions[0].status);
    }

    /** The last thing reported is `said`: of the generation applied, with these flags, and of these containers. */
    ghost predicate Replied(said: Said)
      reads this`lastGeneration, this`lastReconcileErr, this`awaitingSecretStore, this`rateLimited, this`awaitingDns,
            ledger, dx
    {
      && EndsSaying(ledger.log, lastGeneration, said.ready)
      && (said.ready <==> Unblocked() && AllUp(said.services))
      && Shows(said.services, said.listed, dx.containers, dx.deploymentID)
    }

    /** Reports health and conditions without reconciling. */
    method ReportHeartbeat() returns (ghost said: Said)
      requires Calm() && Honest()
      modifies events, ledger
      ensures Calm() && Honest() && ledger.m == old(ledger.m) && ledger.c == old(ledger.c)
      ensures ledger.log == old(ledger.log) + [Reported(lastGeneration, said.ready)] && Replied(said)
      ensures events.emitted == old(events.emitted) && events.asked == old(events.asked)
    {
      OpenInv();
      var services, conditions, s := Observe();
      said := s;
      Report(lastGeneration, conditions, services);
    }

    // ------------------------------------------------------------------ backoff

    method EnterBackoff()
      requires Inv() && !ledger.m.backedOff && ledger.m.notBefore <= clock
      requires if ledger.m.inPass then !ledger.m.passIssued && !ledger.m.passApplied else ledger.m.lastFailed
      modifies this`clock, this`backoff, this`nextAttempt, ledger
      ensures Inv() && old(clock) <= clock < nextAttempt
      ensures ledger.c == old(ledger.c)
      ensures ledger.m == BackedOffMonitor(old(ledger.m), clock, nextAttempt)
    {
      OpenInv();
      var grown := GrowBackoff(backoff, ledger.m.failures);
      var now := Now();
      OpenWindow(grown, now);
    }

    method OpenWindow(grown: nat, now: nat)
      requires Inv() && now == clock && !ledger.m.backedOff && ledger.m.notBefore <= clock
      requires if ledger.m.inPass then !ledger.m.passIssued && !ledger.m.passApplied else ledger.m.lastFailed
      requires grown > 0 && Backed(grown, ledger.m.failures + 1)
      modifies this`backoff, this`nextAttempt, ledger
      ensures Inv() && clock < nextAttempt
      ensures ledger.c == old(ledger.c)
      ensures ledger.m == BackedOffMonitor(old(ledger.m), clock, nextAttempt)
    {
      OpenInv();
      backoff, nextAttempt := grown, now + grown;
      ledger.RecordBackoff(now, grown);
      assert Backed(backoff, ledger.m.failures) && nextAttempt == ledger.m.notBefore && ledger.m.now == clock;
      assert Agrees();
    }

    // ------------------------------------------------------------------ within a pass

    /** Applies one service of the plan. */
    method ApplyTracked(spec: RunSpec, ghost start: Start, force: set<Name>, ghost plan: Plan)
      returns (err: Option<Error>)
      requires Tracks(start, plan, {}, dx.containers, dx.nextId) && start.me == dx.deploymentID && start.force == force
      requires spec.name !in plan && !OneShot(spec.name) && spec.name != AcmeDns
      modifies dx`containers, dx`nextId
      ensures Tracks(start, plan[spec.name := spec], LateAt(err), dx.containers, dx.nextId)
      ensures err.Some? ==> err.value.stage == ServiceStage(spec.name)
    {
      OpenTracks(start, plan, {}, dx.containers, dx.nextId);
      ghost var w1, next1 := dx.containers, dx.nextId;
      var e := Apply(dx, spec, force);
      TracksApply(start, plan, spec, w1, next1, dx.containers, dx.nextId, e.None?);
      err := if e.Some? then Some(Error(ServiceStage(spec.name), e.value)) else None;
    }

    /** Drains the recreate requests; this is where a pass begins. */
    method TakeForce(ds: DesiredState, ghost at: nat) returns (force: set<Name>)
      requires Inv() && !ledger.m.inPass && !restoring && lastDesired == Some(ds)
      requires ledger.m.lastFailed ==> ledger.m.backedOff
      requires ledger.m.now <= at <= clock && ledger.m.notBefore <= at && GateOpen(ledger.m, ds.generation, at)
      modifies this`forceRecreate, ledger
      ensures Inv() && WorkingOn(ledger.m, ledger.c.value, ds)
      ensures force == old(forceRecreate) && forceRecreate == {}
      ensures ledger.c.value.force == force
      ensures ledger.m == old(ledger.m).(now := at, backedOff := false, inPass := true, passIssued := false,
                                         migrations := 0,
                                         passApplied := false, lastPassAt := Some(at),
                                         edgeFirst := old(ledger.m.edgeFirst) && (ds.stopped || ds.ManagedEdge()))
    {
      OpenInv();
      force := forceRecreate;
      forceRecreate := {};
      ledger.Record(PassStarted(ds, at, force));
    }

    // --- taking the stack offline

    /** Removes every owned container. */
    method PruneAll() returns (err: Option<string>)
      requires IdsBelow(dx.containers, dx.nextId)
      modifies dx
      ensures IdsBelow(dx.containers, dx.nextId)
      ensures OnlyOwnedRemoved(old(dx.containers), dx.containers, dx.deploymentID)
      ensures err.None? ==> Emptied(old(dx.containers), dx.containers, dx.deploymentID)
    {
      err := dx.PruneExcept({});
      if err.None? {
        forall n | Owned(old(dx.containers), n, dx.deploymentID) ensures n !in dx.containers {
          assert !Owned(dx.containers, n, dx.deploymentID);
        }
      }
    }

    /** Reads the backup inventory without a running Postgres; a failure keeps the last one. */
    method OfflineInventory(ds: DesiredState)
      requires IdsBelow(dx.containers, dx.nextId)
      modifies this`backupInfo, dx
      ensures IdsBelow(dx.containers, dx.nextId) && InventoryOnly(ds, old(dx.containers), dx.containers)
      ensures !ds.Backups() ==> backupInfo.None?
    {
      if ds.Backups() {
        var code, err := dx.RunToCompletion(InfoSpec(ds.images.postgres));
        if err.None? && code == 0 {
          var count: nat :| true;
          backupInfo := Some(count);
        }
      } else {
        backupInfo := None;
      }
    }

    /** The fields of a stack that has been taken down. */
    method GoOffline(ds: DesiredState)
      requires Inv() && WorkingOn(ledger.m, ledger.c.value, ds) && ds.stopped && !ledger.m.backedOff
      modifies this`archiving, this`backoff, this`nextAttempt, this`lastGeneration, ledger
      ensures Inv() && !archiving
      ensures ledger.c == old(ledger.c)
      ensures ledger.m == old(ledger.m).(archiving := false, failures := 0, notBefore := 0,
                                         applied := ds.generation, passApplied := true)
    {
      OpenInv();
      archiving := false;
      backoff, nextAttempt := 0, 0;
      NotBacked();
      lastGeneration := ds.generation;
      ledger.RecordOffline(ds.generation);
    }

    /** Nothing is served any more, and the edge is no longer waited for. */
    method StopServing()
      requires Inv() && events.Valid()
      modifies this`stopped, this`certs, this`acmeDelegation, events
      ensures Inv() && events.Valid() && events.pace == old(events.pace) && events.curBlockReason.None?
      ensures stopped && certs == [] && acmeDelegation.None?
    {
      events.ClearBlock();
      OpenInv();
      stopped, certs, acmeDelegation := true, [], None;
      assert Agrees();
    }

    /** Takes every owned container down and, with backups, looks at what can be restored. */
    method Darken(ds: DesiredState) returns (err: Option<Error>)
      requires IdsBelow(dx.containers, dx.nextId)
      modifies this`backupInfo, dx
      ensures IdsBelow(dx.containers, dx.nextId)
      ensures err.Some? ==>
                err.value.stage == TeardownStage && OnlyOwnedRemoved(old(dx.containers), dx.containers, dx.deploymentID)
      ensures err.None? ==> Offline(ds, old(dx.containers), dx.containers, dx.deploymentID)
    {
      var e := PruneAll();
      if e.Some? {
        return Some(Error(TeardownStage, e.value));
      }
      ghost var dark := dx.containers;
      OfflineInventory(ds);
      OfflineAfter(ds, old(dx.containers), dark, dx.containers, dx.deploymentID);
      err := None;
    }

    /** Takes the whole stack offline. Data stays on the host; scheduled backups are suspended. */
    method TearDown(ds: DesiredState) returns (err: Option<Error>)
      requires Inv() && events.Valid() && WorkingOn(ledger.m, ledger.c.value, ds) && ds.stopped && !ledger.m.backedOff
      requires InStep(ledger.m, events.pace, Some(ds))
      requires IdsBelow(dx.containers, dx.nextId)
      modifies this`stopped, this`archiving, this`backupInfo, this`certs, this`acmeDelegation, this`backoff,
               this`nextAttempt, this`lastGeneration, events, ledger, dx
      ensures Inv() && events.Valid() && IdsBelow(dx.containers, dx.nextId) && ledger.c == old(ledger.c)
      ensures InStep(ledger.m, events.pace, Some(ds))
      ensures err.Some? ==>
        && err.value.stage == TeardownStage
        && ledger.m == old(ledger.m)
        && OnlyOwnedRemoved(old(dx.containers), dx.containers, dx.deploymentID)
      ensures err.None? ==>
        && stopped && !archiving && certs == [] && acmeDelegation.None? && events.curBlockReason.None?
        && ledger.m == old(ledger.m).(archiving := false, failures := 0, notBefore := 0,
                                      applied := ds.generation, passApplied := true)
        && Offline(ds, old(dx.containers), dx.containers, dx.deploymentID)
    {
      if !stopped {
        Progress(ds, Core, StoppingDeployment);
      }
      err := Darken(ds);
      if err.None? {
        WindDown(ds);
      }
    }

    method WindDown(ds: DesiredState)
      requires Inv() && events.Valid() && WorkingOn(ledger.m, ledger.c.value, ds) && ds.stopped && !ledger.m.backedOff
      requires InStep(ledger.m, events.pace, Some(ds))
      modifies this`stopped, this`archiving, this`certs, this`acmeDelegation, this`backoff, this`nextAttempt,
               this`lastGeneration, events, ledger
      ensures Inv() && events.Valid() && ledger.c == old(ledger.c)
      ensures InStep(ledger.m, events.pace, Some(ds))
      ensures stopped && !archiving && certs == [] && acmeDelegation.None? && events.curBlockReason.None?
      ensures ledger.m == old(ledger.m).(archiving := false, failures := 0, notBefore := 0,
                                         applied := ds.generation, passApplied := true)
    {
      StopServing();
      Progress(ds, Core, DeploymentStopped);
      GoOffline(ds);
    }

    // --- managed to external

    method BeginHandover(ds: DesiredState)
      requires Inv() && archiving && WorkingOn(ledger.m, ledger.c.value, ds) && !ds.stopped && ds.DbExternal()
      requires events.Valid() && InStep(ledger.m, events.pace, Some(ds))
      modifies this`archiving, events, ledger
      ensures Inv() && !archiving && hadFullBackup && ledger.c == old(ledger.c)
      ensures events.Valid() && InStep(ledger.m, events.pace, Some(ds))
      ensures ledger.log == old(ledger.log) + [HandoverDue]
      ensures ledger.m == old(ledger.m).(archiving := false, handover := true)
    {
      OpenInv();
      archiving := false;
      ledger.Record(HandoverDue);
      Progress(ds, Database, FinalBackup);
    }

    method TryFinalBackup(ds: DesiredState) returns (ghost ok: bool)
      requires Inv() && ledger.m.handover && hadFullBackup
      requires events.Valid() && InStep(ledger.m, events.pace, Some(ds))
      modifies events, ledger
      ensures Inv() && ledger.c == old(ledger.c) && ledger.m == old(ledger.m).(handover := false)
      ensures ledger.log == old(ledger.log) + [BackupTried(Full, FinalTrigger, ok)]
      ensures events.Valid() && InStep(ledger.m, events.pace, Some(ds))
    {
      OpenInv();
      var err := RunBackup(dx, Full, FinalTrigger);
      ok := err.None?;
      ledger.RecordFinalBackup(ok);
      Tell(if err.None? then Info else Warn, Database, if err.None? then FinalBackupComplete else FinalBackupFailed);
    }

    /** Managed to external with backups on: one last full backup while the container is still up. */
    method HandOver(ds: DesiredState) returns (ghost ok: bool)
      requires Inv() && events.Valid() && WorkingOn(ledger.m, ledger.c.value, ds) && !ds.stopped
      requires !ledger.m.handover && InStep(ledger.m, events.pace, Some(ds))
      modifies this`archiving, events, ledger
      ensures Inv() && events.Valid() && ledger.c == old(ledger.c)
      ensures InStep(ledger.m, events.pace, Some(ds))
      ensures ds.DbExternal() ==> !archiving
      ensures ledger.log ==
                old(ledger.log)
                + (if ds.DbExternal() && old(archiving) then [HandoverDue, BackupTried(Full, FinalTrigger, ok)] else [])
      ensures ledger.m == old(ledger.m).(archiving := ledger.m.archiving)
    {
      if ds.DbExternal() && archiving {
        BeginHandover(ds);
        ok := TryFinalBackup(ds);
      } else {
        OpenInv();
        ok := false;
      }
    }

    // --- reading the secrets

    /**
     * Opens every sealed secret; the names are visited in no particular order. The secret halves of the store's
     * authentication are collected under their names, the external connection apart.
     */
    method OpenSecrets(ds: DesiredState) returns (err: Option<Error>, auth: Secrets, external: Option<SealedSecret>)
      ensures err.Some? ==> err.value.stage == UnsealStage
      ensures err.None? ==>
                AuthAmong(auth, ds.sealedSecrets, ds.sealedSecrets.Keys) && external == ExternalSecret(ds.sealedSecrets)
    {
      err, auth, external := None, map[], None;
      var todo := ds.sealedSecrets.Keys;
      while todo != {}
        invariant todo <= ds.sealedSecrets.Keys
        invariant AuthAmong(auth, ds.sealedSecrets, ds.sealedSecrets.Keys - todo)
        invariant external == if ExternalDbSecret in todo then None else ExternalSecret(ds.sealedSecrets)
        decreases todo
      {
        var name :| name in todo;
        todo := todo - {name};
        var e := dx.Fault();
        if e.Some? {
          return Some(Error(UnsealStage, e.value)), map[], None;
        }
        match name {
          case ExternalDbSecret => external := Some(ds.sealedSecrets[name]);
          case SecretStoreAuth(suffix) => auth := auth[suffix := ds.sealedSecrets[name].plain];
          case OtherSecret(_) =>
        }
      }
      assert ds.sealedSecrets.Keys - todo == ds.sealedSecrets.Keys;
    }

    method Fetch(folder: Folder) returns (err: Option<Error>, env: Secrets)
      ensures err.Some? ==> err.value.stage == SecretsStage(folder)
      ensures err.None? ==> env == Read(store.folders, folder)
    {
      var fetched := store.Fetch(folder);
      if fetched.None? {
        return Some(Error(SecretsStage(folder), "fetch")), map[];
      }
      return None, fetched.value;
    }

    /** Fails, naming the folder, when a required key is absent or blank. */
    method Require(folder: Folder, env: Secrets, keys: seq<string>) returns (err: Option<Error>)
      ensures err.None? <==> AllSet(env, keys)
      ensures err.Some? ==> err.value.stage == SecretsStage(folder)
    {
      var missing := RequireSecrets(env, keys);
      if missing == [] {
        return None;
      }
      assert missing[0] in missing;
      return Some(Error(SecretsStage(folder), "missing required secrets"));
    }

    /** The folders of the two services and of redis. */
    method ReadServiceSecrets() returns (err: Option<Error>, core: Secrets, commerce: Secrets, redis: string)
      ensures err.Some? ==> BeforeContainers(err.value.stage)
      ensures err.None? ==>
        && core == Read(store.folders, CoreFolder)
        && commerce == Read(store.folders, CommerceFolder)
        && redis == Value(Read(store.folders, AgentRedis), REDIS_PASSWORD)
        && !Blank(redis)
    {
      core, commerce, redis := map[], map[], "";
      err, core := Fetch(CoreFolder);
      if err.Some? { return; }
      err, commerce := Fetch(CommerceFolder);
      if err.Some? { return; }
      var env;
      err, env := Fetch(AgentRedis);
      if err.Some? { return; }
      var keys := [REDIS_PASSWORD];
      err := Require(AgentRedis, env, keys);
      assert keys[0] in keys;
      redis := Value(env, REDIS_PASSWORD);
    }

    /** The database credentials of managed mode. */
    method ReadDatabaseSecrets(giteaEnv: Secrets) returns (err: Option<Error>, pg: Secrets)
      ensures err.Some? ==> BeforeContainers(err.value.stage)
      ensures err.None? ==> pg == Read(store.folders, AgentPostgres)
      ensures err.None? ==> AllSet(pg, DatabaseKeys) && AllSet(giteaEnv, [DB_GITEA_PASSWORD])
    {
      err, pg := Fetch(AgentPostgres);
      if err.Some? { return; }
      err := Require(AgentPostgres, pg, DatabaseKeys);
      if err.Some? { return; }
      err := Require(AgentGitea, giteaEnv, [DB_GITEA_PASSWORD]);
    }

    /** Credentials for the data stores and Gitea: only the folders the composition needs. */
    method ReadProvisioning(ds: DesiredState, external: Option<SealedSecret>)
      returns (err: Option<Error>, giteaEnv: Secrets, conn: Option<DBConn>)
      requires external == ExternalSecret(ds.sealedSecrets)
      ensures err.Some? ==> BeforeContainers(err.value.stage)
      ensures err.None? ==> conn.Some? && conn == ResolveDBConn(ds, store.folders)
      ensures err.None? && ds.DbManaged() ==>
                && AllSet(Read(store.folders, AgentPostgres), DatabaseKeys)
                && AllSet(Read(store.folders, AgentGitea), [DB_GITEA_PASSWORD])
      ensures err.None? && ds.GiteaOn() ==>
                AllSet(Read(store.folders, AgentGitea), [GITEA_ADMIN_USER, GITEA_ADMIN_PASSWORD])
      ensures err.None? && ds.GiteaOn() ==> giteaEnv == Read(store.folders, AgentGitea)
    {
      err, giteaEnv, conn := None, map[], None;
      if ds.DbManaged() || ds.GiteaOn() {
        err, giteaEnv := Fetch(AgentGitea);
        if err.Some? { return; }
      }
      var pg: Secrets := map[];
      if ds.DbManaged() {
        err, pg := ReadDatabaseSecrets(giteaEnv);
        if err.Some? { return; }
      }
      if ds.GiteaOn() {
        err := Require(AgentGitea, giteaEnv, [GITEA_ADMIN_USER, GITEA_ADMIN_PASSWORD]);
        if err.Some? { return; }
      }
      if ds.DbExternal() {
        if external.None? || external.value.connection.None? {
          err := Some(Error(ConnectionStage, "parse external_db secret"));
          return;
        }
        conn := Some(ExternalDBConn(external.value.connection.value));
      } else {
        conn := Some(ManagedDBConn(pg, giteaEnv));
      }
    }

    /** Everything the pass needs from the secret store. */
    method ReadSecrets(ds: DesiredState, auth: Secrets, external: Option<SealedSecret>)
      returns (err: Option<Error>, s: PassSecrets)
      requires external == ExternalSecret(ds.sealedSecrets)
      ensures err.Some? ==> BeforeContainers(err.value.stage)
      ensures err.None? ==> SecretsOf(s, ds, store.folders)
    {
      s := PassSecrets(map[], map[], "", map[], DBConn("", "", "", "", "", "", "", "", "", ""));
      var e := dx.Fault(); // the provider, built from the component and `auth`
      if e.Some? {
        return Some(Error(ProviderStage, e.value)), s;
      }
      var core, commerce, redis;
      err, core, commerce, redis := ReadServiceSecrets();
      if err.Some? { return; }
      var giteaEnv, conn;
      err, giteaEnv, conn := ReadProvisioning(ds, external);
      if err.None? {
        s := PassSecrets(core, commerce, redis, giteaEnv, conn.value);
      }
    }

    /** The network, the host directories and their owners. */
    method EnsureHost(ds: DesiredState) returns (err: Option<Error>)
      ensures err.Some? ==> err.value.stage == HostStage
    {
      var e := dx.EnsureNetwork();
      if e.None? {
        e := dx.Fault(); // directories and the core log owner
      }
      if e.None? && ds.DbManaged() {
        e := dx.Fault(); // owner of the data directory
      }
      err := if e.Some? then Some(Error(HostStage, e.value)) else None;
    }

    /** Secrets and host. Without a configured secret store the pass blocks, which is not an error. */
    method Gather(ds: DesiredState) returns (err: Option<Error>, s: Option<PassSecrets>)
      modifies this`awaitingSecretStore
      ensures err.Some? ==> s.None? && BeforeContainers(err.value.stage)
      ensures s.Some? ==> err.None? && !awaitingSecretStore && SecretsOf(s.value, ds, store.folders)
      ensures err.None? ==> (s.None? <==> ds.components.secretStore.None?) && awaitingSecretStore == s.None?
    {
      s := None;
      var auth, external;
      err, auth, external := OpenSecrets(ds);
      if err.Some? { return; }
      if ds.components.secretStore.None? {
        awaitingSecretStore := true;
        return;
      }
      awaitingSecretStore := false;
      var read;
      err, read := ReadSecrets(ds, auth, external);
      if err.Some? { return; }
      err := EnsureHost(ds);
      if err.None? {
        s := Some(read);
      }
    }

    /** A deployment that was stopped is announced as starting. */
    method Wake(ds: DesiredState)
      requires events.Valid() && InStep(ledger.m, events.pace, Some(ds))
      modifies this`stopped, events
      ensures !stopped && events.Valid() && InStep(ledger.m, events.pace, Some(ds))
    {
      if stopped {
        stopped := false;
        Progress(ds, Core, StartingDeployment);
      }
    }

    /** Everything of a pass that comes before a container is touched. */
    method Prepare(ds: DesiredState) returns (err: Option<Error>, s: Option<PassSecrets>)
      requires Inv() && events.Valid() && WorkingOn(ledger.m, ledger.c.value, ds) && !ds.stopped
      requires !ledger.m.handover && InStep(ledger.m, events.pace, Some(ds))
      modifies this`stopped, this`archiving, this`awaitingSecretStore, events, ledger
      ensures Inv() && events.Valid() && ledger.c == old(ledger.c)
      ensures InStep(ledger.m, events.pace, Some(ds)) && !stopped
      ensures ds.DbExternal() ==> !archiving
      ensures ledger.m == old(ledger.m).(archiving := ledger.m.archiving)
      ensures err.Some? ==> s.None? && BeforeContainers(err.value.stage)
      ensures s.Some? ==> err.None? && !awaitingSecretStore && SecretsOf(s.value, ds, store.folders)
      ensures err.None? && s.None? ==> awaitingSecretStore
    {
      Wake(ds);
      ghost var _ := HandOver(ds);
      err, s := Gather(ds);
    }

    // --- certificate first

    /** One attempt at the wildcard, and the acme-dns container that goes with it. */
    method AttemptWildcard(ds: DesiredState, now: nat, ghost start: Start)
      returns (res: WildcardResult, err: Option<string>)
      requires IdsBelow(dx.containers, dx.nextId) && edge.Valid() && ds.baseDomain != ""
      requires start.world == dx.containers && start.floor == dx.nextId && start.me == dx.deploymentID
      modifies this`certs, dx, edge`disk, edge`account, edge`calls
      ensures edge.Valid() && certs == res.certs
      ensures Tracks(start, map[AcmeDns := AcmeDnsSpec()], LateWith(res.outcome), dx.containers, dx.nextId)
      ensures NoAppContainers(old(dx.containers)) ==> NoAppContainers(dx.containers)
      ensures res.outcome == IssueError ==> err.Some?
      ensures res.outcome == Issued ==> ds.baseDomain in edge.disk.chains
      ensures Stale(res.delegation, ds.baseDomain) ==> Stale(acmeDelegation, ds.baseDomain)
      ensures old(edge.calls) <= edge.calls
    {
      ghost var w0 := dx.containers;
      TracksStart(start);
      ghost var look, handed;
      res, err, look, handed := EnsureWildcard(dx, edge, ds, acmeDelegation, now);
      certs := res.certs;
      TracksApply(start, map[], AcmeDnsSpec(), w0, start.floor, dx.containers, dx.nextId, res.outcome != IssueError);
      StillNoApps(w0, dx.containers, AcmeDns);
    }

    ghost method NoteWildcard(ds: DesiredState, outcome: Outcome)
      requires Inv() && WorkingOn(ledger.m, ledger.c.value, ds) && !ds.stopped && ds.ManagedEdge()
      requires !ledger.m.backedOff && !ledger.m.passIssued
      modifies ledger
      ensures Inv() && ledger.c == old(ledger.c)
      ensures ledger.m == if outcome.Issued? then old(ledger.m).(issued := true, passIssued := true) else old(ledger.m)
    {
      OpenInv();
      ledger.Record(WildcardTried(outcome));
    }

    method TellBlock(component: Component, reason: Reason)
      requires events.Valid()
      modifies events
      ensures events.emitted == if old(events.curBlockReason) == Some(reason) then old(events.emitted)
                                else old(events.emitted) + [Event(Warn, component, reason, "")]
      ensures events.Valid() && events.pace == old(events.pace) && events.curBlockReason == Some(reason)
    {
      events.EmitBlock(Warn, component, reason);
    }

    /** The operator-visible state of the edge. */
    method SetEdge(delegation: Option<Delegation>, awaiting: bool, throttled: bool)
      requires Inv() && !(awaiting && throttled) && (delegation.Some? ==> awaiting || throttled)
      modifies this`acmeDelegation, this`awaitingDns, this`rateLimited
      ensures Inv() && acmeDelegation == delegation && awaitingDns == awaiting && rateLimited == throttled
    {
      OpenInv();
      acmeDelegation, awaitingDns, rateLimited := delegation, awaiting, throttled;
    }

    /** The operator has to add the DNS records: a steady block, not a failure. */
    method HoldForDelegation(ds: DesiredState, delegation: Option<Delegation>)
      requires Inv() && events.Valid() && InStep(ledger.m, events.pace, Some(ds))
      modifies this`acmeDelegation, this`awaitingDns, this`rateLimited, events
      ensures Inv() && events.Valid() && InStep(ledger.m, events.pace, Some(ds))
      ensures acmeDelegation == delegation && awaitingDns && !rateLimited
    {
      SetEdge(delegation, true, false);
      Progress(ds, Edge, IssuingWildcard);
      TellBlock(Edge, AwaitingDnsDelegation);
    }

    /** Let's Encrypt throttled the agent: back off and hold; not a failure either. */
    method HoldForRateLimit()
      requires Inv() && events.Valid() && !ledger.m.backedOff && ledger.m.notBefore <= clock
      requires ledger.m.inPass && !ledger.m.passIssued && !ledger.m.passApplied
      modifies this`acmeDelegation, this`awaitingDns, this`rateLimited, this`clock, this`backoff, this`nextAttempt,
               events, ledger
      ensures Inv() && events.Valid() && events.pace == old(events.pace) && ledger.c == old(ledger.c)
      ensures !awaitingDns && rateLimited && acmeDelegation == old(acmeDelegation) && old(clock) <= clock
      ensures ledger.m == BackedOffMonitor(old(ledger.m), clock, nextAttempt)
    {
      SetEdge(acmeDelegation, false, true);
      TellBlock(Edge, RateLimited);
      EnterBackoff();
    }

    /** Issuance ends a run of failures, even before the pass has completed. */
    method ResetAfterIssue()
      requires Inv() && ledger.m.inPass && ledger.m.passIssued
      modifies this`backoff, this`nextAttempt, ledger
      ensures Inv() && ledger.c == old(ledger.c)
      ensures ledger.m == old(ledger.m).(failures := 0, notBefore := 0)
    {
      OpenInv();
      backoff, nextAttempt := 0, 0;
      NotBacked();
      ledger.Record(BackoffReset);
      assert Backed(backoff, ledger.m.failures);
      assert Agrees();
    }

    /** The wildcard is in place: blocks and backoff are cleared. */
    method ClearEdge()
      requires Inv() && events.Valid() && ledger.m.inPass && ledger.m.passIssued
      modifies this`acmeDelegation, this`awaitingDns, this`rateLimited, this`backoff, this`nextAttempt, events, ledger
      ensures Inv() && events.Valid() && events.pace == old(events.pace) && ledger.c == old(ledger.c)
      ensures acmeDelegation.None? && !awaitingDns && !rateLimited && events.curBlockReason.None?
      ensures ledger.m == old(ledger.m).(failures := 0, notBefore := 0)
    {
      SetEdge(None, false, false);
      ResetAfterIssue();
      events.ClearBlock();
    }

    /** On the first issuance only: announced, and reported before provisioning as not yet Ready. */
    method AnnounceWildcard(ds: DesiredState)
      requires Inv() && events.Valid() && WorkingOn(ledger.m, ledger.c.value, ds) && ledger.m.issued
      modifies this`hadCert, events, ledger
      ensures Inv() && events.Valid() && hadCert && events.pace == old(events.pace)
      ensures events.emitted == old(events.emitted)
                + (if old(hadCert) then [] else [Event(Info, Edge, WildcardIssued, "")])
      ensures ledger.log == old(ledger.log) + (if old(hadCert) then [] else [Reported(ds.generation, false)])
      ensures ledger.m == old(ledger.m) && ledger.c == old(ledger.c)
    {
      OpenInv();
      if !hadCert {
        hadCert := true;
        Tell(Info, Edge, WildcardIssued);
        var services, _ := CollectServices();
        Report(ds.generation,
               [Condition(ReadyCond, false, Reconciling, NoComponent, [], ""),
                Condition(ReconcilingCond, true, Provisioning, Edge, [], "")], services);
      }
    }

    /** Somebody else fronts the deployment. */
    method EdgeOff()
      requires Inv() && events.Valid()
      modifies this`acmeDelegation, this`certs, this`awaitingDns, this`rateLimited, events
      ensures Inv() && events.Valid() && events.pace == old(events.pace)
      ensures acmeDelegation.None? && certs == [] && !awaitingDns && !rateLimited && events.curBlockReason.None?
    {
      SetEdge(None, false, false);
      certs := [];
      events.ClearBlock();
    }

    method GoAhead(ds: DesiredState)
      requires Inv() && events.Valid() && WorkingOn(ledger.m, ledger.c.value, ds) && ledger.m.issued
      requires ledger.m.passIssued
      modifies this`acmeDelegation, this`awaitingDns, this`rateLimited, this`backoff, this`nextAttempt, this`hadCert,
               events, ledger
      ensures Inv() && events.Valid() && events.pace == old(events.pace) && ledger.c == old(ledger.c)
      ensures acmeDelegation.None? && !awaitingDns && !rateLimited && hadCert
      ensures ledger.m == old(ledger.m).(failures := 0, notBefore := 0)
    {
      ClearEdge();
      AnnounceWildcard(ds);
    }

    /** What follows from the outcome of an attempt. Only an issued wildcard lets the pass go on. */
    method SettleWildcard(ds: DesiredState, res: WildcardResult, werr: Option<string>)
      returns (proceed: bool, err: Option<Error>)
      requires Inv() && events.Valid() && WorkingOn(ledger.m, ledger.c.value, ds) && !ds.stopped && ds.ManagedEdge()
      requires InStep(ledger.m, events.pace, Some(ds)) && !ledger.m.backedOff && ledger.m.notBefore <= clock
      requires res.outcome == IssueError ==> werr.Some?
      requires if res.outcome == Issued then ledger.m.issued && ledger.m.passIssued else !ledger.m.passIssued
      modifies this`acmeDelegation, this`awaitingDns, this`rateLimited, this`backoff, this`nextAttempt, this`clock,
               this`hadCert, events, ledger
      ensures Inv() && events.Valid() && InStep(ledger.m, events.pace, Some(ds)) && ledger.c == old(ledger.c)
      ensures old(clock) <= clock
      ensures Stays(old(ledger.m), ledger.m) && ledger.m.migrations == old(ledger.m.migrations)
      ensures ledger.m.issued == old(ledger.m.issued) && ledger.m.passIssued == old(ledger.m.passIssued)
      ensures ledger.m.edgeFirst == old(ledger.m.edgeFirst)
      ensures proceed <==> res.outcome == Issued
      ensures err.Some? <==> res.outcome == IssueError
      ensures err.Some? ==> err.value.stage == WildcardStage
      ensures ledger.m.backedOff <==> res.outcome == RateLimitedByCA
      ensures !ledger.m.backedOff ==> ledger.m.notBefore <= old(ledger.m.notBefore)
      ensures proceed ==> !awaitingDns && !rateLimited
      ensures res.outcome == AwaitingDNS ==> awaitingDns && acmeDelegation == res.delegation
      ensures res.outcome == RateLimitedByCA ==> rateLimited
    {
      proceed, err := false, None;
      match res.outcome {
        case AwaitingDNS => HoldForDelegation(ds, res.delegation);
        case RateLimitedByCA => HoldForRateLimit();
        case IssueError => err := Some(Error(WildcardStage, werr.value));
        case Issued =>
          GoAhead(ds);
          proceed := true;
      }
    }

    method ObtainWildcard(ds: DesiredState, ghost start: Start) returns (res: WildcardResult, err: Option<string>)
      requires Inv() && WorkingOn(ledger.m, ledger.c.value, ds) && !ds.stopped && ds.ManagedEdge()
      requires !ledger.m.backedOff && !ledger.m.passIssued
      requires IdsBelow(dx.containers, dx.nextId) && CertFirst(ledger.m, dx.containers) && edge.Valid()
      requires start.world == dx.containers && start.floor == dx.nextId && start.me == dx.deploymentID
      modifies this`clock, this`certs, ledger, dx, edge`disk, edge`account, edge`calls
      ensures Inv() && edge.Valid() && ledger.c == old(ledger.c) && old(clock) <= clock
      ensures CertFirst(ledger.m, dx.containers)
      ensures Tracks(start, EdgePlan(ds), LateWith(res.outcome), dx.containers, dx.nextId)
      ensures Stays(old(ledger.m), ledger.m) && ledger.m.migrations == old(ledger.m.migrations)
      ensures if res.outcome.Issued? then ledger.m.issued && ledger.m.passIssued else !ledger.m.passIssued
      ensures ledger.m.backedOff == old(ledger.m.backedOff) && ledger.m.notBefore == old(ledger.m.notBefore)
      ensures WorkingOn(ledger.m, ledger.c.value, ds) && ledger.m.monotone == old(ledger.m.monotone)
      ensures res.outcome == IssueError ==> err.Some?
      ensures old(edge.calls) <= edge.calls
    {
      var now := Now();
      res, err := AttemptWildcard(ds, now, start);
      NoteWildcard(ds, res.outcome);
    }

    /** The managed edge: obtain the wildcard, then act on the outcome. */
    method EnsureManagedEdge(ds: DesiredState, ghost start: Start) returns (proceed: bool, err: Option<Error>)
      requires Inv() && events.Valid() && WorkingOn(ledger.m, ledger.c.value, ds) && !ds.stopped && ds.ManagedEdge()
      requires InStep(ledger.m, events.pace, Some(ds)) && !ledger.m.backedOff && ledger.m.notBefore <= clock
      requires !ledger.m.passIssued
      requires IdsBelow(dx.containers, dx.nextId) && CertFirst(ledger.m, dx.containers) && edge.Valid()
      requires start.world == dx.containers && start.floor == dx.nextId && start.me == dx.deploymentID
      modifies this`acmeDelegation, this`certs, this`awaitingDns, this`rateLimited, this`backoff, this`nextAttempt,
               this`clock, this`hadCert, events, ledger, dx, edge`disk, edge`account, edge`calls
      ensures Inv() && events.Valid() && InStep(ledger.m, events.pace, Some(ds)) && ledger.c == old(ledger.c)
      ensures edge.Valid() && old(clock) <= clock
      ensures CertFirst(ledger.m, dx.containers)
      ensures Stays(old(ledger.m), ledger.m) && ledger.m.migrations == old(ledger.m.migrations)
      ensures Tracks(start, EdgePlan(ds), LateAt(err), dx.containers, dx.nextId)
      ensures !ledger.m.backedOff ==> ledger.m.notBefore <= old(ledger.m.notBefore)
      ensures proceed ==> err.None? && ledger.m.passIssued && ledger.m.issued
      ensures proceed ==> !ledger.m.backedOff && !awaitingDns && !rateLimited
      ensures err.Some? ==> err.value.stage == WildcardStage && !ledger.m.backedOff
      ensures !proceed && err.None? ==> if ledger.m.backedOff then rateLimited else awaitingDns
      ensures old(edge.calls) <= edge.calls
    {
      ghost var m0 := ledger.m;
      var res, werr := ObtainWildcard(ds, start);
      ghost var m1 := ledger.m;
      proceed, err := SettleWildcard(ds, res, werr);
      StaysOn(m0, m1, ledger.m);
    }

    /**
     * The managed edge comes first: the app containers wait until the wildcard exists. `proceed` says that
     * the pass goes on; otherwise it is blocked, or has failed with `err`.
     */
    method EnsureEdge(ds: DesiredState, ghost start: Start) returns (proceed: bool, err: Option<Error>)
      requires Inv() && events.Valid() && WorkingOn(ledger.m, ledger.c.value, ds) && !ds.stopped
      requires InStep(ledger.m, events.pace, Some(ds)) && !ledger.m.backedOff && ledger.m.notBefore <= clock
      requires !ledger.m.passIssued
      requires IdsBelow(dx.containers, dx.nextId) && CertFirst(ledger.m, dx.containers) && edge.Valid()
      requires start.world == dx.containers && start.floor == dx.nextId && start.me == dx.deploymentID
      modifies this`edgeManaged, this`acmeDelegation, this`certs, this`awaitingDns, this`rateLimited, this`backoff,
               this`nextAttempt, this`clock, this`hadCert, events, ledger, dx, edge`disk, edge`account, edge`calls
      ensures Inv() && events.Valid() && InStep(ledger.m, events.pace, Some(ds)) && ledger.c == old(ledger.c)
      ensures edge.Valid() && edgeManaged == ds.ManagedEdge() && old(clock) <= clock
      ensures CertFirst(ledger.m, dx.containers)
      ensures Stays(old(ledger.m), ledger.m) && ledger.m.migrations == old(ledger.m.migrations)
      ensures Tracks(start, EdgePlan(ds), LateAt(err), dx.containers, dx.nextId)
      ensures !ledger.m.backedOff ==> ledger.m.notBefore <= old(ledger.m.notBefore)
      ensures proceed ==> err.None? && MayProvision(ledger.m, ds) && !ledger.m.backedOff && !awaitingDns && !rateLimited
      ensures err.Some? ==> err.value.stage == WildcardStage && !ledger.m.backedOff
      ensures !proceed && err.None? ==> ds.ManagedEdge() && (if ledger.m.backedOff then rateLimited else awaitingDns)
      ensures old(edge.calls) <= edge.calls
    {
      edgeManaged := ds.ManagedEdge();
      if edgeManaged {
        proceed, err := EnsureManagedEdge(ds, start);
      } else {
        EdgeOff();
        TracksStart(start);
        proceed, err := true, None;
      }
    }

    // --- the managed database and its backups

    /** Validates the backup secrets and writes pgBackRest's configuration before Postgres boots. */
    method ConfigureBackups(ds: DesiredState, s: PassSecrets) returns (err: Option<Error>)
      modifies this`backupState, store`backupConf
      ensures err.Some? ==> err.value.stage == BackupStage
      ensures err.None? ==>
        && (backupState == LocalAndOffsite ==>
              CompleteOffsite(store.backupConf, Read(store.folders, AgentBackup), RetentionOf(ds)))
        && !Blank(Value(Read(store.folders, AgentBackup), REPO1_PASS))
        && CipherPass(1, Value(Read(store.folders, AgentBackup), REPO1_PASS)) in store.backupConf
    {
      var fetched := store.Fetch(AgentBackup);
      var env := if fetched.Some? then fetched.value else map[];
      var missing := ValidateBackupSecrets(env);
      if missing != [] {
        return Some(Error(BackupStage, "missing required /backup secrets"));
      }
      backupState := StateOf(env);
      var conf := RenderPgBackRestConf(ds, env, s.conn.ownerUser);
      if backupState == LocalAndOffsite {
        ReportedOffsiteIsConfigured(env);
        OffsiteSecretsWereFetched(env, fetched.Some?);
      }
      var e := dx.Fault();
      if e.Some? {
        return Some(Error(BackupStage, e.value));
      }
      store.backupConf := conf;
      e := dx.Fault(); // owners
      err := if e.Some? then Some(Error(BackupStage, e.value)) else None;
    }

    lemma OffsiteSecretsWereFetched(env: Secrets, fetched: bool)
      requires HasOffsite(env) && (!fetched ==> env == map[])
      ensures fetched
    {
    }

    /** Applies Postgres, waits for it and provisions roles and schemas inside it. */
    method BringUpPostgres(ds: DesiredState, conn: DBConn, ghost start: Start, force: set<Name>, ghost plan: Plan)
      returns (err: Option<Error>)
      requires Tracks(start, plan, {}, dx.containers, dx.nextId) && start.me == dx.deploymentID && start.force == force
      requires Postgres !in plan
      modifies dx
      ensures Tracks(start, plan[Postgres := PostgresSpec(ds, conn, ds.Backups())], LateAt(err), dx.containers,
                     dx.nextId)
      ensures err.None? ==> dx.observed == old(dx.observed) + [FoundHealthy(Postgres)]
      ensures err.Some? ==> err.value.stage in {ServiceStage(Postgres), PostgresStage}
    {
      var spec := PostgresSpec(ds, conn, ds.Backups());
      err := ApplyTracked(spec, start, force, plan);
      if err.Some? {
        return;
      }
      var e := dx.WaitHealthy(Postgres, 90);
      if e.None? {
        var code;
        code, e := dx.Exec(Postgres);
        if e.None? && code != 0 {
          e := Some("db init failed");
        }
      }
      if e.Some? {
        err := Some(Error(PostgresStage, e.value));
      }
    }

    /** The base backup every later incremental builds on. */
    method InitialBackup(ds: DesiredState) returns (err: Option<string>)
      requires Inv() && WorkingOn(ledger.m, ledger.c.value, ds) && !ds.stopped && ds.Backups() && !hadFullBackup
      modifies this`hadFullBackup, ledger
      ensures Inv() && ledger.c == old(ledger.c) && hadFullBackup == err.None?
      ensures ButBackups(old(ledger.m), ledger.m) && WorkingOn(ledger.m, ledger.c.value, ds)
    {
      OpenInv();
      err := RunBackup(dx, Full, Initial);
      hadFullBackup := err.None?;
      ledger.RecordBaseBackup(err.None?);
    }

    /** Unless there is a base backup already, takes one and announces it. */
    method EnsureBase(ds: DesiredState) returns (err: Option<Error>)
      requires Inv() && events.Valid() && WorkingOn(ledger.m, ledger.c.value, ds) && !ds.stopped && ds.Backups()
      modifies this`hadFullBackup, events, ledger
      ensures Inv() && events.Valid() && events.pace == old(events.pace) && ledger.c == old(ledger.c)
      ensures ButBackups(old(ledger.m), ledger.m) && WorkingOn(ledger.m, ledger.c.value, ds)
      ensures err.None? ==> hadFullBackup
      ensures err.Some? ==> err.value.stage == BackupStage
    {
      if hadFullBackup {
        return None;
      }
      var e := InitialBackup(ds);
      if e.Some? {
        return Some(Error(BackupStage, e.value));
      }
      Tell(Info, Database, BackupComplete);
      err := None;
    }

    /** Stanza, annotation probe and base backup. */
    method BaseBackup(ds: DesiredState) returns (err: Option<Error>)
      requires Inv() && events.Valid() && WorkingOn(ledger.m, ledger.c.value, ds) && !ds.stopped && ds.Backups()
      modifies this`backupAnnotate, this`hadFullBackup, events, ledger
      ensures Inv() && events.Valid() && events.pace == old(events.pace) && ledger.c == old(ledger.c)
      ensures ButBackups(old(ledger.m), ledger.m) && WorkingOn(ledger.m, ledger.c.value, ds)
      ensures err.None? ==> hadFullBackup
      ensures err.Some? ==> err.value.stage == BackupStage
    {
      err := EnsureStanza();
      if err.None? {
        backupAnnotate := *;
        err := EnsureBase(ds);
      }
    }

    method EnsureStanza() returns (err: Option<Error>)
      ensures err.Some? ==> err.value.stage == BackupStage
    {
      var code, e := dx.Exec(Postgres);
      var already: bool := *;
      if e.Some? || (code != 0 && !already) {
        return Some(Error(BackupStage, "stanza-create"));
      }
      err := None;
    }

    method TurnArchivingOn(ds: DesiredState)
      requires Inv() && WorkingOn(ledger.m, ledger.c.value, ds) && !ds.stopped && ds.Backups() && hadFullBackup
      requires !ledger.m.handover
      modifies this`archiving, ledger
      ensures Inv() && ledger.c == old(ledger.c) && archiving
      ensures ButBackups(old(ledger.m), ledger.m)
    {
      OpenInv();
      archiving := true;
      ledger.Record(ArchivingOn);
    }

    method TurnBackupsOff(ds: DesiredState)
      requires Inv() && WorkingOn(ledger.m, ledger.c.value, ds) && !ds.stopped
      requires (ds.DbExternal() ==> !archiving) && !ledger.m.handover
      modifies this`archiving, this`hadFullBackup, ledger
      ensures Inv() && ledger.c == old(ledger.c) && !archiving && !hadFullBackup
      ensures ButBackups(old(ledger.m), ledger.m)
    {
      OpenInv();
      archiving := false;
      hadFullBackup := false;
      ledger.Record(BackupsOff(ds.DbExternal()));
    }

    /** Backups are on from here, or off, in which case a later re-enable starts from a fresh base. */
    method SettleBackups(ds: DesiredState)
      requires Inv() && WorkingOn(ledger.m, ledger.c.value, ds) && !ds.stopped
      requires ds.Backups() ==> hadFullBackup
      requires (ds.DbExternal() ==> !archiving) && !ledger.m.handover
      modifies this`archiving, this`hadFullBackup, ledger
      ensures Inv() && ledger.c == old(ledger.c)
      ensures archiving == ds.Backups() && hadFullBackup == ds.Backups()
      ensures ButBackups(old(ledger.m), ledger.m)
    {
      if ds.Backups() {
        TurnArchivingOn(ds);
      } else {
        TurnBackupsOff(ds);
      }
    }

    /** Re-reads the backup inventory; cleared while backups are off. */
    method RefreshBackupInfo() returns (ghost read: bool)
      modifies this`backupInfo
      ensures !archiving ==> backupInfo.None?
      ensures archiving ==> if read then backupInfo.Some? else backupInfo == old(backupInfo)
    {
      read := false;
      if !archiving {
        backupInfo := None;
        return;
      }
      var code, err := dx.Exec(Postgres);
      var parses: bool := *;
      if err.None? && code == 0 && parses {
        var count: nat :| true;
        backupInfo := Some(count);
        read := true;
      }
    }

    /** Announces the database step and, with backups on, writes their configuration first. */
    method PrepareDatabase(ds: DesiredState, s: PassSecrets) returns (err: Option<Error>)
      requires events.Valid() && InStep(ledger.m, events.pace, Some(ds))
      modifies this`backupState, store`backupConf, events
      ensures events.Valid() && InStep(ledger.m, events.pace, Some(ds))
      ensures err.Some? ==> err.value.stage == BackupStage
      ensures !ds.Backups() ==> backupState == Off
      ensures err.None? && backupState == LocalAndOffsite ==>
                CompleteOffsite(store.backupConf, Read(store.folders, AgentBackup), RetentionOf(ds))
    {
      backupState := Off;
      err := None;
      if ds.DbManaged() {
        Progress(ds, Database, ProvisioningDatabase);
        if ds.Backups() {
          Progress(ds, Database, EnablingBackups);
          err := ConfigureBackups(ds, s);
        }
      }
    }

    /** Brings the managed database up, with its base backup. */
    method RunDatabase(ds: DesiredState, s: PassSecrets, ghost start: Start, force: set<Name>, ghost plan: Plan)
      returns (err: Option<Error>)
      requires Inv() && events.Valid() && WorkingOn(ledger.m, ledger.c.value, ds) && !ds.stopped && ds.DbManaged()
      requires Tracks(start, plan, {}, dx.containers, dx.nextId) && start.me == dx.deploymentID && start.force == force
      requires Postgres !in plan
      modifies this`backupAnnotate, this`hadFullBackup, events, ledger, dx
      ensures Inv() && events.Valid() && events.pace == old(events.pace) && ledger.c == old(ledger.c)
      ensures ButBackups(old(ledger.m), ledger.m) && WorkingOn(ledger.m, ledger.c.value, ds)
      ensures Tracks(start, DatabasePlan(plan, ds, s.conn), LateAt(err), dx.containers, dx.nextId)
      ensures err.None? && ds.Backups() ==> hadFullBackup
      ensures err.Some? ==> err.value.stage in {ServiceStage(Postgres), PostgresStage, BackupStage}
    {
      err := BringUpPostgres(ds, s.conn, start, force, plan);
      if err.None? && ds.Backups() {
        err := BaseBackup(ds);
      }
    }

    /** Whatever the mode, the database and its backups are as wanted afterwards. */
    method ProvisionDatabase(ds: DesiredState, s: PassSecrets, ghost start: Start, force: set<Name>, ghost plan: Plan)
      returns (err: Option<Error>)
      requires Inv() && events.Valid() && WorkingOn(ledger.m, ledger.c.value, ds) && !ds.stopped
      requires (ds.DbExternal() ==> !archiving) && !ledger.m.handover
      requires Tracks(start, plan, {}, dx.containers, dx.nextId) && start.me == dx.deploymentID && start.force == force
      requires Postgres !in plan
      modifies this`archiving, this`backupInfo, this`backupAnnotate, this`hadFullBackup, events, ledger, dx
      ensures Inv() && events.Valid() && events.pace == old(events.pace) && ledger.c == old(ledger.c)
      ensures ButBackups(old(ledger.m), ledger.m)
      ensures Tracks(start, DatabasePlan(plan, ds, s.conn), LateAt(err), dx.containers, dx.nextId)
      ensures err.None? ==> archiving == ds.Backups()
      ensures err.Some? ==> err.value.stage in {ServiceStage(Postgres), PostgresStage, BackupStage}
    {
      err := None;
      ghost var m0 := ledger.m;
      if ds.DbManaged() {
        err := RunDatabase(ds, s, start, force, plan);
        OpenButBackups(m0, ledger.m);
      }
      if err.None? {
        ghost var m1 := ledger.m;
        SettleBackups(ds);
        ButBackupsOn(m0, m1, ledger.m);
        ghost var _ := RefreshBackupInfo();
      }
    }

    // --- migrations and services

    /** Runs one migration one-shot to completion. */
    method RunMigration(spec: RunSpec, ghost start: Start, ghost plan: Plan) returns (err: Option<Error>)
      requires OneShot(spec.name) && start.me == dx.deploymentID
      requires Tracks(start, plan, {}, dx.containers, dx.nextId)
      modifies dx
      ensures Tracks(start, plan, {}, dx.containers, dx.nextId)
      ensures err.None? ==> dx.observed == old(dx.observed) + [RanToExit(spec, 0)] && dx.nextId > old(dx.nextId)
      ensures err.Some? ==> err.value.stage == MigrateStage
    {
      OpenTracks(start, plan, {}, dx.containers, dx.nextId);
      ghost var w1, next1 := dx.containers, dx.nextId;
      var e := dx.PullImage(spec.image);
      if e.Some? {
        return Some(Error(MigrateStage, e.value));
      }
      var code;
      code, e := dx.RunToCompletion(spec);
      TracksOneShot(start, plan, spec.name, w1, next1, dx.containers, dx.nextId);
      if e.Some? {
        return Some(Error(MigrateStage, e.value));
      }
      err := if code != 0 then Some(Error(MigrateStage, "exit code")) else None;
    }

    ghost method NoteMigrated(ds: DesiredState, spec: RunSpec)
      requires Inv() && WorkingOn(ledger.m, ledger.c.value, ds) && !ds.stopped
      requires NextMigration(ledger.m.migrations, spec.name)
      requires dx.observed != [] && dx.observed[|dx.observed| - 1] == RanToExit(spec, 0)
      modifies ledger
      ensures Inv() && ledger.c == old(ledger.c)
      ensures ledger.m == WithMigrations(old(ledger.m), old(ledger.m.migrations) + 1)
    {
      OpenInv();
      ledger.Record(Migrated(spec.name));
    }

    method MigrateOne(ds: DesiredState, spec: RunSpec, ghost start: Start, ghost plan: Plan)
      returns (err: Option<Error>)
      requires Inv() && WorkingOn(ledger.m, ledger.c.value, ds) && !ds.stopped
      requires NextMigration(ledger.m.migrations, spec.name)
      requires start.me == dx.deploymentID && Tracks(start, plan, {}, dx.containers, dx.nextId)
      modifies ledger, dx
      ensures Inv() && ledger.c == old(ledger.c)
      ensures if err.None? then ledger.m == WithMigrations(old(ledger.m), old(ledger.m.migrations) + 1)
              else ledger.m == old(ledger.m)
      ensures Tracks(start, plan, {}, dx.containers, dx.nextId)
      ensures err.None? ==> dx.observed == old(dx.observed) + [RanToExit(spec, 0)] && dx.nextId > old(dx.nextId)
      ensures err.Some? ==> err.value.stage == MigrateStage
    {
      err := RunMigration(spec, start, plan);
      if err.None? {
        NoteMigrated(ds, spec);
      }
    }

    /** The core migration, then the commerce migration; the first failure ends the pass. */
    method Migrate(ds: DesiredState, coreEnv: seq<string>, commerceEnv: seq<string>, ghost start: Start,
                   ghost plan: Plan)
      returns (err: Option<Error>)
      requires Inv() && WorkingOn(ledger.m, ledger.c.value, ds) && !ds.stopped && ledger.m.migrations == 0
      requires start.me == dx.deploymentID && Tracks(start, plan, {}, dx.containers, dx.nextId)
      modifies ledger, dx
      ensures Inv() && ledger.c == old(ledger.c)
      ensures ledger.m == WithMigrations(old(ledger.m), ledger.m.migrations) && (err.None? ==> ledger.m.migrations == 2)
      ensures Tracks(start, plan, {}, dx.containers, dx.nextId)
      ensures err.None? ==>
                dx.observed == old(dx.observed)
                  + [RanToExit(MigrateSpec(CoreMigrate, ds.images.coreServer, coreEnv), 0),
                     RanToExit(MigrateSpec(CommerceMigrate, ds.images.commerceService, commerceEnv), 0)]
      ensures err.Some? ==> err.value.stage == MigrateStage
    {
      var runs := [MigrateSpec(CoreMigrate, ds.images.coreServer, coreEnv),
                   MigrateSpec(CommerceMigrate, ds.images.commerceService, commerceEnv)];
      ghost var m0 := ledger.m;
      WithItsMigrations(m0);
      for i := 0 to |runs|
        invariant Inv() && ledger.c == old(ledger.c) && ledger.m == WithMigrations(m0, i)
        invariant Tracks(start, plan, {}, dx.containers, dx.nextId)
        invariant dx.observed == old(dx.observed) + [RanToExit(runs[0], 0), RanToExit(runs[1], 0)][..i]
      {
        err := MigrateOne(ds, runs[i], start, plan);
        if err.Some? {
          return;
        }
      }
      err := None;
    }

    /** The add-on, its health and its admin token. */
    method RunGitea(spec: RunSpec, ghost start: Start, force: set<Name>, ghost plan: Plan)
      returns (err: Option<Error>, token: string)
      requires spec.name == Gitea && Gitea !in plan && start.me == dx.deploymentID && start.force == force
      requires Tracks(start, plan, {}, dx.containers, dx.nextId)
      modifies dx, store`token
      ensures Tracks(start, plan[Gitea := spec], LateAt(err), dx.containers, dx.nextId)
      ensures err.None? ==> store.token == Some(token) && dx.observed == old(dx.observed) + [FoundHealthy(Gitea)]
      ensures err.Some? ==> err.value.stage in {ServiceStage(Gitea), GiteaStage} && store.token == old(store.token)
    {
      token := "";
      err := ApplyTracked(spec, start, force, plan);
      if err.Some? {
        return;
      }
      var e := dx.WaitHealthy(Gitea, 90);
      if e.None? {
        var minted, failed, _ := store.ProvisionAdminToken();
        token, e := minted, failed;
      }
      if e.Some? {
        err := Some(Error(GiteaStage, e.value));
      }
    }

    /** Gitea comes before core-server, so that core boots with the address and the token. */
    method ProvisionGitea(ds: DesiredState, s: PassSecrets, ghost start: Start, force: set<Name>, ghost plan: Plan)
      returns (err: Option<Error>, url: string, token: string)
      requires events.Valid() && InStep(ledger.m, events.pace, Some(ds))
      requires Gitea !in plan && start.me == dx.deploymentID && start.force == force
      requires Tracks(start, plan, {}, dx.containers, dx.nextId)
      modifies this`giteaProvisioned, events, dx, store`token
      ensures events.Valid() && InStep(ledger.m, events.pace, Some(ds))
      ensures Tracks(start, GiteaPlan(plan, ds, s), LateAt(err), dx.containers, dx.nextId)
      ensures err.None? ==> giteaProvisioned == ds.GiteaOn()
      ensures err.None? && ds.GiteaOn() ==> url == GITEA_URL && store.token == Some(token)
      ensures !ds.GiteaOn() ==> err.None? && url == "" && token == "" && store.token == old(store.token)
      ensures err.Some? ==> err.value.stage in {ServiceStage(Gitea), GiteaStage} && store.token == old(store.token)
    {
      err, url, token := None, "", "";
      if !ds.GiteaOn() {
        giteaProvisioned := false;
        return;
      }
      Progress(ds, GiteaAddOn, ProvisioningGitea);
      err, token := RunGitea(GiteaSpec(ds, s.conn, GiteaStorageEnv(s.giteaEnv)), start, force, plan);
      if err.None? {
        url := GITEA_URL;
        AnnounceGitea();
      }
    }

    method AnnounceGitea()
      requires events.Valid()
      modifies this`giteaProvisioned, events
      ensures events.Valid() && events.pace == old(events.pace) && giteaProvisioned
      ensures events.emitted ==
                old(events.emitted)
                + (if old(giteaProvisioned) then [] else [Event(Info, GiteaAddOn, GiteaProvisioned, "")])
    {
      if !giteaProvisioned {
        giteaProvisioned := true;
        Tell(Info, GiteaAddOn, GiteaProvisioned);
      }
    }

    /** Applies the services in order; the first failure ends the pass. `count` services have been set out on. */
    method StartServices(specs: seq<RunSpec>, ghost start: Start, force: set<Name>, ghost plan: Plan)
      returns (err: Option<Error>, keep: set<Name>, ghost count: nat)
      requires NewServices(plan, specs) && start.me == dx.deploymentID && start.force == force
      requires Tracks(start, plan, {}, dx.containers, dx.nextId)
      modifies dx
      ensures count <= |specs| && (err.None? ==> count == |specs|)
      ensures Tracks(start, AddAll(plan, specs[..count]), LateAt(err), dx.containers, dx.nextId)
      ensures err.None? ==> keep == NamesOf(specs)
      ensures err.Some? ==> count > 0 && err.value.stage == ServiceStage(specs[count - 1].name)
    {
      err, keep, count := None, {}, 0;
      for i := 0 to |specs|
        invariant count == i && err.None? && keep == NamesOf(specs[..i])
        invariant Tracks(start, AddAll(plan, specs[..i]), {}, dx.containers, dx.nextId)
      {
        ghost var sofar := AddAll(plan, specs[..i]);
        AddAllKeys(plan, specs[..i]);
        err := ApplyTracked(specs[i], start, force, sofar);
        count := i + 1;
        assert specs[..i + 1][..i] == specs[..i];
        if err.Some? {
          return;
        }
        keep := keep + {specs[i].name};
      }
      assert specs[..|specs|] == specs;
    }

    // --- a whole pass

    /** The commerce environment verbatim, and core's without the Gitea additions. */
    method RenderForMigrations(ds: DesiredState, s: PassSecrets)
      returns (coreEnv: seq<string>, commerceEnv: seq<string>)
      ensures commerceEnv == Canonical(s.commerceEnv)
      ensures coreEnv == CoreEnv(s.coreEnv, ds.baseDomain, "", "")
    {
      commerceEnv := RenderServiceEnv(s.commerceEnv);
      coreEnv := RenderCoreEnv(s.coreEnv, ds.baseDomain, "", "");
    }

    /** Migrates, and hands on what the commerce service runs with. */
    method RunMigrations(ds: DesiredState, s: PassSecrets, ghost start: Start, ghost plan: Plan)
      returns (err: Option<Error>, commerceEnv: seq<string>)
      requires Inv() && WorkingOn(ledger.m, ledger.c.value, ds) && !ds.stopped && ledger.m.migrations == 0
      requires events.Valid() && InStep(ledger.m, events.pace, Some(ds))
      requires start.me == dx.deploymentID && Tracks(start, plan, {}, dx.containers, dx.nextId)
      modifies events, ledger, dx
      ensures Inv() && ledger.c == old(ledger.c)
      ensures ledger.m == WithMigrations(old(ledger.m), ledger.m.migrations) && (err.None? ==> ledger.m.migrations == 2)
      ensures events.Valid() && InStep(ledger.m, events.pace, Some(ds))
      ensures Tracks(start, plan, {}, dx.containers, dx.nextId)
      ensures commerceEnv == Canonical(s.commerceEnv)
      ensures err.Some? ==> err.value.stage == MigrateStage
    {
      ghost var m0 := ledger.m;
      var coreEnv;
      coreEnv, commerceEnv := RenderForMigrations(ds, s);
      Progress(ds, Core, RunningMigrations);
      err := Migrate(ds, coreEnv, commerceEnv, start, plan);
      InStepMigrated(m0, ledger.m.migrations, events.pace, Some(ds));
    }

    /** Configuration first, then the database. */
    method DatabaseUp(ds: DesiredState, s: PassSecrets, ghost start: Start, force: set<Name>)
      returns (err: Option<Error>, ghost begun: bool)
      requires Inv() && events.Valid() && WorkingOn(ledger.m, ledger.c.value, ds) && !ds.stopped
      requires (ds.DbExternal() ==> !archiving) && !ledger.m.handover && InStep(ledger.m, events.pace, Some(ds))
      requires Tracks(start, EdgePlan(ds), {}, dx.containers, dx.nextId)
      requires start.me == dx.deploymentID && start.force == force
      modifies this`archiving, this`backupState, this`backupInfo, this`backupAnnotate, this`hadFullBackup,
               store`backupConf, events, ledger, dx
      ensures Inv() && events.Valid() && InStep(ledger.m, events.pace, Some(ds)) && ledger.c == old(ledger.c)
      ensures ButBackups(old(ledger.m), ledger.m)
      ensures Tracks(start, DatabaseStagePlan(ds, s.conn, begun), LateAt(err), dx.containers, dx.nextId)
      ensures err.None? ==> archiving == ds.Backups() && begun
      ensures err.Some? ==> DatabaseStages(err.value.stage) && (begun || err.value.stage == BackupStage)
    {
      err := PrepareDatabase(ds, s);
      begun := err.None?;
      if err.Some? {
        return;
      }
      err := ProvisionDatabase(ds, s, start, force, EdgePlan(ds));
      InStepStill(old(ledger.m), ledger.m, events.pace, Some(ds));
    }

    /** Database, backups and migrations. */
    method ProvisionData(ds: DesiredState, s: PassSecrets, ghost start: Start, force: set<Name>)
      returns (err: Option<Error>, ghost begun: bool, commerceEnv: seq<string>)
      requires Inv() && events.Valid() && WorkingOn(ledger.m, ledger.c.value, ds) && !ds.stopped
      requires ledger.m.migrations == 0
      requires (ds.DbExternal() ==> !archiving) && !ledger.m.handover && InStep(ledger.m, events.pace, Some(ds))
      requires Tracks(start, EdgePlan(ds), {}, dx.containers, dx.nextId)
      requires start.me == dx.deploymentID && start.force == force
      modifies this`archiving, this`backupState, this`backupInfo, this`backupAnnotate, this`hadFullBackup,
               store`backupConf, events, ledger, dx
      ensures Inv() && events.Valid() && InStep(ledger.m, events.pace, Some(ds)) && ledger.c == old(ledger.c)
      ensures ButData(old(ledger.m), ledger.m) && (err.None? ==> ledger.m.migrations == 2)
      ensures Tracks(start, DatabaseStagePlan(ds, s.conn, begun), LateAt(err), dx.containers, dx.nextId)
      ensures err.None? ==> archiving == ds.Backups() && begun && commerceEnv == Canonical(s.commerceEnv)
      ensures err.Some? ==> DatabaseStages(err.value.stage) && (begun || err.value.stage == BackupStage)
    {
      commerceEnv := [];
      ghost var m0 := ledger.m;
      err, begun := DatabaseUp(ds, s, start, force);
      ghost var m1 := ledger.m;
      MigrationsStill(m0, m1, ledger.c.value, ds);
      if err.None? {
        err, commerceEnv := RunMigrations(ds, s, start, DatabaseStagePlan(ds, s.conn, true));
      }
      ButDataBy(m0, m1, ledger.m);
    }

    /** The always-on services, in order, with core-server last. */
    method RenderServices(ds: DesiredState, s: PassSecrets, commerceEnv: seq<string>, url: string, token: string)
      returns (specs: seq<RunSpec>, coreEnv: seq<string>)
      requires SecretsOf(s, ds, store.folders)
      requires url == (if ds.GiteaOn() then GITEA_URL else "")
      requires if ds.GiteaOn() then store.token == Some(token) else token == ""
      ensures coreEnv == Canonical(CoreServerMap(ds, store.folders, store.token.GetOr("")))
      ensures specs == CoreServices(ds, s, commerceEnv, CoreServerSpecOf(ds, coreEnv))
      ensures NewServices(EarlyPlan(ds, s), specs)
    {
      OpenRead(s, ds, store.folders);
      coreEnv := RenderCoreEnv(s.coreEnv, ds.baseDomain, url, token);
      var core := CoreServerSpec(ds, coreEnv);
      specs := CoreServices(ds, s, commerceEnv, core);
      StagesAreDisjoint(ds, s, commerceEnv, core);
    }

    method StartAll(ds: DesiredState, s: PassSecrets, specs: seq<RunSpec>, ghost commerceEnv: seq<string>,
                    ghost core: RunSpec, ghost start: Start, force: set<Name>)
      returns (err: Option<Error>, ghost plan: Plan, keep: set<Name>)
      requires SecretsOf(s, ds, store.folders) && (ds.GiteaOn() ==> store.token.Some?)
      requires commerceEnv == Canonical(s.commerceEnv)
      requires core == CoreServerSpecOf(ds, Canonical(CoreServerMap(ds, store.folders, store.token.GetOr(""))))
      requires specs == CoreServices(ds, s, commerceEnv, core) && NewServices(EarlyPlan(ds, s), specs)
      requires Tracks(start, EarlyPlan(ds, s), {}, dx.containers, dx.nextId)
      requires start.me == dx.deploymentID && start.force == force
      modifies dx
      ensures Tracks(start, plan, LateAt(err), dx.containers, dx.nextId)
      ensures PlanFor(plan, ds, store.folders, store.token)
      ensures err.None? ==> plan.Keys == Topology(ds) - {Nginx} && keep == CoreNames()
      ensures err.Some? ==> Within(err.value.stage, plan, ds)
    {
      ghost var count;
      err, keep, count := StartServices(specs, start, force, EarlyPlan(ds, s));
      plan := AddAll(EarlyPlan(ds, s), specs[..count]);
      ServicesCame(ds, s, store.folders, store.token, commerceEnv, core, count, err.None?);
    }

    /** Starts the always-on services on top of what is up already. */
    method ServicesUp(ds: DesiredState, s: PassSecrets, commerceEnv: seq<string>, url: string, token: string,
                      ghost start: Start, force: set<Name>)
      returns (err: Option<Error>, ghost plan: Plan, coreEnv: seq<string>, keep: set<Name>)
      requires events.Valid() && InStep(ledger.m, events.pace, Some(ds))
      requires SecretsOf(s, ds, store.folders) && commerceEnv == Canonical(s.commerceEnv)
      requires url == (if ds.GiteaOn() then GITEA_URL else "")
      requires if ds.GiteaOn() then store.token == Some(token) else token == ""
      requires Tracks(start, EarlyPlan(ds, s), {}, dx.containers, dx.nextId)
      requires start.me == dx.deploymentID && start.force == force
      modifies events, dx
      ensures events.Valid() && InStep(ledger.m, events.pace, Some(ds))
      ensures Tracks(start, plan, LateAt(err), dx.containers, dx.nextId)
      ensures PlanFor(plan, ds, store.folders, store.token)
      ensures err.None? ==> plan.Keys == Topology(ds) - {Nginx} && keep == CoreNames()
      ensures err.Some? ==> Within(err.value.stage, plan, ds)
    {
      var specs;
      specs, coreEnv := RenderServices(ds, s, commerceEnv, url, token);
      Progress(ds, Core, StartingServices);
      err, plan, keep := StartAll(ds, s, specs, commerceEnv, CoreServerSpecOf(ds, coreEnv), start, force);
    }

    /** Gitea, if wanted, and the services. */
    method ProvisionApps(ds: DesiredState, s: PassSecrets, commerceEnv: seq<string>, ghost start: Start,
                         force: set<Name>)
      returns (err: Option<Error>, ghost plan: Plan, coreEnv: seq<string>, keep: set<Name>)
      requires events.Valid() && InStep(ledger.m, events.pace, Some(ds))
      requires SecretsOf(s, ds, store.folders) && commerceEnv == Canonical(s.commerceEnv)
      requires Tracks(start, DatabasePlan(EdgePlan(ds), ds, s.conn), {}, dx.containers, dx.nextId)
      requires start.me == dx.deploymentID && start.force == force
      modifies this`giteaProvisioned, events, dx, store`token
      ensures events.Valid() && InStep(ledger.m, events.pace, Some(ds))
      ensures Tracks(start, plan, LateAt(err), dx.containers, dx.nextId)
      ensures PlanFor(plan, ds, store.folders, store.token)
      ensures err.None? ==>
        && plan.Keys == Topology(ds) - {Nginx}
        && keep == AddIf(CoreNames(), ds.GiteaOn(), {Gitea})
      ensures err.Some? ==> Within(err.value.stage, plan, ds)
    {
      coreEnv, keep := [], {};
      ghost var early := EarlyPlan(ds, s);
      assert Gitea !in DatabasePlan(EdgePlan(ds), ds, s.conn);
      var url, token;
      err, url, token := ProvisionGitea(ds, s, start, force, DatabasePlan(EdgePlan(ds), ds, s.conn));
      if err.Some? {
        plan := early;
        WithinGitea(ds, s, err.value.stage);
        EarlyPlanIsWanted(ds, s, store.folders, store.token);
        return;
      }
      err, plan, coreEnv, keep := ServicesUp(ds, s, commerceEnv, url, token, start, force);
      keep := AddIf(keep, ds.GiteaOn(), {Gitea});
    }

    /** nginx comes last, where the edge is managed. */
    method ProvisionNginx(ds: DesiredState, coreEnv: seq<string>, ghost start: Start, force: set<Name>,
                          ghost plan: Plan)
      returns (err: Option<Error>)
      requires start.me == dx.deploymentID && start.force == force && Nginx !in plan
      requires Tracks(start, plan, {}, dx.containers, dx.nextId)
      modifies this`certs, dx, edge`conf
      ensures Tracks(start, plan[Nginx := NginxSpec(ds)], LateAt(err), dx.containers, dx.nextId)
      ensures err.Some? ==> err.value.stage == NginxStage
    {
      OpenTracks(start, plan, {}, dx.containers, dx.nextId);
      ghost var w1, next1 := dx.containers, dx.nextId;
      var served, e := EnsureNginx(dx, edge, ds, coreEnv, force);
      TracksApply(start, plan, NginxSpec(ds), w1, next1, dx.containers, dx.nextId, e.None?);
      if e.Some? {
        return Some(Error(NginxStage, e.value));
      }
      certs := served;
      err := None;
    }

    /** Whatever the edge, the whole topology has landed afterwards. */
    method ProvisionEdge(ds: DesiredState, s: PassSecrets, coreEnv: seq<string>, ghost start: Start, force: set<Name>,
                         ghost plan0: Plan)
      returns (err: Option<Error>, ghost plan: Plan)
      requires start.me == dx.deploymentID && start.force == force
      requires Tracks(start, plan0, {}, dx.containers, dx.nextId)
      requires PlanFor(plan0, ds, store.folders, store.token) && plan0.Keys == Topology(ds) - {Nginx}
      requires SecretsOf(s, ds, store.folders)
      modifies this`certs, dx, edge`conf
      ensures Tracks(start, plan, LateAt(err), dx.containers, dx.nextId)
      ensures PlanFor(plan, ds, store.folders, store.token) && plan.Keys == Topology(ds)
      ensures err.Some? ==> Within(err.value.stage, plan, ds)
    {
      NginxCompletes(plan0, ds);
      if ds.ManagedEdge() {
        plan := plan0[Nginx := NginxSpec(ds)];
        NginxIsWanted(plan0, ds, s, store.folders, store.token);
        err := ProvisionNginx(ds, coreEnv, start, force, plan0);
        WithinNginx(ds, plan);
      } else {
        plan := plan0;
        err := None;
      }
    }

    method FinishStack(ds: DesiredState, s: PassSecrets, commerceEnv: seq<string>, ghost start: Start, force: set<Name>,
                       sofar: set<Name>)
      returns (err: Option<Error>, ghost plan: Plan, keep: set<Name>)
      requires Inv() && events.Valid() && InStep(ledger.m, events.pace, Some(ds))
      requires SecretsOf(s, ds, store.folders) && commerceEnv == Canonical(s.commerceEnv)
      requires Tracks(start, DatabasePlan(EdgePlan(ds), ds, s.conn), {}, dx.containers, dx.nextId)
      requires sofar == AddIf(AddIf({}, ds.ManagedEdge(), {AcmeDns}), ds.DbManaged(), {Postgres})
      requires start.me == dx.deploymentID && start.force == force
      modifies this`giteaProvisioned, this`certs, events, dx, store`token, edge`conf
      ensures Inv() && events.Valid() && InStep(ledger.m, events.pace, Some(ds))
      ensures Tracks(start, plan, LateAt(err), dx.containers, dx.nextId)
      ensures PlanFor(plan, ds, store.folders, store.token)
      ensures err.None? ==> plan.Keys == Topology(ds) && keep == Topology(ds)
      ensures err.Some? ==> Within(err.value.stage, plan, ds)
    {
      err, plan, keep := ProvisionServing(ds, s, commerceEnv, start, force);
      keep := sofar + keep;
      KeptIsTopology(ds);
    }

    /** The whole stack, nginx last; `keep` are the names reconciled. */
    method ProvisionStack(ds: DesiredState, s: PassSecrets, ghost start: Start, force: set<Name>)
      returns (err: Option<Error>, ghost plan: Plan, keep: set<Name>)
      requires Inv() && events.Valid() && WorkingOn(ledger.m, ledger.c.value, ds) && !ds.stopped
      requires ledger.m.migrations == 0
      requires (ds.DbExternal() ==> !archiving) && !ledger.m.handover && InStep(ledger.m, events.pace, Some(ds))
      requires SecretsOf(s, ds, store.folders)
      requires Tracks(start, EdgePlan(ds), {}, dx.containers, dx.nextId)
      requires start.me == dx.deploymentID && start.force == force
      modifies this`archiving, this`backupState, this`backupInfo, this`backupAnnotate, this`hadFullBackup, this`certs,
               this`giteaProvisioned, store`backupConf, store`token, events, ledger, dx, edge`conf
      ensures Inv() && events.Valid() && InStep(ledger.m, events.pace, Some(ds)) && ledger.c == old(ledger.c)
      ensures ButData(old(ledger.m), ledger.m)
      ensures ledger.m.migrations == 2 || (err.Some? && DatabaseStages(err.value.stage))
      ensures Tracks(start, plan, LateAt(err), dx.containers, dx.nextId)
      ensures PlanFor(plan, ds, store.folders, store.token)
      ensures err.None? ==> archiving == ds.Backups() && plan.Keys == Topology(ds) && keep == Topology(ds)
      ensures err.Some? ==> Within(err.value.stage, plan, ds)
    {
      keep := AddIf({}, ds.ManagedEdge(), {AcmeDns});
      ghost var begun;
      var commerceEnv;
      err, begun, commerceEnv := ProvisionData(ds, s, start, force);
      if err.Some? {
        plan := DatabaseStagePlan(ds, s.conn, begun);
        FailedAtDatabase(ds, s, begun, err.value.stage, store.folders, store.token);
        return;
      }
      keep := AddIf(keep, ds.DbManaged(), {Postgres});
      err, plan, keep := FinishStack(ds, s, commerceEnv, start, force, keep);
    }

    /** Everything but the database. */
    method ProvisionServing(ds: DesiredState, s: PassSecrets, commerceEnv: seq<string>, ghost start: Start,
                            force: set<Name>)
      returns (err: Option<Error>, ghost plan: Plan, keep: set<Name>)
      requires events.Valid() && InStep(ledger.m, events.pace, Some(ds))
      requires SecretsOf(s, ds, store.folders) && commerceEnv == Canonical(s.commerceEnv)
      requires Tracks(start, DatabasePlan(EdgePlan(ds), ds, s.conn), {}, dx.containers, dx.nextId)
      requires start.me == dx.deploymentID && start.force == force
      modifies this`giteaProvisioned, this`certs, events, dx, store`token, edge`conf
      ensures events.Valid() && InStep(ledger.m, events.pace, Some(ds))
      ensures Tracks(start, plan, LateAt(err), dx.containers, dx.nextId)
      ensures PlanFor(plan, ds, store.folders, store.token)
      ensures err.None? ==>
        && plan.Keys == Topology(ds)
        && keep == AddIf(AddIf(CoreNames(), ds.GiteaOn(), {Gitea}), ds.ManagedEdge(), {Nginx, AcmeDns})
      ensures err.Some? ==> Within(err.value.stage, plan, ds)
    {
      var coreEnv;
      err, plan, coreEnv, keep := ProvisionApps(ds, s, commerceEnv, start, force);
      if err.None? {
        err, plan := ProvisionEdge(ds, s, coreEnv, start, force, plan);
        keep := AddIf(keep, ds.ManagedEdge(), {Nginx, AcmeDns});
      }
    }

    /** Removes what is owned but no longer wanted. */
    method PruneSurplus(ds: DesiredState, keep: set<Name>, ghost start: Start, ghost plan: Plan)
      returns (err: Option<Error>)
      requires !ds.stopped && start.me == dx.deploymentID && Tracks(start, plan, {}, dx.containers, dx.nextId)
      requires PlanFor(plan, ds, store.folders, store.token) && plan.Keys == Topology(ds) && keep == plan.Keys
      modifies dx
      ensures IdsBelow(dx.containers, dx.nextId) && start.floor <= dx.nextId
      ensures PassLaw(start.me, RecordOf(start, ds, if err.None? then Complete else FailedAt(PruneStage), plan,
                                         dx.containers, store.folders, store.token))
      ensures err.Some? ==> err.value.stage == PruneStage
    {
      OpenTracks(start, plan, {}, dx.containers, dx.nextId);
      ghost var w1, next1 := dx.containers, dx.nextId;
      var e := dx.PruneExcept(keep);
      SweptBy(start, plan, w1, next1, dx.containers);
      PrunedOrNot(start, ds, e.None?, plan, dx.containers, store.folders, store.token);
      err := if e.Some? then Some(Error(PruneStage, e.value)) else None;
    }

    /** Fully converged: no block, no backoff, and the generation is the one applied. */
    method CompletePass(ds: DesiredState)
      requires Inv() && events.Valid() && WorkingOn(ledger.m, ledger.c.value, ds) && !ds.stopped && !ledger.m.backedOff
      requires ledger.m.migrations == 2
      requires InStep(ledger.m, events.pace, Some(ds))
      modifies this`backoff, this`nextAttempt, this`lastGeneration, events, ledger
      ensures Inv() && events.Valid() && InStep(ledger.m, events.pace, Some(ds)) && ledger.c == old(ledger.c)
      ensures events.curBlockReason.None?
      ensures ledger.m == old(ledger.m).(failures := 0, notBefore := 0, applied := ds.generation, passApplied := true)
    {
      events.ClearBlock();
      Progress(ds, Core, ReconcileComplete);
      NoteApplied(ds);
    }

    method NoteApplied(ds: DesiredState)
      requires Inv() && WorkingOn(ledger.m, ledger.c.value, ds) && !ds.stopped && !ledger.m.backedOff
      requires ledger.m.migrations == 2
      modifies this`backoff, this`nextAttempt, this`lastGeneration, ledger
      ensures Inv() && ledger.c == old(ledger.c)
      ensures ledger.m == old(ledger.m).(failures := 0, notBefore := 0, applied := ds.generation, passApplied := true)
    {
      OpenInv();
      backoff, nextAttempt := 0, 0;
      NotBacked();
      lastGeneration := ds.generation;
      ledger.Record(Applied(ds.generation));
    }

    /** Prunes, and declares the pass complete. */
    method FinishPass(ds: DesiredState, keep: set<Name>, ghost start: Start, ghost plan: Plan)
      returns (err: Option<Error>)
      requires Inv() && events.Valid() && WorkingOn(ledger.m, ledger.c.value, ds) && !ds.stopped && !ledger.m.backedOff
      requires ledger.m.migrations == 2
      requires (ds.DbExternal() ==> !archiving) && !ledger.m.handover && InStep(ledger.m, events.pace, Some(ds))
      requires start.me == dx.deploymentID && Tracks(start, plan, {}, dx.containers, dx.nextId)
      requires PlanFor(plan, ds, store.folders, store.token) && plan.Keys == Topology(ds) && keep == plan.Keys
      modifies this`backoff, this`nextAttempt, this`lastGeneration, events, ledger, dx
      ensures Inv() && events.Valid() && InStep(ledger.m, events.pace, Some(ds)) && ledger.c == old(ledger.c)
      ensures IdsBelow(dx.containers, dx.nextId)
      ensures PassLaw(start.me, RecordOf(start, ds, EndOf(err), plan, dx.containers, store.folders, store.token))
      ensures ds.DbExternal() ==> !ledger.m.archiving
      ensures err.Some? ==> ledger.m == old(ledger.m) && err.value.stage == PruneStage
      ensures err.None? ==>
                ledger.m == old(ledger.m).(failures := 0, notBefore := 0, applied := ds.generation, passApplied := true)
    {
      ArchivingIsLogged();
      err := PruneSurplus(ds, keep, start, plan);
      if err.None? {
        CompletePass(ds);
      }
    }

    /** The pass beyond the edge. */
    method Provision(ds: DesiredState, s: PassSecrets, ghost start: Start, force: set<Name>)
      returns (err: Option<Error>, ghost plan: Plan)
      requires Inv() && events.Valid() && WorkingOn(ledger.m, ledger.c.value, ds) && !ds.stopped && !ledger.m.backedOff
      requires ledger.m.migrations == 0
      requires (ds.DbExternal() ==> !archiving) && !ledger.m.handover && InStep(ledger.m, events.pace, Some(ds))
      requires SecretsOf(s, ds, store.folders)
      requires Tracks(start, EdgePlan(ds), {}, dx.containers, dx.nextId)
      requires start.me == dx.deploymentID && start.force == force
      modifies this`archiving, this`backupState, this`backupInfo, this`backupAnnotate, this`hadFullBackup, this`certs,
               this`giteaProvisioned, this`backoff, this`nextAttempt, this`lastGeneration,
               store`backupConf, store`token, events, ledger, dx, edge`conf
      ensures Inv() && events.Valid() && InStep(ledger.m, events.pace, Some(ds)) && ledger.c == old(ledger.c)
      ensures IdsBelow(dx.containers, dx.nextId)
      ensures PassLaw(start.me, RecordOf(start, ds, EndOf(err), plan, dx.containers, store.folders, store.token))
      ensures Concluded(old(ledger.m), ledger.m, err.None?, ds.generation)
      ensures ledger.m.issued == old(ledger.m.issued) && ledger.m.passIssued == old(ledger.m.passIssued)
      ensures ledger.m.backedOff == old(ledger.m.backedOff) && ledger.m.edgeFirst == old(ledger.m.edgeFirst)
      ensures AfterMigrations(EndOf(err)) ==> ledger.m.migrations == 2
      ensures CameToPruning(EndOf(err)) && ds.DbExternal() ==> !ledger.m.archiving
      ensures ledger.m.notBefore <= old(ledger.m.notBefore)
    {
      ghost var m0 := ledger.m;
      var keep;
      err, plan, keep := ProvisionStack(ds, s, start, force);
      ghost var m1 := ledger.m;
      WorkingStill(m0, m1, ledger.c.value, ds);
      FailedWith(m0, m1, ds.generation);
      if err.Some? {
        FailedMidway(start, ds, err.value.stage, plan, dx.containers, dx.nextId, store.folders, store.token);
        return;
      }
      err := FinishPass(ds, keep, start, plan);
      if err.None? {
        AppliedWith(m0, m1, ledger.m, ds.generation);
      }
    }

    /** The pass from the edge on. */
    method RunUp(ds: DesiredState, s: PassSecrets, ghost start: Start, force: set<Name>)
      returns (err: Option<Error>, ghost end: PassEnd, ghost plan: Plan)
      requires Inv() && events.Valid() && WorkingOn(ledger.m, ledger.c.value, ds) && !ds.stopped
      requires (ds.DbExternal() ==> !archiving) && !ledger.m.handover && InStep(ledger.m, events.pace, Some(ds))
      requires !ledger.m.backedOff && ledger.m.notBefore <= clock && !ledger.m.passIssued && ledger.m.migrations == 0
      requires SecretsOf(s, ds, store.folders)
      requires IdsBelow(dx.containers, dx.nextId) && CertFirst(ledger.m, dx.containers) && edge.Valid()
      requires start.world == dx.containers && start.floor == dx.nextId
      requires start.me == dx.deploymentID && start.force == force
      modifies this`archiving, this`backupState, this`backupInfo, this`backupAnnotate, this`hadFullBackup, this`certs,
               this`giteaProvisioned, this`backoff, this`nextAttempt, this`lastGeneration, this`edgeManaged,
               this`acmeDelegation, this`awaitingDns, this`rateLimited, this`clock, this`hadCert,
               store`backupConf, store`token, events, ledger, dx, edge
      ensures Inv() && events.Valid() && InStep(ledger.m, events.pace, Some(ds)) && ledger.c == old(ledger.c)
      ensures IdsBelow(dx.containers, dx.nextId) && CertFirst(ledger.m, dx.containers) && edge.Valid()
      ensures old(clock) <= clock
      ensures PassLaw(start.me, RecordOf(start, ds, end, plan, dx.containers, store.folders, store.token))
      ensures if err.Some? then end == FailedAt(err.value.stage) else end.Complete? || end.BlockedOn?
      ensures Concluded(old(ledger.m), ledger.m, end.Complete?, ds.generation)
      ensures MayEnd(ledger.m, ds, end)
      ensures !ledger.m.backedOff ==> ledger.m.notBefore <= old(ledger.m.notBefore)
      ensures end.Complete? ==> !awaitingDns && !rateLimited
      ensures end.BlockedOn? ==> if ledger.m.backedOff then rateLimited else awaitingDns
      ensures old(edge.calls) <= edge.calls
    {
      ghost var m0 := ledger.m;
      var proceed;
      proceed, err := EnsureEdge(ds, start);
      ghost var m1 := ledger.m;
      WorkingStill(m0, m1, ledger.c.value, ds);
      if !proceed {
        plan := EdgePlan(ds);
        end := HeldAtEdge(start, ds, s, err, m0, m1, dx.containers, dx.nextId, store.folders, store.token);
        return;
      }
      err, plan := Provision(ds, s, start, force);
      end := EndOf(err);
      StaysConcluded(m0, m1, ledger.m, err.None?, ds.generation);
    }

    /** A pass over a deployment that is to be up. */
    method BringUp(ds: DesiredState, ghost start: Start, force: set<Name>)
      returns (err: Option<Error>, ghost end: PassEnd, ghost plan: Plan)
      requires Inv() && events.Valid() && WorkingOn(ledger.m, ledger.c.value, ds) && !ds.stopped
      requires !ledger.m.handover && InStep(ledger.m, events.pace, Some(ds))
      requires !ledger.m.backedOff && ledger.m.notBefore <= clock && !ledger.m.passIssued && ledger.m.migrations == 0
      requires IdsBelow(dx.containers, dx.nextId) && CertFirst(ledger.m, dx.containers) && edge.Valid()
      requires start.world == dx.containers && start.floor == dx.nextId
      requires start.me == dx.deploymentID && start.force == force
      modifies this`stopped, this`awaitingSecretStore, this`archiving, this`backupState, this`backupInfo,
               this`backupAnnotate, this`hadFullBackup, this`certs, this`giteaProvisioned, this`backoff,
               this`nextAttempt, this`lastGeneration, this`edgeManaged, this`acmeDelegation, this`awaitingDns,
               this`rateLimited, this`clock, this`hadCert, store`backupConf, store`token, events, ledger, dx, edge
      ensures Inv() && events.Valid() && InStep(ledger.m, events.pace, Some(ds)) && ledger.c == old(ledger.c)
      ensures IdsBelow(dx.containers, dx.nextId) && CertFirst(ledger.m, dx.containers) && edge.Valid()
      ensures old(clock) <= clock
      ensures PassLaw(start.me, RecordOf(start, ds, end, plan, dx.containers, store.folders, store.token))
      ensures if err.Some? then end == FailedAt(err.value.stage) else end.Complete? || end.BlockedOn?
      ensures Concluded(old(ledger.m), ledger.m, end.Complete?, ds.generation)
      ensures MayEnd(ledger.m, ds, end)
      ensures !ledger.m.backedOff ==> ledger.m.notBefore <= old(ledger.m.notBefore)
      ensures end.Complete? ==> !awaitingSecretStore && !awaitingDns && !rateLimited
      ensures end.BlockedOn? ==> awaitingSecretStore || awaitingDns || rateLimited
      ensures ledger.m.backedOff ==> rateLimited
      ensures old(edge.calls) <= edge.calls
    {
      ghost var m0 := ledger.m;
      var s;
      err, s := Prepare(ds);
      ghost var m1 := ledger.m;
      if s.None? {
        plan := map[];
        end := if err.Some? then FailedAt(err.value.stage) else BlockedOn(OnSecretStore);
        NothingTouched(start, ds, end, store.folders, store.token);
        ButArchivingNotConcluded(m0, m1, ds.generation);
        return;
      }
      err, end, plan := RunUp(ds, s.value, start, force);
      ButArchivingConcluded(m0, m1, ledger.m, end.Complete?, ds.generation);
    }

    /** A pass over a deployment that is to be down. */
    method BringDown(ds: DesiredState, ghost start: Start) returns (err: Option<Error>, ghost end: PassEnd)
      requires Inv() && events.Valid() && WorkingOn(ledger.m, ledger.c.value, ds) && ds.stopped && !ledger.m.backedOff
      requires InStep(ledger.m, events.pace, Some(ds))
      requires IdsBelow(dx.containers, dx.nextId) && CertFirst(ledger.m, dx.containers)
      requires start.world == dx.containers && start.floor == dx.nextId && start.me == dx.deploymentID
      modifies this`stopped, this`archiving, this`backupInfo, this`certs, this`acmeDelegation, this`backoff,
               this`nextAttempt, this`lastGeneration, events, ledger, dx
      ensures Inv() && events.Valid() && InStep(ledger.m, events.pace, Some(ds)) && ledger.c == old(ledger.c)
      ensures IdsBelow(dx.containers, dx.nextId) && CertFirst(ledger.m, dx.containers)
      ensures PassLaw(start.me, RecordOf(start, ds, end, map[], dx.containers, store.folders, store.token))
      ensures end == (if err.None? then TornDown else FailedAt(TeardownStage))
      ensures err.Some? ==> err.value.stage.TeardownStage?
      ensures Concluded(old(ledger.m), ledger.m, end.TornDown?, ds.generation)
      ensures ledger.m.backedOff == old(ledger.m.backedOff) && ledger.m.notBefore <= old(ledger.m.notBefore)
    {
      ghost var m0 := ledger.m;
      err := TearDown(ds);
      end := if err.None? then TornDown else FailedAt(TeardownStage);
      TakenDown(start, ds, err.None?, dx.containers, store.folders, store.token);
      if NoAppContainers(start.world) {
        StillNoAppsDown(ds, start.world, dx.containers, dx.deploymentID);
      }
      DownConcluded(m0, ledger.m, err.None?, ds.generation);
    }

    lemma DownConcluded(m: Monitor, m': Monitor, ok: bool, g: int)
      requires !m.passApplied
      requires m' == if ok then m.(archiving := false, failures := 0, notBefore := 0, applied := g, passApplied := true)
                   else m
      ensures Concluded(m, m', ok, g)
      ensures m'.edgeFirst == m.edgeFirst && m'.issued == m.issued
      ensures m'.backedOff == m.backedOff && m'.notBefore <= m.notBefore
    {
    }

    /** The body of a pass, from where it has taken the recreate requests. */
    method RunPass(ds: DesiredState, ghost start: Start, force: set<Name>)
      returns (err: Option<Error>, ghost end: PassEnd, ghost plan: Plan)
      requires Inv() && events.Valid() && WorkingOn(ledger.m, ledger.c.value, ds)
      requires !ledger.m.handover && InStep(ledger.m, events.pace, Some(ds))
      requires !ledger.m.backedOff && ledger.m.notBefore <= clock && !ledger.m.passIssued && ledger.m.migrations == 0
      requires IdsBelow(dx.containers, dx.nextId) && CertFirst(ledger.m, dx.containers) && edge.Valid()
      requires start.world == dx.containers && start.floor == dx.nextId
      requires start.me == dx.deploymentID && start.force == force
      modifies this`stopped, this`awaitingSecretStore, this`archiving, this`backupState, this`backupInfo,
               this`backupAnnotate, this`hadFullBackup, this`certs, this`giteaProvisioned, this`backoff,
               this`nextAttempt, this`lastGeneration, this`edgeManaged, this`acmeDelegation, this`awaitingDns,
               this`rateLimited, this`clock, this`hadCert, store`backupConf, store`token, events, ledger, dx, edge
      ensures Inv() && events.Valid() && InStep(ledger.m, events.pace, Some(ds)) && ledger.c == old(ledger.c)
      ensures IdsBelow(dx.containers, dx.nextId) && CertFirst(ledger.m, dx.containers) && edge.Valid()
      ensures old(clock) <= clock
      ensures PassLaw(start.me, RecordOf(start, ds, end, plan, dx.containers, store.folders, store.token))
      ensures if err.Some? then end == FailedAt(err.value.stage) else !end.FailedAt?
      ensures Concluded(old(ledger.m), ledger.m, end.Complete? || end.TornDown?, ds.generation)
      ensures MayEnd(ledger.m, ds, end)
      ensures !ledger.m.backedOff ==> ledger.m.notBefore <= old(ledger.m.notBefore)
      ensures end.Complete? ==> !awaitingSecretStore && !awaitingDns && !rateLimited
      ensures end.BlockedOn? ==> awaitingSecretStore || awaitingDns || rateLimited
      ensures ledger.m.backedOff ==> rateLimited
      ensures end.TornDown? ==> ds.stopped
      ensures ds.stopped ==> Blocks() == old(Blocks())
      ensures old(edge.calls) <= edge.calls
    {
      if ds.stopped {
        plan := map[];
        err, end := BringDown(ds, start);
      } else {
        err, end, plan := BringUp(ds, start, force);
      }
    }

    /** Writes the end of a pass down. */
    ghost method EndPass(ds: DesiredState, force: set<Name>, end: PassEnd)
      requires Inv() && ledger.m.inPass && !ledger.m.handover
      requires ledger.c.value.current == Some(ds) && ledger.c.value.force == force
      requires end.Complete? || end.TornDown? <==> ledger.m.passApplied
      requires MayEnd(ledger.m, ds, end)
      modifies ledger
      ensures Inv() && ledger.c == old(ledger.c)
      ensures ledger.m == EndedMonitor(old(ledger.m), end.FailedAt?, Ended(Some(ds), force, end))
    {
      OpenInv();
      ledger.RecordEnd(end);
      assert Agrees();
    }

    /** A pass, and its end. */
    method FullPass(ds: DesiredState, ghost start: Start, force: set<Name>)
      returns (err: Option<Error>, ghost end: PassEnd, ghost plan: Plan, ghost m2: Monitor)
      requires Inv() && events.Valid() && WorkingOn(ledger.m, ledger.c.value, ds)
      requires !ledger.m.handover && InStep(ledger.m, events.pace, Some(ds))
      requires !ledger.m.backedOff && ledger.m.notBefore <= clock && !ledger.m.passIssued && ledger.m.migrations == 0
      requires IdsBelow(dx.containers, dx.nextId) && CertFirst(ledger.m, dx.containers) && edge.Valid()
      requires start.world == dx.containers && start.floor == dx.nextId
      requires start.me == dx.deploymentID && start.force == force
      requires ledger.c.value.force == force
      modifies this`stopped, this`awaitingSecretStore, this`archiving, this`backupState, this`backupInfo,
               this`backupAnnotate, this`hadFullBackup, this`certs, this`giteaProvisioned, this`backoff,
               this`nextAttempt, this`lastGeneration, this`edgeManaged, this`acmeDelegation, this`awaitingDns,
               this`rateLimited, this`clock, this`hadCert, store`backupConf, store`token, events, ledger, dx, edge
      ensures Inv() && events.Valid() && InStep(ledger.m, events.pace, Some(ds))
      ensures IdsBelow(dx.containers, dx.nextId) && CertFirst(ledger.m, dx.containers) && edge.Valid()
      ensures old(clock) <= clock
      ensures PassLaw(start.me, RecordOf(start, ds, end, plan, dx.containers, store.folders, store.token))
      ensures if err.Some? then end == FailedAt(err.value.stage) else !end.FailedAt?
      ensures Concluded(old(ledger.m), m2, end.Complete? || end.TornDown?, ds.generation)
      ensures ledger.m == EndedMonitor(m2, err.Some?, Ended(Some(ds), force, end))
      ensures ledger.m.backedOff <==> end == BlockedOn(OnRateLimit)
      ensures !ledger.m.backedOff ==> ledger.m.notBefore <= old(ledger.m.notBefore)
      ensures end.Complete? ==> !awaitingSecretStore && !awaitingDns && !rateLimited
      ensures end.BlockedOn? ==> awaitingSecretStore || awaitingDns || rateLimited
      ensures ledger.m.backedOff ==> rateLimited
      ensures ds.stopped ==> Blocks() == old(Blocks())
    {
      ghost var m1 := ledger.m;
      err, end, plan := RunPass(ds, start, force);
      m2 := ledger.m;
      StillInPass(m1, m2, end.Complete? || end.TornDown?, ds.generation);
      EndPass(ds, force, end);
    }

    method WholePass(ds: DesiredState, ghost at: nat) returns (err: Option<Error>, ghost r: PassRecord)
      requires Inv() && events.Valid() && !ledger.m.inPass && !restoring && lastDesired == Some(ds)
      requires ledger.m.lastFailed ==> ledger.m.backedOff
      requires !ledger.m.handover && InStep(ledger.m, events.pace, Some(ds))
      requires ledger.m.now <= at <= clock && ledger.m.notBefore <= at && GateOpen(ledger.m, ds.generation, at)
      requires IdsBelow(dx.containers, dx.nextId) && CertFirst(ledger.m, dx.containers) && edge.Valid()
      modifies this`forceRecreate, this`stopped, this`awaitingSecretStore, this`archiving, this`backupState,
               this`backupInfo, this`backupAnnotate, this`hadFullBackup, this`certs, this`giteaProvisioned,
               this`backoff, this`nextAttempt, this`lastGeneration, this`edgeManaged, this`acmeDelegation,
               this`awaitingDns, this`rateLimited, this`clock, this`hadCert, store`backupConf, store`token,
               events, ledger, dx, edge
      ensures Inv() && events.Valid() && InStep(ledger.m, events.pace, Some(ds))
      ensures IdsBelow(dx.containers, dx.nextId) && CertFirst(ledger.m, dx.containers) && edge.Valid()
      ensures old(clock) <= clock && forceRecreate == {}
      ensures !ledger.m.inPass && !ledger.m.handover && ledger.m.lastPassAt == Some(at)
      ensures ledger.m.lastFailed == err.Some?
      ensures if ledger.m.backedOff then err.None? && rateLimited else ledger.m.notBefore <= old(ledger.m.notBefore)
      ensures err.None? && !awaitingSecretStore && !awaitingDns && !rateLimited ==> ledger.m.applied == ds.generation
      ensures ds.stopped ==> Blocks() == old(Blocks())
      ensures r == PassRecord(ds, old(forceRecreate), r.end, old(dx.containers), dx.containers, old(dx.nextId), r.plan,
                              store.folders, store.token)
      ensures PassLaw(dx.deploymentID, r)
      ensures if err.Some? then r.end == FailedAt(err.value.stage) else !r.end.FailedAt?
      ensures ledger.m.ended == Whole(old(ledger.m.ended.value) + [Ended(Some(ds), r.force, r.end)])
    {
      ghost var m0 := ledger.m;
      ghost var start := Start(dx.containers, dx.nextId, dx.deploymentID, forceRecreate);
      var force := TakeForce(ds, at);
      ghost var m1 := ledger.m;
      ghost var end, plan, m2;
      err, end, plan, m2 := FullPass(ds, start, force);
      PassOver(m0, m1, m2, ledger.m, at, m1.edgeFirst, end.Complete? || end.TornDown?, ds.generation, err.Some?,
               Ended(Some(ds), force, end));
      r := RecordOf(start, ds, end, plan, dx.containers, store.folders, store.token);
    }

    /** The pass goes into the book. */
    method PassAndRecord(ds: DesiredState, ghost at: nat) returns (err: Option<Error>)
      requires Inv() && events.Valid() && !ledger.m.inPass && !restoring && lastDesired == Some(ds)
      requires ledger.m.lastFailed ==> ledger.m.backedOff
      requires !ledger.m.handover && InStep(ledger.m, events.pace, Some(ds))
      requires ledger.m.now <= at <= clock && ledger.m.notBefore <= at && GateOpen(ledger.m, ds.generation, at)
      requires IdsBelow(dx.containers, dx.nextId) && CertFirst(ledger.m, dx.containers) && edge.Valid() && Kept()
      modifies this`forceRecreate, this`stopped, this`awaitingSecretStore, this`archiving, this`backupState,
               this`backupInfo, this`backupAnnotate, this`hadFullBackup, this`certs, this`giteaProvisioned,
               this`backoff, this`nextAttempt, this`lastGeneration, this`edgeManaged, this`acmeDelegation,
               this`awaitingDns, this`rateLimited, this`clock, this`hadCert, store`backupConf, store`token,
               events, ledger, book, dx, edge
      ensures Inv() && events.Valid() && InStep(ledger.m, events.pace, Some(ds))
      ensures IdsBelow(dx.containers, dx.nextId) && CertFirst(ledger.m, dx.containers) && edge.Valid() && Kept()
      ensures old(clock) <= clock && forceRecreate == {}
      ensures !ledger.m.inPass && !ledger.m.handover && ledger.m.lastPassAt == Some(at)
      ensures ledger.m.lastFailed == err.Some?
      ensures if ledger.m.backedOff then err.None? && rateLimited else ledger.m.notBefore <= old(ledger.m.notBefore)
      ensures err.None? && !awaitingSecretStore && !awaitingDns && !rateLimited ==> ledger.m.applied == ds.generation
      ensures ds.stopped ==> Blocks() == old(Blocks())
      ensures NextPass(old(book.passes), book.passes, ds, old(forceRecreate), err, old(dx.containers), dx.containers,
                       old(dx.nextId), store.folders, store.token)
    {
      ghost var r;
      err, r := WholePass(ds, at);
      KeepRecord(r, old(ledger.m.ended));
    }

    ghost method KeepRecord(r: PassRecord, ended: Whole<seq<Ended>>)
      requires book.Valid() && book.me == dx.deploymentID && Recorded(book.passes, ended) && PassLaw(book.me, r)
      requires ledger.m.ended == Whole(ended.value + [Ended(Some(r.ds), r.force, r.end)])
      modifies book
      ensures Kept() && old(book.passes) <= book.passes && |book.passes| == |old(book.passes)| + 1
      ensures EndsWith(book.passes, r)
    {
      book.Add(r);
      RecordedToo(old(book.passes), ended, book.passes, r);
    }

    // --- bookmarks

    ghost method MarkPass()
      requires Inv() && events.Valid() && edge.Valid()
      modifies ledger.pass, events.pass, edge.pass
      ensures Inv() && events.Valid() && ledger.pass.kept == ledger.log && events.pass.kept == events.Story()
      ensures edge.Valid() && edge.pass.kept == edge.calls
    {
      OpenInv();
      ledger.Remember(ledger.pass);
      events.Remember(events.pass);
      edge.Remember(edge.pass);
    }

    lemma PassGoesOn()
      requires Inv() && events.Valid() && edge.Valid()
      ensures ledger.pass.kept <= ledger.log && Prolongs(events.pass.kept, events.Story())
      ensures edge.pass.kept <= edge.calls
    {
      OpenInv();
      ledger.GoesOn();
      events.OpenValid();
      edge.OpenValid();
    }

    /**
     * One pass over the last received desired state. The pass, the containers it found and left, what it set out
     * to apply and the way it ended go into the book of passes.
     */
    method Reconcile(ds: DesiredState, ghost at: nat) returns (err: Option<Error>)
      requires Inv() && events.Valid() && !ledger.m.inPass && !restoring && lastDesired == Some(ds)
      requires ledger.m.lastFailed ==> ledger.m.backedOff
      requires !ledger.m.handover && InStep(ledger.m, events.pace, Some(ds))
      requires ledger.m.now <= at <= clock && ledger.m.notBefore <= at && GateOpen(ledger.m, ds.generation, at)
      requires IdsBelow(dx.containers, dx.nextId) && CertFirst(ledger.m, dx.containers) && edge.Valid() && Kept()
      modifies this, store, events, ledger, ledger.pass, events.pass, edge.pass, book, dx, edge
      ensures Inv() && events.Valid() && InStep(ledger.m, events.pace, Some(ds))
      ensures IdsBelow(dx.containers, dx.nextId) && CertFirst(ledger.m, dx.containers) && edge.Valid() && Kept()
      ensures old(clock) <= clock && forceRecreate == {}
      ensures !ledger.m.inPass && !ledger.m.handover && ledger.m.lastPassAt == Some(at)
      ensures ledger.m.lastFailed == err.Some?
      ensures if ledger.m.backedOff then err.None? && rateLimited else ledger.m.notBefore <= old(ledger.m.notBefore)
      ensures err.None? && !awaitingSecretStore && !awaitingDns && !rateLimited ==> ledger.m.applied == ds.generation
      ensures ds.stopped ==> Blocks() == old(Blocks())
      ensures NextPass(old(book.passes), book.passes, ds, old(forceRecreate), err, old(dx.containers), dx.containers,
                       old(dx.nextId), store.folders, store.token)
      ensures old(ledger.log) <= ledger.log && Prolongs(old(events.Story()), events.Story())
      ensures old(edge.calls) <= edge.calls
      ensures unchanged(`lastDesired, `restoring, `forceRecheckQ, `recreateQ, `backupQ, `restoreQ, `lastResync)
    {
      MarkPass();
      err := PassAndRecord(ds, at);
      PassGoesOn();
    }

    // ------------------------------------------------------------------ applying a desired state

    /** A failed pass is told to cloud and backed off from; a good one forgets the last error. */
    method SettlePass(err: Option<Error>)
      requires Inv() && events.Valid() && ledger.m.lastFailed == err.Some? && !ledger.m.inPass
      requires if ledger.m.backedOff then err.None? && rateLimited else ledger.m.notBefore <= clock
      requires CertFirst(ledger.m, dx.containers) && InStep(ledger.m, events.pace, lastDesired)
      modifies this`lastReconcileErr, this`clock, this`backoff, this`nextAttempt, events, ledger
      ensures Inv() && events.Valid() && events.pace == old(events.pace) && ledger.c == old(ledger.c)
      ensures old(clock) <= clock && lastReconcileErr == err
      ensures events.lastErrMsg == if err.Some? then Some(err.value.detail) else None
      ensures events.emitted ==
                if err.None? || old(events.lastErrMsg) == Some(err.value.detail) then old(events.emitted)
                else old(events.emitted) + [Event(ErrorLevel, NoComponent, ReconcileError, err.value.detail)]
      ensures clock < nextAttempt ==> lastReconcileErr.Some? || rateLimited
      ensures ledger.m.lastFailed ==> ledger.m.backedOff
      ensures ledger.m == old(ledger.m).(now := ledger.m.now, failures := ledger.m.failures,
                                         notBefore := ledger.m.notBefore, backedOff := ledger.m.backedOff)
      ensures CertFirst(ledger.m, dx.containers) && InStep(ledger.m, events.pace, lastDesired)
    {
      OpenInv();
      lastReconcileErr := err;
      if err.Some? {
        events.EmitError(err.value.detail);
        EnterBackoff();
      } else {
        events.ClearError();
      }
    }

    lemma ArchivingIsLogged()
      requires Inv()
      ensures archiving == ledger.m.archiving
    {
      OpenInv();
    }

    lemma GenerationIsApplied()
      requires Inv()
      ensures lastGeneration == ledger.m.applied
    {
      OpenInv();
    }

    lemma ClockIsAhead()
      requires Inv()
      ensures ledger.m.now <= clock && ledger.m.notBefore == nextAttempt
    {
      OpenInv();
    }

    method StartPass(ds: DesiredState, now: nat) returns (err: Option<Error>)
      requires Settled() && Kept() && edge.Valid() && lastDesired == Some(ds) && !restoring
      requires now == clock && nextAttempt <= now && GateOpen(ledger.m, ds.generation, now)
      modifies this, store, events, ledger, ledger.pass, events.pass, edge.pass, book, dx, edge
      ensures Inv() && events.Valid() && InStep(ledger.m, events.pace, Some(ds))
      ensures Standing() == old(Standing())
      ensures IdsBelow(dx.containers, dx.nextId) && CertFirst(ledger.m, dx.containers) && edge.Valid() && Kept()
      ensures !ledger.m.inPass && !ledger.m.handover && lastResync == ledger.m.lastPassAt
      ensures ledger.m.lastFailed == err.Some?
      ensures if ledger.m.backedOff then err.None? && rateLimited else ledger.m.notBefore <= clock
      ensures err.None? && !awaitingSecretStore && !awaitingDns && !rateLimited ==> ledger.m.applied == ds.generation
      ensures ds.stopped ==> Blocks() == old(Blocks())
      ensures OnePass(true, old(book.passes), book.passes, old(dx.containers), dx.containers)
      ensures forceRecreate == {}
    {
      ClockIsAhead();
      lastResync := Some(now);
      err := Reconcile(ds, now);
    }

    /** A pass that the gate has let through. */
    method Attempt(ds: DesiredState, now: nat)
      requires Settled() && Kept() && edge.Valid() && lastDesired == Some(ds) && !restoring
      requires now == clock && nextAttempt <= now && GateOpen(ledger.m, ds.generation, now)
      modifies this, store, events, ledger, ledger.pass, events.pass, edge.pass, book, dx, edge
      ensures Settled() && Kept() && edge.Valid() && Honest()
      ensures Standing() == old(Standing())
      ensures ds.stopped ==> Blocks() == old(Blocks())
      ensures OnePass(true, old(book.passes), book.passes, old(dx.containers), dx.containers)
      ensures forceRecreate == {}
    {
      var err := StartPass(ds, now);
      SettlePass(err);
      GenerationIsApplied();
    }

    /** Lets a pass through outside a backoff window, when there is a reason for one. */
    method MaybeReconcile(ds: DesiredState) returns (now: nat, ghost ran: bool)
      requires Settled() && Kept() && edge.Valid() && lastDesired == Some(ds) && !restoring
      modifies this, store, events, ledger, ledger.pass, events.pass, edge.pass, book, dx, edge
      ensures Settled() && Kept() && edge.Valid() && Honest()
      ensures Standing() == old(Standing())
      ensures ran == old(Due(backoff, nextAttempt, lastGeneration, lastReconcileErr.Some?, lastResync, ds.generation,
                             now))
      ensures ds.stopped ==> Blocks() == old(Blocks())
      ensures OnePass(ran, old(book.passes), book.passes, old(dx.containers), dx.containers)
      ensures forceRecreate == if ran then {} else old(forceRecreate)
    {
      ran := false;
      now := Now();
      OpenInv();
      var inBackoff := backoff > 0 && now < nextAttempt;
      if !inBackoff && (ds.generation != lastGeneration || lastReconcileErr.Some? || lastResync.None?
                        || now - lastResync.value >= ResyncInterval) {
        ran := true;
        Attempt(ds, now);
      }
    }

    /** Arms the fast re-check while an operator's action is awaited, and reports. */
    method ReportPass() returns (ghost said: Said)
      requires Settled() && Honest()
      modifies this`blocked, events, ledger
      ensures Calm() && Honest() && ledger.m == old(ledger.m) && Replied(said)
    {
      blocked := awaitingSecretStore || awaitingDns;
      said := ReportHeartbeat();
    }

    /** One try of a pass, and a report of what came of it. */
    method TryPass(ds: DesiredState) returns (ghost now: nat, ghost ran: bool, ghost said: Said)
      requires Calm() && Kept() && edge.Valid() && lastDesired == Some(ds) && !restoring
      modifies this, store, events, ledger, ledger.pass, events.pass, edge.pass, book, dx, edge
      ensures Calm() && Honest() && Kept() && edge.Valid() && Replied(said)
      ensures Standing() == old(Standing())
      ensures ran == old(Due(backoff, nextAttempt, lastGeneration, lastReconcileErr.Some?, lastResync, ds.generation,
                             now))
      ensures OnePass(ran, old(book.passes), book.passes, old(dx.containers), dx.containers)
      ensures ds.stopped ==> Blocks() == old(Blocks())
      ensures forceRecreate == if ran then {} else old(forceRecreate)
    {
      now, ran := MaybeReconcile(ds);
      said := ReportPass();
    }

    /**
     * Reconciles on a new generation, a lingering error or the resync cadence, unless a restore is under way or a
     * backoff window is open; then reports.
     */
    method ApplyDesired(ds: DesiredState) returns (ghost now: nat, ghost ran: bool, ghost said: Said)
      requires Calm() && Kept() && edge.Valid() && lastDesired == Some(ds)
      modifies this, store, events, ledger, ledger.pass, events.pass, edge.pass, book, dx, edge
      ensures Calm() && Honest() && Kept() && edge.Valid() && Replied(said)
      ensures Standing() == old(Standing())
      ensures ran == old(!restoring && Due(backoff, nextAttempt, lastGeneration, lastReconcileErr.Some?, lastResync,
                                           ds.generation, now))
      ensures OnePass(ran, old(book.passes), book.passes, old(dx.containers), dx.containers)
      ensures ds.stopped ==>
        && Blocks() == old(Blocks())
        && (said.ready <==> lastReconcileErr.None? && old(Blocks()) == NoFlags && AllUp(said.services))
      ensures forceRecreate == if ran then {} else old(forceRecreate)
    {
      now, ran := 0, false;
      if restoring {
        said := ReportHeartbeat();
      } else {
        now, ran, said := TryPass(ds);
      }
    }

    /** Again toward the last verified desired state. */
    method Reapply() returns (ghost now: nat, ghost ran: bool)
      requires Calm() && Kept() && edge.Valid()
      modifies this, store, events, ledger, ledger.pass, events.pass, edge.pass, book, dx, edge
      ensures Calm() && Honest() && Kept() && edge.Valid()
      ensures Standing() == old(Standing())
      ensures ran == old(PassDue(nextAttempt, now))
      ensures OnePass(ran, old(book.passes), book.passes, old(dx.containers), dx.containers)
      ensures forceRecreate == if ran then {} else old(forceRecreate)
    {
      now, ran := 0, false;
      if lastDesired.Some? {
        ghost var said;
        now, ran, said := ApplyDesired(lastDesired.value);
      }
    }

    /** A verified desired state becomes the current one. */
    method Accept(signed: SignedDesiredState) returns (ds: DesiredState)
      requires Calm() && Acceptable(deploymentPubKey, signed)
      modifies this`lastDesired, ledger
      ensures Calm() && lastDesired == Some(ds) && signed.payload.decoded == Some(ds)
      ensures ledger.m == old(ledger.m).(monotone := ledger.m.monotone)
    {
      OpenInv();
      ds := signed.payload.decoded.value;
      lastDesired := Some(ds);
      ledger.Record(Received(signed));
    }

    /** A refused push is told to cloud as an error; nothing of it is kept. */
    method Refuse(why: string)
      requires Calm() && Honest()
      modifies events, ledger
      ensures Calm() && Honest() && ledger.m == old(ledger.m) && ledger.c == old(ledger.c)
      ensures ledger.log == old(ledger.log) + [Reported(lastGeneration, false)]
      ensures events.emitted == if old(events.lastErrMsg) == Some(why) then old(events.emitted)
                                else old(events.emitted) + [Event(ErrorLevel, NoComponent, ReconcileError, why)]
    {
      events.EmitError(why);
      OpenInv();
      var services, _ := CollectServices();
      Report(lastGeneration, [Condition(ReadyCond, false, ReconcileError, NoComponent, [], why)], services);
    }

    /** A verified desired state is taken on and acted upon. */
    method Follow(signed: SignedDesiredState) returns (ghost now: nat, ghost ran: bool, ghost said: Said)
      requires Calm() && Kept() && edge.Valid() && Acceptable(deploymentPubKey, signed)
      modifies this, store, events, ledger, ledger.pass, events.pass, edge.pass, book, dx, edge
      ensures Calm() && Honest() && Kept() && edge.Valid() && Replied(said)
      ensures Standing() == old(Standing()).(desired := signed.payload.decoded)
      ensures ran == old(!restoring && Due(backoff, nextAttempt, lastGeneration, lastReconcileErr.Some?, lastResync,
                                           signed.payload.decoded.value.generation, now))
      ensures signed.payload.decoded.value.stopped ==> Blocks() == old(Blocks())
      ensures OnePass(ran, old(book.passes), book.passes, old(dx.containers), dx.containers)
    {
      var ds := Accept(signed);
      now, ran, said := ApplyDesired(ds);
    }

    /** Authenticates a pushed desired state and acts on exactly the bytes that were signed. */
    method ApplySigned(signed: SignedDesiredState) returns (ghost now: nat, ghost ran: bool, ghost said: Option<Said>)
      requires Calm() && Honest() && Kept() && edge.Valid()
      modifies this, store, events, ledger, ledger.pass, events.pass, edge.pass, book, dx, edge
      ensures Calm() && Honest() && Kept() && edge.Valid()
      ensures Standing() == old(Standing()).(desired := lastDesired)
      ensures Heard(signed, old(lastDesired), old(Blocks()), said)
      ensures ran == (Acceptable(deploymentPubKey, signed)
                      && old(!restoring && Due(backoff, nextAttempt, lastGeneration, lastReconcileErr.Some?, lastResync,
                                               signed.payload.decoded.value.generation, now)))
      ensures OnePass(ran, old(book.passes), book.passes, old(dx.containers), dx.containers)
    {
      now, ran, said := 0, false, None;
      if Acceptable(deploymentPubKey, signed) {
        ghost var reply;
        now, ran, reply := Follow(signed);
        said := Some(reply);
      } else {
        Refuse("desired state refused");
      }
    }

    /**
     * What a push leads to. One that verifies becomes the desired state and is answered by a report, with the old
     * flags if it is a stopped one; any other changes neither, and the report is not Ready.
     */
    ghost predicate Heard(signed: SignedDesiredState, before: Option<DesiredState>, flags: Flags, said: Option<Said>)
      reads this, ledger, dx
    {
      if Acceptable(deploymentPubKey, signed) then
        && lastDesired == signed.payload.decoded && said.Some? && Replied(said.value)
        && (lastDesired.value.stopped ==> Blocks() == flags)
      else
        && lastDesired == before && EndsSaying(ledger.log, lastGeneration, false) && Blocks() == flags
    }

    // ------------------------------------------------------------------ commands

    method ForceRecheck()
      requires Boundary()
      modifies this`forceRecheckQ
      ensures Boundary() && Waiting() == Enqueued(old(Waiting()), CloudApi.ForceRecheck)
    {
      forceRecheckQ := true;
    }

    /** An unnamed service is ignored; a full queue drops the request. */
    method RequestRecreate(service: Option<Name>)
      requires Boundary()
      modifies this`recreateQ
      ensures Boundary()
      ensures Waiting() == Enqueued(old(Waiting()), Recreate(service))
    {
      if service.None? {
        return;
      }
      if |recreateQ| < RecreateCapacity {
        recreateQ := recreateQ + [service.value];
      }
    }

    method RequestBackup(kind: Option<BackupKind>)
      requires Boundary()
      modifies this`backupQ
      ensures Boundary()
      ensures Waiting() == Enqueued(old(Waiting()), TakeBackup(kind))
    {
      if |backupQ| < BackupCapacity {
        backupQ := backupQ + [kind];
      }
    }

    method LockForRestore(req: RestoreReq)
      requires Calm() && Honest() && Kept() && (restoring <==> |restoreQ| == 1) && |restoreQ| <= 1
      modifies this`restoring, this`restoreQ, ledger
      ensures Calm() && Honest() && Kept() && restoring && restoreQ == Offer(old(restoreQ), req, 1)
    {
      OpenInv();
      restoring := true;
      if |restoreQ| < 1 {
        restoreQ := restoreQ + [req];
        ledger.RecordRestoreQueued();
      }
    }

    /** The lock is taken at once; a second request while one is queued is dropped. */
    method RequestRestore(req: RestoreReq)
      requires Boundary()
      modifies this`restoring, this`restoreQ, ledger
      ensures Boundary() && restoring
      ensures Waiting() == Enqueued(old(Waiting()), RestoreDB(req))
    {
      LockForRestore(req);
    }

    method StatusNow()
      requires Boundary()
      modifies events, ledger
      ensures Boundary() && events.emitted == old(events.emitted) && Waiting() == old(Waiting())
    {
      ghost var _ := ReportHeartbeat();
    }

    /** Commands only queue work, but for a status request. Log tailing is a component of its own. */
    method HandleCommand(command: Command)
      requires Boundary()
      modifies this`forceRecheckQ, this`recreateQ, this`backupQ, this`restoring, this`restoreQ, events, ledger
      ensures Boundary()
      ensures Waiting() == Enqueued(old(Waiting()), command)
      ensures restoring == (old(restoring) || command.RestoreDB?)
    {
      match command {
        case ForceRecheck => ForceRecheck();
        case RequestStatus => StatusNow();
        case StartLogs(_, _) =>
        case StopLogs(_) =>
        case Recreate(service) => RequestRecreate(service);
        case TakeBackup(kind) => RequestBackup(kind);
        case RestoreDB(req) => RequestRestore(req);
        case UnknownCommand =>
      }
    }

    // ------------------------------------------------------------------ backups and restores

    /** One backup on top of the base backup, outside any pass. */
    method AttemptBackup(kind: BackupKind, trigger: Trigger) returns (ok: bool)
      requires Calm() && Honest() && archiving && (trigger.Scheduled? || trigger.Manual?)
      modifies ledger
      ensures Calm() && Honest() && ledger.m == old(ledger.m) && ledger.c == old(ledger.c)
      ensures ledger.log == old(ledger.log) + [BackupTried(kind, trigger, ok)]
    {
      OpenInv();
      var err := RunBackup(dx, kind, trigger);
      ok := err.None?;
      ledger.Record(BackupTried(kind, trigger, ok));
    }

    method ScheduledBackup(kind: BackupKind) returns (ghost ok: bool)
      requires Calm() && Honest() && archiving
      modifies this`backupInfo, events, ledger
      ensures Calm() && Honest() && ledger.m == old(ledger.m)
      ensures ledger.log == old(ledger.log) + [BackupTried(kind, Scheduled, ok)]
      ensures events.emitted == old(events.emitted) + [if ok then Event(Info, Database, BackupComplete, "")
                                                       else Event(Warn, Database, BackupFailed, "")]
    {
      var done := AttemptBackup(kind, Scheduled);
      ok := done;
      events.EmitOutcome(done, Info, BackupComplete, Warn, BackupFailed);
      ghost var _ := RefreshBackupInfo();
    }

    /** Hourly while backups are on: incremental, and full every 24th time. */
    method RunScheduledBackup(tick: nat) returns (tick': nat, ghost ok: bool)
      requires Calm() && Honest()
      modifies this`backupInfo, events, ledger
      ensures Calm() && Honest() && ledger.m == old(ledger.m)
      ensures !archiving ==> tick' == tick && events.emitted == old(events.emitted) && ledger.log == old(ledger.log)
      ensures archiving ==>
        && tick' == tick + 1
        && ledger.log == old(ledger.log) + [BackupTried(if tick' % 24 == 0 then Full else Incr, Scheduled, ok)]
        && events.emitted == old(events.emitted) + [if ok then Event(Info, Database, BackupComplete, "")
                                                    else Event(Warn, Database, BackupFailed, "")]
    {
      tick', ok := tick, false;
      if archiving {
        tick' := tick + 1;
        ok := ScheduledBackup(if tick' % 24 == 0 then Full else Incr);
      }
    }

    /** Emits one event and reports at once. */
    method Announce(level: Level, reason: Reason) returns (ghost ready: bool)
      requires Calm() && Honest()
      modifies events, ledger
      ensures Calm() && Honest() && ledger.m == old(ledger.m) && ledger.c == old(ledger.c)
      ensures ledger.log == old(ledger.log) + [Reported(lastGeneration, ready)]
      ensures events.emitted == old(events.emitted) + [Event(level, Database, reason, "")]
    {
      events.Emit(level, Database, reason, "");
      ghost var said := ReportHeartbeat();
      ready := said.ready;
    }

    /** A one-off backup asked for by an operator; incremental unless they say otherwise. */
    method RunOnDemandBackup(kind: Option<BackupKind>) returns (ghost ok: bool, ghost first: bool, ghost last: bool)
      requires Calm() && Honest()
      modifies this`backupInfo, events, ledger
      ensures Calm() && Honest() && ledger.m == old(ledger.m)
      ensures ledger.log == old(ledger.log) + [Reported(lastGeneration, first)]
                + (if archiving then [BackupTried(kind.GetOr(Incr), Manual, ok), Reported(lastGeneration, last)]
                   else [])
      ensures events.emitted == old(events.emitted)
                + (if archiving then [Event(Info, Database, BackupStarted, ""),
                                      if ok then Event(Info, Database, BackupComplete, "")
                                      else Event(ErrorLevel, Database, BackupFailed, "")]
                   else [Event(Warn, Database, BackupSkipped, "")])
    {
      ok, last := false, false;
      if !archiving {
        first := Announce(Warn, BackupSkipped);
        return;
      }
      first := Announce(Info, BackupStarted);
      var done := AttemptBackup(kind.GetOr(Incr), Manual);
      ok := done;
      last := TellOutcome(done);
    }

    method TellOutcome(ok: bool) returns (ghost ready: bool)
      requires Calm() && Honest()
      modifies this`backupInfo, events, ledger
      ensures Calm() && Honest() && ledger.m == old(ledger.m)
      ensures ledger.log == old(ledger.log) + [Reported(lastGeneration, ready)]
      ensures events.emitted == old(events.emitted) + [if ok then Event(Info, Database, BackupComplete, "")
                                                       else Event(ErrorLevel, Database, BackupFailed, "")]
    {
      events.EmitOutcome(ok, Info, BackupComplete, ErrorLevel, BackupFailed);
      ghost var _ := RefreshBackupInfo();
      ghost var said := ReportHeartbeat();
      ready := said.ready;
    }

    /** Takes the database and what holds connections to it down; a removal that fails is only logged. */
    method ClearForRestore() returns (errs: seq<Option<string>>)
      requires Calm() && restoring
      modifies dx
      ensures Calm()
      ensures |errs| == |RestoreClears|
      ensures forall i :: 0 <= i < |errs| && errs[i].None? ==> RestoreClears[i] !in dx.containers
      ensures dx.nextId == old(dx.nextId)
      ensures forall n :: n !in RestoreClears ==> Get(dx.containers, n) == old(Get(dx.containers, n))
      ensures forall n :: Get(dx.containers, n) in {None, old(Get(dx.containers, n))}
    {
      errs := [];
      for i := 0 to |RestoreClears|
        invariant IdsBelow(dx.containers, dx.nextId) && dx.nextId == old(dx.nextId)
        invariant |errs| == i
        invariant forall j :: 0 <= j < i && errs[j].None? ==> Get(dx.containers, RestoreClears[j]) == None
        invariant forall n :: n !in RestoreClears ==> Get(dx.containers, n) == old(Get(dx.containers, n))
        invariant forall n :: Get(dx.containers, n) in {None, old(Get(dx.containers, n))}
      {
        var err := dx.Remove(RestoreClears[i]);
        errs := errs + [err];
      }
      assert NoAppContainers(old(dx.containers)) ==> NoAppContainers(dx.containers) by {
        forall n | n in dx.containers ensures n in old(dx.containers) {
          assert Get(dx.containers, n) in {None, old(Get(dx.containers, n))};
        }
      }
    }

    /** The offline restore in its one-off container, recorded as it is about to run. */
    method RestoreOffline(ds: DesiredState, req: RestoreReq, ghost errs: seq<Option<string>>) returns (ok: bool)
      requires Calm() && restoring && |errs| == |RestoreClears|
      requires forall i :: 0 <= i < |errs| && errs[i].None? ==> RestoreClears[i] !in dx.containers
      modifies ledger, dx
      ensures Calm() && ledger.m == old(ledger.m) && ledger.c == old(ledger.c)
      ensures OnlyAt(old(dx.containers), dx.containers, DbRestore)
      ensures ledger.log == old(ledger.log) + [RestoreRan(Removed(errs), old(dx.containers.Keys))]
    {
      NoteRestore(errs);
      ghost var w := dx.containers;
      var code, err := dx.RunToCompletion(RestoreSpec(ds.images.postgres, req));
      StillNoApps(w, dx.containers, DbRestore);
      ok := err.None? && code == 0;
    }

    ghost method NoteRestore(errs: seq<Option<string>>)
      requires Calm() && restoring && |errs| == |RestoreClears|
      requires forall i :: 0 <= i < |errs| && errs[i].None? ==> RestoreClears[i] !in dx.containers
      modifies ledger
      ensures Calm() && ledger.m == old(ledger.m) && ledger.c == old(ledger.c)
      ensures ledger.log == old(ledger.log) + [RestoreRan(Removed(errs), dx.containers.Keys)]
    {
      OpenInv();
      ledger.Record(RestoreRan(Removed(errs), dx.containers.Keys));
    }

    /** Announced, counted as a step, and reported before anything is taken down. */
    method AnnounceRestore(ds: DesiredState) returns (ghost ready: bool)
      requires Calm() && restoring && lastDesired == Some(ds)
      modifies events, ledger
      ensures Calm() && ledger.m == old(ledger.m) && ledger.c == old(ledger.c)
      ensures ledger.log == old(ledger.log) + [Reported(lastGeneration, ready)]
      ensures events.asked == old(events.asked) + [Raised(RestoringDatabase, ds.generation)]
    {
      events.Emit(Warn, Database, RestoreStarted, "");
      Progress(ds, Database, RestoringDatabase);
      ghost var said := ReportHeartbeat();
      ready := said.ready;
    }

    /**
     * The restore itself; the lock is held throughout. `errs` are the results of the three removals, and `w` the
     * containers that were there when the restore container started.
     */
    method RestoreDatabase(ds: DesiredState, req: RestoreReq)
      returns (ghost ready: bool, ghost errs: seq<Option<string>>, ghost w: World)
      requires Calm() && restoring && lastDesired == Some(ds)
      modifies events, ledger, dx
      ensures Calm() && ledger.m == old(ledger.m) && ledger.c == old(ledger.c)
      ensures |errs| == |RestoreClears| && OnlyAt(w, dx.containers, DbRestore)
      ensures forall n :: n !in RestoreClears ==> Get(w, n) == old(Get(dx.containers, n))
      ensures forall i :: 0 <= i < |errs| && errs[i].None? ==> RestoreClears[i] !in w
      ensures ledger.log == old(ledger.log) + [Reported(lastGeneration, ready), RestoreRan(Removed(errs), w.Keys)]
      ensures events.asked == old(events.asked) + [Raised(RestoringDatabase, ds.generation)]
    {
      ready := AnnounceRestore(ds);
      var results := ClearForRestore();
      errs, w := results, dx.containers;
      var ok := RestoreOffline(ds, req, results);
      events.EmitOutcome(ok, Info, RestoreComplete, ErrorLevel, RestoreFailed);
    }

    /** Skipped, with a warning, when the desired state has no backups to restore from. */
    method TryRestore(req: RestoreReq)
      requires Calm() && restoring
      modifies events, ledger, dx
      ensures Calm() && ledger.m == old(ledger.m) && ledger.c == old(ledger.c)
      ensures SameBut(old(dx.containers), dx.containers, {Postgres, CoreServer, Commerce, DbRestore})
      ensures if lastDesired.Some? && lastDesired.value.Backups()
              then events.asked == old(events.asked) + [Raised(RestoringDatabase, lastDesired.value.generation)]
              else events.asked == old(events.asked) && ledger.log == old(ledger.log)
                   && forall n :: Get(dx.containers, n) == old(Get(dx.containers, n))
    {
      if lastDesired.None? {
        return;
      }
      var ds := lastDesired.value;
      if !ds.Backups() {
        events.Emit(Warn, Database, RestoreSkipped, "");
        return;
      }
      ghost var _, _, _ := RestoreDatabase(ds, req);
    }

    method ReleaseRestore()
      requires Calm() && restoring
      modifies this`restoring, ledger
      ensures Calm() && !restoring
      ensures ledger.m == old(ledger.m).(restorePending := false) && ledger.c == old(ledger.c)
    {
      OpenInv();
      restoring := false;
      ledger.Record(RestoreFinished);
    }

    ghost method MarkRestore()
      requires Calm()
      modifies events.restore
      ensures events.pass != events.restore
      ensures Calm() && events.restore.kept == events.Story()
    {
      events.Remember(events.restore);
    }

    /** The lock is released and the stack reconciled, with nothing taken back of what was asked for. */
    method AfterRestore() returns (ghost now: nat, ghost ran: bool)
      requires Calm() && restoring && Kept() && edge.Valid()
      modifies this, store, events, events.restore, ledger, ledger.pass, events.pass, edge.pass, book, dx, edge
      ensures Calm() && Honest() && Kept() && edge.Valid()
      ensures Standing() == old(Standing()).(restoring := false)
      ensures ran == old(lastDesired.Some? && Due(backoff, nextAttempt, lastGeneration, lastReconcileErr.Some?,
                                                  lastResync, lastDesired.value.generation, now))
      ensures OnePass(ran, old(book.passes), book.passes, old(dx.containers), dx.containers)
      ensures old(events.asked) <= events.asked
    {
      ReleaseRestore();
      MarkRestore();
      now, ran := Reapply();
      events.OpenValid();
    }

    /** Whatever becomes of the restore, the lock is released and the stack reconciled. */
    method RunRestore(req: RestoreReq) returns (ghost now: nat, ghost ran: bool)
      requires Calm() && restoring && Kept() && edge.Valid()
      modifies this, store, events, events.restore, ledger, ledger.pass, events.pass, edge.pass, book, dx, edge
      ensures Calm() && Honest() && Kept() && edge.Valid()
      ensures Standing() == old(Standing()).(restoring := false)
      ensures ran == old(lastDesired.Some? && Due(backoff, nextAttempt, lastGeneration, lastReconcileErr.Some?,
                                                  lastResync, lastDesired.value.generation, now))
      ensures RestoreThenPass(ran, old(book.passes), book.passes, old(dx.containers), dx.containers)
      ensures lastDesired.Some? && lastDesired.value.Backups() ==>
                Asks(old(events.asked), events.asked, Raised(RestoringDatabase, lastDesired.value.generation))
    {
      TryRestore(req);
      now, ran := AfterRestore();
    }

    // ------------------------------------------------------------------ the queues

    method ClearWindow()
      requires Calm()
      modifies this`nextAttempt, ledger
      ensures Calm() && nextAttempt == 0 && ledger.m == old(ledger.m).(notBefore := 0) && ledger.c == old(ledger.c)
    {
      OpenInv();
      nextAttempt := 0;
      ledger.Record(WindowCleared);
    }

    /** The window is cleared; the gate still decides. */
    method RetryNow() returns (ghost now: nat, ghost ran: bool)
      requires Calm() && Kept() && edge.Valid()
      modifies this, store, events, ledger, ledger.pass, events.pass, edge.pass, book, dx, edge
      ensures Calm() && Honest() && Kept() && edge.Valid()
      ensures Standing() == old(Standing())
      ensures ran == old(PassDue(0, now))
      ensures OnePass(ran, old(book.passes), book.passes, old(dx.containers), dx.containers)
      ensures forceRecreate == if ran then {} else old(forceRecreate)
    {
      ClearWindow();
      now, ran := Reapply();
    }

    method Mark(service: Name)
      requires Calm()
      modifies this`forceRecreate, ledger
      ensures Calm() && forceRecreate == old(forceRecreate) + {service} && ledger.m == old(ledger.m)
    {
      OpenInv();
      forceRecreate := forceRecreate + {service};
      ledger.RecordTaken(service);
    }

    /** A service to be rebuilt by the next pass, which is tried at once. */
    method Rebuild(service: Name) returns (ghost now: nat, ghost ran: bool)
      requires Calm() && Kept() && edge.Valid()
      modifies this, store, events, ledger, ledger.pass, events.pass, edge.pass, book, dx, edge
      ensures Calm() && Honest() && Kept() && edge.Valid()
      ensures Standing() == old(Standing())
      ensures ran == old(PassDue(0, now))
      ensures OnePass(ran, old(book.passes), book.passes, old(dx.containers), dx.containers)
      ensures forceRecreate == if ran then {} else old(forceRecreate) + {service}
    {
      Mark(service);
      now, ran := RetryNow();
    }

    method Recheck() returns (ghost now: nat, ghost ran: bool)
      requires Calm() && Kept() && edge.Valid()
      modifies this, store, events, ledger, ledger.pass, events.pass, edge.pass, book, dx, edge
      ensures Calm() && Honest() && Kept() && edge.Valid()
      ensures Standing() == old(Standing()).(waiting := Served(old(Waiting()), RecheckReady))
      ensures ran == old(PassDue(0, now))
      ensures OnePass(ran, old(book.passes), book.passes, old(dx.containers), dx.containers)
    {
      forceRecheckQ := false;
      now, ran := RetryNow();
    }

    /** A nudge to check now: the window is cleared, the gate still decides. */
    method TakeRecheck() returns (ghost now: nat, ghost ran: bool)
      requires Boundary() && forceRecheckQ
      modifies this, store, events, ledger, ledger.pass, events.pass, edge.pass, book, dx, edge
      ensures lastDesired == old(lastDesired)
      ensures Boundary() && Waiting() == Served(old(Waiting()), RecheckReady)
      ensures ran == old(PassDue(0, now))
      ensures OnePass(ran, old(book.passes), book.passes, old(dx.containers), dx.containers)
    {
      now, ran := Recheck();
    }

    method RebuildNext() returns (ghost now: nat, ghost ran: bool)
      requires Calm() && Kept() && edge.Valid() && |recreateQ| > 0
      modifies this, store, events, ledger, ledger.pass, events.pass, edge.pass, book, dx, edge
      ensures Calm() && Honest() && Kept() && edge.Valid()
      ensures Standing() == old(Standing()).(waiting := Served(old(Waiting()), RecreateReady))
      ensures ran == old(PassDue(0, now))
      ensures OnePass(ran, old(book.passes), book.passes, old(dx.containers), dx.containers)
      ensures forceRecreate == if ran then {} else old(forceRecreate) + {old(recreateQ[0])}
    {
      var service := recreateQ[0];
      recreateQ := recreateQ[1..];
      now, ran := Rebuild(service);
    }

    /** The next service in the queue is marked, and a pass is tried at once; the gate still decides. */
    method TakeRecreate() returns (ghost now: nat, ghost ran: bool)
      requires Boundary() && |recreateQ| > 0
      modifies this, store, events, ledger, ledger.pass, events.pass, edge.pass, book, dx, edge
      ensures lastDesired == old(lastDesired)
      ensures Boundary() && Waiting() == Served(old(Waiting()), RecreateReady)
      ensures ran == old(PassDue(0, now))
      ensures OnePass(ran, old(book.passes), book.passes, old(dx.containers), dx.containers)
      ensures forceRecreate == if ran then {} else old(forceRecreate) + {old(recreateQ[0])}
    {
      now, ran := RebuildNext();
    }

    method BackupNext()
      requires Calm() && Honest() && |backupQ| > 0
      modifies this`backupQ, this`backupInfo, events, ledger
      ensures Calm() && Honest() && backupQ == old(backupQ[1..]) && ledger.m == old(ledger.m)
    {
      var kind := backupQ[0];
      backupQ := backupQ[1..];
      ghost var _, _, _ := RunOnDemandBackup(kind);
    }

    method TakeBackupRequest()
      requires Boundary() && |backupQ| > 0
      modifies this, store, events, ledger, ledger.pass, events.pass, edge.pass, book, dx, edge
      ensures lastDesired == old(lastDesired)
      ensures Boundary() && Waiting() == Served(old(Waiting()), BackupReady)
      ensures OnePass(false, old(book.passes), book.passes, old(dx.containers), dx.containers)
    {
      BackupNext();
    }

    method RestoreNext() returns (ghost now: nat, ghost ran: bool)
      requires Calm() && restoring && Kept() && edge.Valid() && |restoreQ| == 1
      modifies this, store, events, events.restore, ledger, ledger.pass, events.pass, edge.pass, book, dx, edge
      ensures Calm() && Honest() && Kept() && edge.Valid()
      ensures Standing() == old(Standing()).(restoring := false, waiting := Served(old(Waiting()), RestoreReady))
      ensures ran == old(lastDesired.Some? && Due(backoff, nextAttempt, lastGeneration, lastReconcileErr.Some?,
                                                  lastResync, lastDesired.value.generation, now))
      ensures RestoreThenPass(ran, old(book.passes), book.passes, old(dx.containers), dx.containers)
      ensures lastDesired.Some? && lastDesired.value.Backups() ==>
                Asks(old(events.asked), events.asked, Raised(RestoringDatabase, lastDesired.value.generation))
    {
      var req := restoreQ[0];
      restoreQ := restoreQ[1..];
      now, ran := RunRestore(req);
    }

    /** The queued restore is run, the lock released, and a pass follows when one is due. */
    method TakeRestore() returns (ghost now: nat, ghost ran: bool)
      requires Boundary() && |restoreQ| > 0
      modifies this, store, events, events.restore, ledger, ledger.pass, events.pass, edge.pass, book, dx, edge
      ensures Boundary() && !restoring && Waiting() == Served(old(Waiting()), RestoreReady)
      ensures ran == old(lastDesired.Some? && Due(backoff, nextAttempt, lastGeneration, lastReconcileErr.Some?,
                                                  lastResync, lastDesired.value.generation, now))
      ensures RestoreThenPass(ran, old(book.passes), book.passes, old(dx.containers), dx.containers)
      ensures lastDesired == old(lastDesired)
      ensures lastDesired.Some? && lastDesired.value.Backups() ==>
                Asks(old(events.asked), events.asked, Raised(RestoringDatabase, lastDesired.value.generation))
    {
      now, ran := RestoreNext();
    }

    method TakePush(signed: SignedDesiredState) returns (ghost said: Option<Said>)
      requires Boundary()
      modifies this, store, events, ledger, ledger.pass, events.pass, edge.pass, book, dx, edge
      ensures Boundary() && Waiting() == old(Waiting())
      ensures Heard(signed, old(lastDesired), old(Blocks()), said)
      ensures Accounted(Frame(DesiredStatePush(signed)), old(book.passes), book.passes, old(dx.containers),
                        dx.containers)
    {
      ghost var now, ran;
      now, ran, said := ApplySigned(signed);
    }

    method HandleServerEvent(event: ServerEvent) returns (ghost said: Option<Said>)
      requires Boundary()
      modifies this, store, events, ledger, ledger.pass, events.pass, edge.pass, book, dx, edge
      ensures Boundary()
      ensures Waiting() == if event.CommandFrame? then Enqueued(old(Waiting()), event.command) else old(Waiting())
      ensures if event.DesiredStatePush? then Heard(event.signed, old(lastDesired), old(Blocks()), said)
              else lastDesired == old(lastDesired)
      ensures Accounted(Frame(event), old(book.passes), book.passes, old(dx.containers), dx.containers)
    {
      said := None;
      match event {
        case DesiredStatePush(signed) => said := TakePush(signed);
        case CommandFrame(command) => HandleCommand(command);
        case KeepAlive =>
      }
    }

    method Resync() returns (ghost now: nat, ghost ran: bool)
      requires Boundary()
      modifies this, store, events, ledger, ledger.pass, events.pass, edge.pass, book, dx, edge
      ensures lastDesired == old(lastDesired)
      ensures Boundary() && Waiting() == old(Waiting())
      ensures ran == old(PassDue(nextAttempt, now))
      ensures OnePass(ran, old(book.passes), book.passes, old(dx.containers), dx.containers)
    {
      now, ran := Reapply();
    }

    method BackupHour(tick: nat) returns (tick': nat)
      requires Boundary()
      modifies this, store, events, ledger, ledger.pass, events.pass, edge.pass, book, dx, edge
      ensures lastDesired == old(lastDesired)
      ensures Boundary() && tick' == (if old(archiving) then tick + 1 else tick) && Waiting() == old(Waiting())
      ensures OnePass(false, old(book.passes), book.passes, old(dx.containers), dx.containers)
    {
      ghost var ok;
      tick', ok := RunScheduledBackup(tick);
    }

    method TakeTick(input: Input, tick: nat) returns (tick': nat)
      requires Boundary() && (input.HeartbeatTick? || input.ResyncTick? || input.FastTick? || input.BackupTick?)
      modifies this, store, events, ledger, ledger.pass, events.pass, edge.pass, book, dx, edge
      ensures Boundary()
      ensures Accounted(input, old(book.passes), book.passes, old(dx.containers), dx.containers)
      ensures Waiting() == old(Waiting()) && lastDesired == old(lastDesired)
      ensures input.FastTick? && !old(blocked) ==>
                tick' == tick && unchanged(this, store, events, ledger, book, dx, edge)
    {
      tick' := tick;
      match input {
        case HeartbeatTick => StatusNow();
        case ResyncTick => var _, _ := Resync();
        case FastTick => if blocked { var _, _ := Resync(); }
        case BackupTick => tick' := BackupHour(tick);
      }
    }

    method TakeQueued(input: Input)
      requires Boundary() && (input.RecheckReady? || input.RecreateReady? || input.BackupReady? || input.RestoreReady?)
      requires Ready(Waiting(), blocked, input)
      modifies this, store, events, events.restore, ledger, ledger.pass, events.pass, edge.pass, book, dx, edge
      ensures Boundary()
      ensures Accounted(input, old(book.passes), book.passes, old(dx.containers), dx.containers)
      ensures Waiting() == Served(old(Waiting()), input) && lastDesired == old(lastDesired)
      ensures input.RestoreReady? && old(restoring) && lastDesired.Some? && lastDesired.value.Backups() ==>
                Asks(old(events.asked), events.asked, Raised(RestoringDatabase, lastDesired.value.generation))
    {
      match input {
        case RecheckReady => var _, _ := TakeRecheck();
        case RecreateReady => var _, _ := TakeRecreate();
        case BackupReady => TakeBackupRequest();
        case RestoreReady => var _, _ := TakeRestore();
      }
    }

    /** What one input does. An input that is not ready does nothing. */
    method TakeInput(input: Input, tick: nat) returns (tick': nat, ghost said: Option<Said>)
      requires Boundary()
      modifies this, store, events, events.restore, ledger, ledger.pass, events.pass, edge.pass, book, dx, edge
      ensures Boundary()
      ensures Accounted(input, old(book.passes), book.passes, old(dx.containers), dx.containers)
      ensures Waiting() == Served(old(Waiting()), input)
      ensures !old(Ready(Waiting(), blocked, input)) ==>
                tick' == tick && unchanged(this, store, events, ledger, book, dx, edge)
      ensures input.Frame? && input.event.DesiredStatePush? ==>
                Heard(input.event.signed, old(lastDesired), old(Blocks()), said)
      ensures !(input.Frame? && input.event.DesiredStatePush?) ==> lastDesired == old(lastDesired)
      ensures input.RestoreReady? && old(restoring) && lastDesired.Some? && lastDesired.value.Backups() ==>
                Asks(old(events.asked), events.asked, Raised(RestoringDatabase, lastDesired.value.generation))
    {
      tick', said := tick, None;
      NothingIsAccounted(input, book.passes, dx.containers);
      if input.Frame? {
        said := HandleServerEvent(input.event);
      } else if input.HeartbeatTick? || input.ResyncTick? || input.FastTick? || input.BackupTick? {
        tick' := TakeTick(input, tick);
      } else if Ready(Waiting(), blocked, input) {
        TakeQueued(input);
      }
    }

    ghost method MarkTurn()
      requires Boundary()
      modifies ledger.turn, events.turn, edge.turn, book.turn
      ensures ledger.turn != ledger.pass && events.turn != events.pass && events.turn != events.restore
      ensures edge.turn != edge.pass && edge.turn.kept == edge.calls
      ensures Boundary() && ledger.turn.kept == ledger.log && events.turn.kept == events.Story()
      ensures book.turn.kept == book.passes
    {
      MarkLog();
      events.Remember(events.turn);
      book.Remember();
    }

    ghost method MarkLog()
      requires Inv() && edge.Valid()
      modifies ledger.turn, edge.turn
      ensures Inv() && ledger.turn.kept == ledger.log && ledger.turn != ledger.pass
      ensures edge.Valid() && edge.turn.kept == edge.calls && edge.turn != edge.pass
    {
      OpenInv();
      ledger.Remember(ledger.turn);
      edge.Remember(edge.turn);
    }

    lemma TurnGoesOn()
      requires Boundary()
      ensures ledger.turn.kept <= ledger.log && Prolongs(events.turn.kept, events.Story())
      ensures book.turn.kept <= book.passes
      ensures edge.turn.kept <= edge.calls
    {
      OpenInv();
      ledger.GoesOn();
      events.OpenValid();
      edge.OpenValid();
      book.OpenValid();
    }

    /** One turn of the loop on an open stream. Nothing of the run so far is taken back. */
    method Serve(input: Input, tick: nat) returns (tick': nat, ghost said: Option<Said>)
      requires Boundary()
      modifies this, store, events, events.restore, ledger, ledger.pass, events.pass, edge.pass, book, dx, edge,
               ledger.turn, events.turn, edge.turn, book.turn
      ensures Boundary()
      ensures Accounted(input, old(book.passes), book.passes, old(dx.containers), dx.containers)
      ensures old(ledger.log) <= ledger.log && Prolongs(old(events.Story()), events.Story())
      ensures old(book.passes) <= book.passes && old(edge.calls) <= edge.calls
      ensures Waiting() == Served(old(Waiting()), input)
      ensures !old(Ready(Waiting(), blocked, input)) ==>
                tick' == tick && unchanged(this, store, events, ledger, book, dx, edge)
      ensures input.Frame? && input.event.DesiredStatePush? ==>
                Heard(input.event.signed, old(lastDesired), old(Blocks()), said)
      ensures !(input.Frame? && input.event.DesiredStatePush?) ==> lastDesired == old(lastDesired)
      ensures input.RestoreReady? && old(restoring) && lastDesired.Some? && lastDesired.value.Backups() ==>
                Asks(old(events.asked), events.asked, Raised(RestoringDatabase, lastDesired.value.generation))
    {
      MarkTurn();
      tick', said := TakeInput(input, tick);
      TurnGoesOn();
    }

    method Disturb(change: Change)
      requires Boundary()
      modifies dx`containers, dx`nextId
      ensures Boundary()
      ensures dx.containers == Disturbed(old(dx.containers), old(dx.nextId), change)
    {
      DisturbedStill(dx.containers, dx.nextId, change);
      dx.containers := Disturbed(dx.containers, dx.nextId, change);
      dx.nextId := dx.nextId + 1;
    }

    /** Whatever others do, they create no container under an app's name and never delete the acme-dns account. */
    method Suffer(change: Change)
      requires Boundary()
      modifies this`clock, store`folders, dx`containers, dx`nextId, edge`disk
      ensures Boundary()
      ensures Explained(Outside(change), book.passes, book.passes, old(dx.containers), dx.containers)
    {
      match change {
        case TimePasses(seconds) => PassTime(seconds);
        case SecretsChanged(folders) => store.folders := folders;
        case CertificateLost(base) => edge.disk := Disk(edge.disk.chains - {base}, edge.disk.keys - {base});
        case _ => Disturb(change);
      }
      assert dx.containers == Disturbed(old(dx.containers), old(dx.nextId), change);
    }

    method PassTime(seconds: nat)
      requires Boundary()
      modifies this`clock
      ensures Boundary()
    {
      OpenInv();
      clock := clock + seconds;
    }

    /** The subscription opens, fails to open, or drops; each failure in a row doubles the wait up to a cap. */
    method Relink(input: Input, connected: bool, reconnect: nat, ghost misses: nat)
      returns (connected': bool, reconnect': nat)
      requires reconnect == Window(ReconnectBase, ReconnectCap, misses)
      ensures var next := NextLink(Link(connected, misses), input);
              connected' == next.connected && reconnect' == Window(ReconnectBase, ReconnectCap, next.misses)
    {
      connected', reconnect' := connected, reconnect;
      match input {
        case SubscribeOpened =>
          if !connected {
            connected', reconnect' := true, 0;
          }
        case SubscribeFailed =>
          if !connected {
            reconnect' := Grow(reconnect, ReconnectBase, ReconnectCap, misses);
          }
        case StreamDropped =>
          if connected {
            connected' := false;
            reconnect' := Grow(reconnect, ReconnectBase, ReconnectCap, misses);
          }
        case _ =>
      }
    }

    /** One input: others act at any time, the agent only on an open stream. */
    method Turn(input: Input, connected: bool, tick: nat) returns (tick': nat)
      requires Boundary()
      modifies this, store, events, events.restore, ledger, ledger.pass, events.pass, edge.pass, book, dx, edge,
               ledger.turn, events.turn, edge.turn, book.turn
      ensures Boundary()
      ensures Explained(input, old(book.passes), book.passes, old(dx.containers), dx.containers)
      ensures old(ledger.log) <= ledger.log && Prolongs(old(events.Story()), events.Story())
      ensures old(book.passes) <= book.passes && old(edge.calls) <= edge.calls
    {
      tick' := tick;
      if input.Outside? {
        Suffer(input.change);
      } else if connected {
        ghost var said;
        tick', said := Serve(input, tick);
      }
    }

    /** One input of a script, and the moment after it. */
    method Advance(script: seq<Input>, i: nat, connected: bool, tick: nat, ghost trace: seq<Moment>)
      returns (tick': nat, ghost trace': seq<Moment>)
      requires Boundary() && i < |script| && Accounts(script[..i], trace, book.passes)
      requires trace[i].world == dx.containers
      modifies this, store, events, events.restore, ledger, ledger.pass, events.pass, edge.pass, book, dx, edge,
               ledger.turn, events.turn, edge.turn, book.turn
      ensures Boundary() && Accounts(script[..i + 1], trace', book.passes)
      ensures trace'[0] == trace[0] && trace'[i + 1].world == dx.containers
      ensures old(ledger.log) <= ledger.log && Prolongs(old(events.Story()), events.Story())
      ensures old(book.passes) <= book.passes && old(edge.calls) <= edge.calls
    {
      tick' := Turn(script[i], connected, tick);
      AccountsGoOn(script, i, trace, old(book.passes), book.passes, dx.containers);
      trace' := trace + [Moment(dx.containers, |book.passes|)];
    }

    /**
     * The loop. It takes one input at a time, in any order; the stream is reopened with backoff when it drops.
     * Every invariant of the boundary holds after every input of every script, and nothing is taken back of the
     * log, the passes and the events.
     */
    method Run(script: seq<Input>) returns (reconnect: nat, ghost link: Link, ghost trace: seq<Moment>)
      requires Boundary()
      modifies this, store, events, events.restore, ledger, ledger.pass, events.pass, edge.pass, book, dx, edge,
               ledger.turn, events.turn, edge.turn, book.turn
      ensures old(ledger.log) <= ledger.log && Prolongs(old(events.Story()), events.Story())
      ensures old(book.passes) <= book.passes && old(edge.calls) <= edge.calls
      ensures Boundary() && Accounts(script, trace, book.passes)
      ensures trace[0] == Moment(old(dx.containers), |old(book.passes)|) && trace[|script|].world == dx.containers
      ensures link == LinkAfter(script) && reconnect == Window(ReconnectBase, ReconnectCap, link.misses)
    {
      var connected, tick: nat := false, 0;
      reconnect, link := 0, Link(false, 0);
      trace := [Moment(dx.containers, |book.passes|)];
      for i := 0 to |script|
        invariant old(ledger.log) <= ledger.log && Prolongs(old(events.Story()), events.Story())
        invariant old(book.passes) <= book.passes && old(edge.calls) <= edge.calls
        invariant Boundary() && Accounts(script[..i], trace, book.passes)
        invariant trace[0] == Moment(old(dx.containers), |old(book.passes)|) && trace[i].world == dx.containers
        invariant link == LinkAfter(script[..i]) && link.connected == connected
        invariant reconnect == Window(ReconnectBase, ReconnectCap, link.misses)
      {
        assert script[..i + 1][..i] == script[..i];
        tick, trace := Advance(script, i, connected, tick, trace);
        connected, reconnect := Relink(script[i], connected, reconnect, link.misses);
        link := NextLink(link, script[i]);
      }
      assert script[..|script|] == script;
    }
  }
}
