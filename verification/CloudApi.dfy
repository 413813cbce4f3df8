/** The wire contract with cloud (internal/cloudapi/types.go, client.go), reduced to what the agent decides on. */
module CloudApi {
  import opened Wrappers

  /** Container names. The fixed service names double as container names; `Other` is any other name. */
  datatype Name =
    | Postgres | Redis | Nats | CoreServer | Commerce | Gitea | Nginx | AcmeDns
    | CoreMigrate | CommerceMigrate | DbRestore | DbInfo
    | Other(text: string)

  datatype DBMode = ModeManaged | ModeExternal | ModeOther(text: string)
  datatype EdgeMode = EdgeManaged | EdgeExternal | EdgeOther(text: string)
  datatype DatabaseBackup = DatabaseBackup(retention: int)
  datatype DatabaseComponent = DatabaseComponent(mode: DBMode, backup: Option<DatabaseBackup>)
  datatype EdgeComponent = EdgeComponent(mode: EdgeMode, acmeEmail: string)
  datatype GiteaComponent = GiteaComponent(enabled: bool)
  datatype SecretProvider = SecretProvider(kind: string, authMethod: string)
  datatype Components = Components(
    database: Option<DatabaseComponent>,
    edge: Option<EdgeComponent>,
    gitea: Option<GiteaComponent>,
    secretStore: Option<SecretProvider>)

  datatype Images = Images(
    coreServer: string, commerceService: string, postgres: string, redis: string,
    nats: string, gitea: string, nginx: string)

  /** The connection an operator seals for an external database, as its JSON decodes. */
  datatype ExternalDB = ExternalDB(
    host: string, port: string, database: string, ownerUser: string, ownerPassword: string,
    appUser: string, appPassword: string, giteaUser: string, giteaPassword: string, sslMode: string)

  /** A sealed secret: what it opens to and, when that is well-formed JSON, the connection it holds. */
  datatype SealedSecret = SealedSecret(plain: string, connection: Option<ExternalDB>)
  datatype SecretName = ExternalDbSecret | SecretStoreAuth(suffix: string) | OtherSecret(text: string)

  datatype DesiredState = DesiredState(
    generation: int,
    deploymentId: string,
    baseDomain: string,
    components: Components,
    acmeStaging: bool,
    images: Images,
    sealedSecrets: map<SecretName, SealedSecret>,
    stopped: bool)
  {
    predicate DbExternal() {
      components.database.Some? && components.database.value.mode.ModeExternal?
    }

    predicate DbManaged() {
      !DbExternal()
    }

    predicate Backups() {
      DbManaged() && components.database.Some? && components.database.value.backup.Some?
    }

    predicate GiteaOn() {
      components.gitea.Some? && components.gitea.value.enabled
    }

    predicate ManagedEdge() {
      components.edge.Some? && components.edge.value.mode.EdgeManaged? && baseDomain != ""
    }
  }

  /**
   * Signatures are ideal: one is valid under a key for exactly the bytes it was made over, and the
   * payload acted on is the decoding of those bytes.
   */
  datatype Payload = Payload(bytes: string, decoded: Option<DesiredState>)
  datatype Signature = Signature(key: string, over: Payload)
  datatype SignedDesiredState = SignedDesiredState(payload: Payload, signature: Signature)

  predicate VerifyDeployment(key: string, signed: SignedDesiredState) {
    signed.signature == Signature(key, signed.payload)
  }

  datatype BackupKind = Full | Diff | Incr | OtherKind(text: string)
  datatype RestoreReq = RestoreReq(targetTime: string, setLabel: string)

  datatype Command =
    | ForceRecheck
    | RequestStatus
    | StartLogs(target: Name, tailLines: int)
    | StopLogs(target: Name)
    | Recreate(service: Option<Name>)
    | TakeBackup(kind: Option<BackupKind>)
    | RestoreDB(req: RestoreReq)
    | UnknownCommand

  /** One decoded frame of the Subscribe stream. */
  datatype ServerEvent =
    | DesiredStatePush(signed: SignedDesiredState)
    | CommandFrame(command: Command)
    | KeepAlive

  datatype Level = Info | Warn | ErrorLevel
  datatype Component = NoComponent | Core | Database | Edge | GiteaAddOn | SecretStore

  datatype Reason =
    // progress steps, emitted once per generation
    | StoppingDeployment | DeploymentStopped | StartingDeployment | FinalBackup | IssuingWildcard
    | ProvisioningDatabase | EnablingBackups | RunningMigrations | ProvisioningGitea | StartingServices
    | ReconcileComplete | RestoringDatabase
    // transitions
    | FinalBackupFailed | FinalBackupComplete | WildcardIssued | GiteaProvisioned | BackupComplete
    | BackupFailed | BackupSkipped | BackupStarted | RestoreSkipped | RestoreStarted | RestoreFailed
    | RestoreComplete
    // condition and block reasons
    | ReconcileError | AwaitingSecretStore | AwaitingDnsDelegation | RateLimited | ServiceUnhealthy
    | Reconciling | Provisioning | InSync

  datatype Event = Event(level: Level, component: Component, reason: Reason, detail: string)

  datatype Health = NoHealthcheck | Starting | Healthy | Unhealthy
  datatype RunState = Created | Running | Restarting | Exited | Dead | Paused
  datatype ServiceStatus = ServiceStatus(name: Name, service: Name, state: RunState, health: Health)

  datatype ConditionType = ReadyCond | ReconcilingCond | BlockedCond | DegradedCond
  datatype Condition = Condition(
    kind: ConditionType, status: bool, reason: Reason, component: Component, about: seq<Name>, detail: string)

  /** The one-time DNS records an operator must add; the record names derive from the base domain. */
  datatype Delegation = Delegation(base: string, target: string, serverIP: string)
  datatype CertReport = CertReport(host: string, notAfter: int)

  /** Pushing a status report either reaches cloud or it does not. */
  method ReportStatus(generation: int, conditions: seq<Condition>, services: seq<ServiceStatus>, events: seq<Event>)
    returns (ok: bool)
  {
    ok := *;
  }
}
