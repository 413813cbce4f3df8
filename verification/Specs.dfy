/** The container specs of a deployment (internal/deploy/specs.go, deploy.go, secrets.go). */
module Specs {
  import opened Guards
  import opened Wrappers
  import opened CloudApi
  import opened Dockerx
  import opened Env
  import opened Drift
  import Text

  /** Secret-store folders the agent reads. */
  datatype Folder = CoreFolder | CommerceFolder | AgentRedis | AgentGitea | AgentPostgres | AgentBackup

  type Vault = map<Folder, Secrets>

  function Read(vault: Vault, folder: Folder): Secrets {
    if folder in vault then vault[folder] else map[]
  }

  function Value(env: Secrets, key: string): string {
    if key in env then env[key] else ""
  }

  predicate Blank(s: string) {
    Text.TrimSpace(s) == ""
  }

  /** Names every required key that is absent or blank; nothing missing means no error. */
  method RequireSecrets(env: Secrets, keys: seq<string>) returns (missing: seq<string>)
    ensures forall k :: k in missing <==> k in keys && Blank(Value(env, k))
  {
    missing := [];
    for i := 0 to |keys|
      invariant forall k :: k in missing <==> k in keys[..i] && Blank(Value(env, k))
    {
      assert keys[..i + 1] == keys[..i] + [keys[i]];
      if Blank(Value(env, keys[i])) {
        missing := missing + [keys[i]];
      }
    }
    assert keys[..|keys|] == keys;
  }

  const REDIS_PASSWORD := "REDIS_PASSWORD"
  const DB_NAME := "DB_NAME"
  const DB_OWNER_PASSWORD := "DB_OWNER_PASSWORD"
  const DB_APP_PASSWORD := "DB_APP_PASSWORD"
  const DB_GITEA_PASSWORD := "DB_GITEA_PASSWORD"
  const GITEA_ADMIN_USER := "GITEA_ADMIN_USER"
  const GITEA_ADMIN_PASSWORD := "GITEA_ADMIN_PASSWORD"
  const GITEA_BUCKET := "GITEA__storage__MINIO_BUCKET"
  const GITEA_ENDPOINT := "GITEA__storage__MINIO_ENDPOINT"
  const GITEA_ACCESS_KEY := "GITEA__storage__MINIO_ACCESS_KEY_ID"
  const GITEA_SECRET_KEY := "GITEA__storage__MINIO_SECRET_ACCESS_KEY"
  const GITEA_URL := "http://gitea:3000"

  function ManagedDBConn(pg: Secrets, gitea: Secrets): DBConn {
    DBConn("postgres", "5432", Value(pg, DB_NAME), "vritti_core_app", Value(pg, DB_APP_PASSWORD),
           "vritti_core_owner", Value(pg, DB_OWNER_PASSWORD), "gitea", Value(gitea, DB_GITEA_PASSWORD), "disable")
  }

  function ExternalDBConn(e: ExternalDB): DBConn {
    DBConn(e.host, if e.port == "" then "5432" else e.port, e.database, e.appUser, e.appPassword,
           e.ownerUser, e.ownerPassword, if e.giteaUser == "" then "gitea" else e.giteaUser,
           e.giteaPassword, if e.sslMode == "" then "require" else e.sslMode)
  }

  /** The mode branch. An external database whose sealed connection is absent or malformed is an error. */
  function ResolveDBConn(ds: DesiredState, vault: Vault): Option<DBConn> {
    if ds.DbExternal() then
      if ExternalDbSecret in ds.sealedSecrets && ds.sealedSecrets[ExternalDbSecret].connection.Some?
      then Some(ExternalDBConn(ds.sealedSecrets[ExternalDbSecret].connection.value))
      else None
    else Some(ManagedDBConn(Read(vault, AgentPostgres), Read(vault, AgentGitea)))
  }

  function PostgresSpec(ds: DesiredState, conn: DBConn, archiving: bool): RunSpec {
    RunSpec(Postgres, Postgres, ds.images.postgres,
            PostgresEnv(conn.ownerUser, conn.ownerPassword, conn.database),
            if archiving then ArchivingPostgres else ImageDefault,
            [Bind(PgData, false)] + (if archiving then [Bind(PgConf, true), Bind(PgRepo, false)] else []),
            [], [5432], true, 512, PgReady(conn.ownerUser, conn.database), NoDigest)
  }

  function RedisSpec(ds: DesiredState, password: string): RunSpec {
    RunSpec(Redis, Redis, ds.images.redis, NoEnv, RedisServer(password), [], [], [6379], true, 160,
            RedisPing(password), NoDigest)
  }

  function NatsSpec(ds: DesiredState): RunSpec {
    RunSpec(Nats, Nats, ds.images.nats, NoEnv, ImageDefault, [], [], [4222], true, 96, NoHealthSpec, NoDigest)
  }

  function CommerceServiceSpec(ds: DesiredState, env: seq<string>): RunSpec {
    RunSpec(Commerce, Commerce, ds.images.commerceService, EnvLines(env), ImageDefault, [], [], [], true, 256,
            NoHealthSpec, NoDigest)
  }

  function CoreServerOn(ds: DesiredState, env: seq<string>, port: nat): RunSpec {
    RunSpec(CoreServer, CoreServer, ds.images.coreServer, EnvLines(env), ImageDefault, [Bind(CoreLogs, false)],
            [], [port], true, 384, HttpHealth(port), NoDigest)
  }

  ghost function CoreServerSpecOf(ds: DesiredState, env: seq<string>): RunSpec {
    CoreServerOn(ds, env, PortOf(env))
  }

  method CoreServerSpec(ds: DesiredState, env: seq<string>) returns (spec: RunSpec)
    ensures spec == CoreServerSpecOf(ds, env)
  {
    var port := EnvPort(env, DefaultCorePort);
    PortIsDetermined(env, DefaultCorePort, port, PortOf(env));
    spec := CoreServerOn(ds, env, port);
  }

  function MigrateSpec(name: Name, image: string, env: seq<string>): RunSpec {
    RunSpec(name, name, image, EnvLines(env), MigrateCommand, [], [], [], false, 0, NoHealthSpec, NoDigest)
  }

  function RestoreSpec(image: string, req: RestoreReq): RunSpec {
    RunSpec(DbRestore, DbRestore, image, NoEnv, RestoreCommand(req),
            [Bind(PgData, false), Bind(PgConf, true), Bind(PgRepo, false)], [], [], false, 0, NoHealthSpec, NoDigest)
  }

  function InfoSpec(image: string): RunSpec {
    RunSpec(DbInfo, DbInfo, image, NoEnv, InfoCommand, [Bind(PgConf, true), Bind(PgRepo, true)], [], [], false, 0,
            NoHealthSpec, NoDigest)
  }

  function UpToSlash(s: string): string {
    if s == "" || s[0] == '/' then "" else [s[0]] + UpToSlash(s[1..])
  }

  function TrimPrefix(s: string, prefix: string): string {
    if prefix <= s then s[|prefix|..] else s
  }

  /** A bare host, whatever scheme and path an operator pasted in. */
  function BareHost(endpoint: string): string {
    UpToSlash(TrimPrefix(TrimPrefix(Text.TrimSpace(endpoint), "https://"), "http://"))
  }

  function GiteaStorageEnv(env: Secrets): Option<GiteaStorage> {
    var bucket, endpoint := Value(env, GITEA_BUCKET), Value(env, GITEA_ENDPOINT);
    var accessKey, secretKey := Value(env, GITEA_ACCESS_KEY), Value(env, GITEA_SECRET_KEY);
    if bucket == "" || endpoint == "" || accessKey == "" || secretKey == "" then None
    else Some(GiteaStorage(BareHost(endpoint), bucket, accessKey, secretKey))
  }

  function GiteaSpec(ds: DesiredState, conn: DBConn, storage: Option<GiteaStorage>): RunSpec {
    RunSpec(Gitea, Gitea, ds.images.gitea, GiteaEnv(ds.baseDomain, conn, storage), ImageDefault,
            [Bind(GiteaData, false)], [2222], [3000], true, 256, FixedCheck, NoDigest)
  }

  function NginxSpec(ds: DesiredState): RunSpec {
    RunSpec(Nginx, Nginx, ds.images.nginx, NoEnv, ImageDefault,
            [Bind(NginxConf, true), Bind(LetsEncrypt, true), Bind(AcmeWebroot, true), Bind(WebRoot, true),
             Bind(NginxLogs, false)],
            [80, 443], [], true, 96, FixedCheck, NoDigest)
  }

  function AcmeDnsSpec(): RunSpec {
    RunSpec(AcmeDns, AcmeDns, "joohoi/acme-dns:v1.0", NoEnv, ImageDefault,
            [Bind(AcmeConfig, true), Bind(AcmeData, false)], [53], [8080], true, 64, NoHealthSpec, NoDigest)
  }

  /** The containers a non-stopped desired state asks for. */
  function Topology(ds: DesiredState): set<Name> {
    {Redis, Nats, Commerce, CoreServer}
    + (if ds.DbManaged() then {Postgres} else {})
    + (if ds.GiteaOn() then {Gitea} else {})
    + (if ds.ManagedEdge() then {Nginx, AcmeDns} else {})
  }

  /** The environment map of core-server: the Gitea additions only when the add-on is on. */
  function CoreServerMap(ds: DesiredState, vault: Vault, token: string): Secrets {
    CoreOverrides(Read(vault, CoreFolder), ds.baseDomain, if ds.GiteaOn() then GITEA_URL else "",
                  if ds.GiteaOn() then token else "")
  }

  /** The spec wanted for a name: a function of the desired state, the secrets and Gitea's admin token only. */
  ghost function SpecOf(n: Name, ds: DesiredState, vault: Vault, conn: DBConn, token: string): RunSpec {
    match n
    case Postgres => PostgresSpec(ds, conn, ds.Backups())
    case Redis => RedisSpec(ds, Value(Read(vault, AgentRedis), REDIS_PASSWORD))
    case Nats => NatsSpec(ds)
    case CoreServer => CoreServerSpecOf(ds, Canonical(CoreServerMap(ds, vault, token)))
    case Commerce => CommerceServiceSpec(ds, Canonical(Read(vault, CommerceFolder)))
    case Gitea => GiteaSpec(ds, conn, GiteaStorageEnv(Read(vault, AgentGitea)))
    case Nginx => NginxSpec(ds)
    case _ => AcmeDnsSpec()
  }

  ghost predicate IsWanted(n: Name, spec: RunSpec, ds: DesiredState, vault: Vault, token: Option<string>) {
    && n in Topology(ds)
    && ResolveDBConn(ds, vault).Some?
    && (n == CoreServer && ds.GiteaOn() ==> token.Some?)
    && spec == SpecOf(n, ds, vault, ResolveDBConn(ds, vault).value, token.GetOr(""))
  }

  /** What the desired state, the secrets and Gitea's admin token ask to run under a name of the topology. */
  ghost predicate Wanted(n: Name, spec: RunSpec, ds: DesiredState, vault: Vault, token: Option<string>) {
    forall k {:trigger PlanGuard(k)} :: PlanGuard(k) ==> IsWanted(n, spec, ds, vault, token)
  }

  ghost predicate AllWanted(plan: Plan, ds: DesiredState, vault: Vault, token: Option<string>) {
    forall n :: n in plan ==> Wanted(n, plan[n], ds, vault, token)
  }

  /** `plan` holds, for some names of the topology, exactly the wanted specs. */
  ghost predicate PlanFor(plan: Plan, ds: DesiredState, vault: Vault, token: Option<string>) {
    forall k {:trigger PlanGuard(k)} :: PlanGuard(k) ==> AllWanted(plan, ds, vault, token)
  }

  lemma OpenPlan(plan: Plan, ds: DesiredState, vault: Vault, token: Option<string>)
    requires PlanFor(plan, ds, vault, token)
    ensures AllWanted(plan, ds, vault, token)
  {
    assert PlanGuard(0);
  }

  /** Two passes over the same desired state, secrets and token want the same plan. */
  lemma SamePlan(p: Plan, q: Plan, ds: DesiredState, vault: Vault, token: Option<string>)
    requires PlanFor(p, ds, vault, token) && PlanFor(q, ds, vault, token)
    requires p.Keys == Topology(ds) == q.Keys
    ensures p == q
  {
    OpenPlan(p, ds, vault, token);
    OpenPlan(q, ds, vault, token);
    assert PlanGuard(0);
  }

  /** Switching the backup add-on on or off, and nothing else, is drift: Postgres is recreated. */
  lemma ArchivingIsDrift(ds: DesiredState, conn: DBConn)
    ensures SpecHash(PostgresSpec(ds, conn, true)) != SpecHash(PostgresSpec(ds, conn, false))
  {
    assert PostgresSpec(ds, conn, true).cmd != PostgresSpec(ds, conn, false).cmd;
  }

  // --- Edge routing (DerivedRoutes in internal/deploy/nginx.go) ---

  datatype Host = ApiHost(base: string) | GitHost(base: string)
  datatype DomainRoute = DomainRoute(host: Host, service: Name, port: nat)

  function DerivedRoutes(baseDomain: string, corePort: nat, gitea: bool): seq<DomainRoute> {
    if baseDomain == "" then []
    else [DomainRoute(ApiHost(baseDomain), CoreServer, corePort)]
         + (if gitea then [DomainRoute(GitHost(baseDomain), Gitea, 3000)] else [])
  }

  /**
   * The routes nginx proxies, the port core-server exposes and the port its health check asks are computed
   * in three places from the same environment; they agree, and every route leads to a container of the
   * topology on a port that container exposes.
   */
  lemma RoutesReachTheStack(ds: DesiredState, env: seq<string>, conn: DBConn, storage: Option<GiteaStorage>, port: nat)
    requires ds.ManagedEdge()
    requires IsPortOf(env, DefaultCorePort, port)
    ensures var core := CoreServerSpecOf(ds, env);
            forall r :: r in DerivedRoutes(ds.baseDomain, port, ds.GiteaOn()) ==>
              && r.service in Topology(ds)
              && (r.service == CoreServer ==> core.exposed == [r.port] && core.health == HttpHealth(r.port))
              && (r.service != CoreServer ==> r.port in GiteaSpec(ds, conn, storage).exposed)
  {
    PortIsDetermined(env, DefaultCorePort, port, PortOf(env));
  }

  /** With no `=` in a key, all of them use the port configured in the secret store. */
  lemma CorePortIsConfigured(ds: DesiredState, vault: Vault, token: string)
    requires forall k :: k in CoreServerMap(ds, vault, token) ==> '=' !in k
    ensures CoreServerSpecOf(ds, Canonical(CoreServerMap(ds, vault, token))).exposed
         == [ConfiguredPort(Read(vault, CoreFolder))]
  {
    var m := CoreServerMap(ds, vault, token);
    PortSurvivesRendering(m, PortOf(Canonical(m)));
    OverridesSparePort(Read(vault, CoreFolder), ds.baseDomain,
                       if ds.GiteaOn() then GITEA_URL else "", if ds.GiteaOn() then token else "");
  }

  lemma OverridesSparePort(m: Secrets, baseDomain: string, url: string, token: string)
    ensures ConfiguredPort(CoreOverrides(m, baseDomain, url, token)) == ConfiguredPort(m)
  {
    assert |PORT| == 4 && |BASE_DOMAIN| == 11 && |REFRESH_COOKIE_DOMAIN| == 21;
    assert |GITEA_BASE_URL| == 14 && |GITEA_ADMIN_TOKEN| == 17;
  }
}
