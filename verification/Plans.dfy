/** What a pass sets out to apply, stage by stage (the order of reconcile in internal/agent/agent.go). */
module Plans {
  import opened Guards
  import opened Wrappers
  import opened CloudApi
  import opened Dockerx
  import opened Env
  import opened Drift
  import opened Specs

  /** What one pass reads from the secret store. */
  datatype PassSecrets = PassSecrets(
    coreEnv: Secrets, commerceEnv: Secrets, redisPassword: string, giteaEnv: Secrets, conn: DBConn)

  ghost predicate AllRead(s: PassSecrets, ds: DesiredState, vault: Vault) {
    && s.coreEnv == Read(vault, CoreFolder)
    && s.commerceEnv == Read(vault, CommerceFolder)
    && s.redisPassword == Value(Read(vault, AgentRedis), REDIS_PASSWORD)
    && (ds.GiteaOn() ==> s.giteaEnv == Read(vault, AgentGitea))
    && ResolveDBConn(ds, vault) == Some(s.conn)
  }

  /** The secrets of a pass are what the store held when it read them. To be opened with `OpenRead` only. */
  ghost predicate SecretsOf(s: PassSecrets, ds: DesiredState, vault: Vault) {
    forall k {:trigger PlanGuard(k)} :: PlanGuard(k) ==> AllRead(s, ds, vault)
  }

  lemma OpenRead(s: PassSecrets, ds: DesiredState, vault: Vault)
    requires SecretsOf(s, ds, vault)
    ensures AllRead(s, ds, vault)
  {
    assert PlanGuard(0);
  }

  /** What the edge asks for before anything else. */
  function EdgePlan(ds: DesiredState): Plan {
    if ds.ManagedEdge() then map[AcmeDns := AcmeDnsSpec()] else map[]
  }

  /** The plan with the managed database in it. */
  function DatabasePlan(plan: Plan, ds: DesiredState, conn: DBConn): Plan {
    if ds.DbManaged() then plan[Postgres := PostgresSpec(ds, conn, ds.Backups())] else plan
  }

  /** The plan after the database stage, which may have failed before it came to the container. */
  function DatabaseStagePlan(ds: DesiredState, conn: DBConn, begun: bool): Plan {
    if begun then DatabasePlan(EdgePlan(ds), ds, conn) else EdgePlan(ds)
  }

  function GiteaPlan(plan: Plan, ds: DesiredState, s: PassSecrets): Plan {
    if ds.GiteaOn() then plan[Gitea := GiteaSpec(ds, s.conn, GiteaStorageEnv(s.giteaEnv))] else plan
  }

  /** A plan with further specs, in order. */
  function AddAll(plan: Plan, specs: seq<RunSpec>): Plan {
    if specs == [] then plan
    else
      var k := |specs| - 1;
      AddAll(plan, specs[..k])[specs[k].name := specs[k]]
  }

  lemma {:induction false} AddAllKeys(plan: Plan, specs: seq<RunSpec>)
    ensures forall n :: n in AddAll(plan, specs) <==> n in plan || exists i :: 0 <= i < |specs| && specs[i].name == n
  {
    if specs != [] {
      var k := |specs| - 1;
      AddAllKeys(plan, specs[..k]);
    }
  }

  lemma {:induction false} AddAllWithin(plan: Plan, specs: seq<RunSpec>, bound: set<Name>)
    requires plan.Keys <= bound && forall i :: 0 <= i < |specs| ==> specs[i].name in bound
    ensures AddAll(plan, specs).Keys <= bound
  {
    if specs != [] {
      var k := |specs| - 1;
      AddAllWithin(plan, specs[..k], bound);
    }
  }

  /** Long-running services with names of their own that the plan does not have yet. */
  ghost predicate NewServices(plan: Plan, specs: seq<RunSpec>) {
    && (forall i :: 0 <= i < |specs| ==> specs[i].name !in plan && !OneShot(specs[i].name) && specs[i].name != AcmeDns)
    && (forall i, j :: 0 <= i < j < |specs| ==> specs[i].name != specs[j].name)
  }

  /** The always-on services, core-server last so that it knows Gitea's token. */
  function CoreServices(ds: DesiredState, s: PassSecrets, commerceEnv: seq<string>, core: RunSpec): seq<RunSpec> {
    [RedisSpec(ds, s.redisPassword), NatsSpec(ds), CommerceServiceSpec(ds, commerceEnv), core]
  }

  /** Everything before the always-on services. */
  function EarlyPlan(ds: DesiredState, s: PassSecrets): Plan {
    GiteaPlan(DatabasePlan(EdgePlan(ds), ds, s.conn), ds, s)
  }

  /** No stage touches a name an earlier one has. */
  lemma StagesAreDisjoint(ds: DesiredState, s: PassSecrets, commerceEnv: seq<string>, core: RunSpec)
    requires core.name == CoreServer
    ensures Postgres !in EdgePlan(ds) && Gitea !in DatabasePlan(EdgePlan(ds), ds, s.conn)
    ensures NewServices(EarlyPlan(ds, s), CoreServices(ds, s, commerceEnv, core))
  {
  }

  /** One more wanted service. */
  lemma WantedToo(plan: Plan, n: Name, spec: RunSpec, ds: DesiredState, vault: Vault, token: Option<string>)
    requires PlanFor(plan, ds, vault, token) && Wanted(n, spec, ds, vault, token)
    ensures PlanFor(plan[n := spec], ds, vault, token)
  {
    OpenPlan(plan, ds, vault, token);
  }

  lemma EdgePlanIsWanted(ds: DesiredState, s: PassSecrets, vault: Vault, token: Option<string>)
    requires SecretsOf(s, ds, vault)
    ensures PlanFor(EdgePlan(ds), ds, vault, token)
  {
    OpenRead(s, ds, vault);
  }

  lemma PostgresIsWanted(ds: DesiredState, s: PassSecrets, vault: Vault, token: Option<string>)
    requires SecretsOf(s, ds, vault) && ds.DbManaged()
    ensures Wanted(Postgres, PostgresSpec(ds, s.conn, ds.Backups()), ds, vault, token)
  {
    OpenRead(s, ds, vault);
  }

  lemma GiteaIsWanted(ds: DesiredState, s: PassSecrets, vault: Vault, token: Option<string>)
    requires SecretsOf(s, ds, vault) && ds.GiteaOn()
    ensures Wanted(Gitea, GiteaSpec(ds, s.conn, GiteaStorageEnv(s.giteaEnv)), ds, vault, token)
  {
    OpenRead(s, ds, vault);
  }

  lemma NginxIsWanted(plan: Plan, ds: DesiredState, s: PassSecrets, vault: Vault, token: Option<string>)
    requires SecretsOf(s, ds, vault) && ds.ManagedEdge() && PlanFor(plan, ds, vault, token)
    ensures PlanFor(plan[Nginx := NginxSpec(ds)], ds, vault, token)
  {
    OpenRead(s, ds, vault);
    WantedToo(plan, Nginx, NginxSpec(ds), ds, vault, token);
  }

  lemma DatabasePlanIsWanted(ds: DesiredState, s: PassSecrets, begun: bool, vault: Vault, token: Option<string>)
    requires SecretsOf(s, ds, vault)
    ensures PlanFor(DatabaseStagePlan(ds, s.conn, begun), ds, vault, token)
  {
    EdgePlanIsWanted(ds, s, vault, token);
    if ds.DbManaged() {
      PostgresIsWanted(ds, s, vault, token);
      WantedToo(EdgePlan(ds), Postgres, PostgresSpec(ds, s.conn, ds.Backups()), ds, vault, token);
    }
  }

  lemma EarlyPlanIsWanted(ds: DesiredState, s: PassSecrets, vault: Vault, token: Option<string>)
    requires SecretsOf(s, ds, vault)
    ensures PlanFor(EarlyPlan(ds, s), ds, vault, token)
  {
    DatabasePlanIsWanted(ds, s, true, vault, token);
    if ds.GiteaOn() {
      GiteaIsWanted(ds, s, vault, token);
      WantedToo(DatabasePlan(EdgePlan(ds), ds, s.conn), Gitea, GiteaSpec(ds, s.conn, GiteaStorageEnv(s.giteaEnv)), ds,
                vault, token);
    }
  }

  lemma {:induction false} AddAllWanted(plan: Plan, specs: seq<RunSpec>, ds: DesiredState, vault: Vault,
                                        token: Option<string>)
    requires PlanFor(plan, ds, vault, token)
    requires forall i :: 0 <= i < |specs| ==> Wanted(specs[i].name, specs[i], ds, vault, token)
    ensures PlanFor(AddAll(plan, specs), ds, vault, token)
  {
    if specs != [] {
      var k := |specs| - 1;
      AddAllWanted(plan, specs[..k], ds, vault, token);
      WantedToo(AddAll(plan, specs[..k]), specs[k].name, specs[k], ds, vault, token);
    }
  }

  lemma PrefixIsWanted(plan: Plan, specs: seq<RunSpec>, count: nat, ds: DesiredState, vault: Vault,
                       token: Option<string>)
    requires PlanFor(plan, ds, vault, token) && count <= |specs|
    requires forall i :: 0 <= i < |specs| ==> Wanted(specs[i].name, specs[i], ds, vault, token)
    ensures PlanFor(AddAll(plan, specs[..count]), ds, vault, token)
  {
    AddAllWanted(plan, specs[..count], ds, vault, token);
  }

  lemma FourAreWanted(plan: Plan, specs: seq<RunSpec>, count: nat, ds: DesiredState, vault: Vault,
                      token: Option<string>)
    requires PlanFor(plan, ds, vault, token) && count <= |specs| == 4
    requires Wanted(specs[0].name, specs[0], ds, vault, token) && Wanted(specs[1].name, specs[1], ds, vault, token)
    requires Wanted(specs[2].name, specs[2], ds, vault, token) && Wanted(specs[3].name, specs[3], ds, vault, token)
    ensures PlanFor(AddAll(plan, specs[..count]), ds, vault, token)
  {
    forall i | 0 <= i < |specs| ensures Wanted(specs[i].name, specs[i], ds, vault, token) {
      if i == 0 {
      } else if i == 1 {
      } else if i == 2 {
      } else {
        assert i == 3;
      }
    }
    PrefixIsWanted(plan, specs, count, ds, vault, token);
  }

  lemma StoresAreWanted(ds: DesiredState, s: PassSecrets, vault: Vault, token: Option<string>)
    requires SecretsOf(s, ds, vault)
    ensures Wanted(Redis, RedisSpec(ds, s.redisPassword), ds, vault, token)
    ensures Wanted(Nats, NatsSpec(ds), ds, vault, token)
  {
    OpenRead(s, ds, vault);
  }

  lemma CommerceIsWanted(ds: DesiredState, s: PassSecrets, vault: Vault, token: Option<string>)
    requires SecretsOf(s, ds, vault)
    ensures Wanted(Commerce, CommerceServiceSpec(ds, Canonical(s.commerceEnv)), ds, vault, token)
  {
    OpenRead(s, ds, vault);
  }

  lemma CoreIsWanted(ds: DesiredState, s: PassSecrets, vault: Vault, token: Option<string>)
    requires SecretsOf(s, ds, vault) && (ds.GiteaOn() ==> token.Some?)
    ensures Wanted(CoreServer, CoreServerSpecOf(ds, Canonical(CoreServerMap(ds, vault, token.GetOr("")))), ds, vault,
                   token)
  {
    OpenRead(s, ds, vault);
  }

  /** So are the services, however far the pass gets. */
  lemma ServicesAreWanted(ds: DesiredState, s: PassSecrets, vault: Vault, token: Option<string>,
                          commerceEnv: seq<string>, core: RunSpec, count: nat)
    requires SecretsOf(s, ds, vault) && count <= 4 && (ds.GiteaOn() ==> token.Some?)
    requires commerceEnv == Canonical(s.commerceEnv)
    requires core == CoreServerSpecOf(ds, Canonical(CoreServerMap(ds, vault, token.GetOr(""))))
    ensures PlanFor(AddAll(EarlyPlan(ds, s), CoreServices(ds, s, commerceEnv, core)[..count]), ds, vault, token)
  {
    EarlyPlanIsWanted(ds, s, vault, token);
    StoresAreWanted(ds, s, vault, token);
    CommerceIsWanted(ds, s, vault, token);
    CoreIsWanted(ds, s, vault, token);
    FourAreWanted(EarlyPlan(ds, s), CoreServices(ds, s, commerceEnv, core), count, ds, vault, token);
  }

  lemma ServiceNames(plan: Plan, specs: seq<RunSpec>)
    requires |specs| == 4
    ensures AddAll(plan, specs).Keys == plan.Keys + {specs[0].name, specs[1].name, specs[2].name, specs[3].name}
  {
    AddAllKeys(plan, specs);
  }

  /** With all the services, nginx is all that can be missing. */
  lemma OnlyNginxIsMissing(ds: DesiredState, s: PassSecrets, commerceEnv: seq<string>, core: RunSpec)
    requires core.name == CoreServer
    ensures AddAll(EarlyPlan(ds, s), CoreServices(ds, s, commerceEnv, core)).Keys == Topology(ds) - {Nginx}
  {
    ServiceNames(EarlyPlan(ds, s), CoreServices(ds, s, commerceEnv, core));
  }

  /** With nginx, where the edge is managed, the plan is the whole topology. */
  lemma NginxCompletes(plan: Plan, ds: DesiredState)
    requires plan.Keys == Topology(ds) - {Nginx}
    ensures Nginx !in plan
    ensures (if ds.ManagedEdge() then plan.Keys + {Nginx} else plan.Keys) == Topology(ds)
  {
  }

  // --- the names a pass keeps when it prunes

  ghost function NamesOf(specs: seq<RunSpec>): set<Name> {
    set i | 0 <= i < |specs| :: specs[i].name
  }

  function CoreNames(): set<Name> {
    {Redis, Nats, Commerce, CoreServer}
  }

  function AddIf(keep: set<Name>, wanted: bool, names: set<Name>): set<Name> {
    if wanted then keep + names else keep
  }

  lemma CoreServicesNames(ds: DesiredState, s: PassSecrets, commerceEnv: seq<string>, core: RunSpec)
    requires core.name == CoreServer
    ensures NamesOf(CoreServices(ds, s, commerceEnv, core)) == CoreNames()
  {
    var specs := CoreServices(ds, s, commerceEnv, core);
    assert specs[0].name == Redis && specs[1].name == Nats && specs[2].name == Commerce && specs[3].name == CoreServer;
  }

  /** What a pass keeps is the topology. */
  lemma KeptIsTopology(ds: DesiredState)
    ensures AddIf(AddIf({}, ds.ManagedEdge(), {AcmeDns}), ds.DbManaged(), {Postgres})
            + AddIf(AddIf(CoreNames(), ds.GiteaOn(), {Gitea}), ds.ManagedEdge(), {Nginx, AcmeDns})
            == Topology(ds)
  {
  }
}
