/**
 * The Docker Engine as the agent uses it (internal/dockerx/dockerx.go): a map from name to container, and
 * operations any of which may fail. A failed call may or may not have taken effect.
 */
module Dockerx {
  import opened Wrappers
  import opened CloudApi

  datatype DBConn = DBConn(
    host: string, port: string, database: string, appUser: string, appPassword: string,
    ownerUser: string, ownerPassword: string, giteaUser: string, giteaPassword: string, sslMode: string)

  // The fixed command lines, mounts and health checks of the specs are named rather than spelled out;
  // everything in them that varies is a parameter.
  datatype EnvBlock =
    | NoEnv
    | EnvLines(lines: seq<string>)
    | PostgresEnv(user: string, password: string, database: string)
    | GiteaEnv(domain: string, conn: DBConn, storage: Option<GiteaStorage>)
  datatype GiteaStorage = GiteaStorage(endpoint: string, bucket: string, accessKey: string, secretKey: string)
  datatype CommandLine =
    | ImageDefault
    | RedisServer(password: string)
    | ArchivingPostgres
    | MigrateCommand
    | RestoreCommand(req: RestoreReq)
    | InfoCommand
  datatype HostDir =
    | PgData | PgConf | PgRepo | CoreLogs | GiteaData | NginxConf | LetsEncrypt | AcmeWebroot | WebRoot
    | NginxLogs | AcmeConfig | AcmeData
  datatype Bind = Bind(dir: HostDir, readOnly: bool)
  datatype HealthSpec =
    | NoHealthSpec
    | HttpHealth(port: nat)
    | PgReady(user: string, database: string)
    | RedisPing(password: string)
    | FixedCheck

  datatype RunSpec = RunSpec(
    name: Name, service: Name, image: string, env: EnvBlock, cmd: CommandLine, binds: seq<Bind>,
    published: seq<nat>, exposed: seq<nat>, restart: bool, memMiB: nat, health: HealthSpec,
    hashLabel: Digest)

  /** A collision-free digest of a spec; `NoDigest` is a missing label. */
  datatype Digest = NoDigest | DigestOf(spec: RunSpec)

  datatype Container = Container(id: nat, owner: string, service: Name, hash: Digest, running: bool)

  type World = map<Name, Container>

  function Get(w: World, n: Name): Option<Container> {
    if n in w then Some(w[n]) else None
  }

  ghost predicate OnlyAt(w: World, w': World, n: Name) {
    forall m :: m != n ==> Get(w', m) == Get(w, m)
  }

  /** `c` was created from `spec` by this deployment's agent, with an id no older than `floor`. */
  predicate MadeFrom(c: Container, spec: RunSpec, me: string, floor: nat) {
    c.id >= floor && c.owner == me && c.service == spec.service && c.hash == spec.hashLabel
  }

  ghost predicate Owned(w: World, n: Name, me: string) {
    n in w && w[n].owner == me
  }

  /** Every id the engine has handed out lies below the next one. */
  ghost predicate IdsBelow(w: World, next: nat) {
    forall n :: n in w ==> w[n].id < next
  }

  /** What the engine said of a container: a one-shot that ran to its exit, or a service found healthy. */
  datatype Observation = RanToExit(spec: RunSpec, code: int) | FoundHealthy(name: Name)

  class Client {
    const deploymentID: string
    var containers: World
    var nextId: nat
    ghost var observed: seq<Observation>

    constructor (deploymentID: string, containers: World, nextId: nat)
      requires IdsBelow(containers, nextId)
      ensures this.deploymentID == deploymentID
      ensures this.containers == containers && this.nextId == nextId
    {
      this.deploymentID := deploymentID;
      this.containers := containers;
      this.nextId := nextId;
    }

    /** Any engine call may fail. */
    method Fault() returns (err: Option<string>) {
      err := *;
    }

    method PullImage(image: string) returns (err: Option<string>) {
      err := Fault();
    }

    method EnsureNetwork() returns (err: Option<string>) {
      err := Fault();
    }

    method ContainerByName(name: Name) returns (c: Option<Container>, err: Option<string>)
      ensures err.None? ==> c == Get(containers, name)
    {
      c := None;
      err := Fault();
      if err.None? && name in containers {
        c := Some(containers[name]);
      }
    }

    /** The recorded hash label, `NoDigest` for a container without one or no container at all. */
    method SpecHash(name: Name) returns (have: Digest, err: Option<string>)
      ensures err.None? ==> have == if name in containers then containers[name].hash else NoDigest
    {
      have := NoDigest;
      var c;
      c, err := ContainerByName(name);
      if err.None? && c.Some? {
        err := Fault();
        have := c.value.hash;
      }
    }

    method Remove(name: Name) returns (err: Option<string>)
      requires IdsBelow(containers, nextId)
      modifies this`containers
      ensures IdsBelow(containers, nextId)
      ensures OnlyAt(old(containers), containers, name)
      ensures err.None? ==> name !in containers
      ensures Get(containers, name) in {None, old(Get(containers, name))}
    {
      var c;
      c, err := ContainerByName(name);
      if err.Some? || c.None? {
        return;
      }
      err := Fault();
      var effect: bool := *;
      if err.None? || effect {
        containers := containers - {name};
      }
    }

    /** Starts a container if it exists but is not running; a no-op when it is running or absent. */
    method EnsureStarted(name: Name) returns (started: bool, err: Option<string>)
      requires IdsBelow(containers, nextId)
      modifies this`containers
      ensures IdsBelow(containers, nextId)
      ensures OnlyAt(old(containers), containers, name)
      ensures name !in old(containers) ==> name !in containers && !started
      ensures name in old(containers) ==> (
          && name in containers
          && containers[name] in {old(containers)[name], old(containers)[name].(running := true)}
          && (err.None? ==> containers[name].running && started == !old(containers)[name].running))
    {
      started := false;
      var c;
      c, err := ContainerByName(name);
      if err.Some? || c.None? {
        return;
      }
      err := Fault();
      if err.Some? || c.value.running {
        return;
      }
      err := Fault();
      var effect: bool := *;
      if err.None? || effect {
        containers := containers[name := containers[name].(running := true)];
      }
      started := err.None?;
    }

    /** Creates a container without starting it. The engine refuses a name that is taken. */
    method Create(spec: RunSpec) returns (err: Option<string>)
      requires IdsBelow(containers, nextId)
      modifies this`containers, this`nextId
      ensures IdsBelow(containers, nextId) && old(nextId) <= nextId
      ensures OnlyAt(old(containers), containers, spec.name)
      ensures Get(containers, spec.name) == old(Get(containers, spec.name))
           || (spec.name in containers && !containers[spec.name].running
               && MadeFrom(containers[spec.name], spec, deploymentID, old(nextId)))
      ensures err.None? ==> spec.name !in old(containers) && spec.name in containers && nextId > old(nextId)
      ensures spec.name in old(containers) ==> containers == old(containers)
    {
      err := Fault();
      var effect: bool := *;
      if spec.name in containers {
        err := Some("the name is in use");
        return;
      }
      if err.None? || effect {
        containers := containers[spec.name := Container(nextId, deploymentID, spec.service, spec.hashLabel, false)];
        nextId := nextId + 1;
      }
    }

    method Start(name: Name) returns (err: Option<string>)
      requires IdsBelow(containers, nextId) && name in containers
      modifies this`containers
      ensures IdsBelow(containers, nextId) && OnlyAt(old(containers), containers, name) && name in containers
      ensures containers[name] in {old(containers)[name], old(containers)[name].(running := true)}
      ensures err.None? ==> containers[name].running
    {
      err := Fault();
      var effect: bool := *;
      if err.None? || effect {
        containers := containers[name := containers[name].(running := true)];
      }
    }

    /** Replaces whatever has the name by a fresh, started container. */
    method Run(spec: RunSpec) returns (err: Option<string>)
      requires IdsBelow(containers, nextId)
      modifies this`containers, this`nextId
      ensures IdsBelow(containers, nextId) && old(nextId) <= nextId
      ensures OnlyAt(old(containers), containers, spec.name)
      ensures Get(containers, spec.name) in {None, old(Get(containers, spec.name))}
           || (spec.name in containers && MadeFrom(containers[spec.name], spec, deploymentID, old(nextId)))
      ensures err.None? ==> (
          && spec.name in containers
          && containers[spec.name].running
          && MadeFrom(containers[spec.name], spec, deploymentID, old(nextId)))
    {
      err := Remove(spec.name);
      if err.Some? {
        return;
      }
      err := Create(spec);
      if err.Some? {
        return;
      }
      err := Start(spec.name);
    }

    /**
     * Runs a one-shot container to its exit; no error means that a fresh one did. The final removal is deferred
     * and its error ignored, so the container can be left behind.
     */
    method RunToCompletion(spec: RunSpec) returns (code: int, err: Option<string>)
      requires IdsBelow(containers, nextId)
      modifies this
      ensures IdsBelow(containers, nextId) && old(nextId) <= nextId
      ensures OnlyAt(old(containers), containers, spec.name)
      ensures Get(containers, spec.name) in {None, old(Get(containers, spec.name))}
           || (spec.name in containers && MadeFrom(containers[spec.name], spec, deploymentID, old(nextId)))
      ensures err.None? ==> nextId > old(nextId)
      ensures observed == old(observed) + (if err.None? then [RanToExit(spec, code)] else [])
    {
      code := -1;
      err := Remove(spec.name);
      if err.Some? {
        return;
      }
      err := Create(spec);
      if err.Some? {
        return;
      }
      err := Start(spec.name);
      if err.None? {
        err := Fault();
        if err.None? {
          code := *;
          observed := observed + [RanToExit(spec, code)];
        }
      }
      var _ := Remove(spec.name);
    }

    /** The names that carry this deployment's label. */
    method OwnedNames() returns (names: set<Name>, err: Option<string>)
      ensures err.None? ==> names == set n | n in containers && containers[n].owner == deploymentID
    {
      names := set n | n in containers && containers[n].owner == deploymentID;
      err := Fault();
    }

    /** Removes every owned container that is not in `keep`, in no particular order. */
    method PruneExcept(keep: set<Name>) returns (err: Option<string>)
      requires IdsBelow(containers, nextId)
      modifies this`containers
      ensures IdsBelow(containers, nextId)
      ensures forall n :: Get(containers, n) == old(Get(containers, n))
                || (n !in containers && Owned(old(containers), n, deploymentID) && n !in keep)
      ensures err.None? ==> forall n :: Owned(containers, n, deploymentID) ==> n in keep
    {
      var owned;
      owned, err := OwnedNames();
      if err.Some? {
        return;
      }
      var todo := owned;
      while todo != {}
        invariant IdsBelow(containers, nextId) && todo <= owned
        invariant forall n :: Get(containers, n) == old(Get(containers, n))
                    || (n !in containers && n in owned && n !in keep)
        invariant forall n :: n in owned && n !in todo && n !in keep ==> n !in containers
        decreases todo
      {
        var name :| name in todo;
        todo := todo - {name};
        if name !in keep {
          err := Remove(name);
          if err.Some? {
            return;
          }
        }
      }
    }

    /** Runs a command inside a container; the exit code and output are the container's business. */
    method Exec(name: Name) returns (code: int, err: Option<string>)
      ensures err.None? ==> name in containers
    {
      code := -1;
      var c;
      c, err := ContainerByName(name);
      if err.None? {
        if c.None? {
          err := Some("container not found");
        } else {
          err := Fault();
          code := *;
        }
      }
    }

    /**
     * Polls until the container is healthy (or runs without a health check) or the deadline has passed.
     * `clock` readings only have to move on by the two seconds slept between polls.
     */
    method WaitHealthy(name: Name, timeout: nat) returns (err: Option<string>)
      modifies this`observed
      ensures err.None? ==> name in containers
      ensures observed == old(observed) + (if err.None? then [FoundHealthy(name)] else [])
    {
      var elapsed: nat := 0;
      while true
        invariant observed == old(observed)
        decreases timeout + 1 - elapsed
      {
        var c;
        c, err := ContainerByName(name);
        if err.Some? {
          return;
        }
        if c.Some? {
          var inspected, healthy: bool := *, *;
          if inspected && healthy {
            observed := observed + [FoundHealthy(name)];
            return;
          }
        }
        if elapsed > timeout {
          err := Some("not healthy in time");
          return;
        }
        var cancelled: bool := *;
        if cancelled {
          err := Some("cancelled");
          return;
        }
        elapsed := elapsed + 2;
      }
    }

    /** State and health of every owned container, as the engine shows them at this moment. */
    method List() returns (statuses: seq<ServiceStatus>, err: Option<string>)
      ensures forall s :: s in statuses ==>
                Owned(containers, s.name, deploymentID) && s.service == containers[s.name].service
      ensures err.None? ==> forall n :: Owned(containers, n, deploymentID) ==> exists s :: s in statuses && s.name == n
      ensures err.Some? ==> statuses == []
    {
      statuses := [];
      var names;
      names, err := OwnedNames();
      if err.Some? {
        return;
      }
      var todo := names;
      while todo != {}
        invariant todo <= names
        invariant forall s :: s in statuses ==>
                    Owned(containers, s.name, deploymentID) && s.service == containers[s.name].service
        invariant forall n :: n in names && n !in todo ==> exists s :: s in statuses && s.name == n
        decreases todo
      {
        var name :| name in todo;
        todo := todo - {name};
        var state: RunState, health: Health := *, *;
        var status := ServiceStatus(name, containers[name].service, state, health);
        ghost var before := statuses;
        statuses := statuses + [status];
        assert status in statuses && forall s :: s in before ==> s in statuses;
      }
      assert forall n :: Owned(containers, n, deploymentID) ==> n in names;
    }
  }
}
