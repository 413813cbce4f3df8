/**
 * Drift-detecting reconcile of one service (internal/deploy/reconcile.go), and the relations between two
 * Docker worlds that a whole pass is specified with.
 */
module Drift {
  import opened Guards
  import opened Wrappers
  import opened CloudApi
  import opened Dockerx

  /** The specs a pass has set out to apply, by container name. */
  type Plan = map<Name, RunSpec>

  function SpecHash(spec: RunSpec): Digest {
    DigestOf(spec.(hashLabel := NoDigest))
  }

  /** Equal digests mean equal specs, whatever label value either spec carried. */
  lemma SpecHashIsFaithful(a: RunSpec, b: RunSpec, tag: Digest)
    ensures SpecHash(a.(hashLabel := tag)) == SpecHash(a)
    ensures SpecHash(a) == SpecHash(b) <==> a == b.(hashLabel := a.hashLabel)
  {
    var a0, b0 := a.(hashLabel := NoDigest), b.(hashLabel := NoDigest);
    assert SpecHash(a) == SpecHash(b) <==> a0 == b0;
    assert a == a0.(hashLabel := a.hashLabel);
  }

  predicate Matches(c: Option<Container>, spec: RunSpec) {
    c.Some? && c.value.hash == SpecHash(spec)
  }

  /** A container this agent created from `spec` during the pass that began with engine ids at `floor`. */
  predicate Made(c: Container, spec: RunSpec, me: string, floor: nat) {
    MadeFrom(c, spec.(hashLabel := SpecHash(spec)), me, floor)
  }

  /** What a successful apply leaves: the same container, now started, or a fresh one. */
  predicate Landed(before: Option<Container>, after: Option<Container>, spec: RunSpec, forced: bool, me: string,
                   floor: nat) {
    && after.Some?
    && after.value.running
    && (if Matches(before, spec) && !forced
        then after.value == before.value.(running := true)
        else Made(after.value, spec, me, floor))
  }

  /** What any apply leaves, also one that failed half-way. */
  predicate Touched(before: Option<Container>, after: Option<Container>, spec: RunSpec, forced: bool, me: string,
                    floor: nat) {
    if Matches(before, spec) && !forced
    then after.Some? && after.value in {before.value, before.value.(running := true)}
    else after == before || after == None || (after.Some? && Made(after.value, spec, me, floor))
  }

  /**
   * Brings one long-running service up: rebuilt if its hash drifted or it is named in `forceRecreate`,
   * otherwise only started.
   */
  method Apply(dx: Client, spec: RunSpec, forceRecreate: set<Name>) returns (err: Option<string>)
    requires IdsBelow(dx.containers, dx.nextId)
    modifies dx`containers, dx`nextId
    ensures IdsBelow(dx.containers, dx.nextId) && old(dx.nextId) <= dx.nextId
    ensures OnlyAt(old(dx.containers), dx.containers, spec.name)
    ensures Touched(old(Get(dx.containers, spec.name)), Get(dx.containers, spec.name), spec,
                    spec.name in forceRecreate, dx.deploymentID, old(dx.nextId))
    ensures err.None? ==>
      Landed(old(Get(dx.containers, spec.name)), Get(dx.containers, spec.name), spec,
             spec.name in forceRecreate, dx.deploymentID, old(dx.nextId))
  {
    err := dx.PullImage(spec.image);
    if err.Some? {
      return;
    }
    var want := SpecHash(spec);
    if spec.name !in forceRecreate {
      var have;
      have, err := dx.SpecHash(spec.name);
      if err.Some? {
        return;
      }
      if have == want {
        var _, e := dx.EnsureStarted(spec.name);
        return e;
      }
    }
    err := dx.Run(spec.(hashLabel := want));
  }

  predicate OneShot(n: Name) {
    n.CoreMigrate? || n.CommerceMigrate?
  }

  /** acme-dns is applied without the recreate set, so a request for it is never honoured. */
  predicate Forced(n: Name, force: set<Name>) {
    n in force && n != AcmeDns
  }

  ghost predicate NoOneShots(plan: Plan) {
    forall n :: n in plan ==> !OneShot(n) && plan[n].name == n
  }

  /** Names outside the plan: untouched, except that migration one-shots come and go. */
  predicate Elsewhere(n: Name, before: Option<Container>, after: Option<Container>, me: string, floor: nat) {
    after == before
    || (OneShot(n) && (after == None || (after.Some? && after.value.owner == me && after.value.id >= floor)))
  }

  /** Nothing has been removed but drifted or forced names of the plan, and one-shots. */
  ghost predicate Gentle(w: World, w': World, plan: Plan, force: set<Name>, me: string, floor: nat) {
    && (forall n :: n in plan ==> Touched(Get(w, n), Get(w', n), plan[n], Forced(n, force), me, floor))
    && (forall n :: n !in plan ==> Elsewhere(n, Get(w, n), Get(w', n), me, floor))
  }

  ghost predicate Done(w: World, w': World, plan: Plan, force: set<Name>, me: string, floor: nat) {
    forall n :: n in plan ==> Landed(Get(w, n), Get(w', n), plan[n], Forced(n, force), me, floor)
  }

  /** As `Done`, but for names that may not have landed. */
  ghost predicate DoneBut(w: World, w': World, plan: Plan, late: set<Name>, force: set<Name>, me: string, floor: nat) {
    forall n :: n in plan && n !in late ==> Landed(Get(w, n), Get(w', n), plan[n], Forced(n, force), me, floor)
  }

  lemma GentleRefl(w: World, force: set<Name>, me: string, floor: nat)
    ensures Gentle(w, w, map[], force, me, floor)
    ensures Done(w, w, map[], force, me, floor)
  {
  }

  lemma GentleApply(w: World, w': World, spec: RunSpec, force: set<Name>, me: string, floor: nat)
    requires OnlyAt(w, w', spec.name)
    requires Touched(Get(w, spec.name), Get(w', spec.name), spec, Forced(spec.name, force), me, floor)
    ensures Gentle(w, w', map[spec.name := spec], force, me, floor)
    ensures Landed(Get(w, spec.name), Get(w', spec.name), spec, Forced(spec.name, force), me, floor) ==>
              Done(w, w', map[spec.name := spec], force, me, floor)
  {
  }

  /** Steps over disjoint parts of the plan add up. */
  lemma GentleThen(w0: World, w1: World, w2: World, p1: Plan, p2: Plan, force: set<Name>, me: string, f0: nat, f1: nat)
    requires f0 <= f1 && p1.Keys !! p2.Keys && NoOneShots(p1) && NoOneShots(p2)
    requires Gentle(w0, w1, p1, force, me, f0) && Gentle(w1, w2, p2, force, me, f1)
    ensures Gentle(w0, w2, p1 + p2, force, me, f0)
    ensures Done(w0, w1, p1, force, me, f0) && Done(w1, w2, p2, force, me, f1) ==>
              Done(w0, w2, p1 + p2, force, me, f0)
  {
    forall n | n in p1 ensures Get(w2, n) == Get(w1, n) {
      assert Elsewhere(n, Get(w1, n), Get(w2, n), me, f1);
    }
    forall n | n in p2 ensures Get(w1, n) == Get(w0, n) {
      assert Elsewhere(n, Get(w0, n), Get(w1, n), me, f0);
    }
    forall n | n !in p1 + p2 ensures Elsewhere(n, Get(w0, n), Get(w2, n), me, f0) {
      assert Elsewhere(n, Get(w0, n), Get(w1, n), me, f0);
      assert Elsewhere(n, Get(w1, n), Get(w2, n), me, f1);
    }
  }

  /** One more name of the plan applied. */
  lemma GentleThenApply(w0: World, w1: World, w2: World, plan: Plan, spec: RunSpec, force: set<Name>, me: string,
                        f0: nat, f1: nat)
    requires f0 <= f1 && NoOneShots(plan) && spec.name !in plan && !OneShot(spec.name)
    requires Gentle(w0, w1, plan, force, me, f0)
    requires OnlyAt(w1, w2, spec.name)
    requires Touched(Get(w1, spec.name), Get(w2, spec.name), spec, Forced(spec.name, force), me, f1)
    ensures Gentle(w0, w2, plan[spec.name := spec], force, me, f0)
    ensures (Done(w0, w1, plan, force, me, f0)
             && Landed(Get(w1, spec.name), Get(w2, spec.name), spec, Forced(spec.name, force), me, f1))
            ==> Done(w0, w2, plan[spec.name := spec], force, me, f0)
  {
    GentleApply(w1, w2, spec, force, me, f1);
    GentleThen(w0, w1, w2, plan, map[spec.name := spec], force, me, f0, f1);
    assert plan + map[spec.name := spec] == plan[spec.name := spec];
  }

  /** A migration one-shot ran (and may have been left behind). */
  lemma GentleThenOneShot(w0: World, w1: World, w2: World, plan: Plan, n: Name, force: set<Name>, me: string, f0: nat,
                          f1: nat)
    requires f0 <= f1 && NoOneShots(plan) && OneShot(n)
    requires Gentle(w0, w1, plan, force, me, f0)
    requires OnlyAt(w1, w2, n) && Elsewhere(n, Get(w1, n), Get(w2, n), me, f1)
    ensures Gentle(w0, w2, plan, force, me, f0)
    ensures Done(w0, w1, plan, force, me, f0) ==> Done(w0, w2, plan, force, me, f0)
  {
    assert n !in plan;
    assert Elsewhere(n, Get(w0, n), Get(w1, n), me, f0);
  }

  /** The moment a pass began: its world, the engine's next id, whose pass it is, and what it must rebuild. */
  datatype Start = Start(world: World, floor: nat, me: string, force: set<Name>)

  /**
   * Since `start` nothing but `plan` has been touched, and all of it but `late` has landed. The definition is
   * opened by `OpenTracks` only.
   */
  ghost predicate Tracks(start: Start, plan: Plan, late: set<Name>, w: World, next: nat) {
    forall k {:trigger TracksGuard(k)} :: TracksGuard(k) ==>
      && NoOneShots(plan)
      && start.floor <= next
      && IdsBelow(start.world, start.floor)
      && IdsBelow(w, next)
      && Gentle(start.world, w, plan, start.force, start.me, start.floor)
      && DoneBut(start.world, w, plan, late, start.force, start.me, start.floor)
  }

  lemma OpenTracks(start: Start, plan: Plan, late: set<Name>, w: World, next: nat)
    requires Tracks(start, plan, late, w, next)
    ensures NoOneShots(plan) && start.floor <= next && IdsBelow(w, next) && IdsBelow(start.world, start.floor)
    ensures Gentle(start.world, w, plan, start.force, start.me, start.floor)
    ensures DoneBut(start.world, w, plan, late, start.force, start.me, start.floor)
    ensures late == {} ==> Done(start.world, w, plan, start.force, start.me, start.floor)
  {
    assert TracksGuard(0);
  }

  lemma TracksStart(start: Start)
    requires IdsBelow(start.world, start.floor)
    ensures Tracks(start, map[], {}, start.world, start.floor)
  {
    GentleRefl(start.world, start.force, start.me, start.floor);
  }

  /** One more service is applied; if that fails, it is the only one that may not have landed. */
  lemma TracksApply(start: Start, plan: Plan, spec: RunSpec, w1: World, next1: nat, w2: World, next2: nat, ok: bool)
    requires Tracks(start, plan, {}, w1, next1) && spec.name !in plan && !OneShot(spec.name)
    requires next1 <= next2 && IdsBelow(w2, next2) && OnlyAt(w1, w2, spec.name)
    requires Touched(Get(w1, spec.name), Get(w2, spec.name), spec, Forced(spec.name, start.force), start.me, next1)
    requires ok ==>
              Landed(Get(w1, spec.name), Get(w2, spec.name), spec, Forced(spec.name, start.force), start.me, next1)
    ensures Tracks(start, plan[spec.name := spec], if ok then {} else {spec.name}, w2, next2)
  {
    OpenTracks(start, plan, {}, w1, next1);
    GentleThenApply(start.world, w1, w2, plan, spec, start.force, start.me, start.floor, next1);
    forall n | n in plan
      ensures Landed(Get(start.world, n), Get(w2, n), plan[n], Forced(n, start.force), start.me, start.floor)
    {
      assert Get(w2, n) == Get(w1, n);
    }
  }

  lemma TracksOneShot(start: Start, plan: Plan, n: Name, w1: World, next1: nat, w2: World, next2: nat)
    requires Tracks(start, plan, {}, w1, next1) && OneShot(n)
    requires next1 <= next2 && IdsBelow(w2, next2) && OnlyAt(w1, w2, n)
    requires Elsewhere(n, Get(w1, n), Get(w2, n), start.me, next1)
    ensures Tracks(start, plan, {}, w2, next2)
  {
    OpenTracks(start, plan, {}, w1, next1);
    GentleThenOneShot(start.world, w1, w2, plan, n, start.force, start.me, start.floor, next1);
  }

  /** As `Gentle` with the whole plan landed, after pruning has removed some owned names outside it. */
  ghost predicate Swept(w: World, w': World, plan: Plan, force: set<Name>, me: string, floor: nat) {
    && Done(w, w', plan, force, me, floor)
    && (forall n :: n !in plan ==>
          || Elsewhere(n, Get(w, n), Get(w', n), me, floor)
          || (n !in w' && Owned(w, n, me)))
  }

  /** A completed pass: the plan has landed and nothing owned is left outside it. */
  ghost predicate Converged(w: World, w': World, plan: Plan, force: set<Name>, me: string, floor: nat) {
    && Swept(w, w', plan, force, me, floor)
    && (forall n :: Owned(w', n, me) ==> n in plan)
  }

  lemma SweepAfter(w0: World, w1: World, w2: World, plan: Plan, force: set<Name>, me: string, floor: nat)
    requires Gentle(w0, w1, plan, force, me, floor) && Done(w0, w1, plan, force, me, floor)
    requires forall n :: Get(w2, n) == Get(w1, n) || (n !in w2 && Owned(w1, n, me) && n !in plan)
    ensures Swept(w0, w2, plan, force, me, floor)
  {
    forall n | n !in plan
      ensures Elsewhere(n, Get(w0, n), Get(w2, n), me, floor) || (n !in w2 && Owned(w0, n, me))
    {
      assert Elsewhere(n, Get(w0, n), Get(w1, n), me, floor);
    }
  }

  /** The owned names are the planned ones, each started and labelled with the hash of its spec. */
  ghost predicate InPlace(w: World, plan: Plan, me: string) {
    && (forall n :: n in plan ==> n in w && w[n].running && w[n].hash == SpecHash(plan[n]))
    && (forall n :: Owned(w, n, me) <==> n in plan)
  }

  /**
   * From any world, a completed pass puts the plan in place exactly when no planned name was held, with the
   * hash the plan wants and without a forced recreate, by a container that is not ours: `Apply` takes such a
   * container for its own because it compares names and hashes but never the owner label.
   */
  lemma ConvergenceExact(w: World, w': World, plan: Plan, force: set<Name>, me: string, floor: nat)
    requires Converged(w, w', plan, force, me, floor)
    ensures forall n :: n in plan ==> n in w' && w'[n].running && w'[n].hash == SpecHash(plan[n])
    ensures InPlace(w', plan, me) <==>
            forall n :: n in plan && n in w && w[n].hash == SpecHash(plan[n]) && !Forced(n, force) ==> w[n].owner == me
  {
    forall n | n in plan
      ensures n in w' && w'[n].running && w'[n].hash == SpecHash(plan[n])
      ensures Owned(w', n, me) <==> (Matches(Get(w, n), plan[n]) && !Forced(n, force) ==> w[n].owner == me)
    {
      assert Landed(Get(w, n), Get(w', n), plan[n], Forced(n, force), me, floor);
    }
    if InPlace(w', plan, me) {
      forall n | n in plan && n in w && w[n].hash == SpecHash(plan[n]) && !Forced(n, force)
        ensures w[n].owner == me
      {
        assert Owned(w', n, me);
      }
    }
  }

  /** Such a container exists: foreign, running, and with the very hash; a completed pass need not touch it. */
  lemma ForeignContainerIsAdopted(spec: RunSpec, me: string, other: string) returns (w: World, plan: Plan)
    requires other != me
    ensures plan == map[spec.name := spec] && spec.name in w && w[spec.name].owner == other
    ensures Converged(w, w, plan, {}, me, 1) && !InPlace(w, plan, me)
  {
    w := map[spec.name := Container(0, other, spec.service, SpecHash(spec), true)];
    plan := map[spec.name := spec];
    assert Landed(Get(w, spec.name), Get(w, spec.name), spec, false, me, 1);
    assert spec.name in plan && !Owned(w, spec.name, me);
  }

  /** A pass over a world where its plan is already in place, with nothing forced, changes no container. */
  lemma SecondPassKeepsEverything(w: World, w': World, plan: Plan, force: set<Name>, me: string, floor: nat)
    requires InPlace(w, plan, me) && NoOneShots(plan)
    requires Converged(w, w', plan, force, me, floor)
    requires forall n :: n in plan ==> !Forced(n, force)
    ensures forall n :: !OneShot(n) ==> Get(w', n) == Get(w, n)
    ensures InPlace(w', plan, me)
  {
    forall n | !OneShot(n) ensures Get(w', n) == Get(w, n) {
      if n in plan {
        assert Landed(Get(w, n), Get(w', n), plan[n], Forced(n, force), me, floor);
      } else {
        assert !Owned(w, n, me);
      }
    }
    ConvergenceExact(w, w', plan, force, me, floor);
  }

  /** A forced name of a completed pass has a container that did not exist before the pass. */
  lemma ForcedIsRebuilt(w: World, w': World, plan: Plan, force: set<Name>, me: string, floor: nat, n: Name)
    requires Converged(w, w', plan, force, me, floor)
    requires forall m :: m in w ==> w[m].id < floor
    requires n in plan && n in force && n != AcmeDns
    ensures n in w' && w'[n].running && w'[n].owner == me && w'[n].hash == SpecHash(plan[n])
    ensures forall m :: m in w ==> w[m].id != w'[n].id
  {
    assert Landed(Get(w, n), Get(w', n), plan[n], Forced(n, force), me, floor);
  }

  /** A pass that stopped early removed only drifted or forced names of its plan, and one-shots. */
  lemma EarlyStopIsSafe(w: World, w': World, plan: Plan, force: set<Name>, me: string, floor: nat, n: Name)
    requires Gentle(w, w', plan, force, me, floor) && NoOneShots(plan)
    requires n in w && !OneShot(n)
    requires n !in w' || w'[n].id != w[n].id
    ensures n in plan && (w[n].hash != SpecHash(plan[n]) || Forced(n, force))
  {
    if n in plan {
      assert Touched(Get(w, n), Get(w', n), plan[n], Forced(n, force), me, floor);
    }
  }
}
