/**
 * Guarded issuance of the one wildcard certificate (internal/deploy/acme.go, EnsureWildcard in nginx.go) and
 * the edge configuration derived from it.
 */
module Acme {
  import opened Guards
  import opened Wrappers
  import opened CloudApi
  import opened Dockerx
  import opened Env
  import opened Drift
  import opened Specs

  const RenewWindow: int := 30 * 24 * 3600

  datatype Outcome = Issued | AwaitingDNS | RateLimitedByCA | IssueError
  datatype WildcardResult = WildcardResult(delegation: Option<Delegation>, outcome: Outcome, certs: seq<CertReport>)

  function LowerChar(c: char): char {
    if 'A' <= c <= 'Z' then (c as int + 32) as char else c
  }

  function Lower(s: string): string {
    seq(|s|, i requires 0 <= i < |s| => LowerChar(s[i]))
  }

  predicate OccursAt(s: string, sub: string, i: int) {
    0 <= i <= |s| - |sub| && s[i..i + |sub|] == sub
  }

  predicate Contains(s: string, sub: string) {
    exists i :: 0 <= i <= |s| && OccursAt(s, sub, i)
  }

  predicate IsRateLimitError(text: string) {
    var s := Lower(text);
    Contains(s, "ratelimited") || Contains(s, "rate limit") || Contains(s, "too many") || Contains(s, "429")
  }

  predicate IsDNSPropagationError(text: string) {
    var s := Lower(text);
    Contains(s, "propagation") || Contains(s, "did not return the expected txt")
  }

  /** An issuance error is a throttle first, a wait for DNS second, and a failure otherwise. */
  function Classify(text: string): Outcome {
    if IsRateLimitError(text) then RateLimitedByCA
    else if IsDNSPropagationError(text) then AwaitingDNS
    else IssueError
  }

  // --- Pre-flight ---

  function TrimDot(s: string): string {
    if s != "" && s[|s| - 1] == '.' then s[..|s| - 1] else s
  }

  predicate SameHost(a: string, b: string) {
    Lower(TrimDot(a)) == Lower(TrimDot(b))
  }

  function Nameserver(base: string): string {
    "ns." + base
  }

  /** What one public resolver answers for the three records; `None` is a failed lookup. */
  datatype View = View(addresses: Option<seq<string>>, nameservers: Option<seq<string>>, cname: Option<string>)

  predicate ShowsAddress(v: View, ip: string) {
    v.addresses.Some? && ip in v.addresses.value
  }

  predicate ShowsZone(v: View, base: string) {
    v.nameservers.Some? && exists h :: h in v.nameservers.value && Lower(TrimDot(h)) == Lower(Nameserver(base))
  }

  predicate ShowsChallenge(v: View, target: string) {
    v.cname.Some? && SameHost(v.cname.value, target)
  }

  datatype Missing = NothingMissing | NoAddress | NoZone | NoChallenge

  /** Each of the three records is live on at least one resolver. */
  ghost predicate DelegationLive(views: seq<View>, base: string, ip: string, target: string) {
    && (exists v :: v in views && ShowsAddress(v, ip))
    && (exists v :: v in views && ShowsZone(v, base))
    && (target == "" || exists v :: v in views && ShowsChallenge(v, target))
  }

  /** Asks the resolvers one by one and stops at the first that confirms. */
  method AnyResolver(views: seq<View>, check: View -> bool) returns (found: bool)
    ensures found <==> exists v :: v in views && check(v)
  {
    for i := 0 to |views|
      invariant forall v :: v in views[..i] ==> !check(v)
    {
      if check(views[i]) {
        return true;
      }
    }
    return false;
  }

  method DnsDelegationReady(views: seq<View>, base: string, ip: string, target: string) returns (missing: Missing)
    ensures missing.NothingMissing? <==> DelegationLive(views, base, ip, target)
    ensures missing.NoZone? ==> exists v :: v in views && ShowsAddress(v, ip)
  {
    var found := AnyResolver(views, v => ShowsAddress(v, ip));
    if !found {
      return NoAddress;
    }
    found := AnyResolver(views, v => ShowsZone(v, base));
    if !found {
      return NoZone;
    }
    if target != "" {
      found := AnyResolver(views, v => ShowsChallenge(v, target));
      if !found {
        return NoChallenge;
      }
    }
    return NothingMissing;
  }

  // --- Certificates on disk ---

  /** A chain on disk and the key pair it belongs to. */
  datatype Chain = Chain(notAfter: int, pair: nat)

  /** `live/<base>/fullchain.pem` and `live/<base>/privkey.pem`, per base domain. */
  datatype Disk = Disk(chains: map<string, Chain>, keys: map<string, nat>)

  predicate NeedsIssue(chain: Option<Chain>, now: int) {
    chain.None? || chain.value.notAfter - now < RenewWindow
  }

  /** nginx can serve TLS: the chain is there together with its own key. */
  predicate Usable(disk: Disk, base: string) {
    base in disk.chains && base in disk.keys && disk.chains[base].pair == disk.keys[base]
  }

  /** Writing a certificate writes the chain, then the key; it can fail before either. */
  datatype Written = NothingWritten | ChainOnly | ChainAndKey

  function WriteCert(disk: Disk, base: string, chain: Chain, written: Written): Disk {
    match written
    case NothingWritten => disk
    case ChainOnly => disk.(chains := disk.chains[base := chain])
    case ChainAndKey => Disk(disk.chains[base := chain], disk.keys[base := chain.pair])
  }

  /**
   * A key that failed to reach the disk after its chain did leaves a certificate that no later attempt
   * replaces until the renew window, although nginx cannot use it: only the chain is looked at.
   */
  lemma TornWriteIsNotRetried(disk: Disk, base: string, chain: Chain, now: int)
    requires chain.notAfter - now >= RenewWindow
    requires base !in disk.keys || disk.keys[base] != chain.pair
    ensures var after := WriteCert(disk, base, chain, ChainOnly);
            !NeedsIssue(Some(after.chains[base]), now) && !Usable(after, base)
  {
  }

  /**
   * What one attempt looks at before it asks the certificate authority. `readable` matters only when no target
   * is remembered, because only then is the account file read.
   */
  datatype Look = Look(
    chain: Option<Chain>,   // the chain that was read from disk
    now: int,
    onDisk: bool,           // an acme-dns account is persisted
    remembered: bool,       // the CNAME target is remembered from an earlier attempt
    readable: bool,         // the persisted account could be read
    ready: bool)            // the delegation check succeeded
  {
    /** The CNAME target is known, so the delegation can be checked first. */
    predicate Known() {
      remembered || (onDisk && readable)
    }

    /** The authority is asked. */
    predicate Asks() {
      NeedsIssue(chain, now) && (Known() ==> ready)
    }
  }

  /** A call was needed, and it was pre-flighted exactly when the target was known. */
  predicate Guarded(c: Look) {
    NeedsIssue(c.chain, c.now) && (c.ready <==> c.Known())
  }

  datatype NginxConf = HttpOnly | Https(base: string, corePort: nat, routes: seq<DomainRoute>)

  /** Cert-aware: HTTPS blocks appear once a chain for the base domain exists. */
  function RenderNginxConf(disk: Disk, base: string, corePort: nat, routes: seq<DomainRoute>): NginxConf {
    if base == "" || base !in disk.chains then HttpOnly else Https(base, corePort, routes)
  }

  /** The edge's files on the host. */
  class EdgeHost {
    var disk: Disk
    var account: Option<string>     // fulldomain of the persisted acme-dns account
    var conf: Option<NginxConf>
    ghost var calls: seq<Look>      // the calls to the authority, with what was seen before each

    ghost const turn: Bookmark<seq<Look>>
    ghost const pass: Bookmark<seq<Look>>

    predicate OnDisk()
      reads this`account
    {
      account.Some? && account.value != ""
    }

    ghost predicate Sound()
      reads this`account, this`calls, turn, pass
    {
      && turn != pass && turn.kept <= calls && pass.kept <= calls
      && (forall i :: 0 <= i < |calls| ==> Guarded(calls[i]))
      && (forall i, j :: 0 <= i < j < |calls| && calls[i].onDisk ==> calls[j].onDisk)
      && (forall i :: 0 <= i < |calls| && calls[i].onDisk ==> OnDisk())
    }

    /** `Sound`, to be opened with `OpenValid` only. */
    ghost predicate Valid()
      reads this`account, this`calls, turn, pass
    {
      forall k {:trigger EdgeGuard(k)} :: EdgeGuard(k) ==> Sound()
    }

    lemma OpenValid()
      requires Valid()
      ensures Sound()
    {
      assert EdgeGuard(0);
    }

    constructor (disk: Disk, account: Option<string>, conf: Option<NginxConf>)
      ensures Valid() && this.disk == disk && this.account == account && this.conf == conf && calls == []
      ensures fresh(turn) && fresh(pass)
    {
      turn := new Bookmark([]);
      pass := new Bookmark([]);
      this.disk := disk;
      this.account := account;
      this.conf := conf;
      this.calls := [];
    }

    /** Sets a bookmark. */
    ghost method Remember(mark: Bookmark<seq<Look>>)
      requires Valid() && mark in {turn, pass}
      modifies mark
      ensures Valid() && mark.kept == calls && turn != pass
    {
      OpenValid();
      mark.kept := calls;
    }

    /** The CNAME target from the persisted account, if that can be read. */
    method AcmeDNSTarget() returns (target: string, readable: bool)
      ensures target == if OnDisk() && readable then account.value else ""
    {
      readable := *;
      target := if account.Some? && readable then account.value else "";
    }

    method ReadCerts(base: string) returns (certs: seq<CertReport>)
    {
      certs := if base in disk.chains then [CertReport(base, disk.chains[base].notAfter)] else [];
    }

    /**
     * The only place that talks to the certificate authority. Obtaining can register the acme-dns account,
     * ask for the one-time CNAME, issue, or fail with any text.
     */
    method IssueWildcard(base: string, ip: string, ghost look: Look)
      returns (delegation: Option<Delegation>, issued: bool, err: Option<string>, ghost chain: Chain,
               ghost written: Written)
      requires Valid() && Guarded(look) && base != ""
      requires look.onDisk == OnDisk()
      requires forall i :: 0 <= i < |calls| && calls[i].onDisk ==> look.onDisk
      modifies this`disk, this`account, this`calls
      ensures Valid() && calls == old(calls) + [look]
      ensures old(OnDisk()) ==> account == old(account)
      ensures disk == WriteCert(old(disk), base, chain, written)
      ensures issued <==> written.ChainAndKey?
      ensures issued ==> err.None? && delegation.None? && Usable(disk, base)
      ensures delegation.Some? ==> err.None? && OnDisk() && delegation == Some(Delegation(base, account.value, ip))
      ensures written.ChainOnly? ==> err.Some?
    {
      OpenValid();
      delegation, issued, err := None, false, None;
      chain, written := Chain(0, 0), NothingWritten;
      calls := calls + [look];
      if !OnDisk() {
        var registered: bool, fulldomain: string := *, *;
        if registered && fulldomain != "" {
          account := Some(fulldomain);
        }
      }
      var refused: bool := *;
      if refused {
        var text: string := *;
        err := Some(text);
        return;
      }
      var cnameRequired: bool := *;
      if cnameRequired && OnDisk() {
        delegation := Some(Delegation(base, account.value, ip));
        return;
      }
      var obtained: Chain, reached: Written := *, *;
      chain, written := obtained, reached;
      disk := WriteCert(disk, base, obtained, reached);
      if !reached.ChainAndKey? {
        err := Some("write certificate");
        return;
      }
      issued := true;
    }
  }

  /** Host directories, public IP, acme-dns configuration, and acme-dns itself. */
  method BringUpAcmeDns(dx: Client) returns (ip: string, err: Option<string>)
    requires IdsBelow(dx.containers, dx.nextId)
    modifies dx
    ensures IdsBelow(dx.containers, dx.nextId) && old(dx.nextId) <= dx.nextId
    ensures OnlyAt(old(dx.containers), dx.containers, AcmeDns)
    ensures Touched(old(Get(dx.containers, AcmeDns)), Get(dx.containers, AcmeDns), AcmeDnsSpec(), false,
                    dx.deploymentID, old(dx.nextId))
    ensures err.None? ==>
              Landed(old(Get(dx.containers, AcmeDns)), Get(dx.containers, AcmeDns), AcmeDnsSpec(), false,
                     dx.deploymentID, old(dx.nextId))
  {
    ip := *;
    err := dx.Fault(); // host directories
    if err.Some? {
      return;
    }
    err := dx.Fault();
    if err.Some? || ip == "" {
      err := Some("resolve public IP");
      return;
    }
    err := dx.Fault(); // acme-dns configuration
    if err.Some? {
      return;
    }
    err := Apply(dx, AcmeDnsSpec(), {});
  }

  predicate Remembers(prev: Option<Delegation>) {
    prev.Some? && prev.value.target != ""
  }

  /**
   * What one attempt did with what it looked at: whether the authority was asked, what is on disk, and the
   * outcome that goes with it.
   */
  ghost predicate Attempted(look: Look, res: WildcardResult, err: Option<string>, base: string, was: Disk, disk: Disk) {
    && (look.chain.Some? ==> base in was.chains && look.chain.value == was.chains[base])
    && (!look.Asks() ==>
          disk == was && res.outcome == if NeedsIssue(look.chain, look.now) then AwaitingDNS else Issued)
    && (look.Asks() && err.Some? ==> res.outcome == Classify(err.value))
    && (look.Asks() && err.None? ==> res.outcome in {Issued, AwaitingDNS})
    && (res.outcome == IssueError ==> err.Some?)
    && (res.outcome == Issued ==>
          && base in disk.chains
          && (Usable(disk, base) <==> NeedsIssue(look.chain, look.now) || Usable(was, base)))
  }

  /** The records of a delegation belong to another base domain. */
  predicate Stale(delegation: Option<Delegation>, base: string) {
    delegation.Some? && delegation.value.base != base
  }

  /**
   * What is reported of the delegation: nothing once issued, the records the authority has just asked for, or else
   * those remembered, whatever base domain they were for. So records of another base are reported if and only if
   * they were remembered and the attempt neither issued nor was handed new ones.
   */
  ghost predicate Surfaced(res: WildcardResult, base: string, prev: Option<Delegation>, handed: Option<Delegation>) {
    && (handed.Some? ==> res.outcome == AwaitingDNS && handed.value.base == base)
    && (res.outcome == Issued ==> res.delegation.None?)
    && (res.outcome != Issued && (handed.Some? || prev.Some?) ==>
          res.delegation == if handed.Some? then handed else prev)
    && (Stale(res.delegation, base) <==> res.outcome != Issued && handed.None? && Stale(prev, base))
  }

  /** The CNAME target, if one is known, the records to report for it, and whether they are live. */
  method PreFlight(edge: EdgeHost, base: string, ip: string, prev: Option<Delegation>)
    returns (haveAccount: bool, ready: bool, del: Option<Delegation>, ghost readable: bool)
    ensures haveAccount <==> Remembers(prev) || (edge.OnDisk() && readable)
    ensures ready ==> haveAccount
    ensures if prev.Some? then del == prev else del.Some? ==> del.value.base == base
  {
    var target := if prev.Some? then prev.value.target else "";
    readable := false;
    if target == "" {
      var known;
      target, known := edge.AcmeDNSTarget();
      readable := known;
    }
    haveAccount := target != "";
    del := if prev.None? && haveAccount then Some(Delegation(base, target, ip)) else prev;
    ready := false;
    if haveAccount {
      var views: seq<View> := *;
      var missing := DnsDelegationReady(views, base, ip, target);
      ready := missing.NothingMissing?;
    }
  }

  /** The call to the authority, and what its answer comes to. */
  method Obtain(edge: EdgeHost, base: string, ip: string, remembered: Option<Delegation>, ghost look: Look)
    returns (res: WildcardResult, err: Option<string>, ghost handed: Option<Delegation>)
    requires edge.Valid() && base != "" && Guarded(look) && look.onDisk == edge.OnDisk()
    requires forall i :: 0 <= i < |edge.calls| && edge.calls[i].onDisk ==> look.onDisk
    requires look.chain.Some? ==> base in edge.disk.chains && look.chain.value == edge.disk.chains[base]
    modifies edge`disk, edge`account, edge`calls
    ensures edge.Valid() && edge.calls == old(edge.calls) + [look]
    ensures old(edge.OnDisk()) ==> edge.account == old(edge.account)
    ensures Attempted(look, res, err, base, old(edge.disk), edge.disk)
    ensures Surfaced(res, base, remembered, handed) && (handed.Some? ==> err.None?)
  {
    var certs := edge.ReadCerts(base);
    var del := remembered;
    handed := None;
    var newDel, issued;
    ghost var c, w;
    newDel, issued, err, c, w := edge.IssueWildcard(base, ip, look);
    if err.Some? {
      var outcome := Classify(err.value);
      if outcome == AwaitingDNS && del.None? {
        var t, _ := edge.AcmeDNSTarget();
        if t != "" {
          del := Some(Delegation(base, t, ip));
        }
      }
      return WildcardResult(del, outcome, certs), err, handed;
    }
    if newDel.Some? {
      return WildcardResult(newDel, AwaitingDNS, certs), None, newDel;
    }
    if issued {
      certs := edge.ReadCerts(base);
      return WildcardResult(None, Issued, certs), None, handed;
    }
    return WildcardResult(del, AwaitingDNS, certs), None, handed;
  }

  /**
   * Let's Encrypt is asked exactly when the chain on disk is missing or expiring and, where a CNAME target is
   * known, the delegation was seen live.
   */
  method IssueIfNeeded(edge: EdgeHost, base: string, ip: string, prev: Option<Delegation>, now: int)
    returns (res: WildcardResult, err: Option<string>, ghost look: Look, ghost handed: Option<Delegation>)
    requires edge.Valid() && base != ""
    modifies edge`disk, edge`account, edge`calls
    ensures edge.Valid()
    ensures look.now == now && look.onDisk == old(edge.OnDisk()) && look.remembered == Remembers(prev)
    ensures look.ready ==> look.Known()
    ensures edge.calls == old(edge.calls) + (if look.Asks() then [look] else [])
    ensures old(edge.OnDisk()) ==> edge.account == old(edge.account)
    ensures Attempted(look, res, err, base, old(edge.disk), edge.disk)
    ensures Surfaced(res, base, prev, handed) && (handed.Some? ==> look.Asks() && err.None?)
  {
    edge.OpenValid();
    handed := None;
    var certs := edge.ReadCerts(base);
    var parseable: bool := *;
    var chain := if base in edge.disk.chains && parseable then Some(edge.disk.chains[base]) else None;
    look := Look(chain, now, edge.OnDisk(), Remembers(prev), false, false);
    if !NeedsIssue(chain, now) {
      return WildcardResult(None, Issued, certs), None, look, handed;
    }
    ghost var readable;
    var haveAccount, ready, del;
    haveAccount, ready, del, readable := PreFlight(edge, base, ip, prev);
    look := Look(chain, now, edge.OnDisk(), Remembers(prev), readable, ready);
    if haveAccount && !ready {
      return WildcardResult(del, AwaitingDNS, certs), Some("dns delegation not ready"), look, handed;
    }
    res, err, handed := Obtain(edge, base, ip, del, look);
  }

  /** Brings up acme-dns and makes sure of the wildcard; without acme-dns nothing is looked at. */
  method EnsureWildcard(dx: Client, edge: EdgeHost, ds: DesiredState, prev: Option<Delegation>, now: int)
    returns (res: WildcardResult, err: Option<string>, ghost look: Option<Look>, ghost handed: Option<Delegation>)
    requires IdsBelow(dx.containers, dx.nextId) && edge.Valid() && ds.baseDomain != ""
    modifies dx, edge`disk, edge`account, edge`calls
    ensures IdsBelow(dx.containers, dx.nextId) && edge.Valid() && old(dx.nextId) <= dx.nextId
    ensures OnlyAt(old(dx.containers), dx.containers, AcmeDns)
    ensures Touched(old(Get(dx.containers, AcmeDns)), Get(dx.containers, AcmeDns), AcmeDnsSpec(), false,
                    dx.deploymentID, old(dx.nextId))
    ensures look.Some? || res.outcome != IssueError ==>
              Landed(old(Get(dx.containers, AcmeDns)), Get(dx.containers, AcmeDns), AcmeDnsSpec(), false,
                     dx.deploymentID, old(dx.nextId))
    ensures old(edge.OnDisk()) ==> edge.account == old(edge.account)
    ensures look.None? ==>
              res.outcome == IssueError && err.Some? && edge.calls == old(edge.calls) && edge.disk == old(edge.disk)
    ensures look.Some? ==>
      && look.value.now == now && look.value.onDisk == old(edge.OnDisk()) && look.value.remembered == Remembers(prev)
      && edge.calls == old(edge.calls) + (if look.value.Asks() then [look.value] else [])
      && Attempted(look.value, res, err, ds.baseDomain, old(edge.disk), edge.disk)
      && Surfaced(res, ds.baseDomain, prev, handed)
    ensures look.None? ==> res.delegation.None?
  {
    handed := None;
    var ip;
    ip, err := BringUpAcmeDns(dx);
    if err.Some? {
      return WildcardResult(None, IssueError, []), err, None, None;
    }
    ghost var seen;
    res, err, seen, handed := IssueIfNeeded(edge, ds.baseDomain, ip, prev, now);
    look := Some(seen);
  }

  /** Renders the edge configuration, syncs the web bundles and applies nginx. */
  method EnsureNginx(dx: Client, edge: EdgeHost, ds: DesiredState, coreEnv: seq<string>, force: set<Name>)
    returns (certs: seq<CertReport>, err: Option<string>)
    requires IdsBelow(dx.containers, dx.nextId)
    modifies dx, edge`conf
    ensures IdsBelow(dx.containers, dx.nextId) && old(dx.nextId) <= dx.nextId
    ensures OnlyAt(old(dx.containers), dx.containers, Nginx)
    ensures Touched(old(Get(dx.containers, Nginx)), Get(dx.containers, Nginx), NginxSpec(ds), Nginx in force,
                    dx.deploymentID, old(dx.nextId))
    ensures err.None? ==>
      && Landed(old(Get(dx.containers, Nginx)), Get(dx.containers, Nginx), NginxSpec(ds), Nginx in force,
                dx.deploymentID, old(dx.nextId))
      && edge.conf == Some(WantedConf(edge.disk, ds, coreEnv))
  {
    certs := [];
    var corePort := EnvPort(coreEnv, DefaultCorePort);
    PortIsDetermined(coreEnv, DefaultCorePort, corePort, PortOf(coreEnv));
    var routes := DerivedRoutes(ds.baseDomain, corePort, ds.GiteaOn());
    err := dx.Fault();
    var hostBundleReady: bool := *;
    if err.Some? && !hostBundleReady {
      return; // a failed bundle sync is only tolerated once the host bundle is in place
    }
    var next := RenderNginxConf(edge.disk, ds.baseDomain, corePort, routes);
    var changed := edge.conf != Some(next);
    if changed {
      err := dx.Fault();
      if err.Some? {
        return;
      }
      edge.conf := Some(next);
    }
    err := Apply(dx, NginxSpec(ds), force);
    if err.Some? {
      return;
    }
    if changed {
      var _, _ := dx.Exec(Nginx); // reload; its result is ignored
    }
    certs := edge.ReadCerts(ds.baseDomain);
  }

  /** What nginx is to serve, as a function of the disk, the desired state and core-server's environment. */
  ghost function WantedConf(disk: Disk, ds: DesiredState, coreEnv: seq<string>): NginxConf {
    var port := PortOf(coreEnv);
    RenderNginxConf(disk, ds.baseDomain, port, DerivedRoutes(ds.baseDomain, port, ds.GiteaOn()))
  }

  /**
   * Once an account is persisted, a later call was made with the delegation seen live if and only if the target
   * was remembered or the account file could be read.
   */
  lemma LaterCallsArePreflighted(edge: EdgeHost, i: nat, j: nat)
    requires edge.Valid() && i <= j < |edge.calls| && edge.calls[i].onDisk
    ensures edge.calls[j].ready <==> edge.calls[j].remembered || edge.calls[j].readable
    ensures edge.calls[j].onDisk && NeedsIssue(edge.calls[j].chain, edge.calls[j].now)
  {
    edge.OpenValid();
    assert Guarded(edge.calls[j]);
  }

  /**
   * An instance: an account is persisted, its file cannot be read, and no target is remembered, as after a
   * restart. A missing certificate is then asked for with no look at the delegation.
   */
  method UnreadableAccountIsNotPreflighted(edge: EdgeHost, base: string, ip: string, now: int)
    returns (ghost readable: bool)
    requires edge.Valid() && base != "" && edge.OnDisk() && base !in edge.disk.chains
    modifies edge`disk, edge`account, edge`calls
    ensures !readable ==>
              edge.calls == old(edge.calls) + [Look(None, now, true, false, false, false)]
  {
    var _, _, look, _ := IssueIfNeeded(edge, base, ip, None, now);
    readable := look.readable;
  }

  /**
   * An instance: the base domain has changed since the records were remembered. As long as the old ones are not
   * live, they go on being reported and no certificate is asked for.
   */
  method StaleDelegationIsReported(edge: EdgeHost, base: string, ip: string, prev: Option<Delegation>, now: int)
    returns (res: WildcardResult, ghost ready: bool)
    requires edge.Valid() && base != "" && base !in edge.disk.chains && Stale(prev, base) && Remembers(prev)
    modifies edge`disk, edge`account, edge`calls
    ensures !ready ==> res.outcome == AwaitingDNS && res.delegation == prev && edge.calls == old(edge.calls)
  {
    ghost var look, handed;
    var err;
    res, err, look, handed := IssueIfNeeded(edge, base, ip, prev, now);
    ready := look.ready;
  }
}
