/** Rendering of secret maps into container environments (internal/deploy/env.go, envPort in specs.go). */
module Env {
  import opened Wrappers
  import opened Text

  type Secrets = map<string, string>

  const BASE_DOMAIN := "BASE_DOMAIN"
  const REFRESH_COOKIE_DOMAIN := "REFRESH_COOKIE_DOMAIN"
  const GITEA_BASE_URL := "GITEA_BASE_URL"
  const GITEA_ADMIN_TOKEN := "GITEA_ADMIN_TOKEN"
  const PORT := "PORT"
  const DefaultCorePort: nat := 3002

  /** `keys` lists the keys of `m`, each once, in ascending order. */
  ghost predicate Lists(keys: seq<string>, m: Secrets) {
    multiset(keys) == multiset(m.Keys) && Ascending(keys)
  }

  function Lines(keys: seq<string>, m: Secrets): (r: seq<string>)
    requires forall k :: k in keys ==> k in m
    ensures |r| == |keys|
    ensures forall i :: 0 <= i < |keys| ==> r[i] == keys[i] + "=" + m[keys[i]]
  {
    seq(|keys|, i requires 0 <= i < |keys| => keys[i] + "=" + m[keys[i]])
  }

  /** The keys in ascending order. */
  ghost function SortedKeys(s: set<string>): (keys: seq<string>)
    ensures multiset(keys) == multiset(s) && Ascending(keys)
  {
    if s == {} then []
    else
      var k :| k in s;
      assert s == (s - {k}) + {k};
      InsertAscends(k, SortedKeys(s - {k}));
      Insert(k, SortedKeys(s - {k}))
  }

  lemma KeysAreListed(keys: seq<string>, m: Secrets)
    requires Lists(keys, m)
    ensures forall k :: k in keys <==> k in m
  {
    assert forall k :: k in keys <==> k in multiset(keys);
  }

  /** The one environment slice that a map has. */
  ghost function Canonical(m: Secrets): seq<string> {
    var keys := SortedKeys(m.Keys);
    KeysAreListed(keys, m);
    Lines(keys, m)
  }

  /** Any ascending listing of the keys renders to the same slice. */
  lemma CanonicalFrom(keys: seq<string>, m: Secrets)
    requires Lists(keys, m)
    ensures forall k :: k in keys <==> k in m
    ensures Lines(keys, m) == Canonical(m)
  {
    KeysAreListed(keys, m);
    AscendingIsUnique(keys, SortedKeys(m.Keys));
  }

  /** The map is visited in whatever order the runtime picks (`:|`), and the keys are sorted afterwards. */
  method CollectKeys(m: Secrets) returns (keys: seq<string>)
    ensures Lists(keys, m)
  {
    keys := [];
    var todo := m.Keys;
    while todo != {}
      invariant multiset(keys) + multiset(todo) == multiset(m.Keys)
      decreases todo
    {
      var k :| k in todo;
      assert multiset(todo) == multiset(todo - {k}) + multiset{k};
      keys := keys + [k];
      todo := todo - {k};
    }
    SortAscends(keys);
    keys := Sort(keys);
  }

  /** The rendered slice is the canonical one, whatever order the map was visited in. */
  method MapToSortedSlice(m: Secrets) returns (out: seq<string>)
    ensures out == Canonical(m)
  {
    var keys := CollectKeys(m);
    CanonicalFrom(keys, m);
    out := [];
    for i := 0 to |keys|
      invariant out == Lines(keys, m)[..i]
    {
      out := out + [keys[i] + "=" + m[keys[i]]];
    }
  }

  /** The secret map with the values the agent is authoritative for put on top. */
  function CoreOverrides(coreEnv: Secrets, baseDomain: string, giteaURL: string, giteaToken: string): Secrets {
    var domain := if baseDomain != ""
      then coreEnv[BASE_DOMAIN := baseDomain][REFRESH_COOKIE_DOMAIN := baseDomain] else coreEnv;
    if giteaURL != "" then domain[GITEA_BASE_URL := giteaURL][GITEA_ADMIN_TOKEN := giteaToken] else domain
  }

  ghost function CoreEnv(coreEnv: Secrets, baseDomain: string, giteaURL: string, giteaToken: string): seq<string> {
    Canonical(CoreOverrides(coreEnv, baseDomain, giteaURL, giteaToken))
  }

  method RenderCoreEnv(coreEnv: Secrets, baseDomain: string, giteaURL: string, giteaToken: string)
    returns (env: seq<string>)
    ensures env == CoreEnv(coreEnv, baseDomain, giteaURL, giteaToken)
  {
    var overridden: Secrets := map[];
    var todo := coreEnv.Keys;
    while todo != {}
      invariant todo <= coreEnv.Keys
      invariant overridden == map k | k in coreEnv && k !in todo :: coreEnv[k]
      decreases todo
    {
      var k :| k in todo;
      overridden := overridden[k := coreEnv[k]];
      todo := todo - {k};
    }
    assert overridden == coreEnv;
    if baseDomain != "" {
      overridden := overridden[BASE_DOMAIN := baseDomain];
      overridden := overridden[REFRESH_COOKIE_DOMAIN := baseDomain];
    }
    if giteaURL != "" {
      overridden := overridden[GITEA_BASE_URL := giteaURL];
      overridden := overridden[GITEA_ADMIN_TOKEN := giteaToken];
    }
    env := MapToSortedSlice(overridden);
  }

  method RenderServiceEnv(commerceEnv: Secrets) returns (env: seq<string>)
    ensures env == Canonical(commerceEnv)
  {
    env := MapToSortedSlice(commerceEnv);
  }

  /** What a container reads back from its environment: each line split at its first `=`. */
  ghost function ReadBack(env: seq<string>): Secrets {
    if env == [] then map[]
    else
      var before := ReadBack(env[..|env| - 1]);
      match Cut(env[|env| - 1])
      case None => before
      case Some(kv) => before[kv.0 := kv.1]
  }

  lemma {:induction false} ReadBackLines(keys: seq<string>, m: Secrets)
    requires forall k :: k in keys ==> k in m && '=' !in k
    ensures ReadBack(Lines(keys, m)) == map k | k in m && k in keys :: m[k]
  {
    if keys != [] {
      var n := |keys| - 1;
      var lines := Lines(keys, m);
      assert lines[..n] == Lines(keys[..n], m);
      assert forall k :: k in keys[..n] ==> k in keys;
      ReadBackLines(keys[..n], m);
      CutRendered(keys[n], m[keys[n]]);
      assert keys == keys[..n] + [keys[n]];
    }
  }

  lemma {:induction false} ReadBackKeys(env: seq<string>, k: string)
    requires k in ReadBack(env)
    ensures exists i :: 0 <= i < |env| && Cut(env[i]).Some? && Cut(env[i]).value.0 == k
  {
    var n := |env| - 1;
    if Cut(env[n]).None? || Cut(env[n]).value.0 != k {
      ReadBackKeys(env[..n], k);
      var i :| 0 <= i < n && Cut(env[..n][i]).Some? && Cut(env[..n][i]).value.0 == k;
      assert env[..n][i] == env[i];
    }
  }

  /** A container reads back exactly the rendered map if and only if no key holds a `=`. */
  lemma {:induction false} EnvRoundTrip(m: Secrets)
    ensures ReadBack(Canonical(m)) == m <==> forall k :: k in m ==> '=' !in k
  {
    var keys := SortedKeys(m.Keys);
    CanonicalFrom(keys, m);
    if forall k :: k in m ==> '=' !in k {
      ReadBackLines(keys, m);
      assert (map k | k in m && k in keys :: m[k]) == m;
    } else {
      var bad :| bad in m && '=' in bad;
      if bad in ReadBack(Canonical(m)) {
        ReadBackKeys(Canonical(m), bad);
        var i :| 0 <= i < |keys| && Cut(Canonical(m)[i]).Some? && Cut(Canonical(m)[i]).value.0 == bad;
        CutRendered(keys[i], m[keys[i]]);
      }
    }
  }

  /** What one line says about the port: a positive decimal number under the name PORT. */
  function PortIn(line: string): Option<nat> {
    match Cut(line)
    case Some(kv) =>
      if kv.0 != PORT then None
      else (match Atoi(TrimSpace(kv.1))
            case Some(p) => if p > 0 then (var q: nat := p; Some(q)) else None
            case None => None)
    case None => None
  }

  /** The port a map configures, before any rendering. */
  function ConfiguredPort(m: Secrets): nat {
    if PORT in m && Atoi(TrimSpace(m[PORT])).Some? && Atoi(TrimSpace(m[PORT])).value > 0
    then Atoi(TrimSpace(m[PORT])).value else DefaultCorePort
  }

  /** The first line that carries a port decides; no such line, and the fallback does. */
  ghost predicate IsPortOf(env: seq<string>, fallback: nat, p: nat) {
    (exists i :: FirstPort(env, i) && p == PortIn(env[i]).value)
    || ((forall i :: 0 <= i < |env| ==> PortIn(env[i]).None?) && p == fallback)
  }

  ghost predicate FirstPort(env: seq<string>, i: int) {
    0 <= i < |env| && PortIn(env[i]).Some? && forall j :: 0 <= j < i ==> PortIn(env[j]).None?
  }

  method EnvPort(env: seq<string>, fallback: nat) returns (p: nat)
    ensures IsPortOf(env, fallback, p)
  {
    for i := 0 to |env|
      invariant forall j :: 0 <= j < i ==> PortIn(env[j]).None?
    {
      if PortIn(env[i]).Some? {
        assert FirstPort(env, i);
        return PortIn(env[i]).value;
      }
    }
    return fallback;
  }

  /** Whatever else the map holds, the rendered slice carries the port the map configures. */
  lemma PortSurvivesRendering(m: Secrets, p: nat)
    requires forall k :: k in m ==> '=' !in k
    requires IsPortOf(Canonical(m), DefaultCorePort, p)
    ensures p == ConfiguredPort(m)
  {
    var keys := SortedKeys(m.Keys);
    CanonicalFrom(keys, m);
    var env := Canonical(m);
    forall i | 0 <= i < |keys|
      ensures Cut(env[i]) == Some((keys[i], m[keys[i]]))
    {
      assert keys[i] in keys;
      CutRendered(keys[i], m[keys[i]]);
    }
    if PORT in m {
      assert PORT in keys;
      var i :| 0 <= i < |keys| && keys[i] == PORT;
      assert Cut(env[i]) == Some((PORT, m[PORT]));
    }
  }

  lemma {:induction false} SomeLineIsFirst(env: seq<string>, i: nat)
    requires i < |env| && PortIn(env[i]).Some?
    ensures exists j :: FirstPort(env, j)
  {
    if j: nat :| j < i && PortIn(env[j]).Some? {
      SomeLineIsFirst(env, j);
    } else {
      assert FirstPort(env, i);
    }
  }

  /** The port is determined by the slice, so every reader of the same slice gets the same one. */
  lemma {:induction false} PortIsDetermined(env: seq<string>, fallback: nat, p: nat, q: nat)
    requires IsPortOf(env, fallback, p) && IsPortOf(env, fallback, q)
    ensures p == q
  {
    forall i, j | FirstPort(env, i) && FirstPort(env, j) ensures i == j {
    }
  }

  lemma PortExists(env: seq<string>, fallback: nat)
    ensures exists p :: IsPortOf(env, fallback, p)
  {
    if i: nat :| i < |env| && PortIn(env[i]).Some? {
      SomeLineIsFirst(env, i);
      var j :| FirstPort(env, j);
      assert IsPortOf(env, fallback, PortIn(env[j]).value);
    } else {
      assert IsPortOf(env, fallback, fallback);
    }
  }

  /** `envPort(env, DefaultCorePort)` as a function of the slice. */
  ghost function PortOf(env: seq<string>): (p: nat)
    ensures IsPortOf(env, DefaultCorePort, p)
  {
    PortExists(env, DefaultCorePort);
    var p: nat :| IsPortOf(env, DefaultCorePort, p);
    p
  }
}
