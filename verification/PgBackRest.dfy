/** Backup secrets, reported state and rendered configuration (internal/deploy/pgbackrest.go). */
module PgBackRest {
  import opened Wrappers
  import opened CloudApi
  import opened Dockerx
  import opened Env
  import opened Specs
  import Text

  const REPO1_PASS := "PGBACKREST_REPO1_CIPHER_PASS"
  const REPO2_PASS := "PGBACKREST_REPO2_CIPHER_PASS"
  const S3_ENDPOINT := "S3_ENDPOINT"
  const S3_BUCKET := "S3_BUCKET"
  const S3_ACCESS_KEY_ID := "S3_ACCESS_KEY_ID"
  const S3_SECRET_ACCESS_KEY := "S3_SECRET_ACCESS_KEY"
  const S3_REGION := "S3_REGION"
  const S3Keys: seq<string> := [S3_ENDPOINT, S3_BUCKET, S3_ACCESS_KEY_ID, S3_SECRET_ACCESS_KEY]

  datatype BackupState = Off | Local | LocalAndOffsite
  datatype Trigger = Initial | Scheduled | Manual | FinalTrigger

  /** Everything a backup needs is there: repo1's passphrase, and all of S3 once repo2 is asked for. */
  ghost predicate Valid(env: Secrets) {
    && !Blank(Value(env, REPO1_PASS))
    && (!Blank(Value(env, REPO2_PASS)) ==> forall k :: k in S3Keys ==> !Blank(Value(env, k)))
  }

  method ValidateBackupSecrets(env: Secrets) returns (missing: seq<string>)
    ensures missing == [] <==> Valid(env)
    ensures forall k :: k in missing <==>
              Blank(Value(env, k)) && (k == REPO1_PASS || (k in S3Keys && !Blank(Value(env, REPO2_PASS))))
  {
    missing := [];
    if Blank(Value(env, REPO1_PASS)) {
      missing := missing + [REPO1_PASS];
    }
    if !Blank(Value(env, REPO2_PASS)) {
      var before := missing;
      for i := 0 to |S3Keys|
        invariant forall k :: k in missing <==> k in before || (k in S3Keys[..i] && Blank(Value(env, k)))
        invariant before <= missing
      {
        assert S3Keys[..i + 1] == S3Keys[..i] + [S3Keys[i]];
        if Blank(Value(env, S3Keys[i])) {
          missing := missing + [S3Keys[i]];
        }
      }
      assert S3Keys[..|S3Keys|] == S3Keys;
    }
    assert missing == [] <==> forall k :: k !in missing by {
      if missing != [] {
        assert missing[0] in missing;
      }
    }
  }

  function StateOf(env: Secrets): BackupState {
    if Blank(Value(env, REPO2_PASS)) then Local else LocalAndOffsite
  }

  datatype Section = GlobalSection | CoreSection
  datatype Setting =
    | Header(section: Section)
    | RepoPath(repo: nat)
    | Retention(repo: nat, full: int)
    | CipherPass(repo: nat, pass: string)
    | S3(repo: nat, endpoint: string, bucket: string, region: string, key: string, secret: string)
    | Compression
    | PgUser(user: string)

  function RetentionOf(ds: DesiredState): int {
    if ds.components.database.Some? && ds.components.database.value.backup.Some?
       && ds.components.database.value.backup.value.retention >= 1
    then ds.components.database.value.backup.value.retention else 4
  }

  predicate HasOffsite(env: Secrets) {
    && Value(env, REPO2_PASS) != "" && Value(env, S3_ENDPOINT) != "" && Value(env, S3_BUCKET) != ""
    && Value(env, S3_ACCESS_KEY_ID) != "" && Value(env, S3_SECRET_ACCESS_KEY) != ""
  }

  /** The configuration, setting by setting. */
  method RenderPgBackRestConf(ds: DesiredState, env: Secrets, pgUser: string) returns (conf: seq<Setting>)
    ensures Encrypted(conf, 1)
    ensures CipherPass(1, Value(env, REPO1_PASS)) in conf && Retention(1, RetentionOf(ds)) in conf
    ensures PgUser(pgUser) in conf
    ensures HasOffsite(env) ==> CompleteOffsite(conf, env, RetentionOf(ds))
    ensures !HasOffsite(env) ==> !MentionsOffsite(conf)
  {
    var retention := RetentionOf(ds);
    var b := [Header(GlobalSection), RepoPath(1), Retention(1, retention), CipherPass(1, Value(env, REPO1_PASS))];
    assert b[3] == CipherPass(1, Value(env, REPO1_PASS)) && b[2] == Retention(1, retention);
    assert !MentionsOffsite(b);
    ghost var first := b;
    if HasOffsite(env) {
      var region := if Value(env, S3_REGION) == "" then "auto" else Value(env, S3_REGION);
      var offsite := [S3(2, Value(env, S3_ENDPOINT), Value(env, S3_BUCKET), region, Value(env, S3_ACCESS_KEY_ID),
                         Value(env, S3_SECRET_ACCESS_KEY)),
                      RepoPath(2), Retention(2, retention), CipherPass(2, Value(env, REPO2_PASS))];
      assert offsite[0] == OffsiteStore(env) && offsite[2] == Retention(2, retention)
          && offsite[3] == CipherPass(2, Value(env, REPO2_PASS));
      b := b + offsite;
      assert OffsiteStore(env) in b && Retention(2, retention) in b && CipherPass(2, Value(env, REPO2_PASS)) in b;
    }
    var tail := [Compression, Header(CoreSection), PgUser(pgUser)];
    assert tail[2] == PgUser(pgUser);
    conf := b + tail;
    assert forall s :: s in b ==> s in conf;
    assert forall s :: s in first ==> s in b;
    assert forall s :: s in conf ==> s in b || s in tail;
  }

  ghost predicate Encrypted(conf: seq<Setting>, repo: nat) {
    exists pass :: CipherPass(repo, pass) in conf
  }

  ghost predicate MentionsOffsite(conf: seq<Setting>) {
    exists s :: s in conf && (s.S3? || (s.CipherPass? && s.repo == 2))
  }

  function OffsiteStore(env: Secrets): Setting {
    S3(2, Value(env, S3_ENDPOINT), Value(env, S3_BUCKET),
       if Value(env, S3_REGION) == "" then "auto" else Value(env, S3_REGION),
       Value(env, S3_ACCESS_KEY_ID), Value(env, S3_SECRET_ACCESS_KEY))
  }

  /** repo2 is fully configured and encrypted. */
  ghost predicate CompleteOffsite(conf: seq<Setting>, env: Secrets, retention: int) {
    && OffsiteStore(env) in conf
    && Retention(2, retention) in conf
    && CipherPass(2, Value(env, REPO2_PASS)) in conf
  }

  lemma NonBlankIsNonEmpty(s: string)
    ensures !Blank(s) ==> s != ""
  {
    Text.TrimmedEmptyIffBlank(s);
  }

  /** Once the secrets validate, a reported offsite repository is really configured. */
  lemma ReportedOffsiteIsConfigured(env: Secrets)
    requires Valid(env) && StateOf(env) == LocalAndOffsite
    ensures HasOffsite(env)
  {
    NonBlankIsNonEmpty(Value(env, REPO2_PASS));
    forall k | k in S3Keys ensures Value(env, k) != "" {
      NonBlankIsNonEmpty(Value(env, k));
    }
    assert S3Keys[0] == S3_ENDPOINT && S3Keys[1] == S3_BUCKET;
    assert S3Keys[2] == S3_ACCESS_KEY_ID && S3Keys[3] == S3_SECRET_ACCESS_KEY;
    assert S3Keys[0] in S3Keys && S3Keys[1] in S3Keys && S3Keys[2] in S3Keys && S3Keys[3] in S3Keys;
  }

  /** repo2's passphrase is white space only, yet every S3 value has a character in it. */
  predicate BlankSwitch(env: Secrets) {
    Blank(Value(env, REPO2_PASS)) && HasOffsite(env)
  }

  /**
   * The reported state and the rendered configuration disagree in one case only: one side trims the
   * passphrase and the other does not, so a passphrase of white space configures a repository that is
   * reported as absent.
   */
  lemma StateAgreesWithConf(env: Secrets)
    requires Valid(env)
    ensures (StateOf(env) == LocalAndOffsite <==> HasOffsite(env)) <==> !BlankSwitch(env)
  {
    if StateOf(env) == LocalAndOffsite {
      ReportedOffsiteIsConfigured(env);
    }
  }

  /** Such an environment exists and passes validation. */
  lemma BlankSwitchWitness() returns (env: Secrets)
    ensures Valid(env) && BlankSwitch(env) && StateOf(env) == Local
  {
    env := map[S3_ENDPOINT := "e", S3_BUCKET := "b", S3_ACCESS_KEY_ID := "k", S3_SECRET_ACCESS_KEY := "s"];
    env := env[REPO1_PASS := "p"];
    env := env[REPO2_PASS := " "];
    assert |REPO1_PASS| == |REPO2_PASS| == 28 && REPO1_PASS[15] != REPO2_PASS[15];
    assert |S3_ENDPOINT| == 11 && |S3_BUCKET| == 9 && |S3_ACCESS_KEY_ID| == 16 && |S3_SECRET_ACCESS_KEY| == 20;
    assert Value(env, REPO1_PASS) == "p" && Value(env, REPO2_PASS) == " ";
    Text.TrimmedEmptyIffBlank(" ");
    Text.TrimmedEmptyIffBlank("p");
    assert 'p' in "p";
  }

  /** Runs pgBackRest inside the Postgres container. */
  method RunBackup(dx: Client, kind: BackupKind, trigger: Trigger) returns (err: Option<string>)
    ensures err.None? ==> Postgres in dx.containers
  {
    var code;
    code, err := dx.Exec(Postgres);
    if err.None? && code != 0 {
      err := Some("backup failed");
    }
  }
}
