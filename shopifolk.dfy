/**
 * ShopifyCli::Shopifolk: decides whether the user appears to be Shopify staff
 * and remembers the answer in the persistent `shopifolk` feature flag, and
 * keeps the class-level "acting as the Shopify organization" flag.
 *
 * The environment the source reads (the gcloud configuration file, the
 * existence of two paths under /opt/dev, the current project's config) is an
 * explicit `Environment` or `Option<ProjectConfig>` argument; the feature
 * store is a `FeatureStore` object holding the set of enabled feature names.
 */
module ShopifyCli {
  import opened Wrappers

  /** A parsed ini file: section header (with brackets) to key to value; values stay strings. */
  type Ini = map<string, map<string, string>>

  /** A Ruby value as far as truthiness goes. */
  datatype RubyValue = Nil | Boolean(b: bool) | Text(s: string) | Number(n: int)

  /** A project's configuration. */
  type ProjectConfig = map<string, RubyValue>

  /**
   * What the heuristics observe: the parsed gcloud default configuration
   * (None when that file does not exist) and the set of paths that exist.
   */
  datatype Environment = Environment(gcloudConfig: Option<Ini>, existingPaths: set<string>)

  const DEV_PATH := "/opt/dev"
  const SECTION := "core"
  const FEATURE_NAME := "shopifolk"

  /** Ruby truthiness: everything but nil and false. */
  predicate Truthy(v: RubyValue) {
    v != Nil && v != Boolean(false)
  }

  // ---------------------------------------------------------------------------
  // The heuristics

  /**
   * `account =~ /@shopify.com\z/`: the account ends in "@shopify", one
   * character other than a newline (the dot is not escaped), then "com".
   */
  predicate MatchesShopifyDomain(account: string)
    ensures MatchesShopifyDomain(account) <==> exists user, c :: SplitsAsShopifyAccount(account, user, c)
  {
    var n := |account|;
    assert forall user, c :: SplitsAsShopifyAccount(account, user, c) ==>
      n >= 12 && account[n - 12..n - 4] == "@shopify" && account[n - 4] != '\n' && account[n - 3..] == "com"
    by {
      forall user, c | SplitsAsShopifyAccount(account, user, c)
        ensures n >= 12 && account[n - 12..n - 4] == "@shopify" && account[n - 4] != '\n' && account[n - 3..] == "com"
      {
        assert account[n - 12..n - 4] == "@shopify";
        assert account[n - 3..] == "com";
      }
    }
    if n >= 12 && account[n - 12..n - 4] == "@shopify" && account[n - 4] != '\n' && account[n - 3..] == "com" then
      assert account == account[..n - 12] + account[n - 12..n - 4] + [account[n - 4]] + account[n - 3..];
      assert SplitsAsShopifyAccount(account, account[..n - 12], account[n - 4]);
      true
    else
      false
  }

  /** `account` is some user part, "@shopify", the wildcard character `c`, and "com". */
  ghost predicate SplitsAsShopifyAccount(account: string, user: string, c: char) {
    c != '\n' && account == user + "@shopify" + [c] + "com"
  }

  /** `ini&.dig("[core]", "account")`: the `account` key of the `[core]` section, when both exist. */
  function Account(ini: Option<Ini>): (account: Option<string>)
    ensures account.Some? <==> ini.Some? && "[core]" in ini.value && "account" in ini.value["[core]"]
    ensures account.Some? ==> account.value == ini.value["[core]"]["account"]
  {
    assert "[" + SECTION + "]" == "[core]";
    var section := "[" + SECTION + "]";
    if ini.Some? && section in ini.value && "account" in ini.value[section] then Some(ini.value[section]["account"])
    else None
  }

  /**
   * `shopifolk_by_gcloud?`: there is an account in `[core]` and it matches
   * the regex, read as a user part, "@shopify", a wildcard, "com".
   */
  predicate ShopifolkByGcloud(ini: Option<Ini>)
    ensures ShopifolkByGcloud(ini) <==>
            Account(ini).Some? && exists user, c :: SplitsAsShopifyAccount(Account(ini).value, user, c)
  {
    match Account(ini)
    case None => false
    case Some(account) => MatchesShopifyDomain(account)
  }

  /** `shopifolk_by_dev?`: the `dev` binary and the build marker under /opt/dev both exist. */
  predicate ShopifolkByDev(env: Environment)
    ensures ShopifolkByDev(env)
            <==> "/opt/dev/bin/dev" in env.existingPaths && "/opt/dev/.shopify-build" in env.existingPaths
  {
    assert DEV_PATH + "/bin/dev" == "/opt/dev/bin/dev";
    assert DEV_PATH + "/.shopify-build" == "/opt/dev/.shopify-build";
    DEV_PATH + "/bin/dev" in env.existingPaths && DEV_PATH + "/.shopify-build" in env.existingPaths
  }

  /** `@ini ||= ...`: a parsed ini is kept; a missing file leaves nil, read again next time. */
  function MemoisedIni(memo: Option<Ini>, env: Environment): (ini: Option<Ini>)
    ensures ini == memo || ini == env.gcloudConfig
    ensures memo.Some? ==> ini == memo
    ensures ini.None? ==> memo.None? && env.gcloudConfig.None?
  {
    if memo.Some? then memo else env.gcloudConfig
  }

  // ---------------------------------------------------------------------------
  // The decision as a state transition

  /** The persistent feature set and one instance's memoised ini. */
  datatype State = State(features: set<string>, ini: Option<Ini>)

  /**
   * `shopifolk?`: the answer and the state afterwards. The `shopifolk`
   * feature is enabled afterwards exactly when the answer is true, and no
   * other feature changes.
   */
  function ShopifolkStep(s: State, env: Environment): (r: (bool, State))
    ensures FEATURE_NAME in r.1.features <==> r.0
    ensures r.1.features - {FEATURE_NAME} == s.features - {FEATURE_NAME}
  {
    if FEATURE_NAME in s.features then (true, s)
    else
      var ini := MemoisedIni(s.ini, env);
      if ShopifolkByGcloud(ini) && ShopifolkByDev(env) then (true, State(s.features + {FEATURE_NAME}, ini))
      else (false, State(s.features - {FEATURE_NAME}, ini))
  }

  /** The answers of successive `Shopifolk.check` calls, each on a fresh instance. */
  function CheckAnswers(features: set<string>, envs: seq<Environment>): (answers: seq<bool>)
    ensures |answers| == |envs|
    decreases |envs|
  {
    if envs == [] then []
    else
      var (answer, after) := ShopifolkStep(State(features, None), envs[0]);
      [answer] + CheckAnswers(after.features, envs[1..])
  }

  /** acting_as_shopify_organization?'s second disjunct: the current project's config asks for it. */
  predicate OrganizationConfigured(currentProject: Option<ProjectConfig>) {
    currentProject.Some?
    && "shopify_organization" in currentProject.value
    && Truthy(currentProject.value["shopify_organization"])
  }

  // ---------------------------------------------------------------------------
  // Properties of the decision

  /** Because the dot is unescaped, any character stands between "@shopify" and "com"; a trailing newline is refused. */
  lemma UnescapedDot()
    ensures MatchesShopifyDomain("dev@shopify.com")
    ensures MatchesShopifyDomain("dev@shopify-com")
    ensures !MatchesShopifyDomain("dev@shopify.com\n")
    ensures !MatchesShopifyDomain("dev@gmail.com")
  {
    assert "dev@gmail.com"[1..9][0] == 'e';
  }

  /** shopifolk_by_gcloud? is false without an ini or without `account` in `[core]`, otherwise the domain test. */
  lemma ByGcloudCases(ini: Option<Ini>)
    ensures ini.None? ==> !ShopifolkByGcloud(ini)
    ensures ini.Some? && ("[core]" !in ini.value || "account" !in ini.value["[core]"]) ==> !ShopifolkByGcloud(ini)
    ensures ini.Some? && "[core]" in ini.value && "account" in ini.value["[core]"]
            ==> (ShopifolkByGcloud(ini) <==> MatchesShopifyDomain(ini.value["[core]"]["account"]))
  {
    assert "[" + SECTION + "]" == "[core]";
  }

  /** With the flag already on, shopifolk? answers true and changes nothing. */
  lemma EnabledShortCircuits(s: State, env: Environment)
    requires FEATURE_NAME in s.features
    ensures ShopifolkStep(s, env) == (true, s)
  {
  }

  /** With the flag off, shopifolk? answers `by_gcloud && by_dev`. */
  lemma DisabledDecides(s: State, env: Environment)
    requires FEATURE_NAME !in s.features
    ensures ShopifolkStep(s, env).0 == (ShopifolkByGcloud(MemoisedIni(s.ini, env)) && ShopifolkByDev(env))
  {
  }

  /** Once an instance has parsed the gcloud configuration it no longer looks at the file. */
  lemma MemoSticks(s: State, env: Environment)
    requires s.ini.Some?
    ensures ShopifolkStep(s, env).1.ini == s.ini
  {
  }

  /**
   * Persistence for any instance: once shopifolk? has answered true, the next
   * call, on this or any other instance sharing the feature store, answers true.
   */
  lemma StepPersists(s: State, env: Environment, next: State, env2: Environment)
    requires ShopifolkStep(s, env).0
    requires next.features == ShopifolkStep(s, env).1.features
    ensures ShopifolkStep(next, env2) == (true, next)
  {
  }

  /** With the flag on, every later check answers true, whatever the environment. */
  lemma {:induction false} EnabledAnswersTrue(features: set<string>, envs: seq<Environment>, k: nat)
    requires FEATURE_NAME in features
    requires k < |envs|
    ensures CheckAnswers(features, envs)[k]
  {
    if k > 0 {
      EnabledAnswersTrue(features, envs[1..], k - 1);
    }
  }

  /** Persistence: once a check has answered true, every later check answers true. */
  lemma {:induction false} OnceTrueAlwaysTrue(features: set<string>, envs: seq<Environment>, i: nat, j: nat)
    requires i <= j < |envs|
    requires CheckAnswers(features, envs)[i]
    ensures CheckAnswers(features, envs)[j]
    decreases |envs|
  {
    var (answer, after) := ShopifolkStep(State(features, None), envs[0]);
    if i == 0 {
      if j > 0 {
        EnabledAnswersTrue(after.features, envs[1..], j - 1);
      }
    } else {
      OnceTrueAlwaysTrue(after.features, envs[1..], i - 1, j - 1);
    }
  }

  // ---------------------------------------------------------------------------
  // The stateful objects

  /** ShopifyCli::Feature's persistent store, as the set of enabled feature names. */
  class FeatureStore {
    var enabled: set<string>

    constructor (enabled: set<string>)
      ensures this.enabled == enabled
    {
      this.enabled := enabled;
    }
  }

  /** A Shopifolk instance: it only holds the memoised ini. */
  class Shopifolk {
    var ini: Option<Ini>

    constructor ()
      ensures ini == None
    {
      ini := None;
    }

    /** `shopifolk?`: decides, and enables or disables the feature to match. */
    method IsShopifolk(features: FeatureStore, env: Environment) returns (answer: bool)
      modifies this, features
      ensures (answer, State(features.enabled, ini)) == ShopifolkStep(State(old(features.enabled), old(ini)), env)
    {
      if FEATURE_NAME in features.enabled {
        return true;
      }
      var byGcloud := IsShopifolkByGcloud(env);
      if byGcloud && ShopifolkByDev(env) {
        features.enabled := features.enabled + {FEATURE_NAME};
        answer := true;
      } else {
        features.enabled := features.enabled - {FEATURE_NAME};
        answer := false;
      }
    }

    /** `shopifolk_by_gcloud?`, which loads the ini on first use. */
    method IsShopifolkByGcloud(env: Environment) returns (byGcloud: bool)
      modifies this
      ensures ini == MemoisedIni(old(ini), env)
      ensures byGcloud == ShopifolkByGcloud(ini)
    {
      var loaded := LoadIni(env);
      byGcloud := ShopifolkByGcloud(loaded);
    }

    /** `ini`: returns the memoised ini, reading the gcloud configuration if none is held. */
    method LoadIni(env: Environment) returns (loaded: Option<Ini>)
      modifies this
      ensures loaded == ini == MemoisedIni(old(ini), env)
    {
      if ini.None? {
        ini := env.gcloudConfig;
      }
      loaded := ini;
    }
  }

  /** The class-level (singleton) state and methods of ShopifyCli::Shopifolk. */
  class ShopifolkClass {
    var actingAsShopifyOrganization: RubyValue

    constructor ()
      ensures actingAsShopifyOrganization == Nil
    {
      actingAsShopifyOrganization := Nil;
    }

    /** `Shopifolk.check`: `shopifolk?` on a fresh instance. */
    method Check(features: FeatureStore, env: Environment) returns (answer: bool)
      modifies features
      ensures (answer, features.enabled) == (ShopifolkStep(State(old(features.enabled), None), env).0,
                                             ShopifolkStep(State(old(features.enabled), None), env).1.features)
    {
      var instance := new Shopifolk();
      answer := instance.IsShopifolk(features, env);
    }

    /**
     * `acting_as_shopify_organization?`: a truthy class-level flag, or a
     * current project whose config sets `shopify_organization`.
     */
    predicate ActingAsShopifyOrganization(currentProject: Option<ProjectConfig>)
      reads this
      ensures !Truthy(actingAsShopifyOrganization) ==>
              (ActingAsShopifyOrganization(currentProject) <==> OrganizationConfigured(currentProject))
      ensures actingAsShopifyOrganization != Nil && actingAsShopifyOrganization != Boolean(false) ==>
              ActingAsShopifyOrganization(currentProject)
      ensures currentProject.None? ==> (ActingAsShopifyOrganization(currentProject) <==> Truthy(actingAsShopifyOrganization))
    {
      Truthy(actingAsShopifyOrganization) || OrganizationConfigured(currentProject)
    }

    /** `act_as_shopify_organization`. */
    method ActAsShopifyOrganization()
      modifies this
      ensures actingAsShopifyOrganization == Boolean(true)
      ensures forall p :: ActingAsShopifyOrganization(p)
    {
      actingAsShopifyOrganization := Boolean(true);
    }

    /** `reset`: afterwards only the current project's config decides. */
    method Reset()
      modifies this
      ensures actingAsShopifyOrganization == Nil
      ensures forall p :: ActingAsShopifyOrganization(p) <==> OrganizationConfigured(p)
    {
      actingAsShopifyOrganization := Nil;
    }

    /** `acting_as_shopify_organization=` (the attribute writer). */
    method SetActingAsShopifyOrganization(v: RubyValue)
      modifies this
      ensures actingAsShopifyOrganization == v
      ensures forall p :: ActingAsShopifyOrganization(p) <==> Truthy(v) || OrganizationConfigured(p)
    {
      actingAsShopifyOrganization := v;
    }
  }
}
