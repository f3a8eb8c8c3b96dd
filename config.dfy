/**
 * Start-up configuration: six settings read from `PURR_`-prefixed environment
 * variables, each of which must be present. Every missing setting adds its own
 * "<flag> is required" error, in a fixed order, so all problems are reported at once.
 */
module Config {
  import opened Text

  const EnvironmentVariablePrefix: string := "PURR"

  /** The environment: variables that are unset are absent from the map. */
  type Environment = map<string, string>

  /** `os.Getenv`: the empty string for an unset variable. */
  function Getenv(env: Environment, name: string): string {
    if name in env then env[name] else ""
  }

  datatype Setting = AppID | Token | AuthorizedUserIDs | ImmichURL | ImmichAPIKey | CachePath

  function VariableName(s: Setting): string {
    match s
    case AppID => EnvironmentVariablePrefix + "_DISCORD_APP_ID"
    case Token => EnvironmentVariablePrefix + "_DISCORD_TOKEN"
    case AuthorizedUserIDs => EnvironmentVariablePrefix + "_DISCORD_AUTHORIZED_USER_IDS"
    case ImmichURL => EnvironmentVariablePrefix + "_IMMICH_URL"
    case ImmichAPIKey => EnvironmentVariablePrefix + "_IMMICH_API_KEY"
    case CachePath => EnvironmentVariablePrefix + "_CACHE_PATH"
  }

  /** The error for a missing setting: "<flag name> is required". */
  function RequiredMessage(s: Setting): string {
    match s
    case AppID => "discord-app-id is required"
    case Token => "discord-token is required"
    case AuthorizedUserIDs => "discord-authorized-user-ids is required"
    case ImmichURL => "immich-url is required"
    case ImmichAPIKey => "immich-api-key is required"
    case CachePath => "cache-path is required"
  }

  /**
   * A setting counts as missing when its variable is empty; the user id list also
   * when it begins with a comma, since its first id is then empty.
   */
  predicate Missing(env: Environment, s: Setting) {
    var v := Getenv(env, VariableName(s));
    v == "" || (s == AuthorizedUserIDs && v[0] == ',')
  }

  /** An unset variable reads as empty, so its setting is missing. */
  lemma UnsetIsMissing(env: Environment, s: Setting)
    requires VariableName(s) !in env
    ensures Missing(env, s)
  {
  }

  /** The error a setting contributes: its message when it is missing, nothing otherwise. */
  function Check(env: Environment, s: Setting): (errs: seq<string>)
    ensures errs == [] || errs == [RequiredMessage(s)]
  {
    if Missing(env, s) then [RequiredMessage(s)] else []
  }

  /** The errors for the missing settings, in the order the settings are checked. */
  function FlagErrors(env: Environment): seq<string> {
    Check(env, AppID) + Check(env, Token) + Check(env, AuthorizedUserIDs) +
    Check(env, ImmichURL) + Check(env, ImmichAPIKey) + Check(env, CachePath)
  }

  lemma RequiredMessageInjective(s: Setting, t: Setting)
    requires RequiredMessage(s) == RequiredMessage(t)
    ensures s == t
  {
    var m, n := RequiredMessage(s), RequiredMessage(t);
    assert |m| == |n| && m[0] == n[0];
  }

  /** Only a setting's own check can produce its message. */
  lemma CheckReports(env: Environment, t: Setting, s: Setting)
    ensures RequiredMessage(s) in Check(env, t) <==> t == s && Missing(env, s)
    ensures multiset(Check(env, t))[RequiredMessage(s)] == if t == s && Missing(env, s) then 1 else 0
  {
    if RequiredMessage(s) in Check(env, t) {
      RequiredMessageInjective(s, t);
    }
  }

  /** A setting's message is reported exactly when that setting is missing, and then once. */
  lemma MessageReportedIff(env: Environment, s: Setting)
    ensures RequiredMessage(s) in FlagErrors(env) <==> Missing(env, s)
    ensures multiset(FlagErrors(env))[RequiredMessage(s)] == if Missing(env, s) then 1 else 0
  {
    CheckReports(env, AppID, s);
    CheckReports(env, Token, s);
    CheckReports(env, AuthorizedUserIDs, s);
    CheckReports(env, ImmichURL, s);
    CheckReports(env, ImmichAPIKey, s);
    CheckReports(env, CachePath, s);
    var m := RequiredMessage(s);
    assert multiset(FlagErrors(env)) ==
      multiset(Check(env, AppID)) + multiset(Check(env, Token)) + multiset(Check(env, AuthorizedUserIDs)) +
      multiset(Check(env, ImmichURL)) + multiset(Check(env, ImmichAPIKey)) + multiset(Check(env, CachePath));
    assert m in FlagErrors(env) <==> m in multiset(FlagErrors(env));
  }

  /** Start-up proceeds exactly when no setting is missing. */
  lemma NoErrorsIff(env: Environment)
    ensures FlagErrors(env) == [] <==> forall s: Setting :: !Missing(env, s)
  {
    if FlagErrors(env) == [] {
      forall s: Setting ensures !Missing(env, s) {
        assert |Check(env, s)| == 0;
      }
    }
  }

  /**
   * The user id list is rejected exactly when its first comma-separated piece is
   * empty; otherwise it is the pieces, which join back to the variable's value.
   */
  lemma AuthorizedUserIDsMissingIff(env: Environment)
    ensures var v := Getenv(env, VariableName(AuthorizedUserIDs));
            Missing(env, AuthorizedUserIDs) <==> Split(v, ',')[0] == ""
    ensures var v := Getenv(env, VariableName(AuthorizedUserIDs));
            Join(Split(v, ','), [',']) == v
  {
    var v := Getenv(env, VariableName(AuthorizedUserIDs));
    FirstPieceEmpty(v, ',');
    JoinSplit(v, ',');
  }

  /** The package-level flag variables that `verifyFlags` fills in. */
  class Flags {
    var discordAppID: string
    var discordToken: string
    var discordAuthorizedUserIDs: seq<string>
    var immichURL: string
    var immichAPIKey: string
    var cachePath: string

    constructor ()
      ensures discordAppID == "" && discordToken == "" && discordAuthorizedUserIDs == []
      ensures immichURL == "" && immichAPIKey == "" && cachePath == ""
    {
      discordAppID, discordToken, discordAuthorizedUserIDs := "", "", [];
      immichURL, immichAPIKey, cachePath := "", "", "";
    }

    /** The first three checks of `verifyFlags`: the Discord settings. */
    method VerifyDiscordFlags(env: Environment) returns (errs: seq<string>)
      modifies this
      ensures errs == Check(env, AppID) + Check(env, Token) + Check(env, AuthorizedUserIDs)
      ensures discordAppID == Getenv(env, VariableName(AppID))
      ensures discordToken == Getenv(env, VariableName(Token))
      ensures discordAuthorizedUserIDs == Split(Getenv(env, VariableName(AuthorizedUserIDs)), ',')
      ensures immichURL == old(immichURL) && immichAPIKey == old(immichAPIKey) && cachePath == old(cachePath)
    {
      errs := [];
      discordAppID := Getenv(env, EnvironmentVariablePrefix + "_DISCORD_APP_ID");
      if discordAppID == "" {
        errs := errs + ["discord-app-id is required"];
      }
      discordToken := Getenv(env, EnvironmentVariablePrefix + "_DISCORD_TOKEN");
      if discordToken == "" {
        errs := errs + ["discord-token is required"];
      }
      assert errs == Check(env, AppID) + Check(env, Token);
      discordAuthorizedUserIDs := Split(Getenv(env, EnvironmentVariablePrefix + "_DISCORD_AUTHORIZED_USER_IDS"), ',');
      FirstPieceEmpty(Getenv(env, VariableName(AuthorizedUserIDs)), ',');
      if discordAuthorizedUserIDs[0] == "" {
        errs := errs + ["discord-authorized-user-ids is required"];
      }
    }

    /** `verifyFlags`: read every setting, then report all that are missing. */
    method VerifyFlags(env: Environment) returns (errs: seq<string>)
      modifies this
      ensures errs == FlagErrors(env)
      ensures discordAppID == Getenv(env, VariableName(AppID))
      ensures discordToken == Getenv(env, VariableName(Token))
      ensures discordAuthorizedUserIDs == Split(Getenv(env, VariableName(AuthorizedUserIDs)), ',')
      ensures immichURL == Getenv(env, VariableName(ImmichURL))
      ensures immichAPIKey == Getenv(env, VariableName(ImmichAPIKey))
      ensures cachePath == Getenv(env, VariableName(CachePath))
    {
      errs := VerifyDiscordFlags(env);
      immichURL := Getenv(env, EnvironmentVariablePrefix + "_IMMICH_URL");
      if immichURL == "" {
        errs := errs + ["immich-url is required"];
      }
      immichAPIKey := Getenv(env, EnvironmentVariablePrefix + "_IMMICH_API_KEY");
      if immichAPIKey == "" {
        errs := errs + ["immich-api-key is required"];
      }
      assert errs == Check(env, AppID) + Check(env, Token) + Check(env, AuthorizedUserIDs) + Check(env, ImmichURL) +
                     Check(env, ImmichAPIKey);
      cachePath := Getenv(env, EnvironmentVariablePrefix + "_CACHE_PATH");
      if cachePath == "" {
        errs := errs + ["cache-path is required"];
      }
    }
  }
}
