/**
 * Choice of the database URI from the `DATABASE_URL` environment variable
 * (app.py, lines 34-39): a Heroku/Render style `postgres://` URL is given the
 * scheme SQLAlchemy expects, and an unset or empty variable falls back to a
 * local SQLite file.
 */
module Config {
  import opened Wrappers
  import opened Text

  const LegacyScheme := "postgres://"
  const DriverScheme := "postgresql+psycopg2://"
  const SqliteFallback := "sqlite:///ascend_internal.db"

  /**
   * `SQLALCHEMY_DATABASE_URI` as a function of `os.environ.get("DATABASE_URL")`.
   * The rewrite is Python's `replace(LegacyScheme, DriverScheme, 1)`, which
   * replaces the FIRST occurrence anywhere; the guard makes that occurrence the
   * leading one, so only the scheme changes and the rest of the URL is kept.
   */
  function DatabaseUri(env: Option<string>): (uri: string)
    ensures (env.None? || env.value == "") ==> uri == SqliteFallback
    ensures env.Some? && HasPrefix(env.value, LegacyScheme) ==>
              uri == DriverScheme + env.value[|LegacyScheme|..]
    ensures env.Some? && env.value != "" && !HasPrefix(env.value, LegacyScheme) ==> uri == env.value
  {
    if env.None? || env.value == "" then SqliteFallback
    else if HasPrefix(env.value, LegacyScheme) then ReplaceFirst(env.value, LegacyScheme, DriverScheme)
    else env.value
  }

  /** The configured URI never carries the legacy scheme, and it is never empty. */
  lemma DatabaseUriNotLegacy(env: Option<string>)
    ensures !HasPrefix(DatabaseUri(env), LegacyScheme)
    ensures DatabaseUri(env) != ""
  {
    var uri := DatabaseUri(env);
    if env.Some? && HasPrefix(env.value, LegacyScheme) {
      assert uri[8] == DriverScheme[8] == 'q';
      assert LegacyScheme[8] == ':';
    } else if uri == SqliteFallback {
      assert uri[0] == 's';
    }
  }

  /**
   * Feeding the configured URI back in as `DATABASE_URL` gives the same URI:
   * the rewrite fires at most once.
   */
  lemma DatabaseUriStable(env: Option<string>)
    ensures DatabaseUri(Some(DatabaseUri(env))) == DatabaseUri(env)
  {
    DatabaseUriNotLegacy(env);
  }
}
