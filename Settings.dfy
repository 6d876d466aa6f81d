/** `Settings`: the environment-derived configuration and the fixed limits of the survey. */
module Settings {
  import opened Wrappers
  import opened PyText

  const MinBudget: int := 10000
  const MinTravelers: int := 1
  const MaxTravelers: int := 20
  /** Seconds a user must wait between two processed messages. */
  const ThrottleTime: real := 1.0

  const LegacyScheme: string := "postgres://"
  const PlainScheme: string := "postgresql://"
  const AsyncpgScheme: string := "postgresql+asyncpg://"
  const LocalDatabaseUrl: string := "sqlite+aiosqlite:///tourbot.db"

  /** The limits the survey handlers read from the settings object. */
  datatype Limits = Limits(minBudget: int, maxTravelers: int)

  const DefaultLimits: Limits := Limits(MinBudget, MaxTravelers)

  /** `DATABASE_URL` from the value of the variable in the environment (None when unset):
      a `postgres://` or `postgresql://` URL gets the asyncpg driver scheme, an unset or empty
      variable falls back to a local SQLite file, anything else is used as given. */
  function DatabaseUrl(env: Option<string>): (url: string)
    ensures url != []
    ensures !StartsWith(url, LegacyScheme) && !StartsWith(url, PlainScheme)
  {
    if env.Some? && env.value != [] then
      var u := env.value;
      if StartsWith(u, LegacyScheme) then
        ReplaceFirstAtPrefix(u, LegacyScheme, AsyncpgScheme);
        SchemeIsFinal(u[|LegacyScheme|..]);
        ReplaceFirst(u, LegacyScheme, AsyncpgScheme)
      else if StartsWith(u, PlainScheme) then
        ReplaceFirstAtPrefix(u, PlainScheme, AsyncpgScheme);
        SchemeIsFinal(u[|PlainScheme|..]);
        ReplaceFirst(u, PlainScheme, AsyncpgScheme)
      else u
    else
      assert LocalDatabaseUrl[0] != LegacyScheme[0];
      LocalDatabaseUrl
  }

  /** A URL with the asyncpg scheme starts with neither of the rewritten schemes. */
  lemma SchemeIsFinal(rest: string)
    ensures !StartsWith(AsyncpgScheme + rest, LegacyScheme)
    ensures !StartsWith(AsyncpgScheme + rest, PlainScheme)
  {
    var u := AsyncpgScheme + rest;
    assert u[8] == AsyncpgScheme[8] && u[10] == AsyncpgScheme[10];
    assert u[..|LegacyScheme|][8] != LegacyScheme[8];
    assert u[..|PlainScheme|][10] != PlainScheme[10];
  }

  /** A `postgres://` URL has only that prefix replaced. */
  lemma LegacySchemeRewritten(rest: string)
    ensures DatabaseUrl(Some(LegacyScheme + rest)) == AsyncpgScheme + rest
  {
    var u := LegacyScheme + rest;
    assert u[..|LegacyScheme|] == LegacyScheme && u[|LegacyScheme|..] == rest;
    ReplaceFirstAtPrefix(u, LegacyScheme, AsyncpgScheme);
  }

  /** A `postgresql://` URL has only that prefix replaced. */
  lemma PlainSchemeRewritten(rest: string)
    ensures DatabaseUrl(Some(PlainScheme + rest)) == AsyncpgScheme + rest
  {
    var u := PlainScheme + rest;
    assert u[..|PlainScheme|] == PlainScheme && u[|PlainScheme|..] == rest;
    assert u[..|LegacyScheme|] != LegacyScheme by {
      assert u[..|LegacyScheme|][10] == PlainScheme[10];
    }
    ReplaceFirstAtPrefix(u, PlainScheme, AsyncpgScheme);
  }

  /** Every other non-empty URL is kept; an unset or empty variable means local SQLite. */
  lemma OtherUrlsKept(u: string)
    ensures u != [] && !StartsWith(u, LegacyScheme) && !StartsWith(u, PlainScheme)
      ==> DatabaseUrl(Some(u)) == u
    ensures DatabaseUrl(None) == LocalDatabaseUrl && DatabaseUrl(Some([])) == LocalDatabaseUrl
  {
  }

  /** Rewriting an already rewritten URL changes nothing. */
  lemma DatabaseUrlIdempotent(env: Option<string>)
    ensures DatabaseUrl(Some(DatabaseUrl(env))) == DatabaseUrl(env)
  {
  }

  /** `ADMIN_CHAT_ID = int(os.getenv('ADMIN_CHAT_ID', 0))`; None when `int()` raises at import. */
  function AdminChatId(env: Option<string>): (id: Option<int>)
    ensures env.None? ==> id == Some(0)
    ensures forall n: int :: env == Some(Show(n)) ==> id == Some(n)
  {
    match env
    case None => Some(0)
    case Some(s) =>
      forall n: int | env == Some(Show(n)) ensures PyInt(s) == Some(n) { ParseShow(n); }
      PyInt(s)
  }
}
