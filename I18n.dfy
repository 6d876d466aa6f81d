/** `I18nMiddleware`: language choice per update and message lookup with fallback to the key. */
module I18n {
  import opened Wrappers
  import opened PyText

  /** One locale file: message key to template. */
  type Table = map<string, string>

  /** `self.translations`: language code to its table. */
  type Translations = map<string, Table>

  /** The parts of a Telegram user the bot reads. */
  datatype TelegramUser = TelegramUser(id: int, username: Option<string>, languageCode: Option<string>)

  /** `t`: the tables together with the language chosen for the current update. */
  datatype Translator = Translator(translations: Translations, lang: string)

  /** What `t(key, **kwargs)` returns: the template itself, or the template with `str.format`
      applied to the keyword arguments (formatting is kept symbolic). */
  datatype Rendered = Plain(text: string) | Formatted(template: string, kwargs: seq<(string, Scalar)>)

  /** `_load_locale`: the parsed file, or an empty table when the file does not exist. */
  function LoadLocale(file: Option<Table>): Table
  {
    match file
    case Some(table) => table
    case None => map[]
  }

  /** `__init__`: exactly the Russian and the English tables are loaded. */
  function Init(ruFile: Option<Table>, enFile: Option<Table>): (tr: Translations)
    ensures tr.Keys == {"ru", "en"}
    ensures tr["ru"] == LoadLocale(ruFile) && tr["en"] == LoadLocale(enFile)
  {
    map["ru" := LoadLocale(ruFile), "en" := LoadLocale(enFile)]
  }

  /** The language of an update: English when the user reports a language code starting with
      "en", Russian otherwise (no user, no code, an empty code or any other language). */
  function SelectLanguage(user: Option<TelegramUser>): (lang: string)
    ensures lang == "en" || lang == "ru"
    ensures lang == "en" <==> user.Some? && user.value.languageCode.Some?
                              && StartsWith(user.value.languageCode.value, "en")
  {
    if user.Some? && user.value.languageCode.Some? && user.value.languageCode.value != [] then
      if StartsWith(user.value.languageCode.value, "en") then "en" else "ru"
    else "ru"
  }

  /** `__call__`: the translator placed in the handler data as `t`, with `lang` beside it. */
  function Middleware(translations: Translations, user: Option<TelegramUser>): (t: Translator)
    ensures t.translations == translations && t.lang == SelectLanguage(user)
  {
    Translator(translations, SelectLanguage(user))
  }

  /** `self.translations.get(lang, {}).get(key, key)`. */
  function Template(t: Translator, key: string): string
  {
    if t.lang in t.translations && key in t.translations[t.lang] then t.translations[t.lang][key]
    else key
  }

  /** `t(key, **kwargs)`: formatting happens only when keyword arguments are given. */
  function T(t: Translator, key: string, kwargs: seq<(string, Scalar)>): Rendered
  {
    if kwargs == [] then Plain(Template(t, key)) else Formatted(Template(t, key), kwargs)
  }

  /** A key missing from the table, or a language without a table, is shown as the key itself;
      a present key gives its template, unchanged when there are no keyword arguments. */
  lemma LookupFallback(t: Translator, key: string)
    ensures (t.lang !in t.translations || key !in t.translations[t.lang]) ==> T(t, key, []) == Plain(key)
    ensures t.lang in t.translations && key in t.translations[t.lang]
      ==> T(t, key, []) == Plain(t.translations[t.lang][key])
  {
  }

  /** When neither locale file exists every lookup falls back to its key, whoever the user is. */
  lemma MissingLocalesShowKeys(user: Option<TelegramUser>, key: string, kwargs: seq<(string, Scalar)>)
    ensures var t := Middleware(Init(None, None), user);
      T(t, key, kwargs) == if kwargs == [] then Plain(key) else Formatted(key, kwargs)
  {
  }

  /** Whatever the user reports, the chosen language has a loaded table. */
  lemma LanguageHasTable(ruFile: Option<Table>, enFile: Option<Table>, user: Option<TelegramUser>)
    ensures Middleware(Init(ruFile, enFile), user).lang in Init(ruFile, enFile)
  {
  }
}
