/** The helper's configuration: fixed once per instance, built from the
    defaults with every caller-supplied key replacing its default. Both
    revisions of the constructor (index.ts and index.js) use the same defaults. */
module ReplyConfig {
  import opened Json

  /** What the `adapter` option holds: nothing, something that is not a
      function (ignored, since every test is `typeof adapter === "function"`),
      or a function. */
  datatype AdapterSetting = NoAdapter | NotCallable | Callable

  /** The complete configuration an instance keeps. */
  datatype Config = Config(
    includeTimestamp: bool,
    includeCode: bool,
    includeMessage: bool,
    includeError: bool,
    includeMetaData: bool,
    enableLogging: bool,
    stringify: bool,
    customFields: Envelope,
    dateFormat: string,
    adapter: AdapterSetting)

  /** The configuration object a caller passes: every key optional. */
  datatype UserConfig = UserConfig(
    includeTimestamp: Option<bool>,
    includeCode: Option<bool>,
    includeMessage: Option<bool>,
    includeError: Option<bool>,
    includeMetaData: Option<bool>,
    enableLogging: Option<bool>,
    stringify: Option<bool>,
    customFields: Option<Envelope>,
    dateFormat: Option<string>,
    adapter: Option<AdapterSetting>)

  /** `new HttpReply()` / `new HttpReply({})`: no key supplied. */
  const NoOverrides: UserConfig :=
    UserConfig(None, None, None, None, None, None, None, None, None, None)

  /** `{ ...defaults, ...config }`. */
  function Configure(u: UserConfig): Config {
    Config(
      u.includeTimestamp.GetOr(false),
      u.includeCode.GetOr(true),
      u.includeMessage.GetOr(true),
      u.includeError.GetOr(true),
      u.includeMetaData.GetOr(true),
      u.enableLogging.GetOr(true),
      u.stringify.GetOr(false),
      u.customFields.GetOr(map[]),
      u.dateFormat.GetOr("unix"),
      u.adapter.GetOr(NoAdapter))
  }

  /** A caller's object that supplies every key, with the values of `c`. */
  function Supply(c: Config): UserConfig {
    UserConfig(
      Some(c.includeTimestamp), Some(c.includeCode), Some(c.includeMessage),
      Some(c.includeError), Some(c.includeMetaData), Some(c.enableLogging),
      Some(c.stringify), Some(c.customFields), Some(c.dateFormat), Some(c.adapter))
  }

  /** The adapter takes over dispatch only when it is a function. */
  predicate HasAdapter(c: Config) {
    c.adapter.Callable?
  }

  /** With nothing supplied, the defaults: timestamp off, the four include
      flags and logging on, stringify off, no custom fields, "unix", no adapter. */
  lemma ConfigureDefaults()
    ensures Configure(NoOverrides) ==
      Config(false, true, true, true, true, true, false, map[], "unix", NoAdapter)
  {
  }

  /** A caller who supplies every key gets exactly that configuration: no
      default survives a supplied key. */
  lemma ConfigureSupplied(c: Config)
    ensures Configure(Supply(c)) == c
  {
  }

  /** Each supplied key replaces its default; each absent key keeps it. */
  lemma ConfigureKeyByKey(u: UserConfig)
    ensures u.includeTimestamp.Some? ==> Configure(u).includeTimestamp == u.includeTimestamp.value
    ensures u.includeTimestamp.None? ==> !Configure(u).includeTimestamp
    ensures u.includeCode.Some? ==> Configure(u).includeCode == u.includeCode.value
    ensures u.includeCode.None? ==> Configure(u).includeCode
    ensures u.includeMessage.Some? ==> Configure(u).includeMessage == u.includeMessage.value
    ensures u.includeMessage.None? ==> Configure(u).includeMessage
    ensures u.includeError.Some? ==> Configure(u).includeError == u.includeError.value
    ensures u.includeError.None? ==> Configure(u).includeError
    ensures u.includeMetaData.Some? ==> Configure(u).includeMetaData == u.includeMetaData.value
    ensures u.includeMetaData.None? ==> Configure(u).includeMetaData
    ensures u.enableLogging.Some? ==> Configure(u).enableLogging == u.enableLogging.value
    ensures u.enableLogging.None? ==> Configure(u).enableLogging
    ensures u.stringify.Some? ==> Configure(u).stringify == u.stringify.value
    ensures u.stringify.None? ==> !Configure(u).stringify
    ensures u.customFields.Some? ==> Configure(u).customFields == u.customFields.value
    ensures u.customFields.None? ==> Configure(u).customFields == map[]
    ensures u.dateFormat.Some? ==> Configure(u).dateFormat == u.dateFormat.value
    ensures u.dateFormat.None? ==> Configure(u).dateFormat == "unix"
    ensures u.adapter.Some? ==> Configure(u).adapter == u.adapter.value
    ensures u.adapter.None? ==> !HasAdapter(Configure(u))
  {
  }
}
