/** Construction of the plugin: the four settings read from the `basic`
    table of `config.toml` (main.py:26-51). Reading the file is not part of
    the model; what `open` and `tomllib.load` produce is the input. */
module Config {
  import opened Base
  import opened Toml

  /** What opening and parsing `config.toml` yields. */
  datatype LoadOutcome =
    | Loaded(doc: Document)
      /** `open` failed: a missing or unreadable file (an OSError). */
    | OsError
      /** The text is not valid TOML (a TOMLDecodeError). */
    | TomlDecodeError
      /** The bytes are not UTF-8: `tomllib.load` raises UnicodeDecodeError
          while decoding, before any TOML is parsed. */
    | UnicodeDecodeError

  /** The instance fields set by `__init__`. Each holds whatever value the
      TOML file gave; the handler reads the first three by truthiness.
      `httpProxy` is `None` unless the key is present. */
  datatype Settings = Settings(enable: Value, isAutoParse: Value, isAutoPack: Value, httpProxy: Option<Value>)

  const Defaults: Settings := Settings(Bool(true), Bool(true), Bool(true), None)

  /** The four `basic_config.get(key, default)` calls. */
  function FromBasic(basic: map<string, Value>): (s: Settings)
    ensures basic == map[] ==> s == Defaults
  {
    Settings(
      Get(basic, "enable", Bool(true)),
      Get(basic, "is_auto_parse", Bool(true)),
      Get(basic, "is_auto_pack", Bool(true)),
      if "http_proxy" in basic then Some(basic["http_proxy"]) else None)
  }

  /** `__init__` as written. `Failure(name)` is an exception escaping the
      constructor: the `except` clause catches only OSError and
      TOMLDecodeError, so a non-UTF-8 file and a `basic` key that is not a
      table (`config.get("basic", {})` then returns an object without `.get`)
      make construction fail. */
  function InitAsWritten(load: LoadOutcome): (r: Result<Settings, string>)
    ensures r.Failure? <==>
      load.UnicodeDecodeError? || (load.Loaded? && "basic" in load.doc && !load.doc["basic"].Table?)
    ensures load.OsError? || load.TomlDecodeError? ==> r == Success(Defaults)
  {
    match load
    case OsError => Success(Defaults)
    case TomlDecodeError => Success(Defaults)
    case UnicodeDecodeError => Failure("UnicodeDecodeError")
    case Loaded(doc) =>
      if "basic" !in doc then Success(FromBasic(map[]))
      else match doc["basic"]
        case Table(basic) => Success(FromBasic(basic))
        case _ => Failure("AttributeError")
  }

  /** `__init__` as intended: construction never fails, and every
      configuration that cannot be read as a `basic` table yields the defaults. */
  function Init(load: LoadOutcome): (s: Settings)
    ensures !load.Loaded? ==> s == Defaults
    ensures load.Loaded? && ("basic" !in load.doc || !load.doc["basic"].Table?) ==> s == Defaults
  {
    match load
    case Loaded(doc) =>
      if "basic" in doc && doc["basic"].Table? then FromBasic(doc["basic"].entries) else Defaults
    case _ => Defaults
  }

  /** The basic table `Init` reads, empty when there is none. */
  function BasicTable(load: LoadOutcome): map<string, Value> {
    if load.Loaded? && "basic" in load.doc && load.doc["basic"].Table? then load.doc["basic"].entries
    else map[]
  }

  /** Every field of the settings is its key's value when the key is present
      and its default otherwise; nothing else in the file matters. */
  lemma InitFields(load: LoadOutcome)
    ensures var basic := BasicTable(load);
      var s := Init(load);
      && (s.enable == if "enable" in basic then basic["enable"] else Bool(true))
      && (s.isAutoParse == if "is_auto_parse" in basic then basic["is_auto_parse"] else Bool(true))
      && (s.isAutoPack == if "is_auto_pack" in basic then basic["is_auto_pack"] else Bool(true))
      && (s.httpProxy == if "http_proxy" in basic then Some(basic["http_proxy"]) else None)
  {
  }

  /** A present key overrides only its own field: adding or changing one
      entry of `basic` leaves the other three settings as they were. */
  lemma OverrideIsLocal(basic: map<string, Value>, key: string, v: Value)
    ensures var before, after := FromBasic(basic), FromBasic(basic[key := v]);
      && (key != "enable" ==> after.enable == before.enable)
      && (key != "is_auto_parse" ==> after.isAutoParse == before.isAutoParse)
      && (key != "is_auto_pack" ==> after.isAutoPack == before.isAutoPack)
      && (key != "http_proxy" ==> after.httpProxy == before.httpProxy)
      && (key == "enable" ==> after.enable == v)
      && (key == "is_auto_parse" ==> after.isAutoParse == v)
      && (key == "is_auto_pack" ==> after.isAutoPack == v)
      && (key == "http_proxy" ==> after.httpProxy == Some(v))
  {
  }

  /** The corrected constructor agrees with the written one wherever the
      written one succeeds. */
  lemma InitAgreesWithAsWritten(load: LoadOutcome)
    requires InitAsWritten(load).Success?
    ensures InitAsWritten(load).value == Init(load)
  {
  }

  /** A `basic` key holding a number makes the written constructor raise,
      where the intended one falls back to the defaults. */
  lemma NonTableBasicBreaksConstruction()
    ensures InitAsWritten(Loaded(map["basic" := Int(1)])) == Failure("AttributeError")
    ensures Init(Loaded(map["basic" := Int(1)])) == Defaults
  {
  }

  /** A file that is not UTF-8 makes the written constructor raise, where the
      intended one falls back to the defaults. */
  lemma NonUtf8FileBreaksConstruction()
    ensures InitAsWritten(UnicodeDecodeError) == Failure("UnicodeDecodeError")
    ensures Init(UnicodeDecodeError) == Defaults
  {
  }
}
