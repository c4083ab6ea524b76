/**
 * Reading of the account configuration file (azurectl/config.py): which file
 * is used, which account and region sections are selected, the typed errors
 * of every lookup, and the choice of storage account and container.
 *
 * The file itself is an abstract parsed value; the file system, the helper
 * that builds the candidate paths and the parser's `read` are oracles held in
 * an `Environment`.
 */
module AzureConfig {
  import opened Wrappers
  import opened PyStr

  const RegionPrefix := "region:"
  const AccountPrefix := "account:"
  /** The name ConfigParser gives the section whose entries every section inherits. */
  const DefaultSection := "DEFAULT"
  const ListSeparator := ','

  /**
   * A configuration file as ConfigParser holds it after `read`: the entries
   * of the DEFAULT section, and every other section by name. Option names are
   * already in the lower-case form the parser stores. A `[DEFAULT]` header
   * fills `defaults`: `read` never yields a section named DEFAULT, so the
   * DEFAULT case of `sections` in `ParserGet` is there only for completeness.
   */
  datatype ParsedConfig = ParsedConfig(defaults: map<string, string>, sections: map<string, map<string, string>>)

  datatype ParserError = NoSectionError(section: string) | NoOptionError(option: string, section: string)

  /** Which of the three lookups of `__lookup_config_file` failed. */
  datatype LookupKind = ExplicitFile(filename: string) | TemplateFile(template: string) | DefaultFile

  /** The exceptions config.py raises, with the names their messages mention. */
  datatype ConfigError =
    | AccountLoadFailed(lookup: LookupKind)
    | ConfigParseError(file: string)
    | AccountDefaultSectionNotFound(file: string)
    | ConfigAccountNotFound(file: string)
    | ConfigRegionNotFound(file: string)
    | ConfigSectionNotFound(section: string, file: string)
    | ConfigVariableNotFound(option: string, section: string, file: string)
    | StorageAccountInvalid(name: string, list: string)

  /**
   * What config.py asks of the outside world:
   * `isFile` is `os.path.isfile`;
   * `templateConfig(template, platform)` is `ConfigFilePath(template, platform).default_new_template_config()`;
   * `defaultConfig(template, platform)` is `ConfigFilePath(template, platform).default_config()`;
   * `read(path)` is `ConfigParser.read`, `None` when it raises.
   */
  datatype Environment = Environment(
    isFile: string -> bool,
    templateConfig: (string, string) -> Option<string>,
    defaultConfig: (Option<string>, string) -> Option<string>,
    read: string -> Option<ParsedConfig>)

  /**
   * `ConfigParser.get(section, option)` (Python 2.7, no interpolation): an
   * unknown section is an error unless it is DEFAULT; the option is looked up
   * in the section and then in the DEFAULT entries.
   */
  function ParserGet(cfg: ParsedConfig, section: string, option: string): (r: Result<string, ParserError>)
    ensures r == Failure(NoSectionError(section)) <==> section !in cfg.sections && section != DefaultSection
    ensures section in cfg.sections && option in cfg.sections[section] ==> r == Success(cfg.sections[section][option])
    ensures (section in cfg.sections && option !in cfg.sections[section]) || (section !in cfg.sections && section == DefaultSection)
      ==> r == (if option in cfg.defaults then Success(cfg.defaults[option]) else Failure(NoOptionError(option, section)))
  {
    if section in cfg.sections then
      if option in cfg.sections[section] then Success(cfg.sections[section][option])
      else if option in cfg.defaults then Success(cfg.defaults[option])
      else Failure(NoOptionError(option, section))
    else if section == DefaultSection then
      if option in cfg.defaults then Success(cfg.defaults[option]) else Failure(NoOptionError(option, section))
    else Failure(NoSectionError(section))
  }

  /**
   * `__get_account_option` / `__get_region_option`: any parser failure, for a
   * missing section or a missing option alike, becomes ConfigVariableNotFound.
   */
  function SectionOption(cfg: ParsedConfig, section: string, option: string, file: string): (r: Result<string, ConfigError>)
    ensures r.Failure? ==> r.error == ConfigVariableNotFound(option, section, file)
    ensures section !in cfg.sections && section != DefaultSection ==> r.Failure?
    ensures section in cfg.sections && option in cfg.sections[section] ==> r == Success(cfg.sections[section][option])
    ensures (section in cfg.sections && option !in cfg.sections[section]) || (section !in cfg.sections && section == DefaultSection)
      ==> (r.Success? <==> option in cfg.defaults) && (r.Success? ==> r.value == cfg.defaults[option])
  {
    match ParserGet(cfg, section, option)
    case Success(v) => Success(v)
    case Failure(_) => Failure(ConfigVariableNotFound(option, section, file))
  }

  /**
   * `__lookup_config_file`: an explicit file name wins over an account
   * template, and a template over the default file; the chosen path is never
   * empty.
   */
  function LookupConfigFile(env: Environment, platform: string, template: Option<string>, filename: Option<string>)
    : (r: Result<string, ConfigError>)
    ensures r.Success? ==> r.value != ""
    ensures r.Failure? ==> r.error.AccountLoadFailed?
    ensures Truthy(filename) ==> (r.Success? <==> env.isFile(filename.value))
    ensures Truthy(filename) ==> (r.Success? ==> r.value == filename.value)
    ensures Truthy(filename) ==> (r.Failure? ==> r.error == AccountLoadFailed(ExplicitFile(filename.value)))
    ensures !Truthy(filename) && Truthy(template) ==>
      var p := env.templateConfig(template.value, platform);
      (r.Success? <==> Truthy(p)) && (r.Success? ==> r.value == p.value)
      && (r.Failure? ==> r.error == AccountLoadFailed(TemplateFile(template.value)))
    ensures !Truthy(filename) && !Truthy(template) ==>
      var p := env.defaultConfig(template, platform);
      (r.Success? <==> Truthy(p)) && (r.Success? ==> r.value == p.value)
      && (r.Failure? ==> r.error == AccountLoadFailed(DefaultFile))
  {
    if Truthy(filename) then
      if env.isFile(filename.value) then Success(filename.value)
      else Failure(AccountLoadFailed(ExplicitFile(filename.value)))
    else if Truthy(template) then
      var p := env.templateConfig(template.value, platform);
      if Truthy(p) then Success(p.value) else Failure(AccountLoadFailed(TemplateFile(template.value)))
    else
      var p := env.defaultConfig(template, platform);
      if Truthy(p) then Success(p.value) else Failure(AccountLoadFailed(DefaultFile))
  }

  /** `__check_for_section`: an empty name passes; any other name must be a section of the file. */
  function CheckForSection(cfg: ParsedConfig, section: string, file: string): (r: Outcome<ConfigError>)
    ensures r.Pass? <==> section == "" || section in cfg.sections
    ensures r.Fail? ==> r.error == ConfigSectionNotFound(section, file)
  {
    if section != "" && section !in cfg.sections then Fail(ConfigSectionNotFound(section, file)) else Pass
  }

  /** `__import_default_account`: the section named by `default_account` in DEFAULT. */
  function ImportDefaultAccount(cfg: ParsedConfig, file: string): (r: Result<string, ConfigError>)
    ensures "default_account" !in cfg.defaults ==> r == Failure(ConfigAccountNotFound(file))
    ensures "default_account" in cfg.defaults ==>
      var a := cfg.defaults["default_account"];
      (r.Success? <==> a == "" || a in cfg.sections) && (r.Success? ==> r.value == a)
      && (r.Failure? ==> r.error == ConfigSectionNotFound(a, file))
  {
    if "default_account" !in cfg.defaults then Failure(ConfigAccountNotFound(file))
    else
      var a := cfg.defaults["default_account"];
      match CheckForSection(cfg, a, file)
      case Fail(e) => Failure(e)
      case Pass => Success(a)
  }

  /**
   * `__import_default_region`: the section `region:<name>` for an explicit
   * region name, otherwise the section named by `default_region` in DEFAULT.
   */
  function ImportDefaultRegion(cfg: ParsedConfig, regionArg: Option<string>, file: string): (r: Result<string, ConfigError>)
    ensures Truthy(regionArg) ==>
      var s := RegionPrefix + regionArg.value;
      (r.Success? <==> s in cfg.sections) && (r.Success? ==> r.value == s)
      && (r.Failure? ==> r.error == ConfigSectionNotFound(s, file))
    ensures !Truthy(regionArg) && "default_region" !in cfg.defaults ==> r == Failure(ConfigRegionNotFound(file))
    ensures !Truthy(regionArg) && "default_region" in cfg.defaults ==>
      var s := cfg.defaults["default_region"];
      (r.Success? <==> s == "" || s in cfg.sections) && (r.Success? ==> r.value == s)
      && (r.Failure? ==> r.error == ConfigSectionNotFound(s, file))
  {
    var name :-
      if Truthy(regionArg) then Success(RegionPrefix + regionArg.value)
      else if "default_region" in cfg.defaults then Success(cfg.defaults["default_region"])
      else Failure(ConfigRegionNotFound(file));
    match CheckForSection(cfg, name, file)
    case Fail(e) => Failure(e)
    case Pass => Success(name)
  }

  /** The attributes `Config.__init__` computes once every stage has succeeded. */
  datatype Settings = Settings(configFile: string, config: ParsedConfig, accountName: string, regionName: string)

  /**
   * The stages of `Config.__init__` in order: find the file, parse it, demand
   * a non-empty DEFAULT section, then resolve the account section and the
   * region section. The first stage that fails decides the error.
   */
  function Load(env: Environment, platform: string, template: Option<string>, regionArg: Option<string>, filename: Option<string>)
    : (r: Result<Settings, ConfigError>)
    ensures r.Success? ==> LookupConfigFile(env, platform, template, filename) == Success(r.value.configFile)
    ensures r.Success? ==> env.read(r.value.configFile) == Some(r.value.config)
    ensures r.Success? ==> r.value.config.defaults != map[]
    ensures r.Success? ==>
      "default_account" in r.value.config.defaults && r.value.accountName == r.value.config.defaults["default_account"]
    ensures r.Success? ==> r.value.accountName == "" || r.value.accountName in r.value.config.sections
    ensures r.Success? ==> r.value.regionName == "" || r.value.regionName in r.value.config.sections
    ensures r.Success? && Truthy(regionArg) ==> r.value.regionName == RegionPrefix + regionArg.value
    ensures r.Success? && !Truthy(regionArg) ==>
      "default_region" in r.value.config.defaults && r.value.regionName == r.value.config.defaults["default_region"]
    ensures var f := LookupConfigFile(env, platform, template, filename);
      f.Failure? ==> r == Failure(f.error)
    ensures var f := LookupConfigFile(env, platform, template, filename);
      f.Success? && env.read(f.value).None? ==> r == Failure(ConfigParseError(f.value))
    ensures var f := LookupConfigFile(env, platform, template, filename);
      f.Success? && env.read(f.value).Some? && env.read(f.value).value.defaults == map[]
      ==> r == Failure(AccountDefaultSectionNotFound(f.value))
    ensures var f := LookupConfigFile(env, platform, template, filename);
      f.Success? && env.read(f.value).Some? && env.read(f.value).value.defaults != map[] ==>
        var cfg := env.read(f.value).value;
        var a := ImportDefaultAccount(cfg, f.value);
        var g := ImportDefaultRegion(cfg, regionArg, f.value);
        && (a.Failure? ==> r == Failure(a.error))
        && (a.Success? && g.Failure? ==> r == Failure(g.error))
        && (a.Success? && g.Success? ==> r == Success(Settings(f.value, cfg, a.value, g.value)))
  {
    var file :- LookupConfigFile(env, platform, template, filename);
    match env.read(file)
    case None => Failure(ConfigParseError(file))
    case Some(cfg) =>
      if cfg.defaults == map[] then Failure(AccountDefaultSectionNotFound(file))
      else
        var account :- ImportDefaultAccount(cfg, file);
        var region :- ImportDefaultRegion(cfg, regionArg, file);
        Success(Settings(file, cfg, account, region))
  }

  /**
   * An empty DEFAULT section stops construction before any account or region
   * is looked at, whatever other sections the file has.
   */
  lemma EmptyDefaultsFail(env: Environment, platform: string, template: Option<string>, regionArg: Option<string>, filename: Option<string>, cfg: ParsedConfig)
    requires LookupConfigFile(env, platform, template, filename).Success?
    requires env.read(LookupConfigFile(env, platform, template, filename).value) == Some(cfg)
    requires cfg.defaults == map[]
    ensures Load(env, platform, template, regionArg, filename)
         == Failure(AccountDefaultSectionNotFound(LookupConfigFile(env, platform, template, filename).value))
  {
  }

  /**
   * The account is resolved before the region: a missing `default_account`
   * is reported whatever the region settings are.
   */
  lemma AccountBeforeRegion(env: Environment, platform: string, template: Option<string>, regionArg: Option<string>, filename: Option<string>, cfg: ParsedConfig)
    requires LookupConfigFile(env, platform, template, filename).Success?
    requires env.read(LookupConfigFile(env, platform, template, filename).value) == Some(cfg)
    requires cfg.defaults != map[] && "default_account" !in cfg.defaults
    ensures Load(env, platform, template, regionArg, filename)
         == Failure(ConfigAccountNotFound(LookupConfigFile(env, platform, template, filename).value))
  {
  }

  /**
   * Round trip of the region name: an explicit region without the text
   * `region:` in it is reported back unchanged by `get_region_name`.
   */
  lemma ExplicitRegionRoundTrip(env: Environment, platform: string, template: Option<string>, regionArg: Option<string>, filename: Option<string>)
    requires Load(env, platform, template, regionArg, filename).Success?
    requires Truthy(regionArg) && !Contains(regionArg.value, RegionPrefix)
    ensures ReplaceAll(Load(env, platform, template, regionArg, filename).value.regionName, RegionPrefix, "") == regionArg.value
  {
    StripPrefixRoundTrip(RegionPrefix, regionArg.value);
  }

  /** `name in listing.split(',')` for a listing that was found. */
  predicate Listed(name: string, listing: Result<string, ConfigError>) {
    listing.Success? && name in Split(listing.value, ListSeparator)
  }

  /** The state of a `Config` instance: the constructor arguments it keeps and what `__init__` resolved. */
  class Config {
    var storageContainerName: Option<string>
    var storageAccountName: Option<string>
    var configFile: string
    var config: ParsedConfig
    var accountName: string
    var regionName: string

    /** The instance holds the attributes `st` lists. */
    predicate Holds(st: Settings)
      reads this
    {
      configFile == st.configFile && config == st.config && accountName == st.accountName && regionName == st.regionName
    }

    /** A freshly allocated instance, before `Init` has assigned anything. */
    constructor ()
      ensures storageContainerName == None && storageAccountName == None
      ensures configFile == "" && config == ParsedConfig(map[], map[])
      ensures accountName == "" && regionName == ""
    {
      storageContainerName := None;
      storageAccountName := None;
      configFile := "";
      config := ParsedConfig(map[], map[]);
      accountName := "";
      regionName := "";
    }

    /**
     * `Config.__init__`: assigns the attributes stage by stage and stops at the
     * first stage that raises; on success the attributes are those `Load` gives.
     */
    method Init(env: Environment, template: Option<string>, regionArg: Option<string>,
                storageAccount: Option<string>, storageContainer: Option<string>,
                filename: Option<string>, platform: string)
      returns (outcome: Outcome<ConfigError>)
      modifies this
      ensures storageContainerName == storageContainer && storageAccountName == storageAccount
      ensures match Load(env, platform, template, regionArg, filename)
        case Failure(e) => outcome == Fail(e)
        case Success(st) => outcome == Pass && Holds(st)
      ensures outcome.Pass? && Truthy(regionArg) && !Contains(regionArg.value, RegionPrefix)
        ==> GetRegionName() == regionArg.value
    {
      storageContainerName := storageContainer;
      storageAccountName := storageAccount;
      ghost var l := Load(env, platform, template, regionArg, filename);
      var file := LookupConfigFile(env, platform, template, filename);
      if file.Failure? {
        assert l == Failure(file.error);
        return Fail(file.error);
      }
      var path := file.value;
      configFile := path;
      var parsed := env.read(path);
      if parsed.None? {
        assert l == Failure(ConfigParseError(path));
        return Fail(ConfigParseError(path));
      }
      var cfg := parsed.value;
      config := cfg;
      if cfg.defaults == map[] {
        assert l == Failure(AccountDefaultSectionNotFound(path));
        return Fail(AccountDefaultSectionNotFound(path));
      }
      var account := ImportDefaultAccount(cfg, path);
      if account.Failure? {
        assert l == Failure(account.error);
        return Fail(account.error);
      }
      accountName := account.value;
      var region := ImportDefaultRegion(cfg, regionArg, path);
      if region.Failure? {
        assert l == Failure(region.error);
        return Fail(region.error);
      }
      if Truthy(regionArg) && !Contains(regionArg.value, RegionPrefix) {
        StripPrefixRoundTrip(RegionPrefix, regionArg.value);
        assert ReplaceAll(region.value, RegionPrefix, "") == regionArg.value;
      }
      regionName := region.value;
      assert l == Success(Settings(path, cfg, account.value, region.value));
      outcome := Pass;
    }

    function AccountOption(option: string): Result<string, ConfigError>
      reads this
    {
      SectionOption(config, accountName, option, configFile)
    }

    function RegionOption(option: string): Result<string, ConfigError>
      reads this
    {
      SectionOption(config, regionName, option, configFile)
    }

    /** `get_subscription_id`. */
    function GetSubscriptionId(): (r: Result<string, ConfigError>)
      reads this
      ensures r.Failure? ==> r.error == ConfigVariableNotFound("subscription_id", accountName, configFile)
      ensures accountName in config.sections && "subscription_id" in config.sections[accountName]
        ==> r == Success(config.sections[accountName]["subscription_id"])
      ensures (accountName in config.sections && "subscription_id" !in config.sections[accountName])
              || (accountName !in config.sections && accountName == DefaultSection)
        ==> (r.Success? <==> "subscription_id" in config.defaults) && (r.Success? ==> r.value == config.defaults["subscription_id"])
      ensures accountName !in config.sections && accountName != DefaultSection ==> r.Failure?
    {
      AccountOption("subscription_id")
    }

    /** `get_publishsettings_file_name`. */
    function GetPublishsettingsFileName(): (r: Result<string, ConfigError>)
      reads this
      ensures r.Failure? ==> r.error == ConfigVariableNotFound("publishsettings", accountName, configFile)
      ensures accountName in config.sections && "publishsettings" in config.sections[accountName]
        ==> r == Success(config.sections[accountName]["publishsettings"])
      ensures (accountName in config.sections && "publishsettings" !in config.sections[accountName])
              || (accountName !in config.sections && accountName == DefaultSection)
        ==> (r.Success? <==> "publishsettings" in config.defaults) && (r.Success? ==> r.value == config.defaults["publishsettings"])
      ensures accountName !in config.sections && accountName != DefaultSection ==> r.Failure?
    {
      AccountOption("publishsettings")
    }

    /**
     * `get_storage_account_name`: the explicit name when it is truthy, else the
     * region's `default_storage_account`; either way it must be one of the
     * comma-separated `storage_accounts` of the region.
     */
    function GetStorageAccountName(): (r: Result<string, ConfigError>)
      reads this
      ensures r.Success? ==> Listed(r.value, RegionOption("storage_accounts"))
      ensures Truthy(storageAccountName) ==>
        (r.Success? <==> Listed(storageAccountName.value, RegionOption("storage_accounts")))
        && (r.Success? ==> r.value == storageAccountName.value)
      ensures !Truthy(storageAccountName) ==>
        var d := RegionOption("default_storage_account");
        (r.Success? <==> d.Success? && Listed(d.value, RegionOption("storage_accounts")))
        && (r.Success? ==> r.value == d.value)
        && (d.Failure? ==> r == Failure(d.error))
      ensures r.Failure? ==> r.error.ConfigVariableNotFound? || r.error.StorageAccountInvalid?
      ensures var n := if Truthy(storageAccountName) then Success(storageAccountName.value) else RegionOption("default_storage_account");
        var l := RegionOption("storage_accounts");
        && (n.Success? && l.Failure? ==> r == Failure(l.error))
        && (n.Success? && l.Success? && n.value !in Split(l.value, ListSeparator)
            ==> r == Failure(StorageAccountInvalid(n.value, l.value)))
    {
      var name :-
        if Truthy(storageAccountName) then Success(storageAccountName.value)
        else RegionOption("default_storage_account");
      var accounts :- RegionOption("storage_accounts");
      if name !in Split(accounts, ListSeparator) then Failure(StorageAccountInvalid(name, accounts))
      else Success(name)
    }

    /**
     * `get_storage_container_name`: the same rule with `default_storage_container`
     * and `storage_containers`; a name outside the list raises the same
     * StorageAccountInvalid error as for accounts.
     */
    function GetStorageContainerName(): (r: Result<string, ConfigError>)
      reads this
      ensures r.Success? ==> Listed(r.value, RegionOption("storage_containers"))
      ensures Truthy(storageContainerName) ==>
        (r.Success? <==> Listed(storageContainerName.value, RegionOption("storage_containers")))
        && (r.Success? ==> r.value == storageContainerName.value)
      ensures !Truthy(storageContainerName) ==>
        var d := RegionOption("default_storage_container");
        (r.Success? <==> d.Success? && Listed(d.value, RegionOption("storage_containers")))
        && (r.Success? ==> r.value == d.value)
        && (d.Failure? ==> r == Failure(d.error))
      ensures r.Failure? ==> r.error.ConfigVariableNotFound? || r.error.StorageAccountInvalid?
      ensures var n := if Truthy(storageContainerName) then Success(storageContainerName.value) else RegionOption("default_storage_container");
        var l := RegionOption("storage_containers");
        && (n.Success? && l.Failure? ==> r == Failure(l.error))
        && (n.Success? && l.Success? && n.value !in Split(l.value, ListSeparator)
            ==> r == Failure(StorageAccountInvalid(n.value, l.value)))
    {
      var name :-
        if Truthy(storageContainerName) then Success(storageContainerName.value)
        else RegionOption("default_storage_container");
      var containers :- RegionOption("storage_containers");
      if name !in Split(containers, ListSeparator) then Failure(StorageAccountInvalid(name, containers))
      else Success(name)
    }

    /**
     * `get_region_name`: the region section name with every `region:` removed;
     * a name without it is returned as it is, and `region:<r>` gives `r` when
     * `r` has no further `region:` in it.
     */
    function GetRegionName(): (r: string)
      reads this
      ensures !Contains(regionName, RegionPrefix) ==> r == regionName
      ensures (|regionName| >= |RegionPrefix| && regionName[..|RegionPrefix|] == RegionPrefix
               && !Contains(regionName[|RegionPrefix|..], RegionPrefix)) ==> r == regionName[|RegionPrefix|..]
    {
      RemovalFacts(regionName, RegionPrefix);
      ReplaceAll(regionName, RegionPrefix, "")
    }

    /** `get_account_name`: the account section name with every `account:` removed. */
    function GetAccountName(): (r: string)
      reads this
      ensures !Contains(accountName, AccountPrefix) ==> r == accountName
      ensures (|accountName| >= |AccountPrefix| && accountName[..|AccountPrefix|] == AccountPrefix
               && !Contains(accountName[|AccountPrefix|..], AccountPrefix)) ==> r == accountName[|AccountPrefix|..]
    {
      RemovalFacts(accountName, AccountPrefix);
      ReplaceAll(accountName, AccountPrefix, "")
    }
  }
}
