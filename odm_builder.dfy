/** The ODM plugin's builder: it reads the `odm` section of the
    application's configuration file, then creates a database client from a
    configuration and takes a database from a client, each step storing its
    product in its own field. A configuration or client passed explicitly
    takes precedence over the stored one. The client and the database are
    represented by the arguments they are created with. */
module OdmPlugin {
  import opened Wrappers
  import opened YamlReader
  import opened Configs

  /** The section of the application file the plugin reads. */
  const OdmKey: string := "odm"

  /** The configuration fields the builder reads. */
  datatype OdmConfig = OdmConfig(uri: string, database: string, connectionTimeoutMs: int)

  /** `AsyncIOMotorClient(host=…, connect=True, connectTimeoutMS=…,
      serverSelectionTimeoutMS=…)` */
  datatype OdmClient = OdmClient(host: string, connect: bool, connectTimeoutMs: int, serverSelectionTimeoutMs: int)

  /** `client.get_database(name=…)` */
  datatype OdmDatabase = OdmDatabase(client: OdmClient, name: string)

  /** The builder's failures. All but the last are `ODMPluginConfigError`s,
      told apart here by their message; the reader's errors that the
      builder does not catch escape as they are. */
  datatype OdmError =
    | PackageNameUnset
    | ConfigUnreadable
    | ConfigInvalid
    | ConfigNotSet
    | ClientNotSet
    | Uncaught(error: ReadError)

  predicate IsOdmPluginConfigError(e: OdmError)
  {
    !e.Uncaught?
  }

  /** The value passed in, or else the stored one. */
  function OrElse<T>(given: Option<T>, stored: Option<T>): Option<T>
  {
    if given.Some? then given else stored
  }

  /** `build_odm_config`'s outcome: the package name is checked before
      anything is read; the read and the construction fail as the
      configuration builder does, under the plugin's own error. */
  function OdmConfigFrom(lookup: FileLookup, packageName: string,
                         construct: map<string, Yaml> -> Option<OdmConfig>, env: Environment)
    : (r: Result<OdmConfig, OdmError>)
    requires EnvDollarFree(env)
    ensures packageName == "" ==> r == Failure(PackageNameUnset)
    ensures packageName != "" ==>
              var read := ReadInPackage(lookup(packageName, ApplicationFile), OdmKey, env);
              && (r == Failure(ConfigUnreadable) <==> read == Failure(UnableToReadConfigFile))
              && (r == Failure(ConfigInvalid) <==> read.Success? && construct(read.value).None?)
              && (r.Success? <==> read.Success? && construct(read.value).Some?)
              && (r.Success? ==> Some(r.value) == construct(read.value))
              && (r.Failure? && r.error.Uncaught? <==> read.Failure? && read.error.Escaped?)
              && (read.Failure? && read.error.Escaped? ==> r == Failure(Uncaught(read.error.error)))
  {
    if packageName == "" then Failure(PackageNameUnset)
    else
      match BuildConfigFromFileInPackage(lookup, packageName, ApplicationFile, construct, OdmKey, env)
      case Success(config) => Success(config)
      case Failure(UnableToReadConfigFile) => Failure(ConfigUnreadable)
      case Failure(ValueErrorConfig) => Failure(ConfigInvalid)
      case Failure(Escaped(e)) => Failure(Uncaught(e))
  }
  /** Every failure of reading the configuration is an `ODMPluginConfigError`,
      the missing package name included, except a reader error that
      escapes uncaught. */
  lemma OdmErrorKinds(lookup: FileLookup, packageName: string,
                  construct: map<string, Yaml> -> Option<OdmConfig>, env: Environment)
    requires EnvDollarFree(env)
    ensures var r := OdmConfigFrom(lookup, packageName, construct, env);
            var source := lookup(packageName, ApplicationFile);
            r.Failure? ==>
              (IsOdmPluginConfigError(r.error) <==>
               !(packageName != "" && source.Located? &&
                 Read(source.file, Some(OdmKey), true, env).Failure? &&
                 !Read(source.file, Some(OdmKey), true, env).error.UnableToReadYamlFile?))
  {
    if packageName != "" {
      ConfigErrorKinds(lookup, packageName, ApplicationFile, construct, OdmKey, env);
    }
  }


  /** `build_client`'s outcome: the client of the given configuration, or
      else of the stored one; its host is the configuration's uri and both
      of its timeouts are the configuration's connection timeout. */
  function ClientOf(given: Option<OdmConfig>, stored: Option<OdmConfig>): (r: Result<OdmClient, OdmError>)
    ensures r.Failure? <==> given.None? && stored.None?
    ensures r.Failure? ==> r.error == ConfigNotSet
    ensures r.Success? ==>
              var config := if given.Some? then given.value else stored.value;
              && r.value.host == config.uri && r.value.connect
              && r.value.connectTimeoutMs == config.connectionTimeoutMs
              && r.value.serverSelectionTimeoutMs == config.connectionTimeoutMs
  {
    match OrElse(given, stored)
    case None => Failure(ConfigNotSet)
    case Some(config) => Success(OdmClient(config.uri, true, config.connectionTimeoutMs, config.connectionTimeoutMs))
  }

  /** `build_database`'s outcome. The name is the one given, or else the
      database of the given or stored configuration, which is needed only
      when no name is given and is checked before the client; the client is
      the given one, or else the stored one. */
  function DatabaseOf(givenClient: Option<OdmClient>, givenConfig: Option<OdmConfig>, name: Option<string>,
                      storedClient: Option<OdmClient>, storedConfig: Option<OdmConfig>)
    : (r: Result<OdmDatabase, OdmError>)
    ensures r.Success? <==>
              (name.Some? || givenConfig.Some? || storedConfig.Some?) && (givenClient.Some? || storedClient.Some?)
    ensures r.Failure? && name.None? && givenConfig.None? && storedConfig.None? ==> r.error == ConfigNotSet
    ensures r.Failure? && (name.Some? || givenConfig.Some? || storedConfig.Some?) ==> r.error == ClientNotSet
    ensures r.Success? && givenClient.Some? ==> r.value.client == givenClient.value
    ensures r.Success? && givenClient.None? ==> Some(r.value.client) == storedClient
    ensures r.Success? && name.Some? ==> r.value.name == name.value
    ensures r.Success? && name.None? && givenConfig.Some? ==> r.value.name == givenConfig.value.database
    ensures r.Success? && name.None? && givenConfig.None? ==> r.value.name == storedConfig.value.database
  {
    var chosenName :=
      if name.Some? then name
      else match OrElse(givenConfig, storedConfig)
           case None => None
           case Some(config) => Some(config.database);
    match chosenName
    case None => Failure(ConfigNotSet)
    case Some(databaseName) =>
      match OrElse(givenClient, storedClient)
      case None => Failure(ClientNotSet)
      case Some(client) => Success(OdmDatabase(client, databaseName))
  }

  /** A configuration passed in wins over the stored one. */
  lemma GivenConfigWins(config: OdmConfig, stored: Option<OdmConfig>)
    ensures ClientOf(Some(config), stored) == ClientOf(Some(config), None)
  {
  }

  /** With an explicit name no configuration is consulted, and with neither
      a name nor a configuration the build fails on the configuration even
      when a client is at hand. */
  lemma DatabaseConfigUse(givenClient: Option<OdmClient>, storedClient: Option<OdmClient>,
                          first: Option<OdmConfig>, second: Option<OdmConfig>, name: string)
    ensures DatabaseOf(givenClient, first, Some(name), storedClient, first) ==
            DatabaseOf(givenClient, second, Some(name), storedClient, second)
    ensures DatabaseOf(givenClient, None, None, storedClient, None) == Failure(ConfigNotSet)
  {
  }

  /** The documented sequence — configuration, client, database, with
      nothing passed in — gives the database named in the configuration, on
      a client for the configuration's uri. */
  lemma DocumentedSequence(config: OdmConfig)
    ensures ClientOf(None, Some(config)).Success?
    ensures var client := ClientOf(None, Some(config)).value;
            DatabaseOf(None, None, None, Some(client), Some(config)) == Success(OdmDatabase(client, config.database))
    ensures ClientOf(None, Some(config)).value.host == config.uri
  {
  }

  /** `ODMBuilder`: the three optional products. */
  class OdmBuilder {
    const packageName: string
    var config: Option<OdmConfig>
    var client: Option<OdmClient>
    var database: Option<OdmDatabase>

    constructor(packageName: string)
      ensures this.packageName == packageName
      ensures config == None && client == None && database == None
    {
      this.packageName := packageName;
      config, client, database := None, None, None;
    }

    /** `build_odm_config`: on failure the stored configuration is kept. */
    method BuildOdmConfig(lookup: FileLookup, construct: map<string, Yaml> -> Option<OdmConfig>, env: Environment)
      returns (r: Outcome<OdmError>)
      requires EnvDollarFree(env)
      modifies this
      ensures var built := OdmConfigFrom(lookup, packageName, construct, env);
              && (built.Success? ==> r == Pass && config == Some(built.value))
              && (built.Failure? ==> r == Fail(built.error) && config == old(config))
      ensures client == old(client) && database == old(database)
    {
      if packageName == "" {
        return Fail(PackageNameUnset);
      }
      var content := ReadInPackage(lookup(packageName, ApplicationFile), OdmKey, env);
      if content.Failure? {
        return Fail(if content.error == UnableToReadConfigFile then ConfigUnreadable else Uncaught(content.error.error));
      }
      var built := construct(content.value);
      if built.None? {
        return Fail(ConfigInvalid);
      }
      config := built;
      r := Pass;
    }

    /** `build_client`: on failure the stored client is kept. */
    method BuildClient(given: Option<OdmConfig>) returns (r: Outcome<OdmError>)
      modifies this
      ensures var built := ClientOf(given, old(config));
              && (built.Success? ==> r == Pass && client == Some(built.value))
              && (built.Failure? ==> r == Fail(built.error) && client == old(client))
      ensures config == old(config) && database == old(database)
    {
      var chosen := given;
      if chosen.None? {
        chosen := config;
      }
      if chosen.None? {
        return Fail(ConfigNotSet);
      }
      client := Some(OdmClient(chosen.value.uri, true, chosen.value.connectionTimeoutMs, chosen.value.connectionTimeoutMs));
      r := Pass;
    }

    /** `build_database`: on failure the stored database is kept. */
    method BuildDatabase(givenClient: Option<OdmClient>, givenConfig: Option<OdmConfig>, name: Option<string>)
      returns (r: Outcome<OdmError>)
      modifies this
      ensures var built := DatabaseOf(givenClient, givenConfig, name, old(client), old(config));
              && (built.Success? ==> r == Pass && database == Some(built.value))
              && (built.Failure? ==> r == Fail(built.error) && database == old(database))
      ensures config == old(config) && client == old(client)
    {
      var databaseName := name;
      if databaseName.None? {
        var chosenConfig := givenConfig;
        if chosenConfig.None? {
          chosenConfig := config;
        }
        if chosenConfig.None? {
          return Fail(ConfigNotSet);
        }
        databaseName := Some(chosenConfig.value.database);
      }
      var chosenClient := givenClient;
      if chosenClient.None? {
        chosenClient := client;
      }
      if chosenClient.None? {
        return Fail(ClientNotSet);
      }
      database := Some(OdmDatabase(chosenClient.value, databaseName.value));
      r := Pass;
    }
  }
}
