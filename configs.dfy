/** Building a typed configuration record from a YAML file shipped inside a
    package: read the section under a base key with environment injection
    on, then hand it to the record's constructor. The package lookup and
    the record's validation are not modelled: the builder is handed the
    outcome of looking the file up, and the constructor is a partial
    function from the section to a record. */
module Configs {
  import opened Wrappers
  import opened YamlReader

  /** The application's configuration file, shipped in its package. */
  const ApplicationFile: string := "application.yaml"

  /** What looking a file up in its package gave. */
  datatype PackageFile =
    | PackageNotImportable
    | FileNotInPackage
    | Located(file: YamlFile)

  /** `get_path_file_in_package`, opening and parsing included: from a
      package name and a file name to what was found there. */
  type FileLookup = (string, string) -> PackageFile

  /** The failures of the builder. The first two are the configuration
      exceptions, both of the kind `ConfigBaseException`; the reader's own
      errors other than `UnableToReadYamlFileError` are not caught and
      escape as they are. */
  datatype ConfigError =
    | UnableToReadConfigFile
    | ValueErrorConfig
    | Escaped(error: ReadError)

  /** The kind shared by the two configuration exceptions. */
  predicate IsConfigBaseException(e: ConfigError)
  {
    e.UnableToReadConfigFile? || e.ValueErrorConfig?
  }

  /** The first `try`: the file read with injection always on. A missing
      package, a missing file and every `UnableToReadYamlFileError` are one
      error. */
  function ReadInPackage(source: PackageFile, baseKey: string, env: Environment)
    : (r: Result<map<string, Yaml>, ConfigError>)
    requires EnvDollarFree(env)
    ensures r == Failure(UnableToReadConfigFile) <==>
              !source.Located? || (Read(source.file, Some(baseKey), true, env).Failure? &&
                                   Read(source.file, Some(baseKey), true, env).error.UnableToReadYamlFile?)
    ensures r.Failure? ==> r.error != ValueErrorConfig
    ensures r.Success? ==> source.Located? && Read(source.file, Some(baseKey), true, env) == Success(r.value)
    ensures r.Success? ==> TokenFree(Map(r.value))
    ensures source.Located? && Read(source.file, Some(baseKey), true, env).Success? ==>
              r == Success(Read(source.file, Some(baseKey), true, env).value)
    ensures source.Located? && Read(source.file, Some(baseKey), true, env).Failure? &&
            !Read(source.file, Some(baseKey), true, env).error.UnableToReadYamlFile? ==>
              r == Failure(Escaped(Read(source.file, Some(baseKey), true, env).error))
  {
    match source
    case PackageNotImportable => Failure(UnableToReadConfigFile)
    case FileNotInPackage => Failure(UnableToReadConfigFile)
    case Located(file) =>
      match Read(file, Some(baseKey), true, env)
      case Success(content) => Success(content)
      case Failure(UnableToReadYamlFile(_)) => Failure(UnableToReadConfigFile)
      case Failure(e) => Failure(Escaped(e))
  }

  /** `build_config_from_file_in_package`: read, then construct the record;
      a constructor that rejects the section is a `ValueErrorConfigError`. */
  function BuildConfigFromFileInPackage<C>(lookup: FileLookup, packageName: string, filename: string,
                                           construct: map<string, Yaml> -> Option<C>,
                                           baseKey: string, env: Environment)
    : (r: Result<C, ConfigError>)
    requires EnvDollarFree(env)
    ensures var read := ReadInPackage(lookup(packageName, filename), baseKey, env);
            && (r == Failure(UnableToReadConfigFile) <==> read == Failure(UnableToReadConfigFile))
            && (r == Failure(ValueErrorConfig) <==> read.Success? && construct(read.value).None?)
            && (r.Success? <==> read.Success? && construct(read.value).Some?)
            && (r.Success? ==> Some(r.value) == construct(read.value))
            && (read.Failure? && read.error.Escaped? ==> r == Failure(read.error))
  {
    match ReadInPackage(lookup(packageName, filename), baseKey, env)
    case Failure(e) => Failure(e)
    case Success(content) =>
      match construct(content)
      case None => Failure(ValueErrorConfig)
      case Some(config) => Success(config)
  }

  /** The record is never constructed when the read fails: the outcome does
      not depend on the constructor. */
  lemma ReadFailureIgnoresConstructor<C>(lookup: FileLookup, packageName: string, filename: string,
                                         first: map<string, Yaml> -> Option<C>,
                                         second: map<string, Yaml> -> Option<C>,
                                         baseKey: string, env: Environment)
    requires EnvDollarFree(env) && ReadInPackage(lookup(packageName, filename), baseKey, env).Failure?
    ensures BuildConfigFromFileInPackage(lookup, packageName, filename, first, baseKey, env) ==
            BuildConfigFromFileInPackage(lookup, packageName, filename, second, baseKey, env)
    ensures BuildConfigFromFileInPackage(lookup, packageName, filename, first, baseKey, env).Failure?
  {
  }

  /** Every failure of the file lookup or of the reader is reported as a
      configuration exception except the two the reader lets escape. */
  lemma ConfigErrorKinds<C>(lookup: FileLookup, packageName: string, filename: string,
                            construct: map<string, Yaml> -> Option<C>, baseKey: string, env: Environment)
    requires EnvDollarFree(env)
    ensures var r := BuildConfigFromFileInPackage(lookup, packageName, filename, construct, baseKey, env);
            var source := lookup(packageName, filename);
            r.Failure? ==>
              (IsConfigBaseException(r.error) <==>
               !(source.Located? && Read(source.file, Some(baseKey), true, env).Failure? &&
                 !Read(source.file, Some(baseKey), true, env).error.UnableToReadYamlFile?))
  {
  }

  /** The constructor receives exactly the section under the base key when
      that section holds no token: its fields are the section's values. */
  lemma BuildFromTokenFreeSection<C>(lookup: FileLookup, packageName: string, filename: string,
                                     construct: map<string, Yaml> -> Option<C>, baseKey: string,
                                     env: Environment, doc: Yaml, section: map<string, Yaml>)
    requires EnvDollarFree(env) && lookup(packageName, filename) == Located(Parsed(doc))
    requires Filter(doc, Some(baseKey)) == Success(Map(section)) && TokenFree(Map(section))
    ensures BuildConfigFromFileInPackage(lookup, packageName, filename, construct, baseKey, env) ==
            match construct(section)
            case Some(config) => Success(config)
            case None => Failure(ValueErrorConfig)
  {
    InjectTokenFree(Map(section), env);
  }

  /** A base-key segment missing from the mapping the segments before it
      reach is a read failure, whatever the record would have accepted. */
  lemma MissingBaseKeyIsUnreadable<C>(lookup: FileLookup, packageName: string, filename: string,
                                      construct: map<string, Yaml> -> Option<C>, baseKey: string,
                                      env: Environment, doc: Yaml, i: nat, m: map<string, Yaml>)
    requires EnvDollarFree(env) && lookup(packageName, filename) == Located(Parsed(doc))
    requires i < |Split(baseKey, '.')| && Walk(doc, Split(baseKey, '.')[..i]) == Success(Map(m))
    requires Split(baseKey, '.')[i] !in m
    ensures BuildConfigFromFileInPackage(lookup, packageName, filename, construct, baseKey, env) ==
            Failure(UnableToReadConfigFile)
  {
    ReadMissingBaseKey(doc, baseKey, i, m, true, env);
  }
}
