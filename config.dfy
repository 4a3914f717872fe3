/** The decoded configuration document: a version and named profiles. Decoding
    the YAML text is done by an external library; these are the values it yields. */
module Config {
  import opened Wrappers
  import opened Errors

  /** Per-capability optional booleans of one access-root group; absent means false. */
  datatype Permissions = Permissions(
    readFile: Option<bool>,
    readDir: Option<bool>,
    execute: Option<bool>,
    writeFile: Option<bool>,
    removeFile: Option<bool>,
    removeDir: Option<bool>,
    truncate: Option<bool>)

  /** The global record whose capabilities are handled without being granted anywhere.
      It has the same seven fields as Permissions but is a record of its own. */
  datatype ControlAccess = ControlAccess(
    readFile: Option<bool>,
    readDir: Option<bool>,
    execute: Option<bool>,
    writeFile: Option<bool>,
    removeFile: Option<bool>,
    removeDir: Option<bool>,
    truncate: Option<bool>)

  /** `Permissions::default()`: every field absent. */
  const NoPermissions: Permissions := Permissions(None, None, None, None, None, None, None)
  const NoControl: ControlAccess := ControlAccess(None, None, None, None, None, None, None)

  /** Paths that share one set of permissions. */
  datatype AccessRootGroup = AccessRootGroup(paths: seq<string>, permissions: Permissions)

  /** What to run, with an optional working directory and environment overlay. */
  datatype CommandSpec = CommandSpec(
    binary: string,
    args: seq<string>,
    workingDir: Option<string>,
    env: Option<map<string, string>>)

  datatype Profile = Profile(
    description: Option<string>,
    accessRoots: map<string, AccessRootGroup>,
    controlAccess: ControlAccess,
    command: CommandSpec,
    logLevel: Option<string>,
    dryRun: Option<bool>)

  datatype Config = Config(version: Option<nat>, profiles: map<string, Profile>)

  /** The version test of `load_config`: a document without a version, or with
      version 1, is accepted unchanged; any other version is refused. */
  function CheckVersion(cfg: Config): (r: Result<Config, Error>)
    ensures r.Ok? <==> cfg.version.None? || cfg.version == Some(1)
    ensures r.Ok? ==> r.value == cfg
    ensures r.Err? ==> r.error == UnsupportedVersion(cfg.version.value)
  {
    match cfg.version
    case Some(ver) => if ver != 1 then Err(UnsupportedVersion(ver)) else Ok(cfg)
    case None => Ok(cfg)
  }

  /** `load_config`: the decoded document (`None` when the file cannot be read or
      decoded) followed by the version test. */
  function LoadConfig(decoded: Option<Config>): (r: Result<Config, Error>)
    ensures r.Ok? <==> decoded.Some? && decoded.value.version in {None, Some(1)}
    ensures r.Ok? ==> r.value == decoded.value
    ensures r.Err? ==> r.error == ConfigUnreadable || r.error.UnsupportedVersion?
  {
    match decoded
    case None => Err(ConfigUnreadable)
    case Some(cfg) => CheckVersion(cfg)
  }
}
