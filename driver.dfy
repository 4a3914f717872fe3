/** `main`: resolving the effective settings from the command line and the
    selected profile, the pre-flight check, the printing modes, the
    require-Landlock gate, enforcement, and launching the command. */
module Driver {
  import opened Wrappers
  import opened Access
  import opened Negotiation
  import opened Errors
  import opened Config
  import opened Paths
  import opened Kernel
  import opened Policy
  import opened Enforce
  import opened Report
  import opened Release
  import opened Launcher

  /** The command-line switches `main` acts on. */
  datatype Args = Args(
    config: Option<string>,
    profile: Option<string>,
    root: Option<string>,
    readOnly: bool,
    check: bool,
    dryRun: bool,
    requireLandlock: bool,
    printConfig: bool,
    printRuleset: bool,
    generateProfile: bool,
    command: seq<string>)

  /** The environment `main` runs in: $HOME, the configuration file decoded
      (`None` when it cannot be read or decoded), the two files the availability check
      reads (`None` when unreadable), the Landlock kernel, and the process spawner. */
  datatype Host = Host(
    home: Option<string>,
    readConfig: string -> Option<Config>,
    osrelease: Option<string>,
    lsm: Option<string>,
    kernel: Kernel,
    proc: Process)

  /** How `main` ends. The printing modes and the check end without running
      anything; `Ran` carries whether the sandbox was applied, what was launched
      and the child's exit code; `Failed` is an error returned from `main`. */
  datatype Outcome =
    | Generated
    | CheckReported(available: bool)
    | PrintedConfig(profile: Option<Profile>, root: Option<string>, readOnly: bool)
    | PrintedRootRuleset(rootReport: RootReport)
    | PrintedProfileRuleset(profileReport: ProfileReport)
    | Ran(sandboxed: bool, launch: Launch, code: int)
    | Failed(error: Error)

  /** The process exit status `main` produces. */
  function ProcessExitCode(out: Outcome): (code: int)
    ensures out.Failed? ==> code == 1
    ensures out.CheckReported? ==> (code == 0 <==> out.available)
    ensures out.Ran? ==> code == out.code
  {
    match out
    case Failed(_) => 1
    case CheckReported(available) => if available then 0 else 1
    case Ran(_, _, code) => code
    case _ => 0
  }

  /** The effective command, root, read-only toggle and selected profile. */
  datatype Settings = Settings(command: seq<string>, root: Option<string>, readOnly: bool,
                               profile: Option<Profile>)

  /** The read-only toggle the `projects` group implies: none of write_file,
      remove_file and truncate is granted (remove_dir is not consulted). */
  function ProjectsReadOnly(perms: Permissions): (r: bool)
    ensures r <==> perms.writeFile != Some(true) && perms.removeFile != Some(true) &&
                   perms.truncate != Some(true)
  {
    !perms.writeFile.UnwrapOr(false) && !perms.removeFile.UnwrapOr(false) &&
    !perms.truncate.UnwrapOr(false)
  }

  /** A `projects` group that may remove directories still counts as read-only. */
  lemma RemoveDirIgnoredByReadOnly()
    ensures ProjectsReadOnly(Permissions(Some(true), Some(true), None, None, None, Some(true), None))
  {
  }

  /** The command the profile names: its binary followed by its arguments. */
  function ProfileCommand(c: CommandSpec): (r: seq<string>)
    ensures |r| == 1 + |c.args| && r[0] == c.binary && r[1..] == c.args
  {
    [c.binary] + c.args
  }

  /** The settings `main` derives: without a config, the command line as given;
      with one, a profile name is required, the file must load and name that
      profile, the profile's command stands in for an empty command line, and a
      `projects` group with at least one path supplies the root (normalized) and
      the read-only toggle. */
  function Resolve(args: Args, home: Option<string>, readConfig: string -> Option<Config>)
    : (r: Result<Settings, Error>)
    ensures args.config.None? ==> r == Ok(Settings(args.command, args.root, args.readOnly, None))
    ensures args.config.Some? && args.profile.None? ==> r == Err(ProfileFlagRequired)
    ensures args.config.Some? && args.profile.Some? && LoadConfig(readConfig(args.config.value)).Err? ==>
              r == Err(LoadConfig(readConfig(args.config.value)).error)
    ensures r.Ok? && args.config.Some? ==>
              var cfg := LoadConfig(readConfig(args.config.value)).value;
              args.profile.Some? && args.profile.value in cfg.profiles &&
              r.value.profile == Some(cfg.profiles[args.profile.value])
    ensures r.Ok? && r.value.profile.Some? && args.command == [] ==>
              r.value.command == ProfileCommand(r.value.profile.value.command)
    ensures r.Ok? && args.command != [] ==> r.value.command == args.command
  {
    if args.config.None? then Ok(Settings(args.command, args.root, args.readOnly, None))
    else if args.profile.None? then Err(ProfileFlagRequired)
    else
      var name := args.profile.value;
      var cfg :- LoadConfig(readConfig(args.config.value));
      if name !in cfg.profiles then Err(ProfileNotFound(name))
      else
        var profile := cfg.profiles[name];
        var command := if args.command == [] then ProfileCommand(profile.command) else args.command;
        if "projects" in profile.accessRoots && profile.accessRoots["projects"].paths != [] then
          var projects := profile.accessRoots["projects"];
          var root :- NormalizePath(projects.paths[0], home);
          Ok(Settings(command, Some(root), ProjectsReadOnly(projects.permissions), Some(profile)))
        else Ok(Settings(command, args.root, args.readOnly, Some(profile)))
  }

  /** With a selected profile whose `projects` group has a first path, the root is
      that path normalized and the read-only toggle comes from the group's
      permissions, whatever the command line said; without such a group the
      command line's root and toggle stand. A first path that cannot be normalized
      fails `main`. */
  lemma ResolveProjects(args: Args, home: Option<string>, readConfig: string -> Option<Config>)
    requires args.config.Some? && args.profile.Some?
    requires LoadConfig(readConfig(args.config.value)).Ok?
    requires args.profile.value in LoadConfig(readConfig(args.config.value)).value.profiles
    ensures var p := LoadConfig(readConfig(args.config.value)).value.profiles[args.profile.value];
            var r := Resolve(args, home, readConfig);
            if "projects" in p.accessRoots && p.accessRoots["projects"].paths != [] then
              var first := p.accessRoots["projects"].paths[0];
              (r.Err? <==> NormalizePath(first, home).Err?) &&
              (r.Ok? ==> r.value.root == Some(NormalizePath(first, home).value) &&
                         r.value.readOnly == ProjectsReadOnly(p.accessRoots["projects"].permissions))
            else r.Ok? && r.value.root == args.root && r.value.readOnly == args.readOnly
  {
  }

  /** The require-Landlock gate: an error when Landlock is required and missing;
      otherwise whether the sandbox is applied, which is whether it is available. */
  function SandboxGate(require: bool, available: bool): (r: Result<bool, Error>)
    ensures r.Err? <==> require && !available
    ensures r.Err? ==> r.error == LandlockRequired
    ensures r.Ok? ==> r.value == available
  {
    if require && !available then Err(LandlockRequired) else Ok(available)
  }

  /** The outcome of enforcement for the resolved settings: profile setup when a
      profile is selected, otherwise root setup, which needs a root. */
  function Enforced(s: Settings, order: seq<string>, home: Option<string>, k: Kernel)
    : (r: Result<Ruleset, Error>)
    requires s.profile.Some? ==> IsEnumeration(order, s.profile.value.accessRoots.Keys)
    ensures s.profile.None? && s.root.None? ==> r == Err(RootRequired)
    ensures r.Err? ==> r.error in {HomeUnresolved, RootRequired, RulesetCreateFailed, RestrictFailed} ||
                       r.error.AddRuleFailed?
  {
    if s.profile.Some? then EnforceProfile(s.profile.value, order, home, k)
    else if s.root.None? then Err(RootRequired)
    else EnforceRoot(s.root.value, s.readOnly, home, k)
  }

  /** The spawner's view of the resolved settings: the profile's command record,
      if a profile is selected. */
  function SpecOf(s: Settings): Option<CommandSpec> {
    if s.profile.Some? then Some(s.profile.value.command) else None
  }

  /** The modes that run the command: none of the generating, checking and printing
      switches is given. */
  predicate RunMode(args: Args) {
    !args.generateProfile && !args.check && !args.printConfig && !args.printRuleset && !args.dryRun
  }

  /** Enforcement for the resolved settings: the profile when one is selected,
      otherwise the root, which is then required. In profile mode `order` is the
      order the profile's groups were visited in. */
  method ApplySandbox(e: Enforcer, s: Settings, home: Option<string>, k: Kernel)
    returns (r: Result<(), Error>, order: seq<string>)
    requires e.Valid() && e.stage == Unrestricted
    modifies e
    ensures e.Valid()
    ensures r.Ok? <==> e.stage == Restricted
    ensures s.profile.Some? ==>
              var p := s.profile.value;
              IsEnumeration(order, p.accessRoots.Keys) &&
              (r.Ok? <==> EnforceProfile(p, order, home, k).Ok?) &&
              (r.Err? ==> r.error == EnforceProfile(p, order, home, k).error) &&
              (r.Ok? ==> EnforceProfile(p, order, home, k) == Ok(Ruleset(e.handled, e.rules)))
    ensures s.profile.None? && s.root.Some? ==>
              var root := s.root.value;
              (r.Ok? <==> EnforceRoot(root, s.readOnly, home, k).Ok?) &&
              (r.Err? ==> r.error == EnforceRoot(root, s.readOnly, home, k).error) &&
              (r.Ok? ==> EnforceRoot(root, s.readOnly, home, k) == Ok(Ruleset(e.handled, e.rules)))
    ensures s.profile.None? && s.root.None? ==> r == Err(RootRequired) && e.stage == Unrestricted
    ensures s.profile.Some? ==> IsEnumeration(order, s.profile.value.accessRoots.Keys)
    ensures (r.Ok? <==> Enforced(s, order, home, k).Ok?) &&
            (r.Err? ==> r.error == Enforced(s, order, home, k).error) &&
            (r.Ok? ==> Enforced(s, order, home, k) == Ok(Ruleset(e.handled, e.rules)))
    ensures r.Err? ==> e.stage in {Unrestricted, Aborted}
    ensures r.Err? ==> r.error in {HomeUnresolved, RootRequired, RulesetCreateFailed, RestrictFailed} ||
                       r.error.AddRuleFailed?
  {
    order := [];
    if s.profile.Some? {
      r, order := SetupProfile(e, s.profile.value, home, k);
    } else if s.root.None? {
      r := Err(RootRequired);
    } else {
      r := SetupRoot(e, s.root.value, s.readOnly, home, k);
    }
  }

  /** `main` after argument parsing. */
  method RunLauncher(e: Enforcer, args: Args, host: Host) returns (out: Outcome, order: seq<string>)
    requires e.Valid() && e.stage == Unrestricted
    modifies e
    ensures e.Valid()
    ensures args.generateProfile ==> out == Generated
    ensures !args.generateProfile && args.check ==>
              out == CheckReported(LandlockAvailable(host.osrelease, host.lsm))
    ensures !args.generateProfile && !args.check && Resolve(args, host.home, host.readConfig).Err? ==>
              out == Failed(Resolve(args, host.home, host.readConfig).error)
    ensures !args.generateProfile && !args.check && Resolve(args, host.home, host.readConfig).Ok? &&
            args.printConfig ==>
              var s := Resolve(args, host.home, host.readConfig).value;
              out == PrintedConfig(s.profile, s.root, s.readOnly)
    ensures !args.generateProfile && !args.check && !args.printConfig && (args.printRuleset || args.dryRun) ==>
              out.PrintedRootRuleset? || out.PrintedProfileRuleset? || out.Failed?
    ensures out.Ran? ==>
              Resolve(args, host.home, host.readConfig).Ok? &&
              var s := Resolve(args, host.home, host.readConfig).value;
              s.command != [] && out.launch.binary == s.command[0] && out.launch.args == s.command[1..] &&
              (s.profile.None? ==> out.launch.cwd.None? && out.launch.env.None?)
    ensures out.Ran? && out.sandboxed ==>
              Resolve(args, host.home, host.readConfig).Ok? &&
              var s := Resolve(args, host.home, host.readConfig).value;
              if s.profile.Some? then
                IsEnumeration(order, s.profile.value.accessRoots.Keys) &&
                EnforceProfile(s.profile.value, order, host.home, host.kernel) == Ok(Ruleset(e.handled, e.rules))
              else
                s.root.Some? &&
                EnforceRoot(s.root.value, s.readOnly, host.home, host.kernel) == Ok(Ruleset(e.handled, e.rules))
    ensures args.generateProfile || args.check || args.printConfig || args.printRuleset || args.dryRun ==>
              !out.Ran? && e.stage == Unrestricted && e.log == []
    ensures out.Ran? ==> out.sandboxed == LandlockAvailable(host.osrelease, host.lsm)
    ensures out.Ran? && out.sandboxed ==> e.stage == Restricted
    ensures out.Ran? && !out.sandboxed ==> !args.requireLandlock && e.stage == Unrestricted && e.log == []
    ensures out.Ran? ==> host.proc.spawn(out.launch).Some? &&
                         out.code == ExitCode(host.proc.spawn(out.launch).value)
    ensures out == Failed(LandlockRequired) ==>
              args.requireLandlock && !LandlockAvailable(host.osrelease, host.lsm)
    ensures e.stage == Restricted ==> LandlockAvailable(host.osrelease, host.lsm)
    ensures e.stage == Aborted ==> out.Failed?
    ensures !args.generateProfile && !args.check && !args.printConfig && (args.printRuleset || args.dryRun) &&
            Resolve(args, host.home, host.readConfig).Ok? ==>
              Plans(Resolve(args, host.home, host.readConfig).value, host, out, order)
    ensures RunMode(args) && Resolve(args, host.home, host.readConfig).Ok? ==>
              var s := Resolve(args, host.home, host.readConfig).value;
              var available := LandlockAvailable(host.osrelease, host.lsm);
              (out == Failed(NoCommand) <==> s.command == []) &&
              (s.command != [] && SandboxGate(args.requireLandlock, available).Err? ==>
                 out == Failed(LandlockRequired)) &&
              (s.command != [] && SandboxGate(args.requireLandlock, available).Ok? ==>
                 (available && s.profile.Some? ==> IsEnumeration(order, s.profile.value.accessRoots.Keys)) &&
                 (available && Enforced(s, order, host.home, host.kernel).Err? ==>
                    out == Failed(Enforced(s, order, host.home, host.kernel).error)) &&
                 ((available ==> Enforced(s, order, host.home, host.kernel).Ok?) ==>
                    out == match Launching(s.command, SpecOf(s), host.home, host.proc)
                           case Err(err) => Failed(err)
                           case Ok(l) =>
                             match host.proc.spawn(l)
                             case Some(status) => Ran(available, l, ExitCode(status))
                             case None => Failed(SpawnFailed)))
  {
    order := [];
    if args.generateProfile {
      out := Generated;
      return;
    }
    var available := LandlockAvailable(host.osrelease, host.lsm);
    if args.check {
      out := CheckReported(available);
      return;
    }
    var resolved := Resolve(args, host.home, host.readConfig);
    if resolved.Err? {
      out := Failed(resolved.error);
      return;
    }
    var s := resolved.value;
    if args.printConfig {
      out := PrintedConfig(s.profile, s.root, s.readOnly);
      return;
    }
    if args.printRuleset || args.dryRun {
      out, order := PrintPlan(s, host);
      return;
    }
    if s.command == [] {
      out := Failed(NoCommand);
      return;
    }
    var gate := SandboxGate(args.requireLandlock, available);
    if gate.Err? {
      out := Failed(gate.error);
      return;
    }
    if available {
      var enforced;
      enforced, order := ApplySandbox(e, s, host.home, host.kernel);
      if enforced.Err? {
        out := Failed(enforced.error);
        return;
      }
    }
    var code, launched := RunCommand(s.command, SpecOf(s), host.home, host.proc);
    if code.Err? {
      out := Failed(code.error);
      return;
    }
    out := Ran(available, launched.value, code.value);
  }

  /** What `--print-ruleset` and `--dry-run` produce from the resolved settings:
      nothing runs; with a profile, its report (the handled names, the unsupported
      ones and each group in `order`), or $HOME unresolved exactly when it does not
      compile; with only a root, its report, or $HOME unresolved exactly when the
      root does not normalize; with neither, root required. */
  ghost predicate Plans(s: Settings, host: Host, out: Outcome, order: seq<string>) {
    !out.Ran? &&
    (s.profile.Some? ==>
       var p := s.profile.value;
       IsEnumeration(order, p.accessRoots.Keys) &&
       (out.PrintedProfileRuleset? || out == Failed(HomeUnresolved)) &&
       (out.Failed? <==> CompileProfile(p, order, host.home).Err?) &&
       (out.PrintedProfileRuleset? ==>
          var report := out.profileReport;
          report.handled == Names(HandledMask(p)) &&
          report.ignored == Names(HandledMask(p) - Supported(host.kernel)) &&
          (EnumerationMembers(order, p.accessRoots.Keys);
           DescribesGroups(report.groups, p.accessRoots, order, host.home, host.kernel)))) &&
    (s.profile.None? && s.root.None? ==> out == Failed(RootRequired)) &&
    (s.profile.None? && s.root.Some? ==>
       (out.Failed? <==> NormalizePath(s.root.value, host.home).Err?) &&
       (out.Failed? ==> out.error == HomeUnresolved) &&
       (!out.Failed? ==> out.PrintedRootRuleset?)) &&
    (out.PrintedRootRuleset? ==>
       var report := out.rootReport;
       s.profile.None? && s.root.Some? &&
       Ok(report.path) == NormalizePath(s.root.value, host.home) &&
       report.handled == report.allowed == Names(RootPrinted(s.readOnly)) &&
       report.ignored == Names(RootPrinted(s.readOnly) - Supported(host.kernel))) &&
    (out.Failed? ==> out.error in {HomeUnresolved, RootRequired})
  }

  /** `--print-ruleset` and `--dry-run`: the report of the profile when one is
      selected, otherwise of the root, which is then required. Nothing is enforced.
      In profile mode `order` is the order the groups are reported in. */
  method PrintPlan(s: Settings, host: Host) returns (out: Outcome, order: seq<string>)
    ensures Plans(s, host, out, order)
  {
    order := [];
    if s.profile.Some? {
      var report;
      report, order := PrintRulesetProfile(s.profile.value, host.home, host.kernel);
      if report.Err? {
        return Failed(report.error), order;
      }
      return PrintedProfileRuleset(report.value), order;
    }
    if s.root.None? {
      return Failed(RootRequired), order;
    }
    var report := PrintRulesetRoot(s.root.value, s.readOnly, host.home, host.kernel);
    if report.Err? {
      return Failed(report.error), order;
    }
    out := PrintedRootRuleset(report.value);
  }
}
