# ai-sandbox-landlock, modelled in Dafny

`ai-sandbox-landlock` is a launcher that runs a command inside a Linux
Landlock sandbox. It takes the sandbox from one of two places. A *profile*
from a YAML configuration file names groups of paths, each with
per-capability permissions, plus a global `control_access` record. A single
*project root* given as `--root`, optionally with `--read-only`, is the
other. The launcher compiles either into a Landlock ruleset, which is a
handled mask plus path-beneath rules. It then creates that ruleset, adds its
rules, restricts itself, and runs the command. It can also print the ruleset
instead of enforcing it, check whether Landlock is available, and refuse to
run without Landlock.

This project models the core of `src/main.rs` and proves properties of that
model:

- **Access** (`access.dfy`): the seven filesystem capabilities the launcher
  names, their diagnostic names in a fixed order, and the capability sets of
  Landlock ABI revisions 1 and 2, restricted to those seven.
- **Config** (`config.dfy`): the decoded configuration document and the
  version check of `load_config`.
- **Mapping** (`mapping.dfy`): `access_from_permissions`,
  `access_from_control` and `access_names`.
- **Negotiation** (`negotiation.dfy`): `supported_access`, with the kernel's
  answer to the creation probe as a parameter, and `unsupported_names`.
- **Paths** (`paths.dfy`): `normalize_path`, with `$HOME` as a parameter, and
  `PathBuf::push`.
- **Release** (`release.dfy`): `parse_kernel_version_ge` and the verdict of
  `perform_landlock_check`.
- **Policy** (`policy.dfy`): the ruleset that a profile or a root stands
  for, and what that ruleset permits once enforced.
- **Enforce** (`enforcer.dfy`): the Landlock lifecycle as a class whose stage
  only moves forward (create, add rules, restrict once), where a failing step
  (`?`) aborts the rest. It also holds the two setup sequences,
  `setup_landlock_profile` and `setup_landlock_root`.
- **Report** (`report.dfy`): `print_ruleset_root` and
  `print_ruleset_profile` as structured reports. Lemmas tie each report to
  what the matching setup enforces.
- **Launcher** (`launcher.dfy`): `run_command`, covering the working
  directory, environment normalization and exit-code mapping.
- **Driver** (`driver.dfy`): `main` after argument parsing, covering the
  settings derived from a profile, the printing modes, the require-Landlock
  gate, enforcement and launch.

The Landlock kernel is an oracle (`Kernel.Kernel`). It says whether ruleset
creation with a given mask succeeds, whether a path-beneath rule is accepted,
and whether `restrict_self` succeeds. The process spawner, the directory test
and the file reads are parameters too. The iteration order of a `HashMap` is
unspecified, so each setup and print method picks an order itself and
returns it. A lemma shows that the compiled policy does not depend on that
order.

Where the program's comments and its code disagree, the model follows the
code:

- The help text of `--read-only` (`src/main.rs:32`) promises no writes in
  the project root. As written, root setup uses the allowed set as the
  handled mask (`src/main.rs:362-363`), so read-only mode handles no write
  right and leaves writing permitted everywhere. Root enforcement
  (`Policy.CompileRoot`, `Enforce.EnforceRoot`, `Enforce.SetupRoot`) uses
  that mask. The corrected ruleset is `Policy.RootRuleset`; see
  "## Findings".
- The comment at `src/main.rs:141` speaks of write_file and remove_file.
  The code also consults `truncate`, and it ignores `remove_dir`.

Two further points of the code:

- Root read-write mode allows `from_all(V1)`. That set lacks Truncate,
  because ABI 1 cannot express it. The print twin lists all seven names and
  flags Truncate as unsupported.
- The profile's own `dry_run` field is never consulted by `main`.

## Model

| member | source | states |
|---|---|---|
| Access.NameRoundTrip | src/main.rs:466-490 | every capability's diagnostic name reads back as that capability, so names identify capabilities |
| Access.NamesRoundTrip | src/main.rs:466-490 | the list of names of a set reads back as exactly that set |
| Access.NamesLength | src/main.rs:466-490 | the name list has one entry per member of the set, with no repeats |
| Access.NamesMonotone | src/main.rs:510-535 | the names of a subset form a subsequence of the names of the superset, keeping the fixed order |
| Access.FromAll | src/main.rs:492-508 | both probed ABI revisions' full sets hold every modelled capability except Truncate |
| Access.FromRead | src/main.rs:354-358 | the read set lies within the full set and holds no write, remove or truncate right |
| Config.CheckVersion | src/main.rs:809-813 | a document with no version or version 1 passes unchanged; any other version is refused with that version number |
| Config.LoadConfig | src/main.rs:805-815 | loading succeeds exactly when the file decodes and its version is absent or 1; the result is then the decoded document |
| Mapping.AccessFromPermissions | src/main.rs:830-856 | a capability is in the result exactly when its permission field is `Some(true)`; absent and false grant nothing |
| Mapping.AccessFromControl | src/main.rs:858-884 | the same field-by-field mapping for the control record |
| Mapping.NothingGranted | src/main.rs:830-856 | a record with no field set to true grants the empty set |
| Mapping.ReadOnlyMapping | src/main.rs:554-565 | read_file and read_dir alone grant exactly {ReadFile, ReadDir}, so not WriteFile |
| Mapping.ControlExecuteMapping | src/main.rs:567-576 | a control record with only execute set handles exactly {Execute}, so not WriteFile |
| Mapping.AccessNames | src/main.rs:466-490 | the result names exactly the members of the set, one entry each, in the fixed order |
| Negotiation.Supported | src/main.rs:492-508 | the supported set lies between ABI 1's and ABI 2's full sets and never holds Truncate |
| Negotiation.SupportedAccess | src/main.rs:492-508 | the probe returns ABI 2's full set if creating a ruleset with it succeeds, otherwise ABI 1's full set, also as the fallback |
| Negotiation.SupportedBounds | src/main.rs:578-583 | the supported set always contains ReadFile and ReadDir and lies between the two revisions' full sets |
| Negotiation.UnsupportedNames | src/main.rs:510-535 | the result names exactly the requested capabilities outside the supported set, as a subsequence of the requested names |
| Negotiation.OnlyTruncateUnsupported | src/main.rs:585-593 | a requested Truncate is always reported unsupported, and nothing else ever is |
| Paths.Push | src/main.rs:821-822 | an absolute component replaces the base; otherwise the result is the base, a separator unless the base already ends in one, then the component |
| Paths.NormalizePath | src/main.rs:817-826 | fails exactly on a `~/` path with $HOME unset; a `~/` path becomes $HOME pushed with the rest; any other path is returned unchanged |
| Paths.HomeExpansion | src/main.rs:543-552 | `~/rest` normalizes to `$HOME/rest`, so it starts with $HOME followed by a separator |
| Paths.NormalizeIdempotent | src/main.rs:817-826 | normalizing a result that does not start with `~/` again changes nothing, under any $HOME |
| Paths.NormalizeNotIdempotent | src/main.rs:817-826 | a $HOME that itself starts with `~/` makes a second normalization expand again |
| Release.Split | src/main.rs:723 | splitting always yields at least one piece |
| Release.ParseU32 | src/main.rs:727-728 | a parsed number is below 2^32, and the empty string does not parse |
| Release.SplitJoin | src/main.rs:723 | splitting on a separator and joining with it gives the original string back |
| Release.SplitCount | src/main.rs:723-726 | a release splits into at least two pieces exactly when it contains a dot |
| Release.SplitPiecesSeparatorFree | src/main.rs:723 | no piece of a split contains the separator |
| Release.ParseDecimal | src/main.rs:727-728 | the decimal text of a number below 2^32 parses as that number |
| Release.KernelVersionGe | src/main.rs:721-730 | a release without a dot never passes the version test |
| Release.VersionOfRelease | src/main.rs:721-730 | a release "MAJOR.MINOR" followed by nothing or ".anything" passes exactly when (MAJOR, MINOR) is at least the wanted pair, lexicographically |
| Release.UnknownReleaseFails | src/main.rs:682-684 | the fallback release text "unknown" never passes |
| Release.LandlockAvailable | src/main.rs:680-711 | Landlock is only ever reported available for a release with a dot |
| Release.LandlockAvailableOn | src/main.rs:680-711 | for a well-formed release, Landlock is available exactly when the version is at least 5.13 and the module list mentions "landlock" |
| Release.UnreadableReleaseUnavailable | src/main.rs:682-684 | an unreadable release file makes the check fail |
| Policy.HandledMaskMember | src/main.rs:373-384 | a capability is handled in profile mode exactly when the control record or some group sets its field to true |
| Policy.GroupWithinHandled | src/main.rs:373-384 | every group's granted rights lie within the handled mask |
| Policy.NormalizeAll | src/main.rs:389-393 | normalizing a group's paths succeeds exactly when each path does, keeping length and order; failure is always $HOME unresolved |
| Policy.RulesOf | src/main.rs:367 | `path_beneath_rules`: one rule per path, in order, each binding that path to the given rights |
| Policy.GroupRules | src/main.rs:387-394 | a group's rules fail exactly when one of its paths needs an unset $HOME; otherwise they are exactly its normalized paths bound to its rights |
| Policy.RulesIn | src/main.rs:387-395 | the groups' rules, in iteration order, fail exactly when some group needs an unset $HOME |
| Policy.RulesInMember | src/main.rs:387-395 | a rule is among the groups' rules exactly when some group binds it |
| Policy.CompileProfile | src/main.rs:373-400 | profile compilation fails exactly when some visited group needs an unset $HOME, always as $HOME unresolved; otherwise its mask is the profile's handled mask |
| Policy.CompileProfileFails | src/main.rs:373-400 | profile compilation fails only, and then always, when some group's path needs $HOME and it is unset |
| Policy.CompiledRuleOrigin | src/main.rs:387-395 | a compiled rule is exactly some group's normalized path with that group's rights |
| Policy.CompiledRulesWithinHandled | src/main.rs:373-395 | no compiled rule allows a right outside the handled mask |
| Policy.CompileOrderIrrelevant | src/main.rs:381-395 | two iteration orders of the groups compile to the same mask and the same set of rules |
| Policy.ProfilePermits | src/main.rs:373-400 | under the compiled profile a right at a path is permitted exactly when it is unhandled or some group grants it on an ancestor path |
| Policy.BestEffortPermits | src/main.rs:368-369 | under the best-effort mask the running kernel supports, Truncate is never restricted and every other right keeps its verdict |
| Policy.EmptyProfileCompilesEmpty | src/main.rs:373-400 | a profile with no groups and an empty control record compiles to an empty mask with no rules, which restricts nothing |
| Policy.SystemProfileCompiles | src/main.rs:602-636 | the unit test's profile compiles under any $HOME to one rule on /usr with the three read rights, under a mask of those rights |
| Policy.RootAllowed | src/main.rs:355-360 | read-only mode allows reading and executing; read-write mode allows every modelled right except Truncate |
| Policy.RootRulesetAsWritten | src/main.rs:349-371 | the root ruleset as written: a handled mask equal to the allowed set, and one rule on the root with that set |
| Policy.AsWrittenReadOnlyAllowsWrites | src/main.rs:362-363 | as written, read-only root mode permits writing, removing files and removing directories anywhere |
| Policy.RootRuleset | src/main.rs:349-371 | the corrected root ruleset: one rule on the root with the mode's rights, under a mask that contains them |
| Policy.RootConfined | src/main.rs:32-33 | under the corrected root ruleset, every right but Truncate is permitted exactly beneath the root and within the mode's rights, so read-only denies writes and removals |
| Policy.ReadWriteUnchanged | src/main.rs:355-363 | in read-write mode the corrected ruleset is the one as written |
| Policy.CompileRoot | src/main.rs:349-365 | root compilation fails exactly when the root cannot be normalized, always as $HOME unresolved, and otherwise yields the ruleset as written: one rule on the normalized root, whose rights are also the handled mask |
| Policy.CompileRootCorrected | src/main.rs:349-365 | the same compilation with the corrected mask: it fails exactly when the root cannot be normalized and otherwise yields the corrected root ruleset |
| Policy.CompiledRootPermits | src/main.rs:355-365 | under the root ruleset the program compiles, a right of the mode is permitted exactly beneath the root; in read-only mode writing and removing stay permitted everywhere; a read-write root compiles to the corrected ruleset |
| Enforce.FirstRejected | src/main.rs:367 | names the first path whose rule the kernel refuses, with every earlier path accepted; none when all are accepted |
| Enforce.Enforcer.constructor | src/main.rs:365 | a fresh process is unrestricted, with no ruleset and no Landlock calls made |
| Enforce.Enforcer.Create | src/main.rs:365 | creation records the handled mask and succeeds exactly when the kernel accepts it; otherwise the attempt is aborted |
| Enforce.RefusedRuleAborts | src/main.rs:367 | a refused rule leaves the log of an aborted attempt: the accepted calls, then that one rule |
| Enforce.Enforcer.AddRule | src/main.rs:367 | one rule handed to the kernel is accepted exactly when the kernel accepts it and then joins the ruleset; otherwise the attempt is aborted; no restriction is logged |
| Enforce.Enforcer.AddRules | src/main.rs:367 | adds one rule per path in order; succeeds exactly when no path is refused and then appends exactly those rules; otherwise fails on the first refused path and aborts |
| Enforce.Enforcer.RestrictSelf | src/main.rs:368 | `restrict_self` is the last call; success confines the process, failure aborts |
| Enforce.Enforcer.Abandon | src/main.rs:392-394 | a `?` between kernel calls drops the created ruleset without restricting, leaving mask, rules and calls unchanged |
| Enforce.NormalizePaths | src/main.rs:389-393 | the loop over a group's paths returns exactly what normalizing all of them gives |
| Enforce.GroupStep | src/main.rs:389-394 | one group's additions fail exactly when its paths do not normalize or the kernel refuses one of them, with $HOME or the refused path as the error; otherwise they are its normalized paths bound to its rights |
| Enforce.AddGroup | src/main.rs:389-394 | one pass of the second loop adds exactly the group's rules, or aborts with the error that group gives; `restrict_self` is not called |
| Enforce.AddGroupRules | src/main.rs:387-395 | the profile's rule additions fail only because $HOME is unresolved or a rule was refused |
| Enforce.EnforceProfile | src/main.rs:373-400 | profile setup fails only for $HOME, creation, a refused rule or the restriction |
| Enforce.AddGroupRulesAgree | src/main.rs:387-395 | the rule additions succeed exactly when the groups compile and the kernel accepts every compiled rule, and then they add exactly the compiled rules |
| Enforce.EnforceProfileOutcome | src/main.rs:373-400 | profile setup succeeds exactly when the profile compiles and the kernel accepts the creation, every rule and the restriction, and then enforces the compiled ruleset |
| Enforce.ProfileHandled | src/main.rs:375-384 | the first loop yields exactly the handled mask and visits each group once |
| Enforce.AddProfileRules | src/main.rs:387-395 | the second loop adds exactly the rules the groups give in that order, or fails with the error that sequence gives |
| Enforce.AddGroupRulesPrefixFails | src/main.rs:387-395 | once some prefix of the groups fails, the whole setup fails with the same error |
| Enforce.SetupProfile | src/main.rs:373-400 | creates with the handled mask as the first call; ends restricted exactly when profile setup succeeds, enforcing its ruleset, and aborted otherwise; `restrict_self` was called exactly when it succeeded or was the step that failed |
| Enforce.EnforceRoot | src/main.rs:349-371 | root setup fails only for $HOME, creation, a refused rule or the restriction |
| Enforce.EnforceRootOutcome | src/main.rs:349-371 | root setup succeeds exactly when the root normalizes and the kernel accepts a creation whose mask is the mode's rights, the root's rule and the restriction, and then enforces exactly the compiled root ruleset; $HOME failure and only it comes from normalization |
| Enforce.SetupRoot | src/main.rs:349-371 | a root that cannot be normalized fails before any Landlock call; otherwise the first call creates with the mode's rights as the mask, and the process ends restricted exactly when root setup succeeds, enforcing its ruleset; `restrict_self` was called exactly when it succeeded or was the step that failed |
| Report.RootPrinted | src/main.rs:403-421 | the root report names the three read rights in read-only mode and all seven otherwise |
| Report.PrintRulesetRoot | src/main.rs:402-433 | fails exactly when the root cannot be normalized; reports the normalized root, the same names as handled and allowed, and the unsupported ones among them |
| Report.RootReportIgnored | src/main.rs:423-427 | the root report flags nothing in read-only mode and only Truncate in read-write mode |
| Report.RootReportAgreesWithEnforcement | src/main.rs:402-433 | the reported names minus the flagged ones are both the rights of the root's rule and the handled mask of the root ruleset the program enforces |
| Report.DescribeGroup | src/main.rs:446-461 | one group's description fails exactly when one of its paths needs an unset $HOME, and otherwise is the group's rights, the unsupported ones among them and its normalized paths |
| Report.DescribeGroupsIn | src/main.rs:445-461 | the group loop fails exactly when some group needs an unset $HOME, and otherwise describes each group in order |
| Report.PrintRulesetProfile | src/main.rs:435-464 | fails exactly when the profile does not compile; reports the handled mask's names, the unsupported ones, and each group in iteration order |
| Report.ProfileReportAgreesWithEnforcement | src/main.rs:435-464 | the reported handled names are the enforced mask, and each reported path of each group is bound by a compiled rule to exactly the rights reported for it |
| Launcher.NormalizeEnv | src/main.rs:654-667 | environment normalization fails exactly when some value starts with `~/` and $HOME is unset; otherwise expands exactly those values and keeps the keys |
| Launcher.EnvNormalizedIsNormalizePath | src/main.rs:656-661 | every normalized environment value is what `normalize_path` gives for the original value |
| Launcher.ExpandEnv | src/main.rs:654-662 | expanding every `~/` value under a set $HOME gives a normalized environment |
| Launcher.EnvNormalizedUnique | src/main.rs:654-662 | the normalized environment is unique: any normalized environment is the expansion, and then expansion was possible |
| Launcher.ExitCode | src/main.rs:671-676 | the child's own exit code, or 1 when a signal ended it |
| Launcher.Launching | src/main.rs:638-667 | the launch fails exactly on an empty command, a working directory that does not normalize or is not a directory, or an environment value that needs an unset $HOME, and $HOME unresolved only then; otherwise it runs the first word with the rest as arguments |
| Launcher.RunCommand | src/main.rs:638-677 | the command is handed to the spawner exactly when the launch can be prepared, and then that launch: the first word with the rest as arguments, the normalized working directory, the normalized environment; otherwise the launch's error is returned; the child's status gives the code, and a spawn failure only follows an attempted spawn |
| Driver.ProcessExitCode | src/main.rs:81-218 | an error exits 1, the check exits 0 exactly when Landlock is available, and a run exits with the child's code |
| Driver.ProjectsReadOnly | src/main.rs:141-143 | a `projects` group is read-only exactly when none of write_file, remove_file and truncate is true |
| Driver.RemoveDirIgnoredByReadOnly | src/main.rs:141-143 | a `projects` group that may remove directories but not write still counts as read-only |
| Driver.ProfileCommand | src/main.rs:127-131 | the profile's command is its binary followed by its arguments |
| Driver.Resolve | src/main.rs:105-145 | without a config the command line stands; with one, a profile name is required, the file must load and name the profile, and the profile's command fills an empty command line |
| Driver.ResolveProjects | src/main.rs:137-145 | a first `projects` path sets the root (normalized) and the read-only toggle whatever the command line said; without one the command line's root and toggle stand |
| Driver.SandboxGate | src/main.rs:193-200 | fails exactly when Landlock is required and unavailable; otherwise the sandbox is applied exactly when available |
| Driver.Enforced | src/main.rs:202-211 | enforcement of the resolved settings fails as root required when there is neither a profile nor a root, and otherwise only for $HOME, creation, a refused rule or the restriction |
| Driver.ApplySandbox | src/main.rs:202-211 | with a profile, succeeds exactly when profile setup does, enforcing its ruleset, and otherwise fails with its error; with only a root, the same for root setup; with neither, fails as root required before any Landlock call; the process ends restricted exactly on success |
| Driver.PrintPlan | src/main.rs:172-184 | runs nothing; with a profile, reports its handled names, the unsupported ones and each group in the order visited, or fails as $HOME unresolved exactly when it does not compile; with only a root, reports the normalized root with its names and the unsupported ones, or fails as $HOME unresolved exactly when the root does not normalize; with neither, fails as root required |
| Driver.RunLauncher | src/main.rs:81-218 | the generating, checking, config-printing and ruleset-printing modes create no enforcement ruleset, never call `restrict_self` and run nothing; a failed resolution is returned; the printing modes give the print plan's report; in run mode an empty command, and only it, fails as no command, then the require-Landlock gate, then an enforcement error is returned as is, and otherwise the prepared launch runs (sandboxed exactly when Landlock is available, enforcing exactly the ruleset setup gives) or its error is returned; an unsandboxed run requires that Landlock was not demanded and leaves the process untouched |

## Left out

- Argument parsing (`clap`) and the logger (`init_logger`, every `info!`, `warn!` and `error!`) are not modelled. `Args` is taken as already parsed.
- `generate_profile_yaml` and `detect_project_root` are only reached as the `Generated` outcome. Their YAML text generation, the `git rev-parse --show-toplevel` call and the fall-back to the current directory are string formatting, a child process and file-system I/O.
- YAML decoding (`serde_yaml`) and reading the configuration file are one parameter, `Host.readConfig`. It yields the decoded document or `None`. The `--print-config` serialization, and its possible error, are reduced to the `PrintedConfig` outcome.
- The exact text of every printed report and of every error message is not modelled. This includes `trim` and partial output printed before a path fails to normalize. Reports are structured values.
- The Landlock system calls and the `landlock` crate's flag sets are not modelled directly. The kernel is an oracle that answers creation, each rule and `restrict_self`. Only the seven capabilities the launcher names are modelled, so ABI sets are cut down to them. The crate's best-effort compatibility handling is folded into the oracle's answers.
- The rulesets that `supported_access` creates as a probe (`src/main.rs:498-501`), reached from both print twins, are not recorded in the enforcer's log. The probe is the oracle's answer `Kernel.createOk`.
- Opening a path for a path-beneath rule is folded into the oracle's per-rule answer. The crate's `path_beneath_rules` skips a path it cannot open instead of failing, so a refusal from the oracle is stricter than the crate.
- `Permits` gives the verdict of a ruleset enforced exactly as compiled. The `RestrictionStatus` that `restrict_self` returns is only logged (`src/main.rs:368-369`, `396-398`) and is not modelled. Under the crate's best-effort default a handled right the kernel lacks is dropped from the mask; `Policy.BestEffortPermits` states what that changes: Truncate is never restricted, and every other verdict, including those of `Policy.ProfilePermits` and `Policy.RootConfined`, stands.
- Beneath: Landlock decides ancestry on the inode hierarchy. The model uses a textual prefix ending at a separator. It does not model symbolic links, `..` or bind mounts.
- HashMap iteration order is not modelled as a fixed order. Each method that iterates a profile's groups or an environment picks an order with `:|`, and the setup and print methods return it.
- `RunCommand` hands the normalized environment to the spawner as an overlay. How the child's inherited environment merges with it belongs to the spawner parameter.
- The child's exit code is an unbounded `int`. It is not limited to `i32`.
- `std::process::exit` is the return of an `Outcome` plus `Driver.ProcessExitCode`. Process termination itself is not modelled.
- Concurrency and the warning about open file descriptors before `restrict_self` are not modelled.
- The integration tests, and the unit test that loads the example YAML file (`src/main.rs:595-600`), are left out because they depend on files and processes.
- Release.KernelVersionGe: its own contract only rules out releases without a dot. The full comparison is stated by Release.VersionOfRelease for releases written "MAJOR.MINOR" optionally followed by ".anything". Releases whose pieces do not parse read those pieces as 0, as the code does, but no lemma names them.
- Release.LandlockAvailable: its own contract only requires a dot in the release. The full verdict is stated by Release.LandlockAvailableOn for well-formed releases.

## Findings

| source | as written | input that shows it | evidently intended | confidence | as-written member | corrected member |
|---|---|---|---|---|---|---|
| src/main.rs:355-363 | in read-only root mode the handled mask equals the allowed read set {ReadFile, ReadDir, Execute}, so Landlock handles no write or remove right and leaves them unrestricted everywhere | `--root /p --read-only -- cmd`: writing a file under /p, or anywhere else, is permitted | the `--read-only` flag is documented as forbidding writes in the project root (`src/main.rs:32-33`); the mask should also handle the write and remove rights, so that they are denied | not executed; the model shows it from the code | Policy.AsWrittenReadOnlyAllowsWrites | Policy.RootConfined |
