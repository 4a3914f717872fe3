/** `run_command`: launching the command, its working directory and environment
    normalized, and mapping how the child ended to the launcher's exit code. */
module Launcher {
  import opened Wrappers
  import opened Errors
  import opened Paths
  import opened Config

  /** How the child ended: with an exit code, or killed by a signal. */
  datatype ExitStatus = Exited(code: int) | Signaled

  /** What is handed to the process spawner. */
  datatype Launch = Launch(binary: string, args: seq<string>, cwd: Option<string>,
                           env: Option<map<string, string>>)

  /** The spawner and the directory test, seen from the launcher: `spawn` gives the
      child's status, or `None` when it cannot be started; `isDir` answers
      `Path::is_dir`. */
  datatype Process = Process(isDir: string -> bool, spawn: Launch -> Option<ExitStatus>)

  /** `out` is `env` with every value that starts with `~/` expanded under $HOME
      and every other value unchanged. */
  predicate EnvNormalized(env: map<string, string>, home: Option<string>, out: map<string, string>) {
    out.Keys == env.Keys &&
    forall key :: key in env ==>
      if HasHomePrefix(env[key]) then home.Some? && out[key] == Push(home.value, env[key][2..])
      else out[key] == env[key]
  }

  /** Every `~/` value of `env` can be expanded: $HOME is set, or no value needs it. */
  predicate EnvExpandable(env: map<string, string>, home: Option<string>) {
    home.Some? || forall key :: key in env ==> !HasHomePrefix(env[key])
  }

  /** `env` with every `~/` value expanded under $HOME. */
  function ExpandEnv(env: map<string, string>, home: Option<string>): (out: map<string, string>)
    requires EnvExpandable(env, home)
    ensures EnvNormalized(env, home, out)
  {
    map key | key in env :: if HasHomePrefix(env[key]) then Push(home.value, env[key][2..]) else env[key]
  }

  /** The normalized environment is unique. */
  lemma EnvNormalizedUnique(env: map<string, string>, home: Option<string>, out: map<string, string>)
    requires EnvNormalized(env, home, out)
    ensures EnvExpandable(env, home) && out == ExpandEnv(env, home)
  {
    var expanded := ExpandEnv(env, home);
    assert forall key :: key in out <==> key in expanded;
    assert forall key :: key in out ==> out[key] == expanded[key];
  }

  /** The environment loop of `run_command`: fails exactly when some value needs
      $HOME and it is unset. */
  method NormalizeEnv(env: map<string, string>, home: Option<string>) returns (r: Result<map<string, string>, Error>)
    ensures r.Err? <==> home.None? && exists key :: key in env && HasHomePrefix(env[key])
    ensures r.Err? ==> r.error == HomeUnresolved
    ensures r.Ok? ==> EnvNormalized(env, home, r.value)
  {
    var out: map<string, string> := map[];
    var remaining := env.Keys;
    while remaining != {}
      invariant remaining <= env.Keys
      invariant out.Keys == env.Keys - remaining
      invariant forall key :: key in out ==>
        if HasHomePrefix(env[key]) then home.Some? && out[key] == Push(home.value, env[key][2..])
        else out[key] == env[key]
      decreases |remaining|
    {
      var key :| key in remaining;
      var v := env[key];
      var nv;
      if HasHomePrefix(v) {
        var n := NormalizePath(v, home);
        if n.Err? {
          return Err(n.error);
        }
        nv := n.value;
      } else {
        nv := v;
      }
      out := out[key := nv];
      remaining := remaining - {key};
    }
    r := Ok(out);
  }

  /** Values that do not start with `~/` pass through normalization untouched, and
      the expanded ones are what `normalize_path` gives. */
  lemma EnvNormalizedIsNormalizePath(env: map<string, string>, home: Option<string>,
                                     out: map<string, string>, key: string)
    requires EnvNormalized(env, home, out) && key in env
    ensures NormalizePath(env[key], home) == Ok(out[key])
  {
  }

  /** The launcher's exit code: the child's own code, or 1 when a signal ended it. */
  function ExitCode(s: ExitStatus): (code: int)
    ensures s.Exited? ==> code == s.code
    ensures s.Signaled? ==> code == 1
  {
    match s
    case Exited(c) => c
    case Signaled => 1
  }

  /** What `run_command` hands to the spawner, or the error that stops it first:
      an empty command; a working directory that cannot be normalized or is not a
      directory; an environment value that needs an unset $HOME. */
  function Launching(cmd: seq<string>, spec: Option<CommandSpec>, home: Option<string>, proc: Process)
    : (r: Result<Launch, Error>)
    ensures r.Err? ==> r.error in {EmptyCommand, HomeUnresolved} || r.error.NotADirectory?
    ensures r.Err? <==>
              cmd == [] ||
              (spec.Some? && spec.value.workingDir.Some? &&
               (NormalizePath(spec.value.workingDir.value, home).Err? ||
                !proc.isDir(NormalizePath(spec.value.workingDir.value, home).value))) ||
              (spec.Some? && spec.value.env.Some? && !EnvExpandable(spec.value.env.value, home))
    ensures r.Err? && r.error == HomeUnresolved ==>
              cmd != [] && home.None? && spec.Some? &&
              ((spec.value.workingDir.Some? && HasHomePrefix(spec.value.workingDir.value)) ||
               (spec.value.env.Some? && exists key :: key in spec.value.env.value &&
                                                      HasHomePrefix(spec.value.env.value[key])))
    ensures r.Ok? ==> r.value.binary == cmd[0] && r.value.args == cmd[1..]
  {
    if cmd == [] then Err(EmptyCommand)
    else if spec.None? then Ok(Launch(cmd[0], cmd[1..], None, None))
    else
      var c := spec.value;
      var cwd :- if c.workingDir.None? then Ok(None)
                 else
                   var wd :- NormalizePath(c.workingDir.value, home);
                   if proc.isDir(wd) then Ok(Some(wd)) else Err(NotADirectory(wd));
      if c.env.None? then Ok(Launch(cmd[0], cmd[1..], cwd, None))
      else if !EnvExpandable(c.env.value, home) then Err(HomeUnresolved)
      else Ok(Launch(cmd[0], cmd[1..], cwd, Some(ExpandEnv(c.env.value, home))))
  }

  /** `run_command(cmd, spec)`: the first word is the program and the rest its
      arguments; a profile's working directory is normalized and must be a
      directory; a profile's environment is normalized; the child's status gives
      the exit code. `launched` is what was handed to the spawner, if anything. */
  method RunCommand(cmd: seq<string>, spec: Option<CommandSpec>, home: Option<string>, proc: Process)
    returns (r: Result<int, Error>, launched: Option<Launch>)
    ensures cmd == [] ==> r == Err(EmptyCommand) && launched.None?
    ensures launched.Some? ==> cmd != [] && launched.value.binary == cmd[0] && launched.value.args == cmd[1..]
    ensures launched.Some? && (spec.None? || spec.value.workingDir.None?) ==> launched.value.cwd.None?
    ensures launched.Some? && spec.Some? && spec.value.workingDir.Some? ==>
              launched.value.cwd.Some? &&
              Ok(launched.value.cwd.value) == NormalizePath(spec.value.workingDir.value, home) &&
              proc.isDir(launched.value.cwd.value)
    ensures launched.Some? && (spec.None? || spec.value.env.None?) ==> launched.value.env.None?
    ensures launched.Some? && spec.Some? && spec.value.env.Some? ==>
              launched.value.env.Some? && EnvNormalized(spec.value.env.value, home, launched.value.env.value)
    ensures launched.Some? ==>
              r == match proc.spawn(launched.value)
                   case Some(s) => Ok(ExitCode(s))
                   case None => Err(SpawnFailed)
    ensures launched.None? && cmd != [] ==> r.Err? && spec.Some?
    ensures launched.Some? <==> Launching(cmd, spec, home, proc).Ok?
    ensures launched.Some? ==> launched.value == Launching(cmd, spec, home, proc).value
    ensures launched.None? ==> r == Err(Launching(cmd, spec, home, proc).error)
    ensures r == Err(SpawnFailed) ==> launched.Some? && proc.spawn(launched.value).None?
    ensures r.Err? ==> r.error in {EmptyCommand, HomeUnresolved, SpawnFailed} || r.error.NotADirectory?
    ensures r.Err? && r.error.NotADirectory? ==>
              spec.Some? && spec.value.workingDir.Some? &&
              NormalizePath(spec.value.workingDir.value, home) == Ok(r.error.path) &&
              !proc.isDir(r.error.path)
  {
    if cmd == [] {
      return Err(EmptyCommand), None;
    }
    var cwd: Option<string> := None;
    var env: Option<map<string, string>> := None;
    if spec.Some? {
      if spec.value.workingDir.Some? {
        var wd := NormalizePath(spec.value.workingDir.value, home);
        if wd.Err? {
          return Err(wd.error), None;
        }
        if !proc.isDir(wd.value) {
          return Err(NotADirectory(wd.value)), None;
        }
        cwd := Some(wd.value);
      }
      if spec.value.env.Some? {
        var ne := NormalizeEnv(spec.value.env.value, home);
        if ne.Err? {
          return Err(ne.error), None;
        }
        EnvNormalizedUnique(spec.value.env.value, home, ne.value);
        env := Some(ne.value);
      }
    }
    var launch := Launch(cmd[0], cmd[1..], cwd, env);
    launched := Some(launch);
    var status := proc.spawn(launch);
    if status.None? {
      return Err(SpawnFailed), launched;
    }
    r := Ok(ExitCode(status.value));
  }
}
