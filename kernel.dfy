/** The Landlock system calls, seen from the launcher: each one either succeeds
    or fails, and which it does is decided by the running kernel. */
module Kernel {
  import opened Access

  /** The outcomes the running kernel gives:
      - `createOk(mask)`: whether a ruleset handling `mask` can be built and created
        (`Ruleset::default().handle_access(mask)?.create()`);
      - `ruleOk(path, allowed)`: whether a path-beneath rule for `path` can be opened
        and added;
      - `restrictOk`: whether `restrict_self` succeeds. */
  datatype Kernel = Kernel(
    createOk: set<Cap> -> bool,
    ruleOk: (string, set<Cap>) -> bool,
    restrictOk: bool)
}
