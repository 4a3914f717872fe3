/** `normalize_path`: expansion of a leading `~/` to $HOME, and nothing else. */
module Paths {
  import opened Wrappers
  import opened Errors

  /** The path starts with `~/`. */
  predicate HasHomePrefix(p: string) {
    |p| >= 2 && p[0] == '~' && p[1] == '/'
  }

  predicate IsAbsolute(p: string) {
    |p| > 0 && p[0] == '/'
  }

  /** `PathBuf::push` on Unix: an absolute component replaces the whole path;
      otherwise a `/` is inserted unless the base is empty or already ends in one. */
  function Push(base: string, component: string): (r: string)
    ensures IsAbsolute(component) ==> r == component
    ensures !IsAbsolute(component) ==> |base| + |component| <= |r| <= |base| + |component| + 1
    ensures !IsAbsolute(component) ==> r[..|base|] == base && r[|r| - |component|..] == component
    ensures !IsAbsolute(component) && base != [] && base[|base| - 1] != '/' ==>
              |r| == |base| + |component| + 1 && r[|base|] == '/'
  {
    if IsAbsolute(component) then component
    else if base != [] && base[|base| - 1] != '/' then base + "/" + component
    else base + component
  }

  /** `normalize_path(p)` with the value of $HOME passed in (`None` when unset). */
  function NormalizePath(p: string, home: Option<string>): (r: Result<string, Error>)
    ensures r.Err? <==> HasHomePrefix(p) && home.None?
    ensures r.Err? ==> r.error == HomeUnresolved
    ensures !HasHomePrefix(p) ==> r == Ok(p)
    ensures HasHomePrefix(p) && home.Some? ==> r == Ok(Push(home.value, p[2..]))
  {
    if HasHomePrefix(p) then
      match home
      case None => Err(HomeUnresolved)
      case Some(h) => Ok(Push(h, p[2..]))
    else Ok(p)
  }

  /** A `~/` path with a relative remainder lands under $HOME: the result starts
      with $HOME, continues with a separator, and ends with the remainder (the
      unit test at src/main.rs:543-552). */
  lemma HomeExpansion(home: string, rest: string)
    requires home != [] && home[|home| - 1] != '/' && !IsAbsolute(rest)
    ensures NormalizePath("~/" + rest, Some(home)) == Ok(home + "/" + rest)
  {
    var p := "~/" + rest;
    assert HasHomePrefix(p) && p[2..] == rest;
  }

  /** Normalizing a result that does not start with `~/` changes nothing, whatever
      $HOME is. */
  lemma NormalizeIdempotent(p: string, home: Option<string>, home': Option<string>)
    requires NormalizePath(p, home).Ok?
    requires !HasHomePrefix(NormalizePath(p, home).value)
    ensures NormalizePath(NormalizePath(p, home).value, home') == NormalizePath(p, home)
  {
  }

  /** The result can itself start with `~/` when $HOME does, so normalization is
      not idempotent in general. */
  lemma NormalizeNotIdempotent()
    ensures NormalizePath("~/x", Some("~/h")) == Ok("~/h/x")
    ensures NormalizePath("~/h/x", Some("~/h")) == Ok("~/h/h/x")
  {
    assert HasHomePrefix("~/x") && "~/x"[2..] == "x";
    assert Push("~/h", "x") == "~/h" + "/" + "x" == "~/h/x";
    assert HasHomePrefix("~/h/x") && "~/h/x"[2..] == "h/x";
    assert Push("~/h", "h/x") == "~/h" + "/" + "h/x" == "~/h/h/x";
  }
}
