/** Enforcement: the process's Landlock lifecycle as a state machine that only
    moves forward (create the ruleset, add rules, restrict the process once), and
    the two setup sequences of profile mode and root mode, in which any failing
    step aborts the rest. */
module Enforce {
  import opened Wrappers
  import opened Errors
  import opened Seqs
  import opened Access
  import opened Config
  import opened Mapping
  import opened Paths
  import opened Kernel
  import opened Policy

  /** Where the process stands: no ruleset yet; a ruleset created; rules added to
      it; the process restricted; or the attempt given up (a step failed, or the
      created ruleset was dropped). Restricted and Aborted are final. */
  datatype Stage = Unrestricted | Created | RulesLoaded | Restricted | Aborted

  /** A Landlock call the launcher makes. */
  datatype Call = CreateCall(mask: set<Cap>) | AddRuleCall(rule: Rule) | RestrictCall

  function AddCalls(rules: seq<Rule>): (r: seq<Call>)
    ensures |r| == |rules|
    ensures forall i :: 0 <= i < |rules| ==> r[i] == AddRuleCall(rules[i])
    ensures RestrictCall !in r
  {
    seq(|rules|, i requires 0 <= i < |rules| => AddRuleCall(rules[i]))
  }

  lemma AddCallsSnoc(rules: seq<Rule>, x: Rule)
    ensures AddCalls(rules + [x]) == AddCalls(rules) + [AddRuleCall(x)]
  {
    assert forall i :: 0 <= i < |rules| ==> (rules + [x])[i] == rules[i];
  }

  lemma RulesOfSnoc(paths: seq<string>, i: nat, allowed: set<Cap>)
    requires i < |paths|
    ensures RulesOf(paths[..i + 1], allowed) == RulesOf(paths[..i], allowed) + [Rule(paths[i], allowed)]
  {
    assert forall j :: 0 <= j < i ==> paths[..i + 1][j] == paths[..i][j];
  }

  /** The first path the kernel refuses a rule for, if any. */
  function FirstRejected(paths: seq<string>, allowed: set<Cap>, k: Kernel): (r: Option<string>)
    ensures r.None? <==> forall i :: 0 <= i < |paths| ==> k.ruleOk(paths[i], allowed)
    ensures r.Some? ==> exists i :: 0 <= i < |paths| && paths[i] == r.value &&
                          !k.ruleOk(paths[i], allowed) &&
                          forall j :: 0 <= j < i ==> k.ruleOk(paths[j], allowed)
    decreases |paths|
  {
    if paths == [] then None
    else if !k.ruleOk(paths[0], allowed) then Some(paths[0])
    else
      var r := FirstRejected(paths[1..], allowed, k);
      if r.Some? then
        ghost var i :| 0 <= i < |paths[1..]| && paths[1..][i] == r.value &&
                       !k.ruleOk(paths[1..][i], allowed) &&
                       forall j :: 0 <= j < i ==> k.ruleOk(paths[1..][j], allowed);
        assert paths[i + 1] == r.value;
        r
      else r
  }

  lemma FirstRejectedAt(paths: seq<string>, allowed: set<Cap>, k: Kernel, i: nat)
    requires i < |paths| && !k.ruleOk(paths[i], allowed)
    requires forall j :: 0 <= j < i ==> k.ruleOk(paths[j], allowed)
    ensures FirstRejected(paths, allowed, k) == Some(paths[i])
    decreases i
  {
    if i > 0 {
      FirstRejectedAt(paths[1..], allowed, k, i - 1);
    }
  }

  /** The calls of an aborted attempt: the accepted ones, followed by nothing (a
      refused creation, or a ruleset dropped), by the one refused rule, or by the
      failed restriction. */
  ghost predicate AbortedLog(log: seq<Call>, handled: set<Cap>, rules: seq<Rule>) {
    var accepted := [CreateCall(handled)] + AddCalls(rules);
    log == accepted || log == accepted + [RestrictCall] ||
    (|log| == |accepted| + 1 && log[..|accepted|] == accepted && log[|accepted|].AddRuleCall?)
  }

  /** A refused rule ends an aborted attempt after the accepted calls. */
  lemma RefusedRuleAborts(handled: set<Cap>, rules: seq<Rule>, x: Rule)
    ensures AbortedLog([CreateCall(handled)] + AddCalls(rules) + [AddRuleCall(x)], handled, rules)
  {
    var accepted := [CreateCall(handled)] + AddCalls(rules);
    assert (accepted + [AddRuleCall(x)])[..|accepted|] == accepted;
  }

  /** The process's Landlock state. `log` records every Landlock call made, in order. */
  class Enforcer {
    var stage: Stage
    var handled: set<Cap>
    var rules: seq<Rule>
    ghost var log: seq<Call>

    /** The log matches the stage: the ruleset is created with the handled mask
        before any rule is added, and `restrict_self` is called at most once, as the
        last call, after the creation and every rule were accepted. An aborted
        attempt ends with the accepted calls, followed by nothing (a refused
        creation, or a ruleset dropped), by the one refused rule, or by the failed
        restriction. */
    ghost predicate Valid()
      reads this
    {
      (log != [] ==> log[0] == CreateCall(handled)) &&
      match stage
      case Unrestricted => log == [] && rules == []
      case Created => log == [CreateCall(handled)] && rules == []
      case RulesLoaded => log == [CreateCall(handled)] + AddCalls(rules)
      case Restricted => log == [CreateCall(handled)] + AddCalls(rules) + [RestrictCall]
      case Aborted => AbortedLog(log, handled, rules)
    }

    constructor ()
      ensures Valid()
      ensures stage == Unrestricted && handled == {} && rules == [] && log == []
    {
      stage, handled, rules := Unrestricted, {}, [];
      log := [];
    }

    /** `Ruleset::default().handle_access(mask)?.create()?`. */
    method Create(mask: set<Cap>, k: Kernel) returns (r: Result<(), Error>)
      requires Valid() && stage == Unrestricted
      modifies this
      ensures Valid()
      ensures handled == mask && rules == [] && log == [CreateCall(mask)]
      ensures r.Ok? <==> k.createOk(mask)
      ensures r.Ok? ==> stage == Created
      ensures r.Err? ==> stage == Aborted && r.error == RulesetCreateFailed
    {
      handled := mask;
      log := [CreateCall(mask)];
      if k.createOk(mask) {
        stage := Created;
        r := Ok(());
      } else {
        stage := Aborted;
        r := Err(RulesetCreateFailed);
      }
    }

    /** One rule handed to the kernel: accepted, it joins the ruleset; refused,
        the attempt is aborted. */
    method AddRule(x: Rule, k: Kernel) returns (ok: bool)
      requires Valid() && stage == RulesLoaded
      modifies this
      ensures Valid() && handled == old(handled)
      ensures ok <==> k.ruleOk(x.path, x.allowed)
      ensures ok ==> stage == RulesLoaded && rules == old(rules) + [x]
      ensures !ok ==> stage == Aborted
      ensures RestrictCall !in log && log != []
    {
      log := log + [AddRuleCall(x)];
      if !k.ruleOk(x.path, x.allowed) {
        RefusedRuleAborts(handled, rules, x);
        stage := Aborted;
        return false;
      }
      AddCallsSnoc(rules, x);
      rules := rules + [x];
      ok := true;
    }

    /** `add_rules(path_beneath_rules(paths, allowed))?`: one rule per path in
        order; the first refused path aborts. */
    method AddRules(paths: seq<string>, allowed: set<Cap>, k: Kernel) returns (r: Result<(), Error>)
      requires Valid() && stage in {Created, RulesLoaded}
      modifies this
      ensures Valid() && handled == old(handled)
      ensures r.Ok? <==> FirstRejected(paths, allowed, k).None?
      ensures r.Ok? ==> stage == RulesLoaded && rules == old(rules) + RulesOf(paths, allowed)
      ensures r.Err? ==> stage == Aborted && r.error == AddRuleFailed(FirstRejected(paths, allowed, k).value)
      ensures RestrictCall !in log && log != []
    {
      ghost var rules0 := rules;
      stage := RulesLoaded;
      assert rules0 == rules0 + RulesOf(paths[..0], allowed);
      for i := 0 to |paths|
        invariant Valid() && stage == RulesLoaded && handled == old(handled)
        invariant RestrictCall !in log && log != []
        invariant rules == rules0 + RulesOf(paths[..i], allowed)
        invariant forall j :: 0 <= j < i ==> k.ruleOk(paths[j], allowed)
      {
        var ok := AddRule(Rule(paths[i], allowed), k);
        if !ok {
          FirstRejectedAt(paths, allowed, k, i);
          return Err(AddRuleFailed(paths[i]));
        }
        RulesOfSnoc(paths, i, allowed);
      }
      assert paths[..|paths|] == paths;
      r := Ok(());
    }

    /** `restrict_self()?`, the last call: on success the process is confined. */
    method RestrictSelf(k: Kernel) returns (r: Result<(), Error>)
      requires Valid() && stage in {Created, RulesLoaded}
      modifies this
      ensures Valid() && handled == old(handled) && rules == old(rules)
      ensures r.Ok? <==> k.restrictOk
      ensures r.Ok? ==> stage == Restricted
      ensures r.Err? ==> stage == Aborted && r.error == RestrictFailed
      ensures log != [] && RestrictCall in log
    {
      log := log + [RestrictCall];
      if k.restrictOk {
        stage := Restricted;
        r := Ok(());
      } else {
        stage := Aborted;
        r := Err(RestrictFailed);
      }
    }

    /** The created ruleset is dropped without restricting (a `?` between the
        kernel calls returned early). */
    method Abandon()
      requires Valid() && stage in {Created, RulesLoaded}
      modifies this
      ensures Valid() && stage == Aborted
      ensures handled == old(handled) && rules == old(rules) && log == old(log)
    {
      stage := Aborted;
    }
  }

  /** The loop over `norm_paths`: every path normalized in order, the first failure
      returned. */
  method NormalizePaths(paths: seq<string>, home: Option<string>) returns (r: Result<seq<string>, Error>)
    ensures r == NormalizeAll(paths, home)
  {
    var acc: seq<string> := [];
    for i := 0 to |paths|
      invariant |acc| == i
      invariant forall j :: 0 <= j < i ==> NormalizePath(paths[j], home).Ok? &&
                                            acc[j] == NormalizePath(paths[j], home).value
    {
      var n := NormalizePath(paths[i], home);
      if n.Err? {
        return Err(n.error);
      }
      acc := acc + [n.value];
    }
    assert NormalizeAll(paths, home).value == acc;
    r := Ok(acc);
  }

  // ---------------- Profile mode ----------------

  /** One group's rule additions: its paths normalized, then one rule per path
      with its rights, the first refused path failing. */
  function GroupStep(g: AccessRootGroup, home: Option<string>, k: Kernel): (r: Result<seq<Rule>, Error>)
    ensures r.Err? <==> NormalizeAll(g.paths, home).Err? ||
                        FirstRejected(NormalizeAll(g.paths, home).value, Granted(g.permissions), k).Some?
    ensures r.Err? ==> r.error == HomeUnresolved || r.error.AddRuleFailed?
    ensures r.Ok? ==> r.value == RulesOf(NormalizeAll(g.paths, home).value, Granted(g.permissions))
  {
    var paths :- NormalizeAll(g.paths, home);
    var allowed := Granted(g.permissions);
    match FirstRejected(paths, allowed, k)
    case Some(bad) => Err(AddRuleFailed(bad))
    case None => Ok(RulesOf(paths, allowed))
  }

  /** The rule additions of profile mode, group after group in `order`: each group's
      paths are normalized just before its rules are added. */
  function AddGroupRules(m: map<string, AccessRootGroup>, order: seq<string>,
                         home: Option<string>, k: Kernel): (r: Result<seq<Rule>, Error>)
    requires forall j :: 0 <= j < |order| ==> order[j] in m
    ensures r.Err? ==> r.error == HomeUnresolved || r.error.AddRuleFailed?
    decreases |order|
  {
    if order == [] then Ok([])
    else
      var n := |order| - 1;
      var init :- AddGroupRules(m, order[..n], home, k);
      var step :- GroupStep(m[order[n]], home, k);
      Ok(init + step)
  }

  /** The outcome of `setup_landlock_profile`: create with the full handled mask,
      add every group's rules, restrict; the first failing step decides the error. */
  function EnforceProfile(p: Profile, order: seq<string>, home: Option<string>, k: Kernel)
    : (r: Result<Ruleset, Error>)
    requires IsEnumeration(order, p.accessRoots.Keys)
    ensures r.Err? ==> r.error in {HomeUnresolved, RulesetCreateFailed, RestrictFailed} || r.error.AddRuleFailed?
  {
    EnumerationMembers(order, p.accessRoots.Keys);
    var handled := HandledMask(p);
    if !k.createOk(handled) then Err(RulesetCreateFailed)
    else
      var rules :- AddGroupRules(p.accessRoots, order, home, k);
      if !k.restrictOk then Err(RestrictFailed)
      else Ok(Ruleset(handled, rules))
  }

  /** Adding the groups' rules succeeds exactly when the groups compile and the
      kernel accepts every compiled rule, and then it adds exactly those rules. */
  lemma {:induction false} AddGroupRulesAgree(m: map<string, AccessRootGroup>, order: seq<string>,
                                              home: Option<string>, k: Kernel)
    requires forall j :: 0 <= j < |order| ==> order[j] in m
    ensures AddGroupRules(m, order, home, k).Ok? <==>
            RulesIn(m, order, home).Ok? &&
            forall x :: x in RulesIn(m, order, home).value ==> k.ruleOk(x.path, x.allowed)
    ensures AddGroupRules(m, order, home, k).Ok? ==>
            AddGroupRules(m, order, home, k).value == RulesIn(m, order, home).value
    decreases |order|
  {
    if order != [] {
      var n := |order| - 1;
      var init := order[..n];
      assert forall j :: 0 <= j < |init| ==> init[j] in m;
      AddGroupRulesAgree(m, init, home, k);
      var g := m[order[n]];
      var allowed := Granted(g.permissions);
      var paths := NormalizeAll(g.paths, home);
      if RulesIn(m, init, home).Ok? && paths.Ok? {
        var rs := RulesOf(paths.value, allowed);
        var all := RulesIn(m, init, home).value + rs;
        assert GroupRules(g, home) == Ok(rs);
        assert RulesIn(m, order, home) == Ok(all);
        if forall x :: x in all ==> k.ruleOk(x.path, x.allowed) {
          forall i | 0 <= i < |paths.value| ensures k.ruleOk(paths.value[i], allowed) {
            assert rs[i] in all;
          }
        }
        if FirstRejected(paths.value, allowed, k).None? {
          forall x | x in rs ensures k.ruleOk(x.path, x.allowed) {
            var i :| 0 <= i < |rs| && rs[i] == x;
          }
        }
      }
    }
  }

  /** Profile mode succeeds exactly when the profile compiles and the kernel accepts
      the creation, every rule and the restriction; what it enforces is then the
      compiled ruleset. */
  lemma EnforceProfileOutcome(p: Profile, order: seq<string>, home: Option<string>, k: Kernel)
    requires IsEnumeration(order, p.accessRoots.Keys)
    ensures EnforceProfile(p, order, home, k).Ok? <==>
            k.createOk(HandledMask(p)) && CompileProfile(p, order, home).Ok? &&
            (forall x :: x in CompileProfile(p, order, home).value.rules ==> k.ruleOk(x.path, x.allowed)) &&
            k.restrictOk
    ensures EnforceProfile(p, order, home, k).Ok? ==>
            EnforceProfile(p, order, home, k) == CompileProfile(p, order, home)
  {
    EnumerationMembers(order, p.accessRoots.Keys);
    AddGroupRulesAgree(p.accessRoots, order, home, k);
  }

  /** One pass of the first loop of `setup_landlock_profile` keeps its invariant:
      the visited groups, listed once each, and the mask gathered so far. */
  lemma ProfileHandledStep(p: Profile, order: seq<string>, remaining: set<string>, key: string,
                           handled: set<Cap>)
    requires key in remaining
    requires Elems(order) + remaining == p.accessRoots.Keys && Elems(order) !! remaining
    requires Distinct(order)
    requires handled == ControlGranted(p.controlAccess) + GroupsGranted(p.accessRoots, Elems(order))
    ensures Elems(order + [key]) + (remaining - {key}) == p.accessRoots.Keys
    ensures Elems(order + [key]) !! (remaining - {key})
    ensures Distinct(order + [key])
    ensures handled + Granted(p.accessRoots[key].permissions) ==
            ControlGranted(p.controlAccess) + GroupsGranted(p.accessRoots, Elems(order + [key]))
  {
    GroupsGrantedStep(p.accessRoots, Elems(order), key);
    ElemsSnoc(order, key);
    DistinctSnoc(order, key);
  }

  /** The first loop of `setup_landlock_profile`: the control record's capabilities,
      then each group's added in the map's iteration order, which is returned. */
  method ProfileHandled(p: Profile) returns (handled: set<Cap>, order: seq<string>)
    ensures handled == HandledMask(p)
    ensures IsEnumeration(order, p.accessRoots.Keys)
  {
    handled := AccessFromControl(p.controlAccess);
    var remaining := p.accessRoots.Keys;
    order := [];
    while remaining != {}
      invariant Elems(order) + remaining == p.accessRoots.Keys && Elems(order) !! remaining
      invariant Distinct(order)
      invariant handled == ControlGranted(p.controlAccess) + GroupsGranted(p.accessRoots, Elems(order))
      decreases |remaining|
    {
      var key :| key in remaining;
      var allowed := AccessFromPermissions(p.accessRoots[key].permissions);
      ProfileHandledStep(p, order, remaining, key, handled);
      handled := handled + allowed;
      order := order + [key];
      remaining := remaining - {key};
    }
  }

  /** One group of the second loop: normalize its paths, then add one rule per
      path with the group's rights; either failure aborts. */
  method AddGroup(e: Enforcer, g: AccessRootGroup, home: Option<string>, k: Kernel)
    returns (r: Result<(), Error>)
    requires e.Valid() && e.stage in {Created, RulesLoaded}
    modifies e
    ensures e.Valid() && e.handled == old(e.handled)
    ensures e.log != [] && e.log[0] == CreateCall(e.handled) && RestrictCall !in e.log
    ensures var step := GroupStep(g, home, k);
            (r.Ok? ==> e.stage in {Created, RulesLoaded} && step.Ok? && e.rules == old(e.rules) + step.value) &&
            (r.Err? ==> e.stage == Aborted && step == Err(r.error))
  {
    var allowed := AccessFromPermissions(g.permissions);
    var paths := NormalizePaths(g.paths, home);
    if paths.Err? {
      e.Abandon();
      return Err(paths.error);
    }
    r := e.AddRules(paths.value, allowed, k);
  }

  /** The second loop of `setup_landlock_profile`: for each group in `order`,
      normalize its paths, then add one rule per path with the group's rights. */
  method AddProfileRules(e: Enforcer, m: map<string, AccessRootGroup>, order: seq<string>,
                         home: Option<string>, k: Kernel) returns (r: Result<(), Error>)
    requires forall j :: 0 <= j < |order| ==> order[j] in m
    requires e.Valid() && e.stage == Created
    modifies e
    ensures e.Valid() && e.handled == old(e.handled)
    ensures e.log != [] && e.log[0] == CreateCall(e.handled)
    ensures RestrictCall !in e.log
    ensures r.Ok? ==> e.stage in {Created, RulesLoaded} && AddGroupRules(m, order, home, k) == Ok(e.rules)
    ensures r.Err? ==> e.stage == Aborted && AddGroupRules(m, order, home, k) == Err(r.error)
  {
    for i := 0 to |order|
      invariant e.Valid() && e.stage in {Created, RulesLoaded} && e.handled == old(e.handled)
      invariant e.log != [] && e.log[0] == CreateCall(e.handled)
      invariant RestrictCall !in e.log
      invariant AddGroupRules(m, order[..i], home, k) == Ok(e.rules)
    {
      assert order[..i + 1][..i] == order[..i];
      var added := AddGroup(e, m[order[i]], home, k);
      if added.Err? {
        assert AddGroupRules(m, order[..i + 1], home, k) == Err(added.error);
        AddGroupRulesPrefixFails(m, order, home, k, i + 1);
        return Err(added.error);
      }
    }
    assert order[..|order|] == order;
    r := Ok(());
  }

  /** `setup_landlock_profile`: gather the handled mask, create the ruleset with it,
      add every group's rules, then restrict the process. */
  method SetupProfile(e: Enforcer, p: Profile, home: Option<string>, k: Kernel)
    returns (r: Result<(), Error>, order: seq<string>)
    requires e.Valid() && e.stage == Unrestricted
    modifies e
    ensures e.Valid()
    ensures IsEnumeration(order, p.accessRoots.Keys)
    ensures r.Ok? <==> EnforceProfile(p, order, home, k).Ok?
    ensures r.Err? ==> r.error == EnforceProfile(p, order, home, k).error
    ensures r.Ok? <==> e.stage == Restricted
    ensures r.Ok? ==> EnforceProfile(p, order, home, k) == Ok(Ruleset(e.handled, e.rules))
    ensures r.Err? ==> e.stage == Aborted
    ensures e.log != [] && e.log[0] == CreateCall(HandledMask(p))
    ensures RestrictCall in e.log <==> r.Ok? || r == Err(RestrictFailed)
  {
    var handled;
    handled, order := ProfileHandled(p);
    EnumerationMembers(order, p.accessRoots.Keys);
    r := e.Create(handled, k);
    if r.Err? {
      return;
    }
    r := AddProfileRules(e, p.accessRoots, order, home, k);
    if r.Err? {
      return;
    }
    r := e.RestrictSelf(k);
  }

  /** Once a prefix of the groups fails, the whole sequence fails with the same error. */
  lemma {:induction false} AddGroupRulesPrefixFails(m: map<string, AccessRootGroup>, order: seq<string>,
                                                    home: Option<string>, k: Kernel, i: nat)
    requires forall j :: 0 <= j < |order| ==> order[j] in m
    requires i <= |order| && AddGroupRules(m, order[..i], home, k).Err?
    ensures AddGroupRules(m, order, home, k) == AddGroupRules(m, order[..i], home, k)
    decreases |order| - i
  {
    if i < |order| {
      var n := |order| - 1;
      assert order[..n][..i] == order[..i];
      AddGroupRulesPrefixFails(m, order[..n], home, k, i);
      assert AddGroupRules(m, order[..n], home, k).Err?;
    } else {
      assert order[..i] == order;
    }
  }

  // ---------------- Root mode ----------------

  /** The outcome of `setup_landlock_root`: normalize the root, create a ruleset
      whose mask is the mode's rights, add the root's one rule, restrict; the first
      failing step decides the error. */
  function EnforceRoot(root: string, readOnly: bool, home: Option<string>, k: Kernel)
    : (r: Result<Ruleset, Error>)
    ensures r.Err? ==> r.error in {HomeUnresolved, RulesetCreateFailed, RestrictFailed} || r.error.AddRuleFailed?
  {
    var path :- NormalizePath(root, home);
    var rs := RootRulesetAsWritten(path, readOnly);
    if !k.createOk(rs.handled) then Err(RulesetCreateFailed)
    else if !k.ruleOk(path, RootAllowed(readOnly)) then Err(AddRuleFailed(path))
    else if !k.restrictOk then Err(RestrictFailed)
    else Ok(rs)
  }

  /** Root mode succeeds exactly when the root normalizes and the kernel accepts
      every call; it then enforces the compiled root ruleset. */
  lemma EnforceRootOutcome(root: string, readOnly: bool, home: Option<string>, k: Kernel)
    ensures EnforceRoot(root, readOnly, home, k).Ok? <==>
            CompileRoot(root, readOnly, home).Ok? &&
            k.createOk(RootAllowed(readOnly)) &&
            k.ruleOk(CompileRoot(root, readOnly, home).value.rules[0].path, RootAllowed(readOnly)) &&
            k.restrictOk
    ensures EnforceRoot(root, readOnly, home, k).Ok? ==>
            EnforceRoot(root, readOnly, home, k) == CompileRoot(root, readOnly, home)
    ensures EnforceRoot(root, readOnly, home, k).Err? ==>
            var err := EnforceRoot(root, readOnly, home, k).error;
            (err == HomeUnresolved <==> NormalizePath(root, home).Err?) &&
            (err.AddRuleFailed? ==> NormalizePath(root, home) == Ok(err.path))
  {
  }

  /** `setup_landlock_root`: a failure to normalize the root happens before any
      Landlock call; otherwise create with the mode's rights as the mask, add the
      single rule, restrict. */
  method SetupRoot(e: Enforcer, root: string, readOnly: bool, home: Option<string>, k: Kernel)
    returns (r: Result<(), Error>)
    requires e.Valid() && e.stage == Unrestricted
    modifies e
    ensures e.Valid()
    ensures r.Ok? <==> EnforceRoot(root, readOnly, home, k).Ok?
    ensures r.Err? ==> r.error == EnforceRoot(root, readOnly, home, k).error
    ensures r.Ok? <==> e.stage == Restricted
    ensures r.Ok? ==> EnforceRoot(root, readOnly, home, k) == Ok(Ruleset(e.handled, e.rules))
    ensures NormalizePath(root, home).Err? ==> e.stage == Unrestricted && e.log == []
    ensures NormalizePath(root, home).Ok? ==> e.log != [] && e.log[0] == CreateCall(RootAllowed(readOnly))
    ensures r.Err? && NormalizePath(root, home).Ok? ==> e.stage == Aborted
    ensures RestrictCall in e.log <==> r.Ok? || r == Err(RestrictFailed)
  {
    var normalized := NormalizePath(root, home);
    if normalized.Err? {
      return Err(normalized.error);
    }
    var path := normalized.value;
    var allowed := RootAllowed(readOnly);
    r := e.Create(allowed, k);
    if r.Err? {
      return;
    }
    r := e.AddRules([path], allowed, k);
    assert RulesOf([path], allowed) == [Rule(path, allowed)];
    assert r.Ok? ==> e.rules == [Rule(path, allowed)];
    if r.Err? {
      return;
    }
    r := e.RestrictSelf(k);
  }
}
