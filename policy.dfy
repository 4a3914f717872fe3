/** Policy compilation: the Landlock ruleset (a handled mask and path-beneath
    rules) that a profile or a single project root stands for, and what such a
    ruleset permits once it is enforced. */
module Policy {
  import opened Wrappers
  import opened Errors
  import opened Seqs
  import opened Access
  import opened Config
  import opened Mapping
  import opened Paths
  import opened Kernel
  import opened Negotiation

  /** A path-beneath rule: `allowed` is granted on `path` and everything under it. */
  datatype Rule = Rule(path: string, allowed: set<Cap>)

  /** A ruleset: every handled right is denied except where a rule allows it;
      rights outside `handled` are not restricted at all. */
  datatype Ruleset = Ruleset(handled: set<Cap>, rules: seq<Rule>)

  /** `x` names `root` itself or something under it. */
  predicate Beneath(x: string, root: string) {
    IsPrefix(root, x) &&
    (|x| == |root| || x[|root|] == '/' || (root != [] && root[|root| - 1] == '/'))
  }

  /** Landlock's verdict on exercising right `c` at `x` under ruleset `rs`. */
  predicate Permits(rs: Ruleset, x: string, c: Cap) {
    c !in rs.handled || exists r :: r in rs.rules && Beneath(x, r.path) && c in r.allowed
  }

  /** The ruleset in force after `restrict_self` under the crate's best-effort
      default: handled rights the running kernel cannot express leave the mask,
      and the rules stay. */
  function BestEffort(rs: Ruleset, k: Kernel): Ruleset {
    Ruleset(rs.handled * Supported(k), rs.rules)
  }

  /** Under best effort Truncate is never restricted, and every other right keeps
      the verdict of the ruleset as compiled. */
  lemma BestEffortPermits(rs: Ruleset, k: Kernel, x: string, c: Cap)
    ensures c == Truncate ==> Permits(BestEffort(rs, k), x, c)
    ensures c != Truncate ==> (Permits(BestEffort(rs, k), x, c) <==> Permits(rs, x, c))
  {
    SupportedBounds(k);
  }

  // ---------------- Profile mode ----------------

  /** The union of the grants of the groups named in `keys`. */
  function GroupsGranted(m: map<string, AccessRootGroup>, keys: set<string>): set<Cap> {
    set c | c in All && exists k :: k in keys && k in m && c in Granted(m[k].permissions)
  }

  /** The handled mask of profile mode: the control record's capabilities together
      with those of every group. */
  function HandledMask(p: Profile): set<Cap> {
    ControlGranted(p.controlAccess) + GroupsGranted(p.accessRoots, p.accessRoots.Keys)
  }

  /** A capability is handled exactly when the control record or some group sets
      its field to true. */
  lemma HandledMaskMember(p: Profile, c: Cap)
    ensures c in HandledMask(p) <==>
      ControlField(p.controlAccess, c) == Some(true) ||
      exists k :: k in p.accessRoots && Field(p.accessRoots[k].permissions, c) == Some(true)
  {
    InDomain(c);
    ControlGrantedMember(p.controlAccess, c);
    forall k | k in p.accessRoots
      ensures c in Granted(p.accessRoots[k].permissions) <==>
              Field(p.accessRoots[k].permissions, c) == Some(true)
    {
      GrantedMember(p.accessRoots[k].permissions, c);
    }
  }

  /** Every group's allowed set lies within the handled mask, so no rule ever names
      a right the ruleset does not handle. */
  lemma GroupWithinHandled(p: Profile, k: string)
    requires k in p.accessRoots
    ensures Granted(p.accessRoots[k].permissions) <= HandledMask(p)
  {
    forall c | c in Granted(p.accessRoots[k].permissions)
      ensures c in GroupsGranted(p.accessRoots, p.accessRoots.Keys)
    {
      InDomain(c);
    }
  }

  /** Taking one more group into the union adds exactly its grants. */
  lemma GroupsGrantedStep(m: map<string, AccessRootGroup>, done: set<string>, k: string)
    requires k in m
    ensures GroupsGranted(m, done + {k}) == GroupsGranted(m, done) + Granted(m[k].permissions)
  {
    forall c | c in Granted(m[k].permissions)
      ensures c in GroupsGranted(m, done + {k})
    {
      InDomain(c);
    }
  }

  /** `order` lists every key of a map once: one possible iteration order. */
  predicate IsEnumeration(order: seq<string>, keys: set<string>) {
    Distinct(order) && Elems(order) == keys
  }

  lemma EnumerationMembers(order: seq<string>, keys: set<string>)
    requires IsEnumeration(order, keys)
    ensures forall j :: 0 <= j < |order| ==> order[j] in keys
    ensures forall k :: k in keys ==> exists j :: 0 <= j < |order| && order[j] == k
  {
    forall j | 0 <= j < |order| ensures order[j] in keys {
      assert order[j] in Elems(order);
    }
  }

  /** Every path normalized, the first failure aborting. */
  function NormalizeAll(paths: seq<string>, home: Option<string>): (r: Result<seq<string>, Error>)
    ensures r.Ok? <==> forall i :: 0 <= i < |paths| ==> NormalizePath(paths[i], home).Ok?
    ensures r.Ok? ==> |r.value| == |paths|
    ensures r.Ok? ==>
      forall i :: 0 <= i < |paths| ==> r.value[i] == NormalizePath(paths[i], home).value
    ensures r.Err? ==> r.error == HomeUnresolved
    decreases |paths|
  {
    if paths == [] then Ok([])
    else
      var first :- NormalizePath(paths[0], home);
      var rest :- NormalizeAll(paths[1..], home);
      Ok([first] + rest)
  }

  /** `path_beneath_rules(paths, allowed)`: one rule per path, all with the same rights. */
  function RulesOf(paths: seq<string>, allowed: set<Cap>): (r: seq<Rule>)
    ensures |r| == |paths|
    ensures forall i :: 0 <= i < |paths| ==> r[i] == Rule(paths[i], allowed)
  {
    seq(|paths|, i requires 0 <= i < |paths| => Rule(paths[i], allowed))
  }

  /** Some path of the group starts with `~/` and so needs $HOME. */
  predicate NeedsHome(g: AccessRootGroup) {
    exists i :: 0 <= i < |g.paths| && HasHomePrefix(g.paths[i])
  }

  /** Rule `r` binds one of the group's normalized paths to the group's own grants. */
  predicate Binds(g: AccessRootGroup, home: Option<string>, r: Rule) {
    exists i :: 0 <= i < |g.paths| && NormalizePath(g.paths[i], home).Ok? &&
                r == Rule(NormalizePath(g.paths[i], home).value, Granted(g.permissions))
  }

  /** The rules of one group: each normalized path bound to the group's grants. */
  function GroupRules(g: AccessRootGroup, home: Option<string>): (r: Result<seq<Rule>, Error>)
    ensures r.Err? <==> home.None? && NeedsHome(g)
    ensures r.Err? ==> r.error == HomeUnresolved
    ensures r.Ok? ==> forall x :: x in r.value <==> Binds(g, home, x)
  {
    var paths :- NormalizeAll(g.paths, home);
    Ok(RulesOf(paths, Granted(g.permissions)))
  }

  /** The rules of the groups in iteration order `order`, group after group. */
  function RulesIn(m: map<string, AccessRootGroup>, order: seq<string>, home: Option<string>)
    : (r: Result<seq<Rule>, Error>)
    requires forall j :: 0 <= j < |order| ==> order[j] in m
    ensures r.Err? <==> home.None? && exists j :: 0 <= j < |order| && NeedsHome(m[order[j]])
    ensures r.Err? ==> r.error == HomeUnresolved
    decreases |order|
  {
    if order == [] then Ok([])
    else
      var n := |order| - 1;
      var init :- RulesIn(m, order[..n], home);
      var last :- GroupRules(m[order[n]], home);
      Ok(init + last)
  }

  /** A rule is among the compiled ones exactly when some group in the order binds it. */
  lemma {:induction false} RulesInMember(m: map<string, AccessRootGroup>, order: seq<string>,
                                         home: Option<string>, x: Rule)
    requires forall j :: 0 <= j < |order| ==> order[j] in m
    requires RulesIn(m, order, home).Ok?
    ensures x in RulesIn(m, order, home).value <==>
            exists j :: 0 <= j < |order| && Binds(m[order[j]], home, x)
    decreases |order|
  {
    if order != [] {
      var n := |order| - 1;
      var init := order[..n];
      RulesInMember(m, init, home, x);
      assert forall j :: 0 <= j < n ==> order[j] == init[j];
      if x in RulesIn(m, init, home).value {
        var j :| 0 <= j < |init| && Binds(m[init[j]], home, x);
        assert order[j] == init[j];
      }
    }
  }

  /** `setup_landlock_profile`'s policy without the kernel: the handled mask and the
      rules of every group, in iteration order `order`. */
  function CompileProfile(p: Profile, order: seq<string>, home: Option<string>)
    : (r: Result<Ruleset, Error>)
    requires IsEnumeration(order, p.accessRoots.Keys)
    ensures r.Err? <==> home.None? && exists j :: 0 <= j < |order| && NeedsHome(p.accessRoots[order[j]])
    ensures r.Err? ==> r.error == HomeUnresolved
    ensures r.Ok? ==> r.value.handled == HandledMask(p)
  {
    EnumerationMembers(order, p.accessRoots.Keys);
    var rules :- RulesIn(p.accessRoots, order, home);
    Ok(Ruleset(HandledMask(p), rules))
  }

  /** Compilation fails only when some group's path needs $HOME and it is unset. */
  lemma CompileProfileFails(p: Profile, order: seq<string>, home: Option<string>)
    requires IsEnumeration(order, p.accessRoots.Keys)
    ensures CompileProfile(p, order, home).Err? <==>
            home.None? && exists k :: k in p.accessRoots && NeedsHome(p.accessRoots[k])
    ensures CompileProfile(p, order, home).Err? ==>
            CompileProfile(p, order, home).error == HomeUnresolved
  {
    EnumerationMembers(order, p.accessRoots.Keys);
  }

  /** A compiled rule always binds some group's path to that group's grants. */
  lemma CompiledRuleOrigin(p: Profile, order: seq<string>, home: Option<string>, x: Rule)
    requires IsEnumeration(order, p.accessRoots.Keys)
    requires CompileProfile(p, order, home).Ok?
    ensures x in CompileProfile(p, order, home).value.rules <==>
            exists k :: k in p.accessRoots && Binds(p.accessRoots[k], home, x)
  {
    EnumerationMembers(order, p.accessRoots.Keys);
    RulesInMember(p.accessRoots, order, home, x);
  }

  /** The compiled ruleset: every rule's rights lie within the handled mask, and the
      mask is the control record's capabilities together with every group's. */
  lemma CompiledRulesWithinHandled(p: Profile, order: seq<string>, home: Option<string>)
    requires IsEnumeration(order, p.accessRoots.Keys)
    requires CompileProfile(p, order, home).Ok?
    ensures var rs := CompileProfile(p, order, home).value;
            rs.handled == HandledMask(p) &&
            forall x :: x in rs.rules ==> x.allowed <= rs.handled
  {
    var rs := CompileProfile(p, order, home).value;
    forall x | x in rs.rules ensures x.allowed <= rs.handled {
      CompiledRuleOrigin(p, order, home, x);
      var k :| k in p.accessRoots && Binds(p.accessRoots[k], home, x);
      GroupWithinHandled(p, k);
    }
  }

  /** The iteration order of the groups changes neither whether compilation
      succeeds nor the set of rules it yields. */
  lemma CompileOrderIrrelevant(p: Profile, o1: seq<string>, o2: seq<string>, home: Option<string>)
    requires IsEnumeration(o1, p.accessRoots.Keys) && IsEnumeration(o2, p.accessRoots.Keys)
    ensures CompileProfile(p, o1, home).Ok? == CompileProfile(p, o2, home).Ok?
    ensures CompileProfile(p, o1, home).Ok? ==>
              CompileProfile(p, o1, home).value.handled == CompileProfile(p, o2, home).value.handled &&
              Elems(CompileProfile(p, o1, home).value.rules) == Elems(CompileProfile(p, o2, home).value.rules)
  {
    CompileProfileFails(p, o1, home);
    CompileProfileFails(p, o2, home);
    if CompileProfile(p, o1, home).Ok? {
      var r1, r2 := CompileProfile(p, o1, home).value.rules, CompileProfile(p, o2, home).value.rules;
      forall x ensures x in Elems(r1) <==> x in Elems(r2) {
        CompiledRuleOrigin(p, o1, home, x);
        CompiledRuleOrigin(p, o2, home, x);
        assert x in Elems(r1) <==> x in r1;
        assert x in Elems(r2) <==> x in r2;
      }
    }
  }

  /** Group `g` grants `c` at `x`: `c` is among its rights and `x` lies under one of
      its normalized paths. */
  predicate GrantsAt(g: AccessRootGroup, home: Option<string>, x: string, c: Cap) {
    c in Granted(g.permissions) &&
    exists i :: 0 <= i < |g.paths| && NormalizePath(g.paths[i], home).Ok? &&
                Beneath(x, NormalizePath(g.paths[i], home).value)
  }

  /** A rule of the compiled ruleset that covers `x` with right `c` comes from a
      group that grants `c` at `x`. */
  lemma PermittingRuleOrigin(p: Profile, order: seq<string>, home: Option<string>,
                             x: string, c: Cap, r: Rule)
    requires IsEnumeration(order, p.accessRoots.Keys)
    requires CompileProfile(p, order, home).Ok?
    requires r in CompileProfile(p, order, home).value.rules && Beneath(x, r.path) && c in r.allowed
    ensures exists k :: k in p.accessRoots && GrantsAt(p.accessRoots[k], home, x, c)
  {
    CompiledRuleOrigin(p, order, home, r);
    var k :| k in p.accessRoots && Binds(p.accessRoots[k], home, r);
    assert GrantsAt(p.accessRoots[k], home, x, c);
  }

  /** A group that grants `c` at `x` contributes a rule that covers `x` with `c`. */
  lemma GrantingGroupRule(p: Profile, order: seq<string>, home: Option<string>,
                          x: string, c: Cap, k: string)
    requires IsEnumeration(order, p.accessRoots.Keys)
    requires CompileProfile(p, order, home).Ok?
    requires k in p.accessRoots && GrantsAt(p.accessRoots[k], home, x, c)
    ensures exists r :: r in CompileProfile(p, order, home).value.rules &&
                        Beneath(x, r.path) && c in r.allowed
  {
    var g := p.accessRoots[k];
    var i :| 0 <= i < |g.paths| && NormalizePath(g.paths[i], home).Ok? &&
             Beneath(x, NormalizePath(g.paths[i], home).value);
    var r := Rule(NormalizePath(g.paths[i], home).value, Granted(g.permissions));
    assert Binds(g, home, r);
    CompiledRuleOrigin(p, order, home, r);
  }

  /** What an enforced profile permits: an unhandled right anywhere, and a handled
      one exactly under the paths of a group that grants it (rules for the same
      place add up). */
  lemma ProfilePermits(p: Profile, order: seq<string>, home: Option<string>, x: string, c: Cap)
    requires IsEnumeration(order, p.accessRoots.Keys)
    requires CompileProfile(p, order, home).Ok?
    ensures Permits(CompileProfile(p, order, home).value, x, c) <==>
            c !in HandledMask(p) ||
            exists k :: k in p.accessRoots && GrantsAt(p.accessRoots[k], home, x, c)
  {
    var rs := CompileProfile(p, order, home).value;
    assert rs.handled == HandledMask(p);
    if r :| r in rs.rules && Beneath(x, r.path) && c in r.allowed {
      PermittingRuleOrigin(p, order, home, x, c, r);
    }
    if k :| k in p.accessRoots && GrantsAt(p.accessRoots[k], home, x, c) {
      GrantingGroupRule(p, order, home, x, c, k);
    }
  }

  /** A profile with no groups and nothing set in its control record compiles to an
      empty mask with no rules, which is not an error and restricts nothing. */
  lemma EmptyProfileCompilesEmpty(p: Profile, order: seq<string>, home: Option<string>)
    requires p.accessRoots == map[]
    requires forall c :: ControlField(p.controlAccess, c) != Some(true)
    requires IsEnumeration(order, p.accessRoots.Keys)
    ensures CompileProfile(p, order, home) == Ok(Ruleset({}, []))
    ensures forall x, c :: Permits(CompileProfile(p, order, home).value, x, c)
  {
    ElemsEmpty(order);
    assert order == [];
    forall c | c in ControlGranted(p.controlAccess) ensures false {
      ControlGrantedMember(p.controlAccess, c);
    }
    assert GroupsGranted(p.accessRoots, p.accessRoots.Keys) == {};
    assert HandledMask(p) == {};
    assert RulesIn(p.accessRoots, order, home) == Ok([]);
  }

  /** The profile of the unit test at src/main.rs:602-636: one group `system`
      granting reading and executing on /usr, and the same three rights set in the
      control record. It compiles, whatever $HOME is, to one rule on /usr under a
      mask of those three rights. */
  lemma SystemProfileCompiles(p: Profile, order: seq<string>, home: Option<string>)
    requires p.accessRoots == map["system" := AccessRootGroup(["/usr"],
               Permissions(Some(true), Some(true), Some(true), None, None, None, None))]
    requires p.controlAccess == ControlAccess(Some(true), Some(true), Some(true), None, None, None, None)
    requires IsEnumeration(order, p.accessRoots.Keys)
    ensures CompileProfile(p, order, home) ==
            Ok(Ruleset({ReadFile, ReadDir, Execute}, [Rule("/usr", {ReadFile, ReadDir, Execute})]))
  {
    var read := {ReadFile, ReadDir, Execute};
    var g := p.accessRoots["system"];
    DistinctSingleton(order, "system");
    forall c ensures c in ControlGranted(p.controlAccess) <==> c in read {
      ControlGrantedMember(p.controlAccess, c);
    }
    forall c ensures c in Granted(g.permissions) <==> c in read {
      GrantedMember(g.permissions, c);
    }
    assert GroupsGranted(p.accessRoots, p.accessRoots.Keys) == read;
    assert HandledMask(p) == read;
    assert Granted(g.permissions) == read;
    assert !HasHomePrefix(g.paths[0]);
    var normalized := NormalizeAll(g.paths, home);
    assert normalized.Ok? && |normalized.value| == 1 && normalized.value[0] == "/usr";
    assert normalized.value == ["/usr"];
    assert RulesOf(["/usr"], read) == [Rule("/usr", read)];
    assert GroupRules(g, home) == Ok([Rule("/usr", read)]);
    assert order[..0] == [];
    assert RulesIn(p.accessRoots, [], home) == Ok([]);
    assert [] + [Rule("/usr", read)] == [Rule("/usr", read)];
    assert RulesIn(p.accessRoots, order, home) == Ok([Rule("/usr", read)]);
  }

  // ---------------- Root mode ----------------

  /** The rights granted under the root: reading and executing in read-only mode,
      ABI 1's full set otherwise. */
  function RootAllowed(readOnly: bool): (r: set<Cap>)
    ensures readOnly ==> r == {ReadFile, ReadDir, Execute}
    ensures !readOnly ==> r == All - {Truncate}
  {
    if readOnly then FromRead(V1) + {Execute} else FromAll(V1)
  }

  /** `setup_landlock_root` as written: the handled mask is the allowed set itself,
      and the root is the only rule. */
  function RootRulesetAsWritten(path: string, readOnly: bool): (rs: Ruleset)
    ensures |rs.rules| == 1 && rs.rules[0].path == path
    ensures rs.handled == rs.rules[0].allowed == RootAllowed(readOnly)
  {
    Ruleset(RootAllowed(readOnly), [Rule(path, RootAllowed(readOnly))])
  }

  /** As written, read-only mode leaves the write rights unhandled, so writing,
      removing and creating stay permitted everywhere, the project root included. */
  lemma AsWrittenReadOnlyAllowsWrites(path: string, x: string)
    ensures Permits(RootRulesetAsWritten(path, true), x, WriteFile)
    ensures Permits(RootRulesetAsWritten(path, true), x, RemoveFile)
    ensures Permits(RootRulesetAsWritten(path, true), x, RemoveDir)
  {
  }

  /** Root mode as intended: ABI 1's full set is handled in both modes, so whatever
      the rule does not allow is denied; the rule grants `RootAllowed(readOnly)`. */
  function RootRuleset(path: string, readOnly: bool): (rs: Ruleset)
    ensures |rs.rules| == 1 && rs.rules[0] == Rule(path, RootAllowed(readOnly))
    ensures rs.rules[0].allowed <= rs.handled
  {
    Ruleset(FromAll(V1), [Rule(path, RootAllowed(readOnly))])
  }

  /** What the corrected root ruleset permits: each right ABI 1 can express only
      under the root and only if the mode grants it. In read-only mode no write,
      remove or create right is left anywhere. */
  lemma RootConfined(path: string, readOnly: bool, x: string, c: Cap)
    requires c != Truncate
    ensures Permits(RootRuleset(path, readOnly), x, c) <==>
            Beneath(x, path) && c in RootAllowed(readOnly)
    ensures readOnly && c in {WriteFile, RemoveFile, RemoveDir} ==>
            !Permits(RootRuleset(path, readOnly), x, c)
  {
    var rs := RootRuleset(path, readOnly);
    assert c in rs.handled;
    assert forall r :: r in rs.rules <==> r == rs.rules[0];
  }

  /** Read-write mode is the same under both readings: handled equals allowed. */
  lemma ReadWriteUnchanged(path: string)
    ensures RootRuleset(path, false) == RootRulesetAsWritten(path, false)
    ensures RootRuleset(path, false).handled == RootRuleset(path, false).rules[0].allowed
  {
  }

  /** `setup_landlock_root`'s policy without the kernel, as written: normalize the
      root, then bind it alone under a mask equal to the mode's rights. */
  function CompileRoot(root: string, readOnly: bool, home: Option<string>): (r: Result<Ruleset, Error>)
    ensures r.Err? <==> NormalizePath(root, home).Err?
    ensures r.Err? ==> r.error == HomeUnresolved
    ensures r.Ok? ==> r.value == RootRulesetAsWritten(NormalizePath(root, home).value, readOnly)
  {
    var path :- NormalizePath(root, home);
    Ok(RootRulesetAsWritten(path, readOnly))
  }

  /** The same compilation with the corrected mask. */
  function CompileRootCorrected(root: string, readOnly: bool, home: Option<string>)
    : (r: Result<Ruleset, Error>)
    ensures r.Err? <==> NormalizePath(root, home).Err?
    ensures r.Ok? ==> r.value == RootRuleset(NormalizePath(root, home).value, readOnly)
  {
    var path :- NormalizePath(root, home);
    Ok(RootRuleset(path, readOnly))
  }

  /** What the root ruleset the program enforces permits: a right the mode grants
      only under the root; in read-only mode every write, remove and create right
      everywhere, because the mask leaves them unhandled. A read-write root is the
      corrected ruleset itself. */
  lemma CompiledRootPermits(root: string, readOnly: bool, home: Option<string>, x: string, c: Cap)
    requires CompileRoot(root, readOnly, home).Ok?
    ensures c in RootAllowed(readOnly) ==>
            (Permits(CompileRoot(root, readOnly, home).value, x, c) <==>
             Beneath(x, NormalizePath(root, home).value))
    ensures readOnly && c in {WriteFile, RemoveFile, RemoveDir} ==>
            Permits(CompileRoot(root, readOnly, home).value, x, c)
    ensures !readOnly ==> CompileRoot(root, readOnly, home) == CompileRootCorrected(root, readOnly, home)
  {
    var rs := CompileRoot(root, readOnly, home).value;
    assert forall r :: r in rs.rules <==> r == rs.rules[0];
    ReadWriteUnchanged(NormalizePath(root, home).value);
  }
}
