/** The printing twins of the two setup functions: what `--print-ruleset` and
    `--dry-run` report, as structured values instead of text. */
module Report {
  import opened Wrappers
  import opened Errors
  import opened Seqs
  import opened Access
  import opened Config
  import opened Mapping
  import opened Paths
  import opened Kernel
  import opened Negotiation
  import opened Policy
  import opened Enforce

  /** The root-mode report: the handled names, the names the kernel does not
      support, the normalized root and the names allowed under it. */
  datatype RootReport = RootReport(handled: seq<string>, ignored: seq<string>,
                                   path: string, allowed: seq<string>)

  /** One group of the profile-mode report. */
  datatype GroupReport = GroupReport(name: string, allowed: seq<string>,
                                     ignored: seq<string>, paths: seq<string>)

  datatype ProfileReport = ProfileReport(handled: seq<string>, ignored: seq<string>,
                                         groups: seq<GroupReport>)

  /** The rights `print_ruleset_root` names: the three read and execute fields in
      read-only mode, all seven fields otherwise. */
  function RootPrinted(readOnly: bool): (r: set<Cap>)
    ensures readOnly ==> r == {ReadFile, ReadDir, Execute}
    ensures !readOnly ==> r == All
  {
    var p := if readOnly then Permissions(Some(true), Some(true), Some(true), None, None, None, None)
             else Permissions(Some(true), Some(true), Some(true), Some(true), Some(true), Some(true), Some(true));
    forall c ensures c in Granted(p) <==> Field(p, c) == Some(true) {
      GrantedMember(p, c);
    }
    Granted(p)
  }

  /** `print_ruleset_root`: normalize the root, then name the rights and those of
      them the kernel does not support; the same list stands for handled and
      allowed. */
  method PrintRulesetRoot(root: string, readOnly: bool, home: Option<string>, k: Kernel)
    returns (r: Result<RootReport, Error>)
    ensures r.Err? <==> NormalizePath(root, home).Err?
    ensures r.Err? ==> r.error == HomeUnresolved
    ensures r.Ok? ==> r.value.path == NormalizePath(root, home).value
    ensures r.Ok? ==> r.value.handled == r.value.allowed == Names(RootPrinted(readOnly))
    ensures r.Ok? ==> r.value.ignored == Names(RootPrinted(readOnly) - Supported(k))
  {
    var normalized := NormalizePath(root, home);
    if normalized.Err? {
      return Err(normalized.error);
    }
    var perms := if readOnly then Permissions(Some(true), Some(true), Some(true), None, None, None, None)
                 else Permissions(Some(true), Some(true), Some(true), Some(true), Some(true), Some(true), Some(true));
    var allowed := AccessFromPermissions(perms);
    var names := AccessNames(allowed);
    var ignored := UnsupportedNames(allowed, k);
    r := Ok(RootReport(names, ignored, normalized.value, names));
  }

  /** The names the root report flags as unsupported: none in read-only mode,
      Truncate alone in read-write mode. */
  lemma RootReportIgnored(readOnly: bool, k: Kernel)
    ensures readOnly ==> Names(RootPrinted(readOnly) - Supported(k)) == []
    ensures !readOnly ==> Names(RootPrinted(readOnly) - Supported(k)) == ["Truncate"]
  {
    SupportedBounds(k);
    var unsup := RootPrinted(readOnly) - Supported(k);
    if readOnly {
      assert unsup == {};
      NamesLength(unsup);
    } else {
      assert unsup == {Truncate};
      NamesUnfold(unsup);
    }
  }

  /** The report's names, less the ones it flags as unsupported, are what root
      mode enforces: both the rights of the root's rule and the handled mask
      (read-write mode lists Truncate, which ABI 1 cannot express, and flags it). */
  lemma RootReportAgreesWithEnforcement(path: string, readOnly: bool, k: Kernel)
    ensures ParseNames(Names(RootPrinted(readOnly))) - ParseNames(Names(RootPrinted(readOnly) - Supported(k)))
            == RootRulesetAsWritten(path, readOnly).rules[0].allowed
    ensures RootRulesetAsWritten(path, readOnly).rules[0].allowed == RootRulesetAsWritten(path, readOnly).handled
  {
    var printed := RootPrinted(readOnly);
    var flagged := printed - Supported(k);
    SupportedBounds(k);
    NamesRoundTrip(printed);
    NamesRoundTrip(flagged);
    assert printed - flagged == RootAllowed(readOnly) by {
      if readOnly {
        assert flagged == {};
      } else {
        assert flagged == {Truncate};
      }
    }
  }

  /** One group's report: its name, its rights, the unsupported ones among them
      and its normalized paths. */
  function GroupReportOf(name: string, g: AccessRootGroup, home: Option<string>, k: Kernel): GroupReport
    requires NormalizeAll(g.paths, home).Ok?
  {
    GroupReport(name, Names(Granted(g.permissions)), Names(Granted(g.permissions) - Supported(k)),
                NormalizeAll(g.paths, home).value)
  }

  /** The group reports list the groups in `order`, each described by its own entry. */
  predicate DescribesGroups(groups: seq<GroupReport>, m: map<string, AccessRootGroup>,
                            order: seq<string>, home: Option<string>, k: Kernel)
    requires forall j :: 0 <= j < |order| ==> order[j] in m
  {
    |groups| == |order| &&
    forall i :: 0 <= i < |order| ==>
      NormalizeAll(m[order[i]].paths, home).Ok? &&
      groups[i] == GroupReportOf(order[i], m[order[i]], home, k)
  }

  /** One pass of the group loop of `print_ruleset_profile`: the group's rights,
      the unsupported ones among them, and its normalized paths. */
  method DescribeGroup(name: string, g: AccessRootGroup, home: Option<string>, k: Kernel)
    returns (r: Result<GroupReport, Error>)
    ensures r.Err? <==> home.None? && NeedsHome(g)
    ensures r.Err? ==> r.error == HomeUnresolved
    ensures r.Ok? ==> NormalizeAll(g.paths, home).Ok? && r.value == GroupReportOf(name, g, home, k)
  {
    var allowed := AccessFromPermissions(g.permissions);
    var names := AccessNames(allowed);
    var ignored := UnsupportedNames(allowed, k);
    var paths := NormalizePaths(g.paths, home);
    if paths.Err? {
      assert GroupRules(g, home).Err?;
      return Err(paths.error);
    }
    assert GroupRules(g, home).Ok?;
    r := Ok(GroupReport(name, names, ignored, paths.value));
  }

  /** Describing one more group extends the description of the groups before it. */
  lemma DescribesGroupsSnoc(groups: seq<GroupReport>, m: map<string, AccessRootGroup>, order: seq<string>,
                            i: nat, home: Option<string>, k: Kernel, gr: GroupReport)
    requires forall j :: 0 <= j < |order| ==> order[j] in m
    requires i < |order|
    requires DescribesGroups(groups, m, order[..i], home, k)
    requires NormalizeAll(m[order[i]].paths, home).Ok? && gr == GroupReportOf(order[i], m[order[i]], home, k)
    ensures DescribesGroups(groups + [gr], m, order[..i + 1], home, k)
  {
    assert forall j :: 0 <= j < i ==> order[..i + 1][j] == order[..i][j];
  }

  /** The group loop of `print_ruleset_profile`. */
  method DescribeGroupsIn(m: map<string, AccessRootGroup>, order: seq<string>, home: Option<string>, k: Kernel)
    returns (r: Result<seq<GroupReport>, Error>)
    requires forall j :: 0 <= j < |order| ==> order[j] in m
    ensures r.Err? <==> RulesIn(m, order, home).Err?
    ensures r.Err? ==> r.error == HomeUnresolved
    ensures r.Ok? ==> DescribesGroups(r.value, m, order, home, k)
  {
    var groups: seq<GroupReport> := [];
    for i := 0 to |order|
      invariant DescribesGroups(groups, m, order[..i], home, k)
      invariant forall j :: 0 <= j < i ==> !NeedsHome(m[order[j]]) || home.Some?
    {
      var gr := DescribeGroup(order[i], m[order[i]], home, k);
      if gr.Err? {
        return Err(gr.error);
      }
      DescribesGroupsSnoc(groups, m, order, i, home, k, gr.value);
      groups := groups + [gr.value];
    }
    assert order[..|order|] == order;
    r := Ok(groups);
  }

  /** `print_ruleset_profile`: the handled mask gathered as in setup, then each
      group in the map's iteration order `order`; a path that cannot be
      normalized aborts the report. */
  method PrintRulesetProfile(p: Profile, home: Option<string>, k: Kernel)
    returns (r: Result<ProfileReport, Error>, order: seq<string>)
    ensures IsEnumeration(order, p.accessRoots.Keys)
    ensures r.Err? <==> CompileProfile(p, order, home).Err?
    ensures r.Err? ==> r.error == HomeUnresolved
    ensures r.Ok? ==> r.value.handled == Names(HandledMask(p))
    ensures r.Ok? ==> r.value.ignored == Names(HandledMask(p) - Supported(k))
    ensures r.Ok? ==> (EnumerationMembers(order, p.accessRoots.Keys);
                       DescribesGroups(r.value.groups, p.accessRoots, order, home, k))
  {
    var handled;
    handled, order := ProfileHandled(p);
    EnumerationMembers(order, p.accessRoots.Keys);
    var handledNames := AccessNames(handled);
    var handledIgnored := UnsupportedNames(handled, k);
    var groups := DescribeGroupsIn(p.accessRoots, order, home, k);
    if groups.Err? {
      return Err(groups.error), order;
    }
    r := Ok(ProfileReport(handledNames, handledIgnored, groups.value));
  }

  /** Whatever the profile report lists is enforced: its handled names are the
      handled mask, and every listed path of every group is bound, by a rule of the
      compiled ruleset, to exactly the rights listed for that group. */
  lemma ProfileReportAgreesWithEnforcement(p: Profile, order: seq<string>, home: Option<string>,
                                           k: Kernel, groups: seq<GroupReport>, i: nat, j: nat)
    requires IsEnumeration(order, p.accessRoots.Keys)
    requires CompileProfile(p, order, home).Ok?
    requires (EnumerationMembers(order, p.accessRoots.Keys);
              DescribesGroups(groups, p.accessRoots, order, home, k))
    requires i < |groups| && j < |groups[i].paths|
    ensures ParseNames(Names(HandledMask(p))) == CompileProfile(p, order, home).value.handled
    ensures Rule(groups[i].paths[j], ParseNames(groups[i].allowed)) in CompileProfile(p, order, home).value.rules
  {
    EnumerationMembers(order, p.accessRoots.Keys);
    NamesRoundTrip(HandledMask(p));
    var g := p.accessRoots[order[i]];
    NamesRoundTrip(Granted(g.permissions));
    var x := Rule(groups[i].paths[j], ParseNames(groups[i].allowed));
    assert x == Rule(NormalizePath(g.paths[j], home).value, Granted(g.permissions));
    assert Binds(g, home, x);
    CompiledRuleOrigin(p, order, home, x);
  }
}
