/** ABI negotiation: the capability set the running kernel supports, and the
    list of requested capabilities it does not support. */
module Negotiation {
  import opened Access
  import opened Kernel
  import opened Seqs

  /** What `supported_access` settles on: ABI 2's full set when a ruleset for it
      can be created, otherwise ABI 1's full set (also when neither probe succeeds). */
  function Supported(k: Kernel): (r: set<Cap>)
    ensures FromAll(V1) <= r <= FromAll(V2)
    ensures Truncate !in r
  {
    if k.createOk(FromAll(V2)) then FromAll(V2) else FromAll(V1)
  }

  /** `supported_access`: probe the revisions newest first; the first one whose
      ruleset can be created wins; fall back to ABI 1. Nothing is restricted. */
  method SupportedAccess(k: Kernel) returns (s: set<Cap>)
    ensures s == Supported(k)
    ensures FromAll(V1) <= s <= FromAll(V2)
  {
    var abis := [V2, V1];
    for i := 0 to |abis|
      invariant forall j :: 0 <= j < i ==> !k.createOk(FromAll(abis[j]))
    {
      var handled := FromAll(abis[i]);
      if k.createOk(handled) {
        return handled;
      }
    }
    return FromAll(V1);
  }

  /** The supported set always lies between the oldest and the newest revision's
      full sets; on the seven-capability domain it holds every capability except
      Truncate, which neither probed revision can express. */
  lemma SupportedBounds(k: Kernel)
    ensures FromAll(V1) <= Supported(k) <= FromAll(V2)
    ensures ReadFile in Supported(k) && ReadDir in Supported(k)
    ensures Supported(k) == All - {Truncate}
  {
  }

  /** `unsupported_names`: the names of the requested capabilities outside the
      supported set, in the fixed order. */
  method UnsupportedNames(requested: set<Cap>, k: Kernel) returns (v: seq<string>)
    ensures v == Names(requested - Supported(k))
    ensures forall c :: Name(c) in v <==> c in requested && c !in Supported(k)
    ensures IsSubseq(v, Names(requested))
  {
    var sup := SupportedAccess(k);
    ghost var u := requested - sup;
    v := [];
    if ReadFile in requested && ReadFile !in sup {
      v := v + ["ReadFile"];
    }
    assert v == Seg(ReadFile, u);
    if ReadDir in requested && ReadDir !in sup {
      v := v + ["ReadDir"];
    }
    assert v == Seg(ReadFile, u) + Seg(ReadDir, u);
    if Execute in requested && Execute !in sup {
      v := v + ["Execute"];
    }
    assert v == Seg(ReadFile, u) + Seg(ReadDir, u) + Seg(Execute, u);
    if WriteFile in requested && WriteFile !in sup {
      v := v + ["WriteFile"];
    }
    assert v == Seg(ReadFile, u) + Seg(ReadDir, u) + Seg(Execute, u) + Seg(WriteFile, u);
    if RemoveFile in requested && RemoveFile !in sup {
      v := v + ["RemoveFile"];
    }
    assert v == Seg(ReadFile, u) + Seg(ReadDir, u) + Seg(Execute, u) + Seg(WriteFile, u)
                + Seg(RemoveFile, u);
    if RemoveDir in requested && RemoveDir !in sup {
      v := v + ["RemoveDir"];
    }
    assert v == Seg(ReadFile, u) + Seg(ReadDir, u) + Seg(Execute, u) + Seg(WriteFile, u)
                + Seg(RemoveFile, u) + Seg(RemoveDir, u);
    if Truncate in requested && Truncate !in sup {
      v := v + ["Truncate"];
    }
    NamesUnfold(u);
    forall c ensures Name(c) in v <==> c in u {
      NamesMember(u, c);
    }
    NamesMonotone(u, requested);
  }

  /** A requested Truncate is always reported as unsupported, and it is the only
      capability that ever is (the unit test at src/main.rs:585-593 allows either
      outcome; on the two probed revisions only this one is possible). */
  lemma OnlyTruncateUnsupported(requested: set<Cap>, k: Kernel)
    ensures requested - Supported(k) == requested * {Truncate}
    ensures Truncate in requested ==> Name(Truncate) in Names(requested - Supported(k))
  {
    SupportedBounds(k);
    forall c | c in requested
      ensures c in requested - Supported(k) <==> c == Truncate
    {
      InDomain(c);
    }
    NamesMember(requested - Supported(k), Truncate);
  }
}
