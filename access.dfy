/** The fixed seven-capability domain the launcher names, its stable diagnostic
    names, and the capability sets of the two Landlock ABI revisions it probes. */
module Access {
  import opened Wrappers
  import opened Seqs

  /** One filesystem capability (`AccessFs` flag) the launcher maps from a profile. */
  datatype Cap = ReadFile | ReadDir | Execute | WriteFile | RemoveFile | RemoveDir | Truncate

  /** The order in which diagnostics list capabilities. */
  const Order: seq<Cap> := [ReadFile, ReadDir, Execute, WriteFile, RemoveFile, RemoveDir, Truncate]

  /** The whole domain. */
  const All: set<Cap> := {ReadFile, ReadDir, Execute, WriteFile, RemoveFile, RemoveDir, Truncate}

  /** The stable name pushed for a capability. */
  function Name(c: Cap): string {
    match c
    case ReadFile => "ReadFile"
    case ReadDir => "ReadDir"
    case Execute => "Execute"
    case WriteFile => "WriteFile"
    case RemoveFile => "RemoveFile"
    case RemoveDir => "RemoveDir"
    case Truncate => "Truncate"
  }

  /** Reading a diagnostic name back. */
  function ParseName(s: string): (r: Option<Cap>)
    ensures r.Some? ==> Name(r.value) == s
  {
    if s == "ReadFile" then Some(ReadFile)
    else if s == "ReadDir" then Some(ReadDir)
    else if s == "Execute" then Some(Execute)
    else if s == "WriteFile" then Some(WriteFile)
    else if s == "RemoveFile" then Some(RemoveFile)
    else if s == "RemoveDir" then Some(RemoveDir)
    else if s == "Truncate" then Some(Truncate)
    else None
  }

  /** Names are distinct, so a name identifies its capability. */
  lemma NameRoundTrip(c: Cap)
    ensures ParseName(Name(c)) == Some(c)
  {
    match c
    case ReadFile =>
    case ReadDir =>
    case Execute =>
    case WriteFile =>
    case RemoveFile =>
    case RemoveDir =>
    case Truncate =>
  }

  lemma NameInjective(a: Cap, b: Cap)
    requires Name(a) == Name(b)
    ensures a == b
  {
    NameRoundTrip(a);
    NameRoundTrip(b);
  }

  /** The name of `c` when it is a member of `s`, and nothing otherwise. */
  function Seg(c: Cap, s: set<Cap>): seq<string> {
    if c in s then [Name(c)] else []
  }

  /** The names of the members of `s`, walking `order`. */
  function NamesIn(order: seq<Cap>, s: set<Cap>): seq<string> {
    if order == [] then []
    else Seg(order[0], s) + NamesIn(order[1..], s)
  }

  /** The names of the members of `s` in the fixed order ReadFile ... Truncate. */
  function Names(s: set<Cap>): seq<string> {
    NamesIn(Order, s)
  }

  /** Walking one more capability appends its name, if it is a member. */
  lemma {:induction false} NamesInSnoc(order: seq<Cap>, c: Cap, s: set<Cap>)
    ensures NamesIn(order + [c], s) == NamesIn(order, s) + Seg(c, s)
    decreases |order|
  {
    if order == [] {
      assert [] + [c] == [c] && [c][1..] == [];
    } else {
      assert (order + [c])[0] == order[0] && (order + [c])[1..] == order[1..] + [c];
      NamesInSnoc(order[1..], c, s);
    }
  }

  /** Names written out along the fixed order. */
  lemma NamesUnfold(s: set<Cap>)
    ensures Names(s) == Seg(ReadFile, s) + Seg(ReadDir, s) + Seg(Execute, s) + Seg(WriteFile, s)
                        + Seg(RemoveFile, s) + Seg(RemoveDir, s) + Seg(Truncate, s)
  {
    var o1 := [ReadFile];
    var o2 := o1 + [ReadDir];
    var o3 := o2 + [Execute];
    var o4 := o3 + [WriteFile];
    var o5 := o4 + [RemoveFile];
    var o6 := o5 + [RemoveDir];
    var o7 := o6 + [Truncate];
    assert o7 == Order;
    assert NamesIn(o1, s) == Seg(ReadFile, s) by {
      assert o1[1..] == [];
    }
    NamesInSnoc(o1, ReadDir, s);
    NamesInSnoc(o2, Execute, s);
    NamesInSnoc(o3, WriteFile, s);
    NamesInSnoc(o4, RemoveFile, s);
    NamesInSnoc(o5, RemoveDir, s);
    NamesInSnoc(o6, Truncate, s);
  }

  /** The set of capabilities a name list denotes (names it does not know are ignored). */
  function ParseNames(v: seq<string>): set<Cap> {
    set i | 0 <= i < |v| && ParseName(v[i]).Some? :: ParseName(v[i]).value
  }

  lemma {:induction false} NamesInMember(order: seq<Cap>, s: set<Cap>, c: Cap)
    ensures Name(c) in NamesIn(order, s) <==> c in order && c in s
  {
    if order != [] {
      NamesInMember(order[1..], s, c);
      assert order == [order[0]] + order[1..];
      if Name(c) == Name(order[0]) {
        NameInjective(c, order[0]);
      }
    }
  }

  /** A capability's name is listed exactly when the capability is in the set. */
  lemma NamesMember(s: set<Cap>, c: Cap)
    ensures Name(c) in Names(s) <==> c in s
  {
    NamesInMember(Order, s, c);
  }

  /** Every listed entry is the name of a member of the set. */
  lemma {:induction false} NamesInEntries(order: seq<Cap>, s: set<Cap>, i: nat)
    requires i < |NamesIn(order, s)|
    ensures ParseName(NamesIn(order, s)[i]).Some?
    ensures ParseName(NamesIn(order, s)[i]).value in s
  {
    var head := Seg(order[0], s);
    if i < |head| {
      NameRoundTrip(order[0]);
    } else {
      NamesInEntries(order[1..], s, i - |head|);
    }
  }

  /** Decoding the printed names gives back exactly the set. */
  lemma NamesRoundTrip(s: set<Cap>)
    ensures ParseNames(Names(s)) == s
  {
    var v := Names(s);
    forall c | c in s
      ensures c in ParseNames(v)
    {
      NamesMember(s, c);
      var i :| 0 <= i < |v| && v[i] == Name(c);
      NameRoundTrip(c);
    }
    forall c | c in ParseNames(v)
      ensures c in s
    {
      var i :| 0 <= i < |v| && ParseName(v[i]).Some? && ParseName(v[i]).value == c;
      NamesInEntries(Order, s, i);
    }
  }

  /** Every capability appears in Order and in All. */
  lemma InDomain(c: Cap)
    ensures c in All
    ensures Order[Rank(c)] == c
  {
  }

  /** The position of a capability in the fixed order. */
  function Rank(c: Cap): (r: nat)
    ensures r < |Order|
  {
    match c
    case ReadFile => 0
    case ReadDir => 1
    case Execute => 2
    case WriteFile => 3
    case RemoveFile => 4
    case RemoveDir => 5
    case Truncate => 6
  }

  lemma {:induction false} NamesInLength(order: seq<Cap>, s: set<Cap>)
    requires Distinct(order)
    ensures |NamesIn(order, s)| == |s * Elems(order)|
  {
    if order == [] {
      assert s * Elems(order) == {};
    } else {
      var c, rest := order[0], order[1..];
      NamesInLength(rest, s);
      assert Elems(order) == {c} + Elems(rest);
      assert c !in Elems(rest);
      if c in s {
        assert s * Elems(order) == {c} + s * Elems(rest);
      } else {
        assert s * Elems(order) == s * Elems(rest);
      }
    }
  }

  /** One name per member: the list is exactly as long as the set is large. */
  lemma NamesLength(s: set<Cap>)
    ensures |Names(s)| == |s|
  {
    OrderDistinct();
    NamesInLength(Order, s);
    forall c: Cap ensures c in Elems(Order) {
      InDomain(c);
    }
    assert s * Elems(Order) == s;
  }

  /** Each capability occurs once in the fixed order. */
  lemma OrderDistinct()
    ensures Distinct(Order)
  {
    forall i | 0 <= i < |Order| ensures Rank(Order[i]) == i { }
  }

  lemma {:induction false} NamesInMonotone(order: seq<Cap>, a: set<Cap>, b: set<Cap>)
    requires a <= b
    ensures IsSubseq(NamesIn(order, a), NamesIn(order, b))
  {
    if order != [] {
      var na, nb := NamesIn(order[1..], a), NamesIn(order[1..], b);
      NamesInMonotone(order[1..], a, b);
      var n := Name(order[0]);
      if order[0] in a {
        assert NamesIn(order, a) == [n] + na && NamesIn(order, b) == [n] + nb;
        assert ([n] + na)[1..] == na && ([n] + nb)[1..] == nb;
      } else if order[0] in b {
        assert NamesIn(order, a) == na && NamesIn(order, b) == [n] + nb;
        SubseqCons(na, nb, n);
      } else {
        assert NamesIn(order, a) == na && NamesIn(order, b) == nb;
      }
    }
  }

  /** The names of a subset are a subsequence of the names of the superset; in
      particular every name list follows the fixed order of Names(All). */
  lemma NamesMonotone(a: set<Cap>, b: set<Cap>)
    requires a <= b
    ensures IsSubseq(Names(a), Names(b))
  {
    NamesInMonotone(Order, a, b);
  }

  /** The Landlock ABI revisions the launcher probes, oldest first. */
  datatype Abi = V1 | V2

  /** `AccessFs::from_all(abi)` projected on the seven-capability domain: the
      file rights of ABI 1; ABI 2 adds only Refer, which lies outside the domain,
      and Truncate arrives with ABI 3. */
  function FromAll(abi: Abi): (r: set<Cap>)
    ensures Truncate !in r
    ensures r == All - {Truncate}
  {
    match abi
    case V1 => {ReadFile, ReadDir, Execute, WriteFile, RemoveFile, RemoveDir}
    case V2 => {ReadFile, ReadDir, Execute, WriteFile, RemoveFile, RemoveDir}
  }

  /** `AccessFs::from_read(abi)`: the read-only rights. */
  function FromRead(abi: Abi): (r: set<Cap>)
    ensures r <= FromAll(abi)
    ensures r * {WriteFile, RemoveFile, RemoveDir, Truncate} == {}
  {
    {Execute, ReadFile, ReadDir}
  }
}
