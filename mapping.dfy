/** Mapping permission records to capability sets, and capability sets to
    their diagnostic names (src/main.rs, "Access mapping helpers"). */
module Mapping {
  import opened Wrappers
  import opened Access
  import opened Config

  /** The field of a permission record that governs capability `c`. */
  function Field(p: Permissions, c: Cap): Option<bool> {
    match c
    case ReadFile => p.readFile
    case ReadDir => p.readDir
    case Execute => p.execute
    case WriteFile => p.writeFile
    case RemoveFile => p.removeFile
    case RemoveDir => p.removeDir
    case Truncate => p.truncate
  }

  /** The capabilities a record grants: those whose field is `Some(true)`. */
  function Granted(p: Permissions): set<Cap> {
    set c | c in All && Field(p, c).UnwrapOr(false)
  }

  /** The control record read field by field as a permission record. */
  function AsPermissions(ctrl: ControlAccess): Permissions {
    Permissions(ctrl.readFile, ctrl.readDir, ctrl.execute, ctrl.writeFile,
                ctrl.removeFile, ctrl.removeDir, ctrl.truncate)
  }

  /** The field of the control record that governs capability `c`. */
  function ControlField(ctrl: ControlAccess, c: Cap): (r: Option<bool>)
    ensures r == Field(AsPermissions(ctrl), c)
  {
    match c
    case ReadFile => ctrl.readFile
    case ReadDir => ctrl.readDir
    case Execute => ctrl.execute
    case WriteFile => ctrl.writeFile
    case RemoveFile => ctrl.removeFile
    case RemoveDir => ctrl.removeDir
    case Truncate => ctrl.truncate
  }

  function ControlGranted(ctrl: ControlAccess): set<Cap> {
    Granted(AsPermissions(ctrl))
  }

  lemma GrantedMember(p: Permissions, c: Cap)
    ensures c in Granted(p) <==> Field(p, c) == Some(true)
  {
    InDomain(c);
  }

  lemma ControlGrantedMember(ctrl: ControlAccess, c: Cap)
    ensures c in ControlGranted(ctrl) <==> ControlField(ctrl, c) == Some(true)
  {
    GrantedMember(AsPermissions(ctrl), c);
  }

  /** The singleton of `c` when the record grants it. */
  function Bit(p: Permissions, c: Cap): set<Cap> {
    if Field(p, c).UnwrapOr(false) then {c} else {}
  }

  function ControlBit(ctrl: ControlAccess, c: Cap): set<Cap> {
    Bit(AsPermissions(ctrl), c)
  }

  lemma GrantedUnfold(p: Permissions)
    ensures Granted(p) == Bit(p, ReadFile) + Bit(p, ReadDir) + Bit(p, Execute) + Bit(p, WriteFile)
                          + Bit(p, RemoveFile) + Bit(p, RemoveDir) + Bit(p, Truncate)
  {
    forall c ensures c in Granted(p) <==> c in Bit(p, c) {
      GrantedMember(p, c);
    }
  }

  lemma ControlGrantedUnfold(ctrl: ControlAccess)
    ensures ControlGranted(ctrl) ==
      ControlBit(ctrl, ReadFile) + ControlBit(ctrl, ReadDir) + ControlBit(ctrl, Execute)
      + ControlBit(ctrl, WriteFile)
                + ControlBit(ctrl, RemoveFile) + ControlBit(ctrl, RemoveDir)
      + ControlBit(ctrl, Truncate)
  {
    GrantedUnfold(AsPermissions(ctrl));
  }

  /** `access_from_permissions`: one insert per field that is `Some(true)`. */
  method AccessFromPermissions(p: Permissions) returns (s: set<Cap>)
    ensures forall c :: c in s <==> Field(p, c) == Some(true)
    ensures s == Granted(p)
  {
    s := {};
    if p.readFile.UnwrapOr(false) {
      s := s + {ReadFile};
    }
    assert s == Bit(p, ReadFile);
    if p.readDir.UnwrapOr(false) {
      s := s + {ReadDir};
    }
    assert s == Bit(p, ReadFile) + Bit(p, ReadDir);
    if p.execute.UnwrapOr(false) {
      s := s + {Execute};
    }
    assert s == Bit(p, ReadFile) + Bit(p, ReadDir) + Bit(p, Execute);
    if p.writeFile.UnwrapOr(false) {
      s := s + {WriteFile};
    }
    assert s == Bit(p, ReadFile) + Bit(p, ReadDir) + Bit(p, Execute) + Bit(p, WriteFile);
    if p.removeFile.UnwrapOr(false) {
      s := s + {RemoveFile};
    }
    assert s == Bit(p, ReadFile) + Bit(p, ReadDir) + Bit(p, Execute) + Bit(p, WriteFile)
                + Bit(p, RemoveFile);
    if p.removeDir.UnwrapOr(false) {
      s := s + {RemoveDir};
    }
    assert s == Bit(p, ReadFile) + Bit(p, ReadDir) + Bit(p, Execute) + Bit(p, WriteFile)
                + Bit(p, RemoveFile) + Bit(p, RemoveDir);
    if p.truncate.UnwrapOr(false) {
      s := s + {Truncate};
    }
    assert s == Bit(p, ReadFile) + Bit(p, ReadDir) + Bit(p, Execute) + Bit(p, WriteFile)
                + Bit(p, RemoveFile) + Bit(p, RemoveDir) + Bit(p, Truncate);
    GrantedUnfold(p);
    forall c ensures c in s <==> Field(p, c) == Some(true) {
      GrantedMember(p, c);
    }
  }

  /** `access_from_control`: the same mapping over the control record's fields. */
  method AccessFromControl(ctrl: ControlAccess) returns (s: set<Cap>)
    ensures forall c :: c in s <==> ControlField(ctrl, c) == Some(true)
    ensures s == ControlGranted(ctrl)
  {
    s := {};
    if ctrl.readFile.UnwrapOr(false) {
      s := s + {ReadFile};
    }
    assert s == ControlBit(ctrl, ReadFile);
    if ctrl.readDir.UnwrapOr(false) {
      s := s + {ReadDir};
    }
    assert s == ControlBit(ctrl, ReadFile) + ControlBit(ctrl, ReadDir);
    if ctrl.execute.UnwrapOr(false) {
      s := s + {Execute};
    }
    assert s == ControlBit(ctrl, ReadFile) + ControlBit(ctrl, ReadDir) + ControlBit(ctrl, Execute);
    if ctrl.writeFile.UnwrapOr(false) {
      s := s + {WriteFile};
    }
    assert s == ControlBit(ctrl, ReadFile) + ControlBit(ctrl, ReadDir) + ControlBit(ctrl, Execute)
                + ControlBit(ctrl, WriteFile);
    if ctrl.removeFile.UnwrapOr(false) {
      s := s + {RemoveFile};
    }
    assert s == ControlBit(ctrl, ReadFile) + ControlBit(ctrl, ReadDir) + ControlBit(ctrl, Execute)
                + ControlBit(ctrl, WriteFile)
                + ControlBit(ctrl, RemoveFile);
    if ctrl.removeDir.UnwrapOr(false) {
      s := s + {RemoveDir};
    }
    assert s == ControlBit(ctrl, ReadFile) + ControlBit(ctrl, ReadDir) + ControlBit(ctrl, Execute)
                + ControlBit(ctrl, WriteFile)
                + ControlBit(ctrl, RemoveFile) + ControlBit(ctrl, RemoveDir);
    if ctrl.truncate.UnwrapOr(false) {
      s := s + {Truncate};
    }
    assert s == ControlBit(ctrl, ReadFile) + ControlBit(ctrl, ReadDir) + ControlBit(ctrl, Execute)
                + ControlBit(ctrl, WriteFile)
                + ControlBit(ctrl, RemoveFile) + ControlBit(ctrl, RemoveDir) + ControlBit(ctrl, Truncate);
    ControlGrantedUnfold(ctrl);
    forall c ensures c in s <==> ControlField(ctrl, c) == Some(true) {
      ControlGrantedMember(ctrl, c);
    }
  }

  /** A record with every field absent or false grants nothing. */
  lemma NothingGranted(p: Permissions)
    requires forall c :: Field(p, c) != Some(true)
    ensures Granted(p) == {}
  {
    forall c | c in Granted(p) ensures false {
      GrantedMember(p, c);
    }
  }

  /** The unit test at src/main.rs:555-565: read_file and read_dir set, the rest
      defaulted, grants ReadFile and ReadDir and not WriteFile. */
  lemma ReadOnlyMapping()
    ensures var p := Permissions(Some(true), Some(true), None, None, None, None, None);
            Granted(p) == {ReadFile, ReadDir}
  {
    var p := Permissions(Some(true), Some(true), None, None, None, None, None);
    forall c ensures c in Granted(p) <==> c in {ReadFile, ReadDir} {
      GrantedMember(p, c);
    }
  }

  /** The unit test at src/main.rs:567-576: a control record with only execute set
      handles Execute alone, and in particular not WriteFile. */
  lemma ControlExecuteMapping()
    ensures ControlGranted(ControlAccess(None, None, Some(true), None, None, None, None)) == {Execute}
  {
    var ctrl := ControlAccess(None, None, Some(true), None, None, None, None);
    forall c ensures c in ControlGranted(ctrl) <==> c == Execute {
      ControlGrantedMember(ctrl, c);
    }
  }

  /** `access_names`: the names of the members of `s`, in the fixed order. */
  method AccessNames(s: set<Cap>) returns (v: seq<string>)
    ensures v == Names(s)
    ensures forall c :: Name(c) in v <==> c in s
    ensures |v| == |s|
  {
    v := [];
    if ReadFile in s {
      v := v + ["ReadFile"];
    }
    assert v == Seg(ReadFile, s);
    if ReadDir in s {
      v := v + ["ReadDir"];
    }
    assert v == Seg(ReadFile, s) + Seg(ReadDir, s);
    if Execute in s {
      v := v + ["Execute"];
    }
    assert v == Seg(ReadFile, s) + Seg(ReadDir, s) + Seg(Execute, s);
    if WriteFile in s {
      v := v + ["WriteFile"];
    }
    assert v == Seg(ReadFile, s) + Seg(ReadDir, s) + Seg(Execute, s) + Seg(WriteFile, s);
    if RemoveFile in s {
      v := v + ["RemoveFile"];
    }
    assert v == Seg(ReadFile, s) + Seg(ReadDir, s) + Seg(Execute, s) + Seg(WriteFile, s)
                + Seg(RemoveFile, s);
    if RemoveDir in s {
      v := v + ["RemoveDir"];
    }
    assert v == Seg(ReadFile, s) + Seg(ReadDir, s) + Seg(Execute, s) + Seg(WriteFile, s)
                + Seg(RemoveFile, s) + Seg(RemoveDir, s);
    if Truncate in s {
      v := v + ["Truncate"];
    }
    NamesUnfold(s);
    forall c ensures Name(c) in v <==> c in s {
      NamesMember(s, c);
    }
    NamesLength(s);
  }
}
