/** Member names of a state archive: what is accepted, and its canonical form. */
module TarPath {
  import opened Durability

  const SLASH := '/'

  /** `split('/')`. */
  function Split(s: string): (parts: seq<string>)
    ensures parts != []
  {
    if s == [] then [[]]
    else
      var n := |s| - 1;
      var before := Split(s[..n]);
      if s[n] == SLASH then before + [[]]
      else before[..|before| - 1] + [before[|before| - 1] + [s[n]]]
  }

  /** `join('/')`. */
  function Join(parts: seq<string>): string {
    if parts == [] then []
    else if |parts| == 1 then parts[0]
    else Join(parts[..|parts| - 1]) + [SLASH] + parts[|parts| - 1]
  }

  predicate Plain(part: string) {
    part != "" && part != "."
  }

  function Filter(parts: seq<string>): seq<string>
  {
    if parts == [] then []
    else
      var n := |parts| - 1;
      Filter(parts[..n]) + if Plain(parts[n]) then [parts[n]] else []
  }

  /** The number of UTF-16 units, which is what the length limit counts. */
  function Units(s: string): nat {
    if s == [] then 0 else Units(s[..|s| - 1]) + if s[|s| - 1] as int > 0xFFFF then 2 else 1
  }

  predicate Letter(c: char) {
    'a' <= c <= 'z' || 'A' <= c <= 'Z'
  }

  predicate Printable(s: string) {
    forall i :: 0 <= i < |s| ==> s[i] as int >= 32 && s[i] as int != 127 && s[i] != '\\'
  }

  /** A drive prefix such as `C:`. */
  predicate Drive(s: string) {
    |s| >= 2 && Letter(s[0]) && s[1] == ':'
  }

  /** `safeName`: the canonical relative name, or a refusal. */
  function SafeName(value: string): Option<string> {
    if Units(value) > 4096 || !Printable(value) then None
    else if value != [] && value[0] == SLASH then None
    else if Drive(value) then None
    else
      var parts := Filter(Split(value));
      if ".." in parts then None else Some(Join(parts))
  }

  /** What a stored name looks like: empty for the root, or plain parts without `..`. */
  ghost predicate Relative(name: string) {
    Printable(name) && (name == "" || forall p :: p in Split(name) ==> Plain(p) && p != "..")
  }

  // ---------- Joining and splitting ----------

  lemma {:induction false} SplitParts(s: string)
    ensures forall i :: 0 <= i < |Split(s)| ==> SLASH !in Split(s)[i]
  {
    if s != [] { SplitParts(s[..|s| - 1]); }
  }

  lemma {:induction false} FilterIs(parts: seq<string>)
    ensures forall i :: 0 <= i < |Filter(parts)| ==> Filter(parts)[i] in parts && Plain(Filter(parts)[i])
  {
    if parts != [] {
      var n := |parts| - 1;
      FilterIs(parts[..n]);
      assert parts[n] in parts && forall p :: p in parts[..n] ==> p in parts;
    }
  }

  lemma {:induction false} SplitOne(s: string)
    requires SLASH !in s
    ensures Split(s) == [s]
  {
    if s != [] {
      var n := |s| - 1;
      assert s[n] in s && forall c :: c in s[..n] ==> c in s;
      SplitOne(s[..n]);
      assert s == s[..n] + [s[n]];
    }
  }

  lemma SplitSnoc(s: string, c: char)
    ensures
      var before := Split(s);
      Split(s + [c]) == if c == SLASH then before + [[]] else before[..|before| - 1] + [before[|before| - 1] + [c]]
  {
    assert (s + [c])[..|s|] == s;
  }

  lemma {:induction false} SplitAppend(s: string, part: string)
    requires SLASH !in part
    ensures Split(s + [SLASH] + part) == Split(s) + [part]
    decreases |part|
  {
    hide Split;
    if part == [] {
      assert s + [SLASH] + part == s + [SLASH];
      SplitSnoc(s, SLASH);
    } else {
      var k := |part| - 1;
      assert part[k] in part && forall c :: c in part[..k] ==> c in part;
      SplitAppend(s, part[..k]);
      SplitSnoc(s + [SLASH] + part[..k], part[k]);
      assert part == part[..k] + [part[k]];
      assert s + [SLASH] + part[..k] + [part[k]] == s + [SLASH] + part;
      assert (Split(s) + [part[..k]])[..|Split(s)|] == Split(s);
    }
  }

  /** Splitting undoes joining. */
  lemma {:induction false} SplitJoin(parts: seq<string>)
    requires parts != [] && forall i :: 0 <= i < |parts| ==> SLASH !in parts[i]
    ensures Split(Join(parts)) == parts
  {
    if |parts| == 1 {
      SplitOne(parts[0]);
    } else {
      var n := |parts| - 1;
      SplitJoin(parts[..n]);
      SplitAppend(Join(parts[..n]), parts[n]);
      assert parts == parts[..n] + [parts[n]];
    }
  }

  /** Every character of a part is a character of the whole. */
  lemma {:induction false} SplitChars(s: string, i: nat, c: char)
    requires i < |Split(s)| && c in Split(s)[i]
    ensures c in s
  {
    if s != [] {
      var n := |s| - 1;
      var before := Split(s[..n]);
      assert forall d :: d in s[..n] ==> d in s;
      assert s[n] in s;
      if s[n] == SLASH {
        SplitChars(s[..n], i, c);
      } else if i < |before| - 1 || c in before[|before| - 1] {
        assert Split(s)[i] == if i < |before| - 1 then before[i] else before[|before| - 1] + [s[n]];
        SplitChars(s[..n], i, c);
      }
    }
  }

  lemma {:induction false} JoinChars(parts: seq<string>, c: char)
    requires c in Join(parts)
    ensures c == SLASH || exists p :: p in parts && c in p
  {
    if |parts| == 1 {
      assert parts[0] in parts;
    } else if |parts| > 1 {
      var n := |parts| - 1;
      assert parts[n] in parts;
      if c != SLASH && c !in parts[n] {
        JoinChars(parts[..n], c);
        var p :| p in parts[..n] && c in p;
        assert p in parts;
      }
    }
  }

  /** An accepted name is relative, printable and free of `.` and `..`. */
  lemma SafeNameIsRelative(value: string)
    requires SafeName(value).Some?
    ensures Relative(SafeName(value).value)
  {
    var parts := Filter(Split(value));
    var name := Join(parts);
    SplitParts(value);
    FilterIs(Split(value));
    forall i | 0 <= i < |name| ensures name[i] as int >= 32 && name[i] as int != 127 && name[i] != '\\' {
      assert name[i] in name;
      JoinChars(parts, name[i]);
      if name[i] != SLASH {
        var p :| p in parts && name[i] in p;
        var k :| 0 <= k < |Split(value)| && Split(value)[k] == p;
        SplitChars(value, k, name[i]);
        var m :| 0 <= m < |value| && value[m] == name[i];
      }
    }
    if parts != [] {
      assert forall i :: 0 <= i < |parts| ==> SLASH !in parts[i];
      SplitJoin(parts);
    }
  }

  lemma {:induction false} FilterPlain(parts: seq<string>)
    requires forall i :: 0 <= i < |parts| ==> Plain(parts[i])
    ensures Filter(parts) == parts
  {
    if parts != [] {
      var n := |parts| - 1;
      FilterPlain(parts[..n]);
      assert parts == parts[..n] + [parts[n]];
    }
  }

  lemma {:induction false} JoinSplit(s: string)
    ensures Join(Split(s)) == s
  {
    if s != [] {
      var n := |s| - 1;
      JoinSplit(s[..n]);
      var before := Split(s[..n]);
      var b := |before| - 1;
      assert s == s[..n] + [s[n]];
      if s[n] == SLASH {
        assert (before + [[]])[..|before|] == before;
      } else {
        var parts := before[..b] + [before[b] + [s[n]]];
        assert parts[..b] == before[..b] && |parts| == |before|;
        assert Split(s) == parts;
        if b > 0 {
          assert Join(parts) == Join(before[..b]) + [SLASH] + (before[b] + [s[n]]);
          assert Join(before) == Join(before[..b]) + [SLASH] + before[b];
        }
      }
    }
  }

  lemma {:induction false} UnitsAppend(a: string, b: string)
    ensures Units(a + b) == Units(a) + Units(b)
    decreases |b|
  {
    if b == [] {
      assert a + b == a;
    } else {
      var n := |b| - 1;
      UnitsAppend(a, b[..n]);
      assert (a + b)[..|a| + n] == a + b[..n] && (a + b)[|a| + n] == b[n];
    }
  }

  /** One part more. */
  lemma JoinSnoc(parts: seq<string>, part: string)
    ensures Join(parts + [part]) == if parts == [] then part else Join(parts) + [SLASH] + part
  {
    assert (parts + [part])[..|parts|] == parts;
  }

  /** Dropping parts makes no name longer. */
  lemma {:induction false} FilterShortens(parts: seq<string>)
    ensures Units(Join(Filter(parts))) <= Units(Join(parts))
  {
    hide Plain, Join, Units;
    if parts != [] {
      var n := |parts| - 1;
      var front, last := parts[..n], parts[n];
      FilterShortens(front);
      assert parts == front + [last];
      JoinSnoc(front, last);
      JoinSnoc(Filter(front), last);
      UnitsAppend(Join(front) + [SLASH], last);
      UnitsAppend(Join(front), [SLASH]);
      UnitsAppend(Join(Filter(front)) + [SLASH], last);
      UnitsAppend(Join(Filter(front)), [SLASH]);
      JoinNone();
      assert Filter(parts) == if Plain(last) then Filter(front) + [last] else Filter(front);
    }
  }

  lemma JoinNone()
    ensures Join([]) == [] && Units([]) == 0
  {
  }

  /** The parts of an accepted name are its canonical parts. */
  lemma CanonicalParts(value: string)
    requires SafeName(value).Some?
    ensures
      var parts, name := Filter(Split(value)), SafeName(value).value;
      && Filter(Split(name)) == parts && name == Join(parts) && (name != "" ==> name[0] != SLASH)
      && (parts == [] ==> name == "")
  {
    var parts := Filter(Split(value));
    SplitParts(value);
    FilterIs(Split(value));
    if parts == [] {
      assert Filter(Split("")) == [];
    } else {
      assert forall i :: 0 <= i < |parts| ==> SLASH !in parts[i];
      SplitJoin(parts);
      FilterPlain(parts);
      JoinHead(parts);
    }
  }

  /** The canonical form is a fixed point, but for one case: the code looks for a drive prefix
      before it normalises, so a name that begins with one may come out, which it would refuse. */
  lemma SafeNameIsCanonical(value: string)
    requires SafeName(value).Some?
    ensures
      var name := SafeName(value).value;
      SafeName(name) == if Drive(name) then None else Some(name)
  {
    hide Filter, Split, Join, Units, Printable;
    var name := SafeName(value).value;
    CanonicalParts(value);
    SafeNameIsRelative(value);
    FilterShortens(Split(value));
    JoinSplit(value);
    JoinNone();
  }

  /** What is refused, by the characters and parts of the name: too long, a control character, a
      delete character or a backslash, a leading slash, a drive prefix, or a part `..`. */
  lemma RefusedIff(value: string)
    ensures SafeName(value) == None <==>
      || Units(value) > 4096
      || (exists c :: c in value && (c as int < 32 || c as int == 127 || c == '\\'))
      || (value != "" && value[0] == '/')
      || (|value| >= 2 && ('a' <= value[0] <= 'z' || 'A' <= value[0] <= 'Z') && value[1] == ':')
      || ".." in Split(value)
  {
    hide Split, Join, Units, Filter;
    FilterIs(Split(value));
    FilterHolds(Split(value), "..");
    if !Printable(value) {
      var i :| 0 <= i < |value| && !(value[i] as int >= 32 && value[i] as int != 127 && value[i] != '\\');
      assert value[i] in value;
    }
  }

  lemma {:induction false} FilterHolds(parts: seq<string>, part: string)
    requires Plain(part)
    ensures part in parts ==> part in Filter(parts)
  {
    if parts != [] { FilterHolds(parts[..|parts| - 1], part); }
  }

  /** Such a name does come out. */
  lemma DriveComesOut()
    ensures SafeName("./C:/x") == Some("C:/x") && SafeName("C:/x") == None
  {
    hide Split, Filter, Join, Units;
    var value := "./C:/x";
    SplitOne(".");
    SplitAppend(".", "C:");
    SplitAppend("./C:", "x");
    assert "." + [SLASH] + "C:" == "./C:" && "./C:" + [SLASH] + "x" == value;
    assert Split(value) == [".", "C:", "x"];
    FilterThree();
    JoinSnoc(["C:"], "x");
    assert ["C:"] + ["x"] == ["C:", "x"] && "C:" + [SLASH] + "x" == "C:/x";
    JoinOne("C:");
    UnitsBound(value);
  }

  lemma JoinOne(part: string)
    ensures Join([part]) == part
  {
  }

  lemma {:induction false} UnitsBound(s: string)
    ensures Units(s) <= 2 * |s|
  {
    if s != [] { UnitsBound(s[..|s| - 1]); }
  }

  lemma FilterThree()
    ensures Filter([".", "C:", "x"]) == ["C:", "x"]
  {
    assert [".", "C:", "x"][..2] == [".", "C:"] && [".", "C:"][..1] == ["."] && ["."][..0] == [];
    assert Filter(["."]) == [];
    assert Filter([".", "C:"]) == ["C:"];
  }

  /** It does so only for a name that begins with `./`. */
  lemma DriveOnlyAfterDot(value: string)
    requires SafeName(value).Some? && Drive(SafeName(value).value)
    ensures |value| >= 2 && value[0] == '.' && value[1] == SLASH
  {
    hide Split, Filter, Join, Units, Printable;
    var parts, first := Split(value), Split(value)[0];
    CanonicalParts(value);
    JoinSplit(value);
    JoinPrefix(parts);
    if Plain(first) {
      FilterHead(parts);
      JoinPrefix(Filter(parts));
    } else if |parts| == 1 {
      assert parts == [first];
      FilterOne(first);
    }
  }

  lemma FilterOne(part: string)
    ensures !Plain(part) ==> Filter([part]) == []
  {
  }

  lemma {:induction false} JoinPrefix(parts: seq<string>)
    requires parts != []
    ensures
      var n, name := |parts[0]|, Join(parts);
      && n <= |name| && name[..n] == parts[0]
      && (if |parts| == 1 then |name| == n else |name| > n && name[n] == SLASH)
  {
    if |parts| > 1 { JoinPrefix(parts[..|parts| - 1]); }
  }

  lemma {:induction false} FilterHead(parts: seq<string>)
    requires parts != [] && Plain(parts[0])
    ensures Filter(parts) != [] && Filter(parts)[0] == parts[0]
  {
    if |parts| > 1 { FilterHead(parts[..|parts| - 1]); }
  }

  lemma {:induction false} JoinHead(parts: seq<string>)
    requires parts != [] && parts[0] != []
    ensures Join(parts) != [] && Join(parts)[0] == parts[0][0]
  {
    if |parts| > 1 { JoinHead(parts[..|parts| - 1]); }
  }

  // ---------- Ancestors ----------

  /** `a` is a directory part of `b`. */
  predicate Ancestor(a: string, b: string) {
    |a| < |b| && b[|a|] == SLASH && b[..|a|] == a
  }
}
