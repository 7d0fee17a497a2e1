/** The id mappings recorded for a store: printed, sorted, stored, compared and parsed back. */
module Namespacer {
  import opened Wrappers
  import opened Decimals
  import opened Sorting

  datatype IDMapping = IDMapping(hostID: int, namespaceID: int, size: int)

  datatype IDMappings = IDMappings(uids: seq<IDMapping>, gids: seq<IDMapping>)

  /** The text of a mapping in the namespace file. */
  datatype Line = Line(text: string)

  /** The contents of the namespace file. */
  datatype File = File(uids: seq<Line>, gids: seq<Line>)

  // ------------------------------------------------------------------ one mapping

  function Field(n: int): string {
    Print(n) + ":"
  }

  function Show(m: IDMapping): string {
    Field(m.namespaceID) + (Field(m.hostID) + Print(m.size))
  }

  /** A number followed by a colon. */
  function ScanField(s: string): Result<(int, string)> {
    match ScanInt(s)
    case Error => Error
    case Okay((n, rest)) => if rest == "" || rest[0] != ':' then Error else Okay((n, rest[1..]))
  }

  /** Scanning "%d:%d:%d"; what follows the third number is ignored. */
  function Parse(s: string): Result<IDMapping> {
    match ScanField(s)
    case Error => Error
    case Okay((ns, s1)) =>
      match ScanField(s1)
      case Error => Error
      case Okay((host, s2)) =>
        match ScanInt(s2)
        case Error => Error
        case Okay((size, _)) => Okay(IDMapping(host, ns, size))
  }

  lemma ScanFieldOf(n: int, rest: string)
    ensures ScanField(Field(n) + rest) == Okay((n, rest))
  {
    ScanPrint(n, ":" + rest);
    assert Field(n) + rest == Print(n) + (":" + rest);
    assert (":" + rest)[1..] == rest;
  }

  lemma ParseShow(m: IDMapping)
    ensures Parse(Show(m)) == Okay(m)
  {
    ScanFieldOf(m.namespaceID, Field(m.hostID) + Print(m.size));
    ScanFieldOf(m.hostID, Print(m.size));
    ScanPrint(m.size, "");
    assert Print(m.size) + "" == Print(m.size);
  }

  lemma ShowInjective(a: IDMapping, b: IDMapping)
    requires Show(a) == Show(b)
    ensures a == b
  {
    ParseShow(a);
    ParseShow(b);
  }

  // ------------------------------------------------------------------ the order of strings

  predicate Leq(a: string, b: string) {
    a == "" || (b != "" && (a[0] < b[0] || (a[0] == b[0] && Leq(a[1..], b[1..]))))
  }

  lemma {:induction false} LeqTotal(a: string, b: string)
    ensures Leq(a, b) || Leq(b, a)
  {
    if a != "" && b != "" { LeqTotal(a[1..], b[1..]); }
  }

  lemma {:induction false} LeqTransitive(a: string, b: string, c: string)
    requires Leq(a, b) && Leq(b, c)
    ensures Leq(a, c)
  {
    if a != "" && a[0] == b[0] && b[0] == c[0] { LeqTransitive(a[1..], b[1..], c[1..]); }
  }

  lemma {:induction false} LeqAntisymmetric(a: string, b: string)
    requires Leq(a, b) && Leq(b, a)
    ensures a == b
  {
    if a != "" {
      LeqAntisymmetric(a[1..], b[1..]);
      assert a == [a[0]] + a[1..] && b == [b[0]] + b[1..];
    }
  }

  /** k is the first position at which the two differ, and a has the smaller character there. */
  predicate SmallerAt(a: string, b: string, k: nat) {
    k < |a| && k < |b| && a[..k] == b[..k] && a[k] < b[k]
  }

  lemma {:induction false} SmallerLeq(a: string, b: string, k: nat)
    requires SmallerAt(a, b, k)
    ensures Leq(a, b)
  {
    if k > 0 {
      assert a[..k][0] == b[..k][0];
      assert a[1..][..k - 1] == a[..k][1..] && b[1..][..k - 1] == b[..k][1..];
      SmallerLeq(a[1..], b[1..], k - 1);
    }
  }

  lemma {:induction false} PrefixLeq(a: string, b: string)
    requires a <= b
    ensures Leq(a, b)
  {
    if a != "" { PrefixLeq(a[1..], b[1..]); }
  }

  lemma {:induction false} LeqDecided(a: string, b: string)
    requires Leq(a, b)
    ensures a <= b || exists k: nat :: SmallerAt(a, b, k)
  {
    if a == "" {
    } else if a[0] < b[0] {
      assert SmallerAt(a, b, 0);
    } else {
      LeqDecided(a[1..], b[1..]);
      assert a == [a[0]] + a[1..] && b == [b[0]] + b[1..];
      if k: nat :| SmallerAt(a[1..], b[1..], k) {
        assert a[..k + 1] == [a[0]] + a[1..][..k] && b[..k + 1] == [b[0]] + b[1..][..k];
        assert SmallerAt(a, b, k + 1);
      }
    }
  }

  /** The order of Go's strings: a prefix comes first, and else the first difference decides. */
  lemma LeqIff(a: string, b: string)
    ensures Leq(a, b) <==> a <= b || exists k: nat :: SmallerAt(a, b, k)
  {
    if Leq(a, b) { LeqDecided(a, b); }
    if a <= b { PrefixLeq(a, b); }
    if k: nat :| SmallerAt(a, b, k) { SmallerLeq(a, b, k); }
  }

  predicate LineLeq(a: Line, b: Line) {
    Leq(a.text, b.text)
  }

  lemma LineOrder()
    ensures IsOrder(LineLeq)
  {
    forall a, b ensures LineLeq(a, b) || LineLeq(b, a) { LeqTotal(a.text, b.text); }
    forall a, b | LineLeq(a, b) && LineLeq(b, a) ensures a == b { LeqAntisymmetric(a.text, b.text); }
    forall a, b, c | LineLeq(a, b) && LineLeq(b, c) ensures LineLeq(a, c) { LeqTransitive(a.text, b.text, c.text); }
  }

  // ------------------------------------------------------------------ lists of mappings

  function ShowAll(ms: seq<IDMapping>): seq<Line> {
    if ms == [] then [] else ShowAll(ms[..|ms| - 1]) + [Line(Show(ms[|ms| - 1]))]
  }

  /** The form in which a list is stored and compared. */
  function Normal(ms: seq<IDMapping>): seq<Line> {
    Sort(LineLeq, ShowAll(ms))
  }

  function ParseAll(ss: seq<Line>): Result<seq<IDMapping>> {
    if ss == [] then Okay([])
    else
      match ParseAll(ss[..|ss| - 1])
      case Error => Error
      case Okay(ms) =>
        match Parse(ss[|ss| - 1].text)
        case Error => Error
        case Okay(m) => Okay(ms + [m])
  }

  function ParseFile(f: File): Result<IDMappings> {
    match ParseAll(f.uids)
    case Error => Error
    case Okay(uids) =>
      match ParseAll(f.gids)
      case Error => Error
      case Okay(gids) => Okay(IDMappings(uids, gids))
  }

  lemma {:induction false} ShowAllCounts(ms: seq<IDMapping>, m: IDMapping)
    ensures multiset(ShowAll(ms))[Line(Show(m))] == multiset(ms)[m]
  {
    if ms != [] {
      var last := ms[|ms| - 1];
      assert ms == ms[..|ms| - 1] + [last];
      ShowAllCounts(ms[..|ms| - 1], m);
      if Show(last) == Show(m) { ShowInjective(last, m); }
    }
  }

  lemma ShowAllKeepsElements(a: seq<IDMapping>, b: seq<IDMapping>)
    requires multiset(ShowAll(a)) == multiset(ShowAll(b))
    ensures multiset(a) == multiset(b)
  {
    forall m ensures multiset(a)[m] == multiset(b)[m] {
      ShowAllCounts(a, m);
      ShowAllCounts(b, m);
    }
  }

  /** The text of the list, whatever its order, has only texts of mappings in it. */
  lemma {:induction false} ShowAllOnly(ms: seq<IDMapping>, s: Line) returns (m: IDMapping)
    requires s in ShowAll(ms)
    ensures m in ms && s == Line(Show(m))
  {
    var front, last := ms[..|ms| - 1], ms[|ms| - 1];
    if s == Line(Show(last)) { m := last; } else { m := ShowAllOnly(front, s); }
  }

  lemma {:induction false} ShowAllMember(ms: seq<IDMapping>, m: IDMapping)
    requires m in ms
    ensures Line(Show(m)) in ShowAll(ms)
  {
    var front, last := ms[..|ms| - 1], ms[|ms| - 1];
    assert ms == front + [last];
    if m != last { ShowAllMember(front, m); }
  }

  lemma SameElementsSameTexts(a: seq<IDMapping>, b: seq<IDMapping>)
    requires multiset(a) == multiset(b)
    ensures multiset(ShowAll(a)) == multiset(ShowAll(b))
  {
    forall s ensures multiset(ShowAll(a))[s] == multiset(ShowAll(b))[s] {
      if s in ShowAll(a) {
        var m := ShowAllOnly(a, s);
        ShowAllCounts(a, m);
        ShowAllCounts(b, m);
      } else if s in ShowAll(b) {
        var m := ShowAllOnly(b, s);
        assert m in multiset(a);
        ShowAllMember(a, m);
      }
    }
  }

  /** Two lists have the same normal form exactly when they have the same mappings, as often. */
  lemma NormalIff(a: seq<IDMapping>, b: seq<IDMapping>)
    ensures Normal(a) == Normal(b) <==> multiset(a) == multiset(b)
  {
    LineOrder();
    SortCanonical(LineLeq, ShowAll(a), ShowAll(b));
    if multiset(a) == multiset(b) {
      SameElementsSameTexts(a, b);
    } else if multiset(ShowAll(a)) == multiset(ShowAll(b)) {
      ShowAllKeepsElements(a, b);
    }
  }

  lemma ParseSnoc(ss: seq<Line>, m: IDMapping)
    requires ParseAll(ss).Okay?
    ensures ParseAll(ss + [Line(Show(m))]) == Okay(ParseAll(ss).value + [m])
  {
    ParseShow(m);
    assert (ss + [Line(Show(m))])[..|ss|] == ss;
  }

  lemma ShowSnoc(ms: seq<IDMapping>, m: IDMapping)
    ensures ShowAll(ms + [m]) == ShowAll(ms) + [Line(Show(m))]
  {
    assert (ms + [m])[..|ms|] == ms;
  }

  /** The lines are texts of mappings from the list. */
  predicate AreTexts(ms: seq<IDMapping>, ss: seq<Line>) {
    forall i :: 0 <= i < |ss| ==> ss[i] in ShowAll(ms)
  }

  predicate ParsesBack(ss: seq<Line>) {
    ParseAll(ss).Okay? && ShowAll(ParseAll(ss).value) == ss
  }

  lemma ParsesOneMore(front: seq<Line>, m: IDMapping)
    requires ParsesBack(front)
    ensures ParsesBack(front + [Line(Show(m))])
  {
    ParseSnoc(front, m);
    ShowSnoc(ParseAll(front).value, m);
  }

  lemma {:induction false} ParseTexts(ms: seq<IDMapping>, ss: seq<Line>)
    requires AreTexts(ms, ss)
    ensures ParsesBack(ss)
  {
    if ss != [] {
      var front := ss[..|ss| - 1];
      assert AreTexts(ms, front);
      ParseTexts(ms, front);
      var m := ShowAllOnly(ms, ss[|ss| - 1]);
      assert ss == front + [Line(Show(m))];
      ParsesOneMore(front, m);
    }
  }

  /** What is stored parses back to the list that was given, up to order. */
  lemma NormalRoundTrip(ms: seq<IDMapping>)
    ensures ParseAll(Normal(ms)).Okay? && multiset(ParseAll(Normal(ms)).value) == multiset(ms)
  {
    LineOrder();
    SortSorts(LineLeq, ShowAll(ms));
    forall i | 0 <= i < |Normal(ms)| ensures Normal(ms)[i] in ShowAll(ms) {
      assert Normal(ms)[i] in multiset(Normal(ms));
    }
    ParseTexts(ms, Normal(ms));
    ShowAllKeepsElements(ParseAll(Normal(ms)).value, ms);
  }

  /** The text of a mapping: namespace id, host id and size. */
  function Text(m: IDMapping): Line {
    Line(Print(m.namespaceID) + ":" + Print(m.hostID) + ":" + Print(m.size))
  }

  lemma ShownText(m: IDMapping)
    ensures Line(Show(m)) == Text(m)
  {
  }

  /** The stored form lists the texts of the mappings in ascending order. */
  lemma NormalLists(ms: seq<IDMapping>)
    ensures Sorted(LineLeq, Normal(ms)) && |Normal(ms)| == |ms|
    ensures forall m :: m in ms ==> Text(m) in Normal(ms)
  {
    LineOrder();
    SortSorts(LineLeq, ShowAll(ms));
    SameLength(Normal(ms), ShowAll(ms));
    ShowAllLength(ms);
    forall m | m in ms ensures Text(m) in Normal(ms) {
      ShowAllMember(ms, m);
      ShownText(m);
      assert Text(m) in multiset(Normal(ms));
    }
  }

  lemma SameLength<T>(a: seq<T>, b: seq<T>)
    requires multiset(a) == multiset(b)
    ensures |a| == |b|
  {
    assert |multiset(a)| == |a| && |multiset(b)| == |b|;
  }

  lemma {:induction false} ShowAllLength(ms: seq<IDMapping>)
    ensures |ShowAll(ms)| == |ms|
  {
    if ms != [] { ShowAllLength(ms[..|ms| - 1]); }
  }

  lemma PrintedNumbers()
    ensures Print(0) == "0" && Print(1) == "1" && Print(20) == "20" && Print(300) == "300" && Print(-4) == "-4"
  {
    assert PrintNat(2) == "2" && PrintNat(3) == "3" && PrintNat(4) == "4";
    assert PrintNat(30) == "30";
  }

  lemma ShownPair(a: IDMapping, b: IDMapping)
    ensures ShowAll([a, b]) == [Line(Show(a)), Line(Show(b))]
  {
    assert [a, b][..1] == [a] && [a][..0] == [];
    assert ShowAll([a]) == [Line(Show(a))];
  }

  lemma SortedPair(a: Line, b: Line)
    requires LineLeq(b, a)
    ensures Sort(LineLeq, [a, b]) == [b, a]
  {
    assert [a, b][..1] == [a] && [a][..0] == [];
    assert Sort(LineLeq, [a]) == [a];
  }

  /** A stored list: the range from namespace id 20 comes before the single mapping of namespace id 3. */
  lemma StoredExample()
    ensures Normal([IDMapping(0, 3, 1), IDMapping(300, 20, 20)]) == [Line("20:300:20"), Line("3:0:1")]
  {
    var a, b := Line("3:0:1"), Line("20:300:20");
    PrintedNumbers();
    assert PrintNat(3) == "3";
    assert Show(IDMapping(0, 3, 1)) == a.text && Show(IDMapping(300, 20, 20)) == b.text;
    ShownPair(IDMapping(0, 3, 1), IDMapping(300, 20, 20));
    assert SmallerAt(b.text, a.text, 0) by { assert '2' < '3'; }
    SmallerLeq(b.text, a.text, 0);
    SortedPair(a, b);
  }

  // ------------------------------------------------------------------ the store

  class StoreNamespacer {
    var file: Option<File>                    // the namespace file, if it exists

    constructor ()
      ensures file == None
    {
      file := None;
    }

    /** The first call stores the mappings; a later one succeeds exactly when its lists have the same mappings
        as the stored ones, and changes nothing. */
    method ApplyMappings(uids: seq<IDMapping>, gids: seq<IDMapping>) returns (ok: bool)
      modifies this
      ensures old(file).None? ==> ok && file == Some(File(Normal(uids), Normal(gids)))
      ensures old(file).Some? ==> file == old(file) && (ok <==> file.value == File(Normal(uids), Normal(gids)))
    {
      var u := NormalizeMappings(uids);
      var g := NormalizeMappings(gids);
      if file.None? {
        file := Some(File(u, g));
        return true;
      }
      ok := file.value.uids == u && file.value.gids == g;
    }

    method Read() returns (r: Result<IDMappings>)
      ensures r == if file.None? then Error else ParseFile(file.value)
    {
      if file.None? { return Error; }
      var uids := ParseIDMappings(file.value.uids);
      if uids.Error? { return Error; }
      var gids := ParseIDMappings(file.value.gids);
      if gids.Error? { return Error; }
      r := Okay(IDMappings(uids.value, gids.value));
    }

    static method NormalizeMappings(ms: seq<IDMapping>) returns (ss: seq<Line>)
      ensures ss == Normal(ms)
    {
      ss := [];
      for i := 0 to |ms|
        invariant ss == ShowAll(ms[..i])
      {
        assert ms[..i + 1][..i] == ms[..i];
        ss := ss + [Line(Show(ms[i]))];
      }
      assert ms[..|ms|] == ms;
      ss := Sort(LineLeq, ss);
    }

    static method ParseIDMappings(args: seq<Line>) returns (r: Result<seq<IDMapping>>)
      ensures r == ParseAll(args)
    {
      var ms := [];
      for i := 0 to |args|
        invariant ParseAll(args[..i]) == Okay(ms)
      {
        assert args[..i + 1][..i] == args[..i];
        var m := Parse(args[i].text);
        if m.Error? {
          ParseErrorStays(args, i + 1);
          return Error;
        }
        ms := ms + [m.value];
      }
      assert args[..|args|] == args;
      r := Okay(ms);
    }
  }

  lemma {:induction false} ParseErrorStays(ss: seq<Line>, i: nat)
    requires i <= |ss| && ParseAll(ss[..i]).Error?
    ensures ParseAll(ss).Error?
    decreases |ss| - i
  {
    if i == |ss| {
      assert ss[..i] == ss;
    } else {
      assert ss[..i + 1][..i] == ss[..i];
      ParseErrorStays(ss, i + 1);
    }
  }

  /** After a first ApplyMappings, Read gives both lists back up to order, and a second ApplyMappings succeeds
      exactly with permutations of both. */
  method ApplyReadApply(uids: seq<IDMapping>, gids: seq<IDMapping>, uids': seq<IDMapping>, gids': seq<IDMapping>)
      returns (read: Result<IDMappings>, again: bool)
    ensures read.Okay? && multiset(read.value.uids) == multiset(uids) && multiset(read.value.gids) == multiset(gids)
    ensures again <==> multiset(uids') == multiset(uids) && multiset(gids') == multiset(gids)
  {
    var store := new StoreNamespacer();
    var first := store.ApplyMappings(uids, gids);
    NormalRoundTrip(uids);
    NormalRoundTrip(gids);
    read := store.Read();
    NormalIff(uids, uids');
    NormalIff(gids, gids');
    again := store.ApplyMappings(uids', gids');
  }
}
