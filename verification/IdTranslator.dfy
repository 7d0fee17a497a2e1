/** Translating a file owner's id in process, and the user namespace that is set up from the same mappings. */
module IdTranslator {
  import opened Wrappers
  import opened Namespacer

  function TranslateRoot(ms: seq<IDMapping>): int {
    if ms == [] then 0
    else if ms[0].size == 1 then ms[0].hostID
    else TranslateRoot(ms[1..])
  }

  function TranslateRanged(id: int, ms: seq<IDMapping>): int {
    if ms == [] then id
    else if ms[0].size != 1 && ms[0].namespaceID <= id < ms[0].namespaceID + ms[0].size then ms[0].hostID + id - 1
    else TranslateRanged(id, ms[1..])
  }

  function Translate(id: int, ms: seq<IDMapping>): int {
    if id == 0 then TranslateRoot(ms) else TranslateRanged(id, ms)
  }

  predicate Covers(m: IDMapping, id: int) {
    m.namespaceID <= id < m.namespaceID + m.size
  }

  /** A user namespace maps an id through the mapping that covers it, if there is one. */
  function Kernel(id: int, ms: seq<IDMapping>): Option<int> {
    if ms == [] then None
    else if Covers(ms[0], id) then Some(ms[0].hostID + id - ms[0].namespaceID)
    else Kernel(id, ms[1..])
  }

  /** What the kernel demands of the mappings: sizes are positive and no namespace id is covered twice. */
  ghost predicate Acceptable(ms: seq<IDMapping>) {
    && (forall i :: 0 <= i < |ms| ==> ms[i].size > 0 && ms[i].namespaceID >= 0)
    && (forall i, j, id :: 0 <= i < j < |ms| && Covers(ms[i], id) ==> !Covers(ms[j], id))
  }

  /** No host id is mapped to twice. */
  ghost predicate HostsDisjoint(ms: seq<IDMapping>) {
    forall i, j :: 0 <= i < j < |ms| ==>
      ms[i].hostID + ms[i].size <= ms[j].hostID || ms[j].hostID + ms[j].size <= ms[i].hostID
  }

  /** The mapping that covers an id decides what the kernel does. */
  lemma {:induction false} KernelAt(id: int, ms: seq<IDMapping>, i: nat)
    requires Acceptable(ms) && i < |ms| && Covers(ms[i], id)
    ensures Kernel(id, ms) == Some(ms[i].hostID + id - ms[i].namespaceID)
  {
    if i > 0 {
      AcceptableRest(ms);
      assert !Covers(ms[0], id);
      KernelAt(id, ms[1..], i - 1);
    }
  }

  lemma AcceptableRest(ms: seq<IDMapping>)
    requires Acceptable(ms) && ms != []
    ensures Acceptable(ms[1..])
  {
    forall i, j, id | 0 <= i < j < |ms[1..]| && Covers(ms[1..][i], id) ensures !Covers(ms[1..][j], id) {
      assert Covers(ms[i + 1], id) && !Covers(ms[j + 1], id);
    }
  }

  lemma {:induction false} RangedAt(id: int, ms: seq<IDMapping>, i: nat)
    requires Acceptable(ms) && i < |ms| && Covers(ms[i], id)
    ensures TranslateRanged(id, ms) == if ms[i].size == 1 then id else ms[i].hostID + id - 1
    decreases |ms|
  {
    if i > 0 {
      AcceptableRest(ms);
      assert !Covers(ms[0], id);
      RangedAt(id, ms[1..], i - 1);
    } else if ms[0].size == 1 {
      NotRanged(id, ms[1..]) by {
        forall j | 0 <= j < |ms[1..]| ensures !Covers(ms[1..][j], id) { assert !Covers(ms[j + 1], id); }
      }
    }
  }

  lemma {:induction false} NotRanged(id: int, ms: seq<IDMapping>)
    requires forall j :: 0 <= j < |ms| ==> !Covers(ms[j], id)
    ensures TranslateRanged(id, ms) == id
  {
    if ms != [] {
      assert !Covers(ms[0], id);
      NotRanged(id, ms[1..]);
    }
  }

  /** The index of the first mapping of size 1, or |ms| if there is none. */
  function FirstSingle(ms: seq<IDMapping>): (r: nat)
    ensures r <= |ms| && (r < |ms| ==> ms[r].size == 1) && forall j :: 0 <= j < r ==> ms[j].size != 1
  {
    if ms == [] || ms[0].size == 1 then 0 else 1 + FirstSingle(ms[1..])
  }

  /** Id 0 goes to the host id of the first mapping of size 1, or to host id 0. */
  lemma {:induction false} RootAt(ms: seq<IDMapping>)
    ensures TranslateRoot(ms) == if FirstSingle(ms) < |ms| then ms[FirstSingle(ms)].hostID else 0
  {
    if ms != [] && ms[0].size != 1 { RootAt(ms[1..]); }
  }

  /** The in-process translation means the same as the covering mapping. */
  predicate Means(id: int, ms: seq<IDMapping>, m: IDMapping) {
    if id == 0 then
      m.hostID - m.namespaceID == if FirstSingle(ms) < |ms| then ms[FirstSingle(ms)].hostID else 0
    else if m.size == 1 then m.hostID == id
    else m.namespaceID == 1
  }

  /** The two agree on a mapped id exactly when: for an id other than 0, the covering mapping is a range that
      starts at namespace id 1, or a single id that is mapped to itself; for id 0, the covering mapping sends it
      to the host id of the first mapping of size 1, or to host id 0 if there is none. */
  lemma AgreeIff(id: int, ms: seq<IDMapping>, i: nat)
    requires Acceptable(ms) && i < |ms| && Covers(ms[i], id)
    ensures Kernel(id, ms) == Some(Translate(id, ms)) <==> Means(id, ms, ms[i])
  {
    KernelAt(id, ms, i);
    if id == 0 { RootAt(ms); } else { RangedAt(id, ms, i); }
  }

  /** The shape of mappings that the code is written for: the only mapping of size 1 is for namespace id 0, and
      every range starts at namespace id 1. */
  ghost predicate Usual(ms: seq<IDMapping>) {
    forall i :: 0 <= i < |ms| ==> ms[i].namespaceID == if ms[i].size == 1 then 0 else 1
  }

  predicate Mapped(id: int, ms: seq<IDMapping>) {
    exists i :: 0 <= i < |ms| && Covers(ms[i], id)
  }

  /** With mappings of the usual shape the in-process translation is the namespace's, for every mapped id. */
  lemma UsualAgrees(id: int, ms: seq<IDMapping>)
    requires Acceptable(ms) && Usual(ms) && Mapped(id, ms)
    ensures Kernel(id, ms) == Some(Translate(id, ms))
  {
    var i :| 0 <= i < |ms| && Covers(ms[i], id);
    AgreeIff(id, ms, i);
    if id == 0 {
      assert ms[i].size == 1;
      forall j | 0 <= j < i ensures ms[j].size != 1 {
        assert !Covers(ms[j], 0);
      }
      assert FirstSingle(ms) == i;
    }
  }

  /** And then no two mapped ids become the same host id, if the host ranges do not overlap. */
  lemma UsualInjective(a: int, b: int, ms: seq<IDMapping>)
    requires Acceptable(ms) && Usual(ms) && HostsDisjoint(ms) && Mapped(a, ms) && Mapped(b, ms)
    requires Translate(a, ms) == Translate(b, ms)
    ensures a == b
  {
    UsualAgrees(a, ms);
    UsualAgrees(b, ms);
    var i :| 0 <= i < |ms| && Covers(ms[i], a);
    var j :| 0 <= j < |ms| && Covers(ms[j], b);
    KernelAt(a, ms, i);
    KernelAt(b, ms, j);
  }

  /** Without a mapping of size 1, id 0 of a range that starts at namespace id 0 becomes the host's id 0. */
  lemma RootUnmapped()
    ensures var ms := [IDMapping(100000, 0, 65536)];
            Acceptable(ms) && Kernel(0, ms) == Some(100000) && Translate(0, ms) == 0
  {
    var ms := [IDMapping(100000, 0, 65536)];
    assert Covers(ms[0], 0);
    KernelAt(0, ms, 0);
    RootAt(ms);
  }

  /** A range that starts elsewhere is translated to the wrong host ids. */
  lemma OffsetWrong()
    ensures var ms := [IDMapping(100000, 5, 10)];
            Kernel(7, ms) == Some(100002) && Translate(7, ms) == 100006
  {
    var ms := [IDMapping(100000, 5, 10)];
    assert Covers(ms[0], 7);
  }
}
