/** File names under the store directory, and the string operations the code derives them with. */
module Names {

  predicate HasPrefix(s: string, prefix: string) {
    |prefix| <= |s| && s[..|prefix|] == prefix
  }

  predicate OccursAt(s: string, sub: string, i: nat) {
    i + |sub| <= |s| && s[i..i + |sub|] == sub
  }

  /** The first position at or after i where `sub` occurs in s, or |s| + 1. */
  function IndexFrom(s: string, sub: string, i: nat): (k: nat)
    requires i <= |s| + 1
    ensures i <= k <= |s| + 1
    ensures k <= |s| ==> OccursAt(s, sub, k)
    ensures forall j :: i <= j < k ==> !OccursAt(s, sub, j)
    decreases |s| + 1 - i
  {
    if i == |s| + 1 then i
    else if OccursAt(s, sub, i) then i
    else IndexFrom(s, sub, i + 1)
  }

  /** strings.Replace(s, from, to, 1): only the first occurrence is replaced. */
  function ReplaceFirst(s: string, from: string, to: string): string {
    var k := IndexFrom(s, from, 0);
    if k <= |s| then s[..k] + to + s[k + |from|..] else s
  }

  function GcName(id: string): string {
    "gc." + id
  }

  function VolumesDir(storePath: string): string {
    storePath + "/volumes/"
  }

  function VolumePath(storePath: string, id: string): string {
    VolumesDir(storePath) + id
  }

  lemma GcNameInjective(a: string, b: string)
    requires GcName(a) == GcName(b)
    ensures a == b
  {
    assert a == GcName(a)[3..] && b == GcName(b)[3..];
  }

  lemma GcNamePrefixed(id: string)
    ensures HasPrefix(GcName(id), "gc.")
  {
  }

  /** The path that marking renames a volume to, computed by replacing the first occurrence of the id in the
      volume's path, is the path of its gc name exactly when the id does not occur earlier in the path. */
  lemma MarkTarget(storePath: string, id: string)
    ensures ReplaceFirst(VolumePath(storePath, id), id, GcName(id)) == VolumePath(storePath, GcName(id))
            <==> forall j :: 0 <= j < |VolumesDir(storePath)| ==> !OccursAt(VolumePath(storePath, id), id, j)
  {
    var dir, path := VolumesDir(storePath), VolumePath(storePath, id);
    assert path[|dir|..] == id;
    assert OccursAt(path, id, |dir|);
    var k := IndexFrom(path, id, 0);
    if k < |dir| {
      var got := ReplaceFirst(path, id, GcName(id));
      assert OccursAt(path, id, k);
      assert got == path[..k] + GcName(id) + path[k + |id|..];
      assert path[k..] == id + path[k + |id|..];
      assert got == path[..k] + "gc." + path[k..];
      assert got[|dir| + 2] == path[|dir| - 1] == '/';
      assert VolumePath(storePath, GcName(id))[|dir| + 2] == '.';
    } else {
      assert k == |dir|;
      assert path[|dir| + |id|..] == "";
    }
  }

  /** A store whose own path contains the id sends the marked volume elsewhere. */
  lemma MarkTargetMissed()
    ensures ReplaceFirst(VolumePath("/s/ab", "ab"), "ab", GcName("ab")) != VolumePath("/s/ab", GcName("ab"))
  {
    var path := VolumePath("/s/ab", "ab");
    assert path[3..5] == "ab";
    assert OccursAt(path, "ab", 3);
    MarkTarget("/s/ab", "ab");
  }

  /** RemoveWhiteout finds the path to hide by removing the first ".wh." from the whiteout's path. That is the
      marker in the last component exactly when no ".wh." occurs before it. */
  lemma WhiteoutTarget(dir: string, base: string)
    ensures ReplaceFirst(dir + "/.wh." + base, ".wh.", "") == dir + "/" + base
            <==> forall j :: 0 <= j <= |dir| ==> !OccursAt(dir + "/.wh." + base, ".wh.", j)
  {
    var path := dir + "/.wh." + base;
    var at := |dir| + 1;
    assert path[at..at + 4] == ".wh.";
    assert OccursAt(path, ".wh.", at);
    assert path[..at] == dir + "/" && path[at + 4..] == base;
    var k := IndexFrom(path, ".wh.", 0);
    if k < at {
      var got := ReplaceFirst(path, ".wh.", "");
      assert OccursAt(path, ".wh.", k);
      assert path[k..k + 4] == ".wh." && path[k + 3] == '.';
      assert got == path[..k] + path[k + 4..];
      assert got[|dir|] == path[|dir| + 4] == '.';
      assert (dir + "/" + base)[|dir|] == '/';
    } else {
      assert k == at;
      assert path[..at] + "" + path[at + 4..] == dir + "/" + base;
    }
  }

  // ------------------------------------------------------------------ dependency files

  /** strings.Replace(id, "/", "__", -1). */
  function Escape(id: string): string {
    if id == "" then ""
    else (if id[0] == '/' then "__" else [id[0]]) + Escape(id[1..])
  }

  function DependencyFile(id: string): string {
    Escape(id) + ".json"
  }

  function ImageRef(id: string): string {
    "image:" + id
  }

  lemma {:induction false} EscapePlain(id: string)
    requires '/' !in id
    ensures Escape(id) == id
  {
    if id != "" {
      assert '/' !in id[1..];
      EscapePlain(id[1..]);
    }
  }

  /** Image ids without a slash, the only ones a create accepts, have dependency files of their own. */
  lemma DependencyFilesDistinct(a: string, b: string)
    requires '/' !in a && '/' !in b
    ensures DependencyFile(ImageRef(a)) == DependencyFile(ImageRef(b)) <==> a == b
  {
    EscapePlain(ImageRef(a));
    EscapePlain(ImageRef(b));
    var fa, fb := DependencyFile(ImageRef(a)), DependencyFile(ImageRef(b));
    assert fa[6..|fa| - 5] == a && fb[6..|fb| - 5] == b;
  }

  lemma {:induction false} EscapeConcat(a: string, b: string)
    ensures Escape(a + b) == Escape(a) + Escape(b)
  {
    if a == "" {
      assert a + b == b;
    } else {
      assert (a + b)[1..] == a[1..] + b;
      EscapeConcat(a[1..], b);
    }
  }

  /** With slashes allowed the escaping is not injective: a slash and two underscores look the same. */
  lemma DependencyFilesClash(a: string, b: string)
    ensures DependencyFile(ImageRef(a + "/" + b)) == DependencyFile(ImageRef(a + "__" + b))
  {
    var p := "image:" + a;
    assert ImageRef(a + "/" + b) == p + ("/" + b) && ImageRef(a + "__" + b) == p + ("__" + b);
    EscapeConcat(p, "/" + b);
    EscapeConcat(p, "__" + b);
    EscapeConcat("__", b);
    EscapeConcat("/", b);
    EscapePlain("__");
  }
}
