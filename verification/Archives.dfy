/** What the names of archive members mean: a layer as the archive it comes in, and an image as a list of archives. The
    reference here reads the names itself. */
module Archives {
  import opened Wrappers
  import opened Trees
  import opened Names
  import opened Overlay
  import opened Unpacking
  import opened Changesets
  import opened Layers
  import opened Stacking

  // ------------------------------------------------------------------ one member

  /** The member is the opaque whiteout of directory d. */
  predicate MarksOpaque(h: Header, d: Path) {
    h.name == d + [".wh..wh..opq"]
  }

  /** The member is the whiteout of path p. */
  predicate MarksRemoved(h: Header, p: Path) {
    p != [] && p[|p| - 1] != ".wh..opq" && h.name == p[..|p| - 1] + [".wh." + p[|p| - 1]]
  }

  /** The member is a whiteout of either kind. */
  predicate Marker(h: Header) {
    h.name != [] && HasPrefix(h.name[|h.name| - 1], ".wh.")
  }

  lemma MarkedOpaque(h: Header, d: Path)
    ensures MarksOpaque(h, d) <==> EntryOf(h) == Opaque(d)
    ensures MarksOpaque(h, d) ==> Marker(h)
  {
    if MarksOpaque(h, d) {
      assert h.name[|h.name| - 1] == ".wh..wh..opq";
      assert ".wh..wh..opq"[..4] == ".wh.";
      assert h.name[..|h.name| - 1] == d;
    }
    if h.name != [] { assert h.name == h.name[..|h.name| - 1] + [h.name[|h.name| - 1]]; }
  }

  lemma MarkedRemoved(h: Header, p: Path)
    ensures MarksRemoved(h, p) <==> EntryOf(h) == Remove(p)
    ensures MarksRemoved(h, p) ==> Marker(h)
  {
    if MarksRemoved(h, p) {
      var b := p[|p| - 1];
      var last := ".wh." + b;
      assert h.name[|h.name| - 1] == last && h.name[..|h.name| - 1] == p[..|p| - 1];
      assert last[..4] == ".wh." && last[4..] == b;
      assert ".wh..wh..opq"[4..] == ".wh..opq";
      assert p == p[..|p| - 1] + [b];
    }
    if h.name != [] {
      var last := h.name[|h.name| - 1];
      assert h.name == h.name[..|h.name| - 1] + [last];
      if HasPrefix(last, ".wh.") { assert last == ".wh." + last[4..]; }
    }
  }

  lemma MarkerIff(h: Header)
    ensures Marker(h) <==> EntryOf(h).Opaque? || EntryOf(h).Remove?
  {
    if h.name != [] && h.name[|h.name| - 1] == OPAQUE_MARK { assert ".wh..wh..opq"[..4] == ".wh."; }
  }

  /** Unpacking the whiteout of d/b puts a whiteout device at d/b, removes what was there and inside, and changes
      nothing else; it needs the directory d. */
  lemma WhiteoutMember(t: Tree, d: Path, b: Name, body: Body)
    requires b != ".wh..opq"
    ensures var r := PlaceAll(t, Entries([Header(d + [".wh." + b], body)]));
            && (r.Okay? <==> IsDir(t, d))
            && (r.Okay? ==>
                  && d + [b] in r.value && r.value[d + [b]] == Whiteout
                  && (forall q :: q in r.value ==> !Inside(q, d + [b]))
                  && (forall q :: !Within(q, d + [b]) ==> Get(r.value, q) == Get(t, q)))
  {
    var h, p := Header(d + [".wh." + b], body), d + [b];
    assert p[|p| - 1] == b && p[..|p| - 1] == d;
    MarkedRemoved(h, p);
    PlaceOne(t, h);
    assert Parent(p) == d;
  }

  /** Unpacking the opaque whiteout of d changes nothing yet, and leaves d to be made opaque. */
  lemma OpaqueMember(t: Tree, d: Path, body: Body)
    ensures var es := Entries([Header(d + [".wh..wh..opq"], body)]);
            PlaceAll(t, es) == Okay(t) && OpaqueDirs(es) == [d]
  {
    var h := Header(d + [".wh..wh..opq"], body);
    MarkedOpaque(h, d);
    PlaceOne(t, h);
  }

  /** Any other member adds what it has at its own name. */
  lemma OtherMember(h: Header)
    requires !Marker(h)
    ensures EntryOf(h) == match h.body
                          case Directory => AddDir(h.name)
                          case Regular(data) => AddFile(h.name, data)
                          case Link(target) => AddSymlink(h.name, target)
                          case Device => AddDevice(h.name)
  {
    MarkerIff(h);
  }

  lemma PlaceOne(t: Tree, h: Header)
    ensures Entries([h]) == [EntryOf(h)] && PlaceAll(t, Entries([h])) == Place(t, EntryOf(h))
    ensures OpaqueDirs(Entries([h])) == if EntryOf(h).Opaque? then [EntryOf(h).path] else []
    ensures TotalSize(Entries([h])) == Size(EntryOf(h))
  {
    var es := [EntryOf(h)];
    assert Entries([h]) == es;
    assert es[..0] == [];
    assert PlaceAll(t, es[..0]) == Okay(t);
  }

  // ------------------------------------------------------------------ bytes

  /** The bytes that a member writes: those of a regular file. */
  function Bytes(h: Header): nat {
    if !Marker(h) && h.body.Regular? then |h.body.data| else 0
  }

  lemma OneSize(h: Header)
    ensures TotalSize(Entries([h])) == Bytes(h)
  {
    PlaceOne(TREE_OF_NOTHING, h);
    MarkerIff(h);
    if !Marker(h) { OtherMember(h); }
  }

  const TREE_OF_NOTHING: Tree := map[]

  lemma EntriesConcat(a: seq<Header>, b: seq<Header>)
    ensures Entries(a + b) == Entries(a) + Entries(b)
  {
  }

  lemma {:induction false} TotalSizeConcat(a: seq<Entry>, b: seq<Entry>)
    ensures TotalSize(a + b) == TotalSize(a) + TotalSize(b)
  {
    if b == [] {
      assert a + b == a;
    } else {
      assert (a + b)[..|a + b| - 1] == a + b[..|b| - 1];
      TotalSizeConcat(a, b[..|b| - 1]);
    }
  }

  /** The number of bytes reported for an archive is the sum over its members. */
  lemma {:induction false} ArchiveSize(hs: seq<Header>, h: Header)
    ensures TotalSize(Entries(hs + [h])) == TotalSize(Entries(hs)) + Bytes(h) && TotalSize(Entries([])) == 0
  {
    EntriesConcat(hs, [h]);
    TotalSizeConcat(Entries(hs), Entries([h]));
    OneSize(h);
  }

  // ------------------------------------------------------------------ the reference

  /** A whiteout of the archive hides q, if a lower layer has it. */
  ghost predicate HiddenBy(h: Header, q: Path) {
    exists p :: (MarksRemoved(h, p) && Within(q, p)) || (MarksOpaque(h, p) && Inside(q, p))
  }

  ghost predicate HiddenByAny(hs: seq<Header>, q: Path) {
    exists i :: 0 <= i < |hs| && HiddenBy(hs[i], q)
  }

  /** What is left of the lower layers. */
  ghost function Shown(m: Tree, hs: seq<Header>): Tree {
    map q | q in m && !HiddenByAny(hs, q) :: m[q]
  }

  /** A member that is no whiteout adds a directory, a file or a symlink at its name, and the directories above it. */
  function AddMember(m: Tree, h: Header): Tree {
    if Marker(h) then m
    else
      match h.body
      case Directory => MakeDirs(m, h.name)
      case Regular(data) => Put(m, h.name, File(data))
      case Link(target) => Put(m, h.name, Symlink(target))
      case Device => MakeDirs(m, Parent(h.name))
  }

  function AddMembers(m: Tree, hs: seq<Header>): Tree {
    if hs == [] then m else AddMember(AddMembers(m, hs[..|hs| - 1]), hs[|hs| - 1])
  }

  ghost function ApplyArchive(m: Tree, hs: seq<Header>): Tree {
    AddMembers(Shown(m, hs), hs)
  }

  /** The tree that a list of archives stands for, lowest layer first. */
  ghost function ImageOf(archives: seq<Archive>): Tree {
    if archives == [] then EMPTY_ROOT
    else ApplyArchive(ImageOf(archives[..|archives| - 1]), archives[|archives| - 1].members)
  }

  /** The archive of a layer. */
  datatype Archive = Archive(members: seq<Header>)

  // ------------------------------------------------------------------ archives are layers

  lemma HiddenByEntry(h: Header, q: Path)
    ensures HiddenBy(h, q) <==> WhitesOut(EntryOf(h), q) || (EntryOf(h).Opaque? && Inside(q, EntryOf(h).path))
  {
    var e := EntryOf(h);
    if p :| (MarksRemoved(h, p) && Within(q, p)) || (MarksOpaque(h, p) && Inside(q, p)) {
      MarkedRemoved(h, p);
      MarkedOpaque(h, p);
    }
    if e.Remove? { MarkedRemoved(h, e.path); }
    if e.Opaque? { MarkedOpaque(h, e.path); }
  }

  lemma HiddenAlike(hs: seq<Header>, q: Path)
    ensures HiddenByAny(hs, q) <==> Hidden(Entries(hs), q)
  {
    var es := Entries(hs);
    forall i | 0 <= i < |hs|
      ensures HiddenBy(hs[i], q) <==> WhitesOut(es[i], q) || (es[i].Opaque? && Inside(q, es[i].path))
    {
      HiddenByEntry(hs[i], q);
    }
  }

  lemma {:induction false} AddedAlike(m: Tree, hs: seq<Header>)
    ensures AddMembers(m, hs) == AddAll(m, Entries(hs))
  {
    if hs != [] {
      var h := hs[|hs| - 1];
      assert Entries(hs)[..|hs| - 1] == Entries(hs[..|hs| - 1]);
      AddedAlike(m, hs[..|hs| - 1]);
      MarkerIff(h);
      if !Marker(h) { OtherMember(h); }
    }
  }

  /** Reading the names member by member gives the layer that the archive stands for. */
  lemma ArchiveIsLayer(m: Tree, hs: seq<Header>)
    ensures ApplyArchive(m, hs) == ApplyLayer(m, Entries(hs))
  {
    forall q ensures HiddenByAny(hs, q) <==> Hidden(Entries(hs), q) { HiddenAlike(hs, q); }
    assert Shown(m, hs) == Hide(m, Entries(hs));
    AddedAlike(Hide(m, Entries(hs)), hs);
  }

  /** Unpacks an archive into a new volume and then sets its opaque attributes. */
  method UnpackArchive(archive: Archive) returns (r: Result<Tree>)
    ensures r == UnpackLayer(Entries(archive.members))
  {
    var volume := new Volume();
    var unpacked := volume.Unpack(archive.members);
    if unpacked.Error? { return Error; }
    var ok := volume.HandleOpaqueWhiteouts(unpacked.value.0);
    r := if ok then Okay(volume.tree) else Error;
  }

  /** The volumes of a list of archives, lowest first. */
  ghost predicate Volumes(archives: seq<Archive>, volumes: seq<Tree>) {
    && |volumes| == |archives|
    && forall i :: 0 <= i < |archives| ==> UnpackLayer(Entries(archives[i].members)) == Okay(volumes[i])
  }

  ghost predicate AllHarmlessArchives(archives: seq<Archive>) {
    forall i :: 0 <= i < |archives| ==> Harmless(Entries(archives[i].members))
  }

  function LayersOf(archives: seq<Archive>): (layers: seq<seq<Entry>>)
    ensures |layers| == |archives|
    ensures forall i :: 0 <= i < |archives| ==> layers[i] == Entries(archives[i].members)
  {
    if archives == [] then []
    else LayersOf(archives[..|archives| - 1]) + [Entries(archives[|archives| - 1].members)]
  }

  lemma {:induction false} ImageOfLayers(archives: seq<Archive>)
    ensures ImageOf(archives) == ImageTree(LayersOf(archives))
  {
    if archives != [] {
      var n := |archives| - 1;
      ImageOfLayers(archives[..n]);
      assert LayersOf(archives)[..n] == LayersOf(archives[..n]);
      ArchiveIsLayer(ImageOf(archives[..n]), archives[n].members);
    }
  }

  /** Stacking preserves the meaning of archives: for any archives that unpack and whose conflicts are all excused,
      looking a path up through their volumes gives the node that reading the archives one after another into a single
      tree puts there, or nothing if it puts none. */
  lemma ArchivesKeepMeaning(archives: seq<Archive>, volumes: seq<Tree>, p: Path)
    requires archives != [] && Volumes(archives, volumes) && AllHarmlessArchives(archives)
    ensures Lookup(TopFirst(volumes), p) == Get(ImageOf(archives), p)
  {
    ImageOfLayers(archives);
    StackingPreservesMeaning(LayersOf(archives), volumes, p);
  }

  // ------------------------------------------------------------------ paths as texts

  /** The path of a member below the volume directory, as the file system is given it. */
  function PathText(root: string, p: Path): string {
    if p == [] then root else PathText(root, p[..|p| - 1]) + "/" + p[|p| - 1]
  }

  /** The source finds the path to hide in the text of the whiteout's path, by removing the first marker. That is the
      path the name stands for exactly when no marker occurs earlier. */
  lemma WhiteoutPath(root: string, d: Path, b: Name)
    ensures ReplaceFirst(PathText(root, d + [".wh." + b]), ".wh.", "") == PathText(root, d + [b])
            <==> forall j :: 0 <= j <= |PathText(root, d)| ==> !OccursAt(PathText(root, d + [".wh." + b]), ".wh.", j)
  {
    assert (d + [".wh." + b])[..|d|] == d && (d + [b])[..|d|] == d;
    var dir := PathText(root, d);
    assert PathText(root, d + [".wh." + b]) == dir + "/" + (".wh." + b) == dir + "/.wh." + b;
    assert PathText(root, d + [b]) == dir + "/" + b;
    WhiteoutTarget(dir, b);
  }
}
