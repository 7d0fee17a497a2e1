/** Chain ids: the volume names of an image's layers, and why they determine the layers below. */
module ChainIds {
  import opened Names
  import opened Decimals
  import opened Protocol

  type Hash = string -> string

  predicate IsHex(s: string) {
    |s| == 64 && forall i :: 0 <= i < |s| ==> '0' <= s[i] <= '9' || 'a' <= s[i] <= 'f'
  }

  /** The hash prints as 64 hexadecimal digits. */
  ghost predicate PrintsHex(h: Hash) {
    forall s :: IsHex(h(s))
  }

  ghost predicate AllHex(c: Chain) {
    forall i :: 0 <= i < |c| ==> IsHex(c[i].hex)
  }

  /** What is hashed: a layer's content, or the text for a chain id. */
  datatype Text = Text(bytes: string)

  predicate NoCollision(h: Hash, s: Text, t: Text) {
    h(s.bytes) == h(t.bytes) ==> s == t
  }

  /** The first colon at or after i, or the end. */
  function Colon(s: string, i: nat): (k: nat)
    requires i <= |s|
    ensures i <= k <= |s| && (k < |s| ==> s[k] == ':') && forall j :: i <= j < k ==> s[j] != ':'
    decreases |s| - i
  {
    if i == |s| || s[i] == ':' then i else Colon(s, i + 1)
  }

  /** strings.Split(digest, ":")[1]. */
  function HexOf(digest: string): string
    requires ':' in digest
  {
    var start := Colon(digest, 0) + 1;
    digest[start..Colon(digest, start)]
  }

  /** A digest is an algorithm, a colon and the hexadecimal hash. */
  lemma HexOfDigest(algorithm: string, hex: string)
    requires ':' !in algorithm && ':' !in hex
    ensures ':' in algorithm + ":" + hex && HexOf(algorithm + ":" + hex) == hex
  {
    var digest := algorithm + ":" + hex;
    assert digest[|algorithm|] == ':';
    assert Colon(digest, 0) == |algorithm|;
    assert forall k :: |algorithm| < k < |digest| ==> digest[k] == hex[k - |algorithm| - 1];
    assert digest[|algorithm| + 1..] == hex;
  }

  function ChainText(parent: string, diffID: string): string {
    parent + " " + diffID
  }

  function ChainID(h: Hash, diffID: string, parent: string): string {
    if parent != "" then h(ChainText(parent, diffID)) else diffID
  }

  /** The chain id of layer i, given the diff ids of an image's layers, lowest first. */
  function IdAt(h: Hash, c: Chain, i: nat): string
    requires i < |c|
  {
    ChainID(h, c[i].hex, if i == 0 then "" else IdAt(h, c, i - 1))
  }

  /** What is hashed for the chain id of layer i. */
  function TextAt(h: Hash, c: Chain, i: nat): Text
    requires 1 <= i < |c|
  {
    Text(ChainText(IdAt(h, c, i - 1), c[i].hex))
  }

  /** No two texts hashed for the chain ids of two images collide. */
  ghost predicate ChainsApart(h: Hash, c: Chain, d: Chain) {
    forall i, j :: 1 <= i < |c| && 1 <= j < |d| ==> NoCollision(h, TextAt(h, c, i), TextAt(h, d, j))
  }

  lemma {:induction false} IdIsHex(h: Hash, c: Chain, i: nat)
    requires PrintsHex(h) && AllHex(c) && i < |c|
    ensures IsHex(IdAt(h, c, i))
  {
    if i > 0 { IdIsHex(h, c, i - 1); }
  }

  lemma ChainTextInjective(p: string, d: string, p': string, d': string)
    requires |p| == |p'| && ChainText(p, d) == ChainText(p', d')
    ensures p == p' && d == d'
  {
    assert p == ChainText(p, d)[..|p|] && d == ChainText(p, d)[|p| + 1..];
    assert p' == ChainText(p', d')[..|p|] && d' == ChainText(p', d')[|p| + 1..];
  }

  lemma IdStep(h: Hash, c: Chain, d: Chain, i: nat, j: nat)
    requires PrintsHex(h) && AllHex(c) && AllHex(d) && 0 < i < |c| && 0 < j < |d|
    requires ChainsApart(h, c, d)
    ensures IdAt(h, c, i) == IdAt(h, d, j) <==> IdAt(h, c, i - 1) == IdAt(h, d, j - 1) && c[i] == d[j]
  {
    var p, q, x, y := IdAt(h, c, i - 1), IdAt(h, d, j - 1), c[i].hex, d[j].hex;
    IdIsHex(h, c, i - 1);
    IdIsHex(h, d, j - 1);
    assert NoCollision(h, TextAt(h, c, i), TextAt(h, d, j));
    if h(ChainText(p, x)) == h(ChainText(q, y)) { ChainTextInjective(p, x, q, y); }
  }

  /** The layers 1 to i of c are the layers of d that lie k higher. */
  predicate SameAbove(c: Chain, d: Chain, i: nat, k: nat)
    requires i < |c| && i + k < |d|
  {
    forall x :: 1 <= x <= i ==> c[x] == d[k + x]
  }

  lemma SameAboveStep(c: Chain, d: Chain, i: nat, k: nat)
    requires 0 < i < |c| && i + k < |d|
    ensures SameAbove(c, d, i, k) <==> SameAbove(c, d, i - 1, k) && c[i] == d[i + k]
  {
  }

  /** Exactly when two images have equal chain ids at positions i and i + k: the layers up to there agree,
      counting downwards, except that the first image's lowest diff id is the second's chain id at k. */
  lemma {:induction false} EqualIdsIff(h: Hash, c: Chain, d: Chain, i: nat, k: nat)
    requires PrintsHex(h) && AllHex(c) && AllHex(d) && i < |c| && i + k < |d| && ChainsApart(h, c, d)
    ensures IdAt(h, c, i) == IdAt(h, d, i + k) <==> c[0].hex == IdAt(h, d, k) && SameAbove(c, d, i, k)
  {
    if i > 0 {
      IdStep(h, c, d, i, i + k);
      SameAboveStep(c, d, i, k);
      EqualIdsIff(h, c, d, i - 1, k);
    }
  }

  /** The diff ids of layers are the hashes of their contents. */
  ghost predicate DiffIdsOf(h: Hash, contents: seq<Text>, c: Chain) {
    |c| == |contents| && forall i :: 0 <= i < |c| ==> c[i] == DiffId(h(contents[i].bytes))
  }

  /** Archives are written in blocks of 512 bytes. */
  ghost predicate Archives(contents: seq<Text>) {
    forall i :: 0 <= i < |contents| ==> |contents[i].bytes| % 512 == 0
  }

  /** No two texts hashed for two images collide, be they layer contents or texts for chain ids. */
  ghost predicate CollisionFree(h: Hash, a: seq<Text>, c: Chain, b: seq<Text>, d: Chain) {
    && ChainsApart(h, c, d)
    && (forall i, j :: 0 <= i < |a| && 0 <= j < |b| ==> NoCollision(h, a[i], b[j]))
    && (forall i, j :: 0 <= i < |a| && 1 <= j < |d| ==> NoCollision(h, a[i], TextAt(h, d, j)))
    && (forall i, j :: 1 <= i < |c| && 0 <= j < |b| ==> NoCollision(h, TextAt(h, c, i), b[j]))
  }

  /** Two positions of two images have the same layers up to there. */
  predicate SameUpTo(a: seq<Text>, b: seq<Text>, i: nat, j: nat)
    requires i < |a| && j < |b|
  {
    i == j && forall x :: 0 <= x <= i ==> a[x] == b[x]
  }

  lemma HexDiffIds(h: Hash, a: seq<Text>, c: Chain)
    requires PrintsHex(h) && DiffIdsOf(h, a, c)
    ensures AllHex(c)
  {
  }

  lemma SameContents(h: Hash, a: seq<Text>, c: Chain, b: seq<Text>, d: Chain, i: nat)
    requires DiffIdsOf(h, a, c) && DiffIdsOf(h, b, d) && i < |a| && i < |b| && CollisionFree(h, a, c, b, d)
    ensures c[0].hex == d[0].hex && SameAbove(c, d, i, 0) <==> SameUpTo(a, b, i, i)
  {
    assert c[0] == DiffId(c[0].hex) && d[0] == DiffId(d[0].hex);
    forall x | 0 <= x <= i ensures c[x] == d[x] <==> a[x] == b[x] {
      assert NoCollision(h, a[x], b[x]);
      assert c[x] == DiffId(h(a[x].bytes)) && d[x] == DiffId(h(b[x].bytes));
    }
  }

  /** The diff id of an archive is not the chain id of a layer above another. */
  lemma LowestIsNoChain(h: Hash, a: seq<Text>, c: Chain, b: seq<Text>, d: Chain, k: nat)
    requires PrintsHex(h) && DiffIdsOf(h, a, c) && DiffIdsOf(h, b, d) && Archives(a)
    requires a != [] && 0 < k < |b| && CollisionFree(h, a, c, b, d)
    ensures c[0].hex != IdAt(h, d, k)
  {
    IdIsHex(h, d, k - 1);
    var text := TextAt(h, d, k);
    assert NoCollision(h, a[0], text);
    assert d[k] == DiffId(h(b[k].bytes));
    assert |text.bytes| == 129;
    assert |a[0].bytes| % 512 == 0;
  }

  lemma IdsOfContents(h: Hash, a: seq<Text>, c: Chain, b: seq<Text>, d: Chain, i: nat, k: nat)
    requires PrintsHex(h) && DiffIdsOf(h, a, c) && DiffIdsOf(h, b, d) && ChainsApart(h, c, d)
    requires i < |c| && i + k < |d|
    ensures IdAt(h, c, i) == IdAt(h, d, i + k) <==> c[0].hex == IdAt(h, d, k) && SameAbove(c, d, i, k)
  {
    HexDiffIds(h, a, c);
    HexDiffIds(h, b, d);
    EqualIdsIff(h, c, d, i, k);
  }

  lemma SameHeight(h: Hash, a: seq<Text>, c: Chain, b: seq<Text>, d: Chain, i: nat)
    requires PrintsHex(h) && DiffIdsOf(h, a, c) && DiffIdsOf(h, b, d)
    requires i < |a| && i < |b| && CollisionFree(h, a, c, b, d)
    ensures IdAt(h, c, i) == IdAt(h, d, i) <==> SameUpTo(a, b, i, i)
  {
    IdsOfContents(h, a, c, b, d, i, 0);
    SameContents(h, a, c, b, d, i);
  }

  lemma DifferentHeights(h: Hash, a: seq<Text>, c: Chain, b: seq<Text>, d: Chain, i: nat, j: nat)
    requires PrintsHex(h) && DiffIdsOf(h, a, c) && DiffIdsOf(h, b, d) && Archives(a)
    requires i < |a| && i < j < |b| && CollisionFree(h, a, c, b, d)
    ensures IdAt(h, c, i) != IdAt(h, d, j)
  {
    IdsOfContents(h, a, c, b, d, i, j - i);
    LowestIsNoChain(h, a, c, b, d, j - i);
  }

  /** For a hash without collisions among the texts in play, two images whose layers are archives have equal
      chain ids at two positions exactly when the positions are equal and so are the layers up to there. In
      particular the chain ids of one image are distinct. */
  lemma IdsDetermineLayers(h: Hash, a: seq<Text>, c: Chain, b: seq<Text>, d: Chain, i: nat, j: nat)
    requires PrintsHex(h) && DiffIdsOf(h, a, c) && DiffIdsOf(h, b, d) && Archives(a) && Archives(b)
    requires i < |a| && j < |b| && CollisionFree(h, a, c, b, d)
    ensures IdAt(h, c, i) == IdAt(h, d, j) <==> SameUpTo(a, b, i, j)
  {
    if i == j {
      SameHeight(h, a, c, b, d, i);
    } else if i < j {
      DifferentHeights(h, a, c, b, d, i, j);
    } else {
      Swap(h, a, c, b, d);
      DifferentHeights(h, b, d, a, c, j, i);
    }
  }

  lemma Swap(h: Hash, a: seq<Text>, c: Chain, b: seq<Text>, d: Chain)
    requires CollisionFree(h, a, c, b, d)
    ensures CollisionFree(h, b, d, a, c)
  {
    assert forall s, t :: NoCollision(h, s, t) ==> NoCollision(h, t, s);
  }

  /** Without the archive format there is a confusion, for any hash: a layer whose content is a chain text gives
      a one-layer image the chain id of another image's layer above the lowest. */
  lemma ConfusedWithoutArchives(h: Hash, d: Chain, j: nat)
    requires PrintsHex(h) && AllHex(d) && 0 < j < |d|
    ensures IdAt(h, [DiffId(h(TextAt(h, d, j).bytes))], 0) == IdAt(h, d, j)
  {
    IdIsHex(h, d, j - 1);
  }

  // ------------------------------------------------------------------ layer infos

  datatype Descriptor = Descriptor(blobID: string, size: int)

  /** A diff id as the image config has it: an algorithm, a colon and a hash. */
  datatype Digest = Digest(text: string)

  datatype LayerInfo = LayerInfo(blobID: string, size: int, chainID: string, diffID: string, parentChainID: string)

  /** The hexadecimal parts of the digests. */
  ghost predicate HexParts(digests: seq<Digest>, c: Chain) {
    && |c| == |digests|
    && forall i :: 0 <= i < |c| ==> ':' in digests[i].text && c[i] == DiffId(HexOf(digests[i].text))
  }

  /** What the source records of layer i: its parent is the layer before it. */
  function InfoAt(h: Hash, layer: Descriptor, c: Chain, i: nat): LayerInfo
    requires i < |c|
  {
    LayerInfo(layer.blobID, layer.size, IdAt(h, c, i), c[i].hex, if i == 0 then "" else IdAt(h, c, i - 1))
  }

  /** A diff id without a colon crashes the source. */
  method SplitDigests(digests: seq<Digest>) returns (c: Chain)
    requires forall i :: 0 <= i < |digests| ==> ':' in digests[i].text
    ensures HexParts(digests, c)
  {
    c := [];
    for i := 0 to |digests|
      invariant HexParts(digests[..i], c)
    {
      c := c + [DiffId(HexOf(digests[i].text))];
    }
    assert digests[..|digests|] == digests;
  }

  /** The layers of a manifest with their chain ids. A config with fewer diff ids than the manifest has layers
      crashes the source. */
  method CreateLayerInfos(h: Hash, layers: seq<Descriptor>, c: Chain) returns (infos: seq<LayerInfo>)
    requires |layers| <= |c|
    ensures |infos| == |layers| && forall i :: 0 <= i < |layers| ==> infos[i] == InfoAt(h, layers[i], c, i)
    ensures infos != [] ==> infos[0].parentChainID == "" && infos[0].chainID == c[0].hex
    ensures forall i :: 0 < i < |layers| ==>
              && infos[i].parentChainID == infos[i - 1].chainID
              && infos[i].chainID == if infos[i - 1].chainID == "" then c[i].hex
                                     else h(infos[i - 1].chainID + " " + c[i].hex)
    ensures forall i :: 0 <= i < |layers| ==>
              infos[i].blobID == layers[i].blobID && infos[i].size == layers[i].size && infos[i].diffID == c[i].hex
  {
    infos := [];
    var parentChainID := "";
    for i := 0 to |layers|
      invariant |infos| == i
      invariant parentChainID == if i == 0 then "" else IdAt(h, c, i - 1)
      invariant forall k :: 0 <= k < i ==> infos[k] == InfoAt(h, layers[k], c, k)
    {
      if i == 0 { parentChainID := ""; }
      var chainID := ChainID(h, c[i].hex, parentChainID);
      infos := infos + [LayerInfo(layers[i].blobID, layers[i].size, chainID, c[i].hex, parentChainID)];
      parentChainID := chainID;
    }
  }

  // ------------------------------------------------------------------ the protocol's volume ids

  function NameOf(h: Hash, c: Chain): string {
    if c == [] then "" else IdAt(h, c, |c| - 1)
  }

  /** The file name of a volume of the protocol. */
  function FileName(h: Hash, v: VolId): string {
    match v
    case Final(c) => NameOf(h, c)
    case Incomplete(c, tag) => NameOf(h, c) + "-incomplete-" + Print(tag)
    case Gc(of) => GcName(FileName(h, of))
  }

  function ChainOf(v: VolId): Chain {
    match v
    case Final(c) => c
    case Incomplete(c, _) => c
    case Gc(of) => ChainOf(of)
  }

  ghost predicate Sensible(h: Hash, v: VolId) {
    ChainOf(v) != [] && IsHex(NameOf(h, ChainOf(v)))
  }

  lemma FileNameStart(h: Hash, v: VolId)
    requires Sensible(h, v) && !v.Gc?
    ensures |FileName(h, v)| >= 64 && FileName(h, v)[..64] == NameOf(h, ChainOf(v))
    ensures |FileName(h, v)| == 64 <==> v.Final?
    ensures !HasPrefix(FileName(h, v), "gc.")
  {
    var name := FileName(h, v);
    assert name[..64] == NameOf(h, ChainOf(v));
    assert name[0] == NameOf(h, ChainOf(v))[0] != 'g';
    assert name[..3][0] == name[0];
  }

  /** Names start with the gc prefix exactly when the volume has been marked. */
  lemma GcPrefixIff(h: Hash, v: VolId)
    requires Sensible(h, v)
    ensures HasPrefix(FileName(h, v), "gc.") <==> v.Gc?
  {
    if v.Gc? { GcNamePrefixed(FileName(h, v.of)); } else { FileNameStart(h, v); }
  }

  /** Two volumes of the protocol have the same file name only if they are the same, provided chain ids tell
      their layers apart. */
  lemma {:induction false} FileNamesDistinct(h: Hash, v: VolId, w: VolId)
    requires Sensible(h, v) && Sensible(h, w)
    requires NameOf(h, ChainOf(v)) == NameOf(h, ChainOf(w)) ==> ChainOf(v) == ChainOf(w)
    requires FileName(h, v) == FileName(h, w)
    ensures v == w
    decreases v
  {
    GcPrefixIff(h, v);
    GcPrefixIff(h, w);
    if v.Gc? {
      GcNameInjective(FileName(h, v.of), FileName(h, w.of));
      FileNamesDistinct(h, v.of, w.of);
    } else {
      FileNameStart(h, v);
      FileNameStart(h, w);
      if v.Incomplete? {
        var start := NameOf(h, v.chain) + "-incomplete-";
        assert FileName(h, v)[|start|..] == Print(v.tag) && FileName(h, w)[|start|..] == Print(w.tag);
        PrintInjective(v.tag, w.tag);
      }
    }
  }
}
