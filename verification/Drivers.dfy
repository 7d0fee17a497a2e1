/** The overlay driver's volume operations, one file-system call after another. */
module Drivers {
  import opened Wrappers
  import opened Disk
  import opened Volumes
  import opened Names
  import opened Listings

  /** The volumes exist, with metadata and link files. */
  ghost predicate AllThere(d: Disk<string>, ids: seq<string>) {
    forall id :: id in ids ==> id in d.vols && id in d.metas && id in d.links
  }

  /** The short ids of the volumes, topmost first. */
  ghost predicate LowersOf(links: map<string, ShortId>, ids: seq<string>, lowers: seq<ShortId>) {
    && |lowers| == |ids|
    && forall k :: 0 <= k < |ids| ==> ids[k] in links && lowers[|ids| - 1 - k] == links[ids[k]]
  }

  class Driver {
    var vols: set<string>
    var links: map<string, ShortId>
    var syms: map<ShortId, string>
    var metas: map<string, int>

    function Snapshot(): Disk<string>
      reads this
    {
      Disk(vols, links, syms, metas)
    }

    constructor ()
      ensures Snapshot() == Disk({}, map[], map[], map[])
    {
      vols, links, syms, metas := {}, map[], map[], map[];
    }

    method VolumeExists(id: string) returns (ok: bool)
      ensures ok <==> id in vols
    {
      ok := id in vols;
    }

    /** `gen` is the short id generated for the volume. */
    method CreateVolume(id: string, gen: ShortId) returns (ok: bool)
      modifies this
      ensures (Snapshot(), ok) == Complete(old(Snapshot()), CvMkdir(id), gen)
    {
      CreateCases(Snapshot(), id, gen);
      if id in vols { return false; }
      vols := vols + {id};
      if gen in syms { return false; }
      syms := syms[gen := id];
      links := links[id := gen];
      ok := true;
    }

    method RemoveVolumeLink(id: string)
      modifies this`syms, this`links
      ensures links == old(links) - {id}
      ensures syms == if id in old(links) then old(syms) - {old(links)[id]} else old(syms)
    {
      if id !in links {
        assert links == links - {id};
        return;
      }
      var short := links[id];
      syms := syms - {short};
      links := links - {id};
    }

    method DestroyVolume(id: string)
      modifies this
      ensures (Snapshot(), true) == Complete(old(Snapshot()), DvRead(id), "")
    {
      ghost var d := Snapshot();
      RemoveVolumeLink(id);
      metas := metas - {id};
      vols := vols - {id};
      DestroyCases(d, id, "");
    }

    method MoveVolume(from: string, to: string) returns (ok: bool)
      modifies this
      ensures (Snapshot(), ok) == Complete(old(Snapshot()), MvStat(from, to), "")
    {
      ghost var d := Snapshot();
      MoveCases(d, from, to, "");
      if from !in vols { return false; }
      if from !in links { return false; }
      var short := links[from];
      links := (links - {from})[to := short];
      if short !in syms { return false; }
      syms := syms - {short};
      syms := syms[short := to];
      assert syms == d.syms[short := to];
      if to in vols { return true; }
      vols := vols - {from} + {to};
      ok := true;
    }

    method MarkVolumeArtifacts(id: string) returns (ok: bool)
      modifies this
      ensures (Snapshot(), ok) == Mark(old(Snapshot()), id, GcName(id))
    {
      var gcId := GcName(id);
      ok := MoveVolume(id, gcId);
      if !ok { return; }
      if id !in metas { return false; }
      metas := (metas - {id})[gcId := metas[id]];
    }

    method WriteVolumeMeta(id: string, size: int)
      modifies this`metas
      ensures metas == old(metas)[id := size]
    {
      metas := metas[id := size];
    }

    /** The ids of all volumes, in the order of the directory listing. */
    method Volumes() returns (ids: seq<string>)
      ensures Lists(ids, vols)
    {
      ids := List(vols);
    }

    /** The short ids of the base volumes, topmost first, and the sum of their sizes. */
    method GetLowerDirs(ids: seq<string>) returns (r: Result<(seq<ShortId>, int)>)
      ensures r.Okay? <==> AllThere(Snapshot(), ids)
      ensures r.Okay? ==> LowersOf(links, ids, r.value.0) && r.value.1 == Sizes(metas, ids)
      ensures r.Okay? ==> forall k :: 0 <= k < |ids| ==> ids[k] in links && r.value.0[|ids| - 1 - k] == links[ids[k]]
    {
      var paths, total := [], 0;
      var i := |ids| - 1;
      assert ids[..i + 1] == ids;
      while i >= 0
        invariant -1 <= i < |ids|
        invariant |paths| == |ids| - 1 - i
        invariant forall k :: i < k < |ids| ==> ids[k] in vols && ids[k] in metas && ids[k] in links
        invariant forall k :: i < k < |ids| ==> paths[|ids| - 1 - k] == links[ids[k]]
        invariant total + Sizes(metas, ids[..i + 1]) == Sizes(metas, ids)
      {
        if ids[i] !in vols { return Error; }
        if ids[i] !in metas { return Error; }
        total := total + metas[ids[i]];
        if ids[i] !in links { return Error; }
        assert ids[..i + 1][..i] == ids[..i];
        paths := paths + [links[ids[i]]];
        i := i - 1;
      }
      r := Okay((paths, total));
    }
  }
}
