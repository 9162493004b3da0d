/** The exporter's content-addressed pool: first write wins, adoption by rename. */
module BlobPool {
  import opened Common
  import opened Diff
  import opened Sorting
  import opened Workdir

  function BlobPath(d: Digest): Path { BlobFile(Encoded(d)) }

  function DigestOrder(): (Digest, Digest) -> bool { (a: Digest, b: Digest) => LexLess(a, b) }

  class Pool {
    var spills: map<Digest, Path>
    var entries: map<Digest, BlobEntry>
    var shipRefs: map<Digest, int>

    ghost predicate Valid()
      reads this
    {
      && spills.Keys == entries.Keys
      && (forall d :: d in spills ==> spills[d] == BlobPath(d))
    }

    constructor ()
      ensures Valid() && spills == map[] && entries == map[] && shipRefs == map[]
    {
      spills, entries, shipRefs := map[], map[], map[];
    }

    /** Registers d unless it is there already; an existing entry and its file are left alone. */
    method AddEntryIfAbsent(disk: Disk, d: Digest, payload: Bytes, e: BlobEntry)
      requires Valid()
      modifies this, disk
      ensures Valid() && shipRefs == old(shipRefs)
      ensures d in old(spills) ==> entries == old(entries) && disk.files == old(disk.files)
      ensures d !in old(spills) ==> entries == old(entries)[d := e] && disk.files == old(disk.files)[BlobPath(d) := payload]
    {
      if d in spills { return; }
      disk.Write(BlobPath(d), payload);
      spills, entries := spills[d := BlobPath(d)], entries[d := e];
    }

    /** Adopts the file at src as d's payload; a later writer loses and its file is removed. */
    method AddEntryFromPath(disk: Disk, d: Digest, src: Path, e: BlobEntry) returns (ok: bool)
      requires Valid()
      modifies this, disk
      ensures Valid() && shipRefs == old(shipRefs)
      ensures ok <==> d in old(spills) || src in old(disk.files)
      ensures d in old(spills) ==> entries == old(entries) && disk.files == old(disk.files) - {src}
      ensures d !in old(spills) && ok ==>
        entries == old(entries)[d := e] && disk.files == (old(disk.files) - {src})[BlobPath(d) := old(disk.files)[src]]
      ensures !ok ==> entries == old(entries) && disk.files == old(disk.files)
    {
      if d in spills {
        disk.Remove(src);
        return true;
      }
      ok := disk.Rename(src, BlobPath(d));
      if !ok { return; }
      spills, entries := spills[d := BlobPath(d)], entries[d := e];
    }

    method CountShipped(d: Digest)
      requires Valid()
      modifies this`shipRefs
      ensures RefCount(d) == old(RefCount(d)) + 1 && forall c :: c != d ==> RefCount(c) == old(RefCount(c))
    {
      shipRefs := shipRefs[d := (if d in shipRefs then shipRefs[d] else 0) + 1];
    }

    function RefCount(d: Digest): int
      reads this
    {
      if d in shipRefs then shipRefs[d] else 0
    }

    /** The archive order: every registered digest once, ascending. */
    method SortedDigests() returns (out: seq<Digest>)
      ensures Elements(out) == spills.Keys && |out| == |spills|
      ensures forall i, j :: 0 <= i < j < |out| ==> LexLess(out[i], out[j])
    {
      out := SetSlice(spills.Keys);
      var sorted := StableSort(out, DigestOrder());
      SortedDistinct(out, sorted);
      NoRepeatsSize(out);
      out := sorted;
      assert |spills| == |spills.Keys|;
    }
  }

  lemma SortedDistinct(xs: seq<Digest>, sorted: seq<Digest>)
    requires NoRepeats(xs) && sorted == Sort(xs, DigestOrder())
    ensures Elements(sorted) == Elements(xs) && |sorted| == |xs|
    ensures forall i, j :: 0 <= i < j < |sorted| ==> LexLess(sorted[i], sorted[j])
  {
    forall a, b, c ensures DigestOrder()(a, b) ==> !DigestOrder()(b, a)
      ensures DigestOrder()(a, c) ==> DigestOrder()(a, b) || DigestOrder()(b, c)
    {
      LexTrichotomy(a, b);
      LexTrichotomy(b, c);
      if LexLess(a, c) && !LexLess(a, b) && a != b { LexTransitive(b, a, c); }
    }
    SortSorted(xs, DigestOrder());
    SortPermutes(xs, DigestOrder());
    forall x ensures x in Elements(sorted) <==> x in Elements(xs) {
      assert x in multiset(sorted) <==> x in multiset(xs);
    }
    SameCounts(sorted, xs);
    forall i, j | 0 <= i < j < |sorted| ensures LexLess(sorted[i], sorted[j]) {
      assert !DigestOrder()(sorted[j], sorted[i]);
      LexTrichotomy(sorted[i], sorted[j]);
    }
  }
}
