/** The exporter's working directory: which files there are and what they hold. */
module Workdir {
  import opened Common

  /** Files are named by the encoded half of a digest; a spill adds eight letters of its baseline's. */
  datatype Path =
    | BaselineFile(name: string)
    | TargetFile(name: string)
    | SpillFile(name: string, baseline: string)
    | BlobFile(name: string)

  type Files = map<Path, Bytes>

  class Disk {
    var files: Files

    constructor ()
      ensures files == map[]
    {
      files := map[];
    }

    method Write(p: Path, data: Bytes)
      modifies this
      ensures files == old(files)[p := data]
    {
      files := files[p := data];
    }

    method Remove(p: Path)
      modifies this
      ensures files == old(files) - {p}
    {
      files := files - {p};
    }

    /** Atomic; fails, changing nothing, when there is no source file. */
    method Rename(src: Path, dst: Path) returns (ok: bool)
      modifies this
      ensures ok <==> src in old(files)
      ensures ok ==> files == (old(files) - {src})[dst := old(files)[src]]
      ensures !ok ==> files == old(files)
    {
      ok := src in files;
      if ok { files := (files - {src})[dst := files[src]]; }
    }
  }
}
