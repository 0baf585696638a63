/** `indexing/load_index.py`: only the names of the two artifacts it reads back. */
module LoadIndex {
  import BuildFaissIndex

  const Base: string := "indexing/indices"

  /** The index file and metadata file `load_faiss_index(name)` opens. */
  function LoadPaths(name: string): (r: (string, string))
    ensures !(|name| > 0 && name[0] == '/') ==>
      r == ("indexing/indices/" + name + ".faiss", "indexing/indices/" + name + "_metadata.json")
  {
    var r := (BuildFaissIndex.Join(Base, name + ".faiss"), BuildFaissIndex.Join(Base, name + "_metadata.json"));
    assert r.0 == BuildFaissIndex.IndexPath(name) && r.1 == BuildFaissIndex.MetadataPath(name);
    r
  }

  /** `build_index(..., name)` writes exactly the two files `load_faiss_index(name)` reads. */
  lemma BuildThenLoadSamePaths(metadata: seq<BuildFaissIndex.Record>, name: string)
    ensures var a := BuildFaissIndex.BuildIndex(metadata, name);
      LoadPaths(name) == (a.indexPath, a.metadataPath)
  {
  }
}
