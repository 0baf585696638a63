/**
  `indexing/build_faiss_index.py`: the metadata records written beside each index, the names of
  the two artifacts each index is saved as, and the command-line dispatch between the three
  builders. The vectors themselves (normalisation, FAISS) are not part of this model.
 */
module BuildFaissIndex {
  import opened Labels

  /** One metadata record, `{"filename": ..., "class": ...}`. */
  datatype Record = Record(filename: string, className: string)

  /** The arrays a builder loads: `labels.npy` and `filenames.npy`. */
  datatype Arrays = Arrays(labels: seq<int>, filenames: seq<string>)

  /** What `build_index` writes: the index file, the metadata file and the metadata list. */
  datatype Artifacts = Artifacts(indexPath: string, metadataPath: string, metadata: seq<Record>)

  /** How the `__main__` block ends. */
  datatype RunOutcome =
    | Built(artifacts: Artifacts)  // one builder ran
    | Exited(status: int)          // `sys.exit(1)` after the usage message
    | Raised(message: string)      // `raise ValueError(...)`

  const SaveDir: string := "indexing/indices"

  const PrototypeIndexName: string := "prototype_audio_index"
  const ProjectionIndexName: string := "linear_projection_index"
  const ContrastiveIndexName: string := "contrastive_audio_index"

  /**
    The smaller of two integers: the length `zip` truncates to. The prototype query, which reads
    these records back, uses it for the number of matches `top_k` keeps.
   */
  function Min(a: int, b: int): int
  {
    if a <= b then a else b
  }

  /** `"drums" if l == 0 else "keys"`. */
  function ClassOfLabel(l: int): (c: string)
    ensures c in LabelMap
    ensures c == Name(Drums) <==> l == 0
    ensures c == Name(Keys) <==> l != 0
  {
    if l == 0 then "drums" else "keys"
  }

  /**
    The comprehension over `zip(filenames, labels)`: one record per pair, in position order,
    stopping at the shorter list.
   */
  function MetadataOf(filenames: seq<string>, labels: seq<int>): (m: seq<Record>)
    ensures |m| == Min(|filenames|, |labels|)
    ensures forall i :: 0 <= i < |m| ==> m[i] == Record(filenames[i], ClassOfLabel(labels[i]))
  {
    if |filenames| == 0 || |labels| == 0 then []
    else [Record(filenames[0], ClassOfLabel(labels[0]))] + MetadataOf(filenames[1..], labels[1..])
  }

  /**
    `os.path.join(base, part)` for two components: an absolute `part` replaces `base`;
    otherwise a separator is inserted unless `base` is empty or already ends in one.
   */
  function Join(base: string, part: string): (r: string)
    ensures |part| <= |r| && r[|r| - |part|..] == part
    ensures |part| > 0 && part[0] == '/' ==> r == part
    ensures !(|part| > 0 && part[0] == '/') ==> |base| + |part| <= |r| <= |base| + 1 + |part| && r[..|base|] == base
    ensures !(|part| > 0 && part[0] == '/') && |r| == |base| + 1 + |part| ==> r[|base|] == '/'
    ensures !(|part| > 0 && part[0] == '/') ==> (|r| == |base| + 1 + |part| <==> |base| > 0 && base[|base| - 1] != '/')
  {
    if |part| > 0 && part[0] == '/' then part
    else if |base| == 0 || base[|base| - 1] == '/' then base + part
    else base + "/" + part
  }

  /** The index file of `name`: `indexing/indices/<name>.faiss`, or the name itself when absolute. */
  function IndexPath(name: string): (p: string)
    ensures !(|name| > 0 && name[0] == '/') ==> p == "indexing/indices/" + name + ".faiss"
    ensures |name| > 0 && name[0] == '/' ==> p == name + ".faiss"
  {
    Join(SaveDir, name + ".faiss")
  }

  /** The metadata file of `name`: `indexing/indices/<name>_metadata.json`, or the name itself when absolute. */
  function MetadataPath(name: string): (p: string)
    ensures !(|name| > 0 && name[0] == '/') ==> p == "indexing/indices/" + name + "_metadata.json"
    ensures |name| > 0 && name[0] == '/' ==> p == name + "_metadata.json"
  {
    Join(SaveDir, name + "_metadata.json")
  }

  /** `build_index`: the two files it writes for `name`, and the metadata it dumps. */
  function BuildIndex(metadata: seq<Record>, name: string): (a: Artifacts)
    ensures a.metadata == metadata
    ensures a.indexPath != a.metadataPath
  {
    PathsNeverCollide(name, name);
    Artifacts(IndexPath(name), MetadataPath(name), metadata)
  }

  function BuildPrototypeIndex(saved: Arrays): (a: Artifacts)
    ensures a.indexPath == "indexing/indices/" + PrototypeIndexName + ".faiss"
    ensures a.metadataPath == "indexing/indices/" + PrototypeIndexName + "_metadata.json"
    ensures |a.metadata| == Min(|saved.filenames|, |saved.labels|)
    ensures forall i :: 0 <= i < |a.metadata| ==> a.metadata[i] == Record(saved.filenames[i], ClassOfLabel(saved.labels[i]))
  {
    BuildIndex(MetadataOf(saved.filenames, saved.labels), PrototypeIndexName)
  }

  function BuildProjectionIndex(projected: Arrays): (a: Artifacts)
    ensures a.indexPath == "indexing/indices/" + ProjectionIndexName + ".faiss"
    ensures a.metadataPath == "indexing/indices/" + ProjectionIndexName + "_metadata.json"
    ensures |a.metadata| == Min(|projected.filenames|, |projected.labels|)
    ensures forall i :: 0 <= i < |a.metadata| ==> a.metadata[i] == Record(projected.filenames[i], ClassOfLabel(projected.labels[i]))
  {
    BuildIndex(MetadataOf(projected.filenames, projected.labels), ProjectionIndexName)
  }

  function BuildContrastiveIndex(projected: Arrays): (a: Artifacts)
    ensures a.indexPath == "indexing/indices/" + ContrastiveIndexName + ".faiss"
    ensures a.metadataPath == "indexing/indices/" + ContrastiveIndexName + "_metadata.json"
    ensures |a.metadata| == Min(|projected.filenames|, |projected.labels|)
    ensures forall i :: 0 <= i < |a.metadata| ==> a.metadata[i] == Record(projected.filenames[i], ClassOfLabel(projected.labels[i]))
  {
    BuildIndex(MetadataOf(projected.filenames, projected.labels), ContrastiveIndexName)
  }

  /**
    The `__main__` block: `argv[0]` is the program, `argv[1]` the mode. `saved` stands for the
    arrays under `embeddings/saved`, `projected` for those under `embeddings/projected`.
   */
  function Run(argv: seq<string>, saved: Arrays, projected: Arrays): (o: RunOutcome)
    ensures o == Exited(1) <==> |argv| < 2
    ensures o.Raised? <==> |argv| >= 2 && argv[1] != "prototype" && argv[1] != "projection" && argv[1] != "contrastive"
    ensures |argv| >= 2 && argv[1] == "prototype" ==> o == Built(BuildPrototypeIndex(saved))
    ensures |argv| >= 2 && argv[1] == "projection" ==> o == Built(BuildProjectionIndex(projected))
    ensures |argv| >= 2 && argv[1] == "contrastive" ==> o == Built(BuildContrastiveIndex(projected))
  {
    if |argv| < 2 then Exited(1)
    else
      var mode := argv[1];
      if mode == "prototype" then Built(BuildPrototypeIndex(saved))
      else if mode == "projection" then Built(BuildProjectionIndex(projected))
      else if mode == "contrastive" then Built(BuildContrastiveIndex(projected))
      else Raised("Unknown mode")
  }

  // ---- properties ----

  /** Every record's class is a LABEL_MAP key: `"drums"` exactly for label 0, `"keys"` otherwise. */
  lemma MetadataClasses(filenames: seq<string>, labels: seq<int>)
    ensures forall r :: r in MetadataOf(filenames, labels) ==> r.className in LabelMap
    ensures forall i :: 0 <= i < |MetadataOf(filenames, labels)| ==>
      (MetadataOf(filenames, labels)[i].className == Name(Drums) <==> labels[i] == 0)
  {
  }

  /** All three builders build their metadata by the same rule from the arrays they load. */
  lemma BuildersShareMetadataRule(saved: Arrays, projected: Arrays)
    ensures BuildPrototypeIndex(saved).metadata == MetadataOf(saved.filenames, saved.labels)
    ensures BuildProjectionIndex(projected).metadata == BuildContrastiveIndex(projected).metadata
    ensures BuildProjectionIndex(projected).metadata == MetadataOf(projected.filenames, projected.labels)
  {
  }

  /**
    An index file never has the name of a metadata file: one ends in `.faiss`, the other in
    `_metadata.json`.
   */
  lemma PathsNeverCollide(a: string, b: string)
    ensures IndexPath(a) != MetadataPath(b)
  {
    var p, q := IndexPath(a), MetadataPath(b);
    assert p[|p| - 1] == 's';
    assert q[|q| - 1] == 'n';
  }

  /** Different index names give different index files (and different metadata files). */
  lemma {:induction false} PathsInjective(a: string, b: string)
    ensures IndexPath(a) == IndexPath(b) ==> a == b
    ensures MetadataPath(a) == MetadataPath(b) ==> a == b
  {
    JoinInjective(a + ".faiss", b + ".faiss");
    JoinInjective(a + "_metadata.json", b + "_metadata.json");
    if a + ".faiss" == b + ".faiss" {
      assert a == (a + ".faiss")[..|a|];
      assert b == (b + ".faiss")[..|b|];
    }
    if a + "_metadata.json" == b + "_metadata.json" {
      assert a == (a + "_metadata.json")[..|a|];
      assert b == (b + "_metadata.json")[..|b|];
    }
  }

  lemma JoinInjective(p: string, q: string)
    ensures Join(SaveDir, p) == Join(SaveDir, q) ==> p == q
  {
    var jp, jq := Join(SaveDir, p), Join(SaveDir, q);
    if jp == jq {
      var absP := |p| > 0 && p[0] == '/';
      var absQ := |q| > 0 && q[0] == '/';
      if !absP && !absQ {
        assert p == jp[|SaveDir| + 1..];
        assert q == jq[|SaveDir| + 1..];
      }
    }
  }

  /**
    The mode selects exactly one builder: the outcome is an index built under the prototype,
    projection or contrastive name exactly when the mode is that builder's mode.
   */
  lemma {:induction false} DispatchSelectsExactly(argv: seq<string>, saved: Arrays, projected: Arrays)
    ensures var o := Run(argv, saved, projected);
      && (o.Built? && o.artifacts.indexPath == IndexPath(PrototypeIndexName) <==> |argv| >= 2 && argv[1] == "prototype")
      && (o.Built? && o.artifacts.indexPath == IndexPath(ProjectionIndexName) <==> |argv| >= 2 && argv[1] == "projection")
      && (o.Built? && o.artifacts.indexPath == IndexPath(ContrastiveIndexName) <==> |argv| >= 2 && argv[1] == "contrastive")
  {
    PathsInjective(PrototypeIndexName, ProjectionIndexName);
    PathsInjective(PrototypeIndexName, ContrastiveIndexName);
    PathsInjective(ProjectionIndexName, ContrastiveIndexName);
  }
}
