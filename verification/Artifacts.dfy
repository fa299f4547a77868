/** The artifacts of a commit-pinned manifest, the files of the cache
    directories, and the file operations of the installer
    (internal/llm/llamacpp/download.go). */
module Artifacts {
  import opened Prelude

  type Content = seq<bv8>

  // The number denoted by a SHA-256 in hexadecimal: the source compares digests
  // without regard to the case of the digits.
  type Digest = nat

  const GGUF_MAGIC: Content := [0x47, 0x47, 0x55, 0x46]

  datatype Artifact = Artifact(filename: string, size: nat, sha256: Digest)

  // A manifest directory lies inside a models directory, the root.
  datatype Dir = Dir(root: string, sub: string)

  datatype Manifest = Manifest(dir: Dir, models: seq<Artifact>, mmproj: Option<Artifact>) {
    // Model files first, then the projector: the download order.
    function All(): seq<Artifact> {
      models + if mmproj.Some? then [mmproj.value] else []
    }

    // What both manifest loaders guarantee: at least one model file, no filename twice.
    ghost predicate WellFormed() {
      |models| > 0 && forall i, j :: 0 <= i < j < |All()| ==> All()[i].filename != All()[j].filename
    }
  }

  // Final names end in ".gguf", stable partial names in ".part" and staging names
  // in the digits of CreateTemp, so the three kinds never collide.
  datatype Path =
    | Final(dir: Dir, name: string)
    | Part(dir: Dir, name: string)
    | Stage(dir: Dir, name: string, tag: nat)

  type Files = map<Path, Content>

  // Size, magic and hash: the full check of verifyArtifact.
  predicate Verifies(sha: Content -> Digest, c: Content, a: Artifact) {
    |c| >= 4 && |c| == a.size && c[..4] == GGUF_MAGIC && sha(c) == a.sha256
  }

  // What the check means, byte by byte.
  lemma VerifiesMeans(sha: Content -> Digest, c: Content, a: Artifact)
    ensures Verifies(sha, c, a) <==>
            && |c| == a.size && |c| >= 4 && sha(c) == a.sha256
            && c[0] == 0x47 && c[1] == 0x47 && c[2] == 0x55 && c[3] == 0x46
  {
    if |c| >= 4 {
      assert c[..4] == [c[0], c[1], c[2], c[3]];
    }
  }

  predicate FileVerifies(sha: Content -> Digest, files: Files, path: Path, a: Artifact) {
    path in files && Verifies(sha, files[path], a)
  }

  function Renamed(files: Files, from: Path, to: Path): (r: Files)
    requires from in files
  {
    (files - {from})[to := files[from]]
  }

  // A claim moves a resumable partial to the staging name, or creates an empty stage.
  function Claimed(files: Files, stable: Path, stage: Path): Files {
    if stable in files then Renamed(files, stable, stage) else files[stage := []]
  }

  // A stage goes back to its stable name unless it is gone or the name is taken.
  function Restored(files: Files, stage: Path, stable: Path): Files {
    if stage in files && stable !in files then Renamed(files, stage, stable) else files
  }

  ghost predicate SameFile(f: Files, g: Files, x: Path) {
    (x in f <==> x in g) && (x in f ==> f[x] == g[x])
  }

  // Some tags name no file.
  lemma {:induction false} FreshTag(paths: set<Path>, dir: Dir, name: string) returns (tag: nat)
    ensures forall t :: t >= tag ==> Stage(dir, name, t) !in paths
    decreases paths
  {
    tag := 0;
    if paths != {} {
      var x :| x in paths;
      tag := FreshTag(paths - {x}, dir, name);
      if x.Stage? && x.tag >= tag {
        tag := x.tag + 1;
      }
    }
  }
}
