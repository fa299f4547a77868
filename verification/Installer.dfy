/** The section of EnsureArtifacts that runs under both locks
    (internal/llm/llamacpp/download.go). InstallTheorems.HolderIsAlone is why it
    can be read sequentially: nobody else changes the directory meanwhile.
    A `*` is an outcome chosen by the file system or the network. */
module Installer {
  import opened Prelude
  import opened Artifacts
  import opened P = InstallProtocol

  // The answer to an artifact request: the status, the Content-Range of a partial
  // answer, the announced length, and the body up to a read error.
  datatype Response =
    | NoResponse
    | Response(status: int, start: int, end: int, total: int, length: Option<int>, body: Content, broken: bool)

  datatype Installed = Installed(model: Path, modelFiles: seq<Path>, mmproj: Option<Path>)

  predicate RangeMatches(r: Response, offset: nat, size: nat)
    requires r.Response?
  {
    r.start == offset && r.total == size && r.end == size - 1 && r.end >= r.start
  }

  // What a verified download is made of: the partial file as it was, that file
  // continued by a partial answer, or the body of a full answer.
  ghost predicate Assembled(before: Content, r: Response, after: Content) {
    || after == before
    || (r.Response? && r.status == 206 && after == before + r.body)
    || (r.Response? && r.status == 200 && after == r.body)
  }

  // Every listed path verifies, in terms of the manifest's own fields.
  lemma InPlaceMeans(sha: Content -> Digest, f: Files, m: Manifest)
    requires forall i :: 0 <= i < |m.All()| ==> FileVerifies(sha, f, FinalPath(m, i), m.All()[i])
    ensures forall a :: a in m.models || m.mmproj == Some(a) ==>
              && Final(m.dir, a.filename) in f
              && var c := f[Final(m.dir, a.filename)];
              && |c| == a.size && |c| >= 4 && sha(c) == a.sha256
              && c[0] == 0x47 && c[1] == 0x47 && c[2] == 0x55 && c[3] == 0x46
  {
    forall a | a in m.models || m.mmproj == Some(a)
      ensures FileVerifies(sha, f, Final(m.dir, a.filename), a)
    {
      assert a in m.All();
      var i :| 0 <= i < |m.All()| && m.All()[i] == a;
      assert FileVerifies(sha, f, FinalPath(m, i), m.All()[i]);
    }
    forall a | a in m.models || m.mmproj == Some(a)
      ensures var c := f[Final(m.dir, a.filename)];
              && |c| == a.size && |c| >= 4 && sha(c) == a.sha256
              && c[0] == 0x47 && c[1] == 0x47 && c[2] == 0x55 && c[3] == 0x46
    {
      VerifiesMeans(sha, f[Final(m.dir, a.filename)], a);
    }
  }

  lemma CoveredSame(m: Manifest, valid: set<string>, a: seq<Staged>, b: seq<Staged>)
    requires Covered(m, valid, a, |m.All()|) && SameClaimed(a, b)
    ensures Covered(m, valid, b, |m.All()|)
  {
    forall x | 0 <= x < |m.All()| && Name(m, x) !in valid
      ensures IsStaged(b, x)
    {
      assert IsStaged(a, x);
      var j :| 0 <= j < |a| && a[j].at == x;
      assert b[j].at == x;
    }
  }

  // What it takes to complete a download: the partial file is whole already, the answer
  // continues it, or the answer is whole.
  ghost predicate Suffices(sha: Content -> Digest, before: Content, r: Response, a: Artifact) {
    || (|before| == a.size && Verifies(sha, before, a))
    || Completes(sha, before, r, a)
  }

  ghost predicate Completes(sha: Content -> Digest, before: Content, r: Response, a: Artifact) {
    || (r.Response? && !r.broken && r.status == 206 && 0 < |before| < a.size &&
        r.start == |before| && r.end == a.size - 1 && r.total == a.size &&
        Announced(r.length, a.size - |before|) && |before| + |r.body| == a.size && Verifies(sha, before + r.body, a))
    || (r.Response? && !r.broken && r.status == 200 &&
        Announced(r.length, a.size) && |r.body| == a.size && Verifies(sha, r.body, a))
  }

  // A length header, if there is one, names this length; a negative one says nothing.
  predicate Announced(length: Option<int>, size: int) {
    length.None? || length.value < 0 || length.value == size
  }

  // What a stage of artifact i starts from.
  function Partial(f: Files, m: Manifest, i: nat): Content
    requires i < |m.All()|
  {
    if PartPath(m, i) in f then f[PartPath(m, i)] else []
  }

  // The answers complete every artifact that is not valid in place; net(i) is the answer
  // to the request of artifact i.
  ghost predicate Obtainable(sha: Content -> Digest, f: Files, m: Manifest, net: nat -> Response) {
    forall i :: 0 <= i < |m.All()| ==> Obtains(sha, f, m, net, i)
  }

  ghost predicate Obtains(sha: Content -> Digest, f: Files, m: Manifest, net: nat -> Response, i: nat)
    requires i < |m.All()|
  {
    FileVerifies(sha, f, FinalPath(m, i), m.All()[i]) || Suffices(sha, Partial(f, m, i), net(i), m.All()[i])
  }

  // localArtifactPaths: the runtime gets the first model file.
  function LocalPaths(m: Manifest): Installed
    requires |m.models| > 0
  {
    var paths := seq(|m.models|, i requires 0 <= i < |m.models| => Final(m.dir, m.models[i].filename));
    Installed(paths[0], paths, if m.mmproj.Some? then Some(Final(m.dir, m.mmproj.value.filename)) else None)
  }

  // ---------- the directory against the claims ----------

  ghost predicate ClaimInv(sha: Content -> Digest, f: Files, m: Manifest, c: Staged) {
    c.at < |m.All()| &&
    match c.fate
    case Live => StagedPath(m, c) in f && PartPath(m, c.at) !in f
    case Committed => StagedPath(m, c) !in f && PartPath(m, c.at) !in f &&
      FileVerifies(sha, f, FinalPath(m, c.at), m.All()[c.at])
    case PutBack => StagedPath(m, c) !in f && PartPath(m, c.at) in f
    case Discarded => StagedPath(m, c) !in f && PartPath(m, c.at) !in f
    case Stuck => StagedPath(m, c) in f
  }

  ghost predicate ClaimNamed(m: Manifest, claims: seq<Staged>, x: Path) {
    exists j :: 0 <= j < |claims| && NamedBy(m, claims[j], x)
  }

  // The paths a claim accounts for.
  ghost predicate NamedBy(m: Manifest, c: Staged, x: Path) {
    c.at < |m.All()| &&
    match x
    case Final(_, _) => c.fate == Committed && x == FinalPath(m, c.at)
    case Part(_, _) => x == PartPath(m, c.at)
    case Stage(_, _, _) => (c.fate == Live || c.fate == Stuck) && x == StagedPath(m, c)
  }

  // f differs from f0 by what the claims say and by nothing else.
  ghost predicate Tracks(sha: Content -> Digest, f0: Files, f: Files, m: Manifest, claims: seq<Staged>) {
    && m.WellFormed()
    && (forall j :: 0 <= j < |claims| ==> ClaimInv(sha, f, m, claims[j]) && StagedPath(m, claims[j]) !in f0)
    && (forall j, l :: 0 <= j < l < |claims| ==> claims[j].at < claims[l].at)
    && (forall x :: ClaimNamed(m, claims, x) || SameFile(f0, f, x))
  }

  // The claimed artifacts were not valid at the start.
  ghost predicate Missing(sha: Content -> Digest, f0: Files, m: Manifest, claims: seq<Staged>) {
    forall j :: 0 <= j < |claims| ==>
      claims[j].at < |m.All()| && !FileVerifies(sha, f0, FinalPath(m, claims[j].at), m.All()[claims[j].at])
  }

  ghost predicate NoneLive(claims: seq<Staged>) {
    forall j :: 0 <= j < |claims| ==> claims[j].fate != Live
  }

  function WithFate(claims: seq<Staged>, k: nat, fate: Fate): seq<Staged>
    requires k < |claims|
  {
    claims[k := claims[k].(fate := fate)]
  }

  // Only paths named like artifact i differ.
  ghost predicate OnlyNamed(m: Manifest, f: Files, g: Files, i: nat)
    requires i < |m.All()|
  {
    forall x: Path :: x.dir != m.dir || x.name != Name(m, i) ==> SameFile(f, g, x)
  }

  lemma OthersKept(sha: Content -> Digest, f: Files, g: Files, m: Manifest, c: Staged, i: nat)
    requires m.WellFormed() && i < |m.All()| && OnlyNamed(m, f, g, i) && ClaimInv(sha, f, m, c) && c.at != i
    ensures ClaimInv(sha, g, m, c)
  {
    assert m.All()[c.at].filename != m.All()[i].filename;
    assert SameFile(f, g, StagedPath(m, c)) && SameFile(f, g, PartPath(m, c.at)) && SameFile(f, g, FinalPath(m, c.at));
  }

  // A claim enters the list, last in manifest order.
  lemma TracksClaim(sha: Content -> Digest, f0: Files, f: Files, g: Files, m: Manifest, claims: seq<Staged>, c: Staged)
    requires Tracks(sha, f0, f, m, claims) && ClaimInv(sha, g, m, c) && OnlyNamed(m, f, g, c.at)
    requires forall j :: 0 <= j < |claims| ==> claims[j].at < c.at
    requires StagedPath(m, c) !in f0 && forall x :: SameFile(f, g, x) || NamedBy(m, c, x)
    ensures Tracks(sha, f0, g, m, claims + [c])
  {
    var more := claims + [c];
    forall j | 0 <= j < |more|
      ensures ClaimInv(sha, g, m, more[j])
    {
      if j < |claims| {
        OthersKept(sha, f, g, m, claims[j], c.at);
      }
    }
    forall x | !SameFile(f0, g, x)
      ensures ClaimNamed(m, more, x)
    {
      if SameFile(f, g, x) {
        assert ClaimNamed(m, claims, x);
        var j :| 0 <= j < |claims| && NamedBy(m, claims[j], x);
        assert NamedBy(m, more[j], x);
      } else {
        assert NamedBy(m, more[|claims|], x);
      }
    }
  }

  // One claim changes, with the files of its artifact only.
  lemma TracksChange(sha: Content -> Digest, f0: Files, f: Files, g: Files, m: Manifest, claims: seq<Staged>, k: nat,
                     fate: Fate)
    requires Tracks(sha, f0, f, m, claims) && k < |claims| && claims[k].at < |m.All()|
    requires OnlyNamed(m, f, g, claims[k].at) && ClaimInv(sha, g, m, claims[k].(fate := fate))
    requires forall x: Path :: x.dir == m.dir && x.name == Name(m, claims[k].at) ==>
               SameFile(f0, g, x) || NamedBy(m, claims[k].(fate := fate), x) ||
                 (SameFile(f, g, x) && !NamedBy(m, claims[k], x))
    ensures Tracks(sha, f0, g, m, WithFate(claims, k, fate))
  {
    var more := WithFate(claims, k, fate);
    forall j | 0 <= j < |more|
      ensures ClaimInv(sha, g, m, more[j]) && StagedPath(m, more[j]) !in f0
    {
      if j != k {
        assert claims[j].at != claims[k].at;
        OthersKept(sha, f, g, m, claims[j], claims[k].at);
      }
    }
    forall x | !SameFile(f0, g, x)
      ensures ClaimNamed(m, more, x)
    {
      if NamedBy(m, more[k], x) {
      } else {
        assert SameFile(f, g, x) && ClaimNamed(m, claims, x);
        var j :| 0 <= j < |claims| && NamedBy(m, claims[j], x);
        assert j != k && NamedBy(m, more[j], x);
      }
    }
  }

  // What the plan reports: exactly the valid artifacts.
  ghost predicate ValidNames(sha: Content -> Digest, f: Files, m: Manifest, valid: set<string>) {
    forall i :: 0 <= i < |m.All()| ==> (Name(m, i) in valid <==> FileVerifies(sha, f, FinalPath(m, i), m.All()[i]))
  }

  lemma StillVerified(sha: Content -> Digest, f: Files, g: Files, m: Manifest, claims: seq<Staged>, i: nat)
    requires m.WellFormed() && i < |m.All()|
    requires forall x: Path :: x.name != Name(m, i) ==> SameFile(f, g, x)
    ensures forall j :: 0 <= j < |claims| && claims[j].at != i && LiveVerified(sha, f, m, claims[j]) ==>
              LiveVerified(sha, g, m, claims[j])
  {
    forall j | 0 <= j < |claims| && claims[j].at != i && LiveVerified(sha, f, m, claims[j])
      ensures LiveVerified(sha, g, m, claims[j])
    {
      assert m.All()[claims[j].at].filename != m.All()[i].filename;
      assert SameFile(f, g, StagedPath(m, claims[j]));
    }
  }

  lemma CoverGrows(m: Manifest, valid: set<string>, staged: seq<Staged>, c: Staged)
    requires Covered(m, valid, staged, c.at) && c.at < |m.All()|
    ensures Covered(m, valid, staged + [c], c.at + 1)
  {
    var more := staged + [c];
    forall x | 0 <= x < c.at + 1 && Name(m, x) !in valid
      ensures IsStaged(more, x)
    {
      if x == c.at {
        assert more[|staged|].at == x;
      } else {
        assert IsStaged(staged, x);
        var j :| 0 <= j < |staged| && staged[j].at == x;
        assert more[j].at == x;
      }
    }
  }

  // A round of the staging loop claims a missing artifact and commits nothing.
  lemma RoundStaged(sha: Content -> Digest, f0: Files, m: Manifest, valid: set<string>, had: seq<Staged>,
                    claims: seq<Staged>, i: nat)
    requires ValidNames(sha, f0, m, valid) && Missing(sha, f0, m, had) && |had| <= |claims| && claims[..|had|] == had
    requires i < |m.All()| && Name(m, i) !in valid
    requires forall j :: 0 <= j < |had| ==> had[j].fate == Live
    requires forall j :: |had| <= j < |claims| ==> claims[j].at == i && claims[j].fate != Committed
    ensures Missing(sha, f0, m, claims) && forall j :: 0 <= j < |claims| ==> claims[j].fate != Committed
  {
    MissingMore(sha, f0, m, had, claims, i);
    assert forall j :: 0 <= j < |had| ==> claims[j] == claims[..|had|][j];
  }

  // The staging loop has one claim more.
  lemma StagedMore(sha: Content -> Digest, f: Files, g: Files, m: Manifest, valid: set<string>, had: seq<Staged>,
                   staged: seq<Staged>, i: nat)
    requires m.WellFormed() && i < |m.All()| && Covered(m, valid, had, i)
    requires |staged| == |had| + 1 && staged[..|had|] == had && staged[|had|].at == i
    requires forall j :: 0 <= j < |had| ==> had[j].at < i && LiveVerified(sha, f, m, had[j])
    requires LiveVerified(sha, g, m, staged[|had|]) && forall x: Path :: x.name != Name(m, i) ==> SameFile(f, g, x)
    ensures Covered(m, valid, staged, i + 1)
    ensures forall j :: 0 <= j < |staged| ==> staged[j].at < i + 1 && LiveVerified(sha, g, m, staged[j])
  {
    assert staged == had + [staged[|had|]];
    StillVerified(sha, f, g, m, had, i);
    CoverGrows(m, valid, had, staged[|had|]);
  }

  // Claims of earlier artifacts leave the partial of artifact i as it was.
  lemma PartialKept(sha: Content -> Digest, f0: Files, f: Files, m: Manifest, claims: seq<Staged>, i: nat)
    requires Tracks(sha, f0, f, m, claims) && i < |m.All()|
    requires forall j :: 0 <= j < |claims| ==> claims[j].at < i
    ensures Partial(f, m, i) == Partial(f0, m, i)
  {
    assert ClaimNamed(m, claims, PartPath(m, i)) ==> false;
    assert SameFile(f0, f, PartPath(m, i));
  }

  // Once all claims are committed everything is in place.
  lemma AllInPlace(sha: Content -> Digest, f0: Files, f: Files, m: Manifest, valid: set<string>, claims: seq<Staged>)
    requires Tracks(sha, f0, f, m, claims) && ValidNames(sha, f0, m, valid) && Missing(sha, f0, m, claims)
    requires Covered(m, valid, claims, |m.All()|) && forall j :: 0 <= j < |claims| ==> claims[j].fate == Committed
    ensures forall i :: 0 <= i < |m.All()| ==> FileVerifies(sha, f, FinalPath(m, i), m.All()[i])
  {
    forall i | 0 <= i < |m.All()|
      ensures FileVerifies(sha, f, FinalPath(m, i), m.All()[i])
    {
      if Name(m, i) in valid {
        FinalKept(sha, f0, f, m, claims, i);
      } else {
        assert IsStaged(claims, i);
        var j :| 0 <= j < |claims| && claims[j].at == i;
        assert ClaimInv(sha, f, m, claims[j]);
      }
    }
  }

  // A final path that verified at the start is not claimed.
  lemma FinalKept(sha: Content -> Digest, f0: Files, f: Files, m: Manifest, claims: seq<Staged>, i: nat)
    requires Tracks(sha, f0, f, m, claims) && Missing(sha, f0, m, claims)
    requires i < |m.All()| && FileVerifies(sha, f0, FinalPath(m, i), m.All()[i])
    ensures SameFile(f0, f, FinalPath(m, i))
  {
    assert ClaimNamed(m, claims, FinalPath(m, i)) ==> false;
  }

  // Without a committed claim the final paths are as at the start.
  lemma NothingFinal(sha: Content -> Digest, f0: Files, f: Files, m: Manifest, claims: seq<Staged>)
    requires Tracks(sha, f0, f, m, claims) && forall j :: 0 <= j < |claims| ==> claims[j].fate != Committed
    ensures forall x: Path :: x.Final? ==> SameFile(f0, f, x)
  {
    forall x: Path | x.Final?
      ensures SameFile(f0, f, x)
    {
      assert !ClaimNamed(m, claims, x);
    }
  }

  // With no live claim: a staging file is as at the start or is a stuck claim, and a
  // final path is as at the start or holds its artifact.
  lemma SettledDirectory(sha: Content -> Digest, f0: Files, f: Files, m: Manifest, claims: seq<Staged>)
    requires Tracks(sha, f0, f, m, claims) && NoneLive(claims)
    ensures forall x: Path :: x.Stage? ==> SameFile(f0, f, x) || IsStageOf(m, claims, Stuck, x)
    ensures forall x: Path :: x.Final? ==>
              SameFile(f0, f, x) ||
              exists i :: 0 <= i < |m.All()| && x == FinalPath(m, i) && FileVerifies(sha, f, x, m.All()[i])
  {
    forall x: Path | !x.Part? && !SameFile(f0, f, x)
      ensures x.Stage? ==> IsStageOf(m, claims, Stuck, x)
      ensures x.Final? ==>
                exists i :: 0 <= i < |m.All()| && x == FinalPath(m, i) && FileVerifies(sha, f, x, m.All()[i])
    {
      assert ClaimNamed(m, claims, x);
      var j :| 0 <= j < |claims| && NamedBy(m, claims[j], x);
      assert ClaimInv(sha, f, m, claims[j]);
      assert x.Final? ==> x == FinalPath(m, claims[j].at);
    }
  }

  // A claim after the rollback tried to move its stage back.
  function Undone(c: Staged, works: bool): Staged {
    if c.fate == Live then c.(fate := if works then PutBack else Stuck) else c
  }

  // The claims when the rollback has come to k.
  function UndoneTo(staged: seq<Staged>, renames: nat -> bool, k: nat): seq<Staged> {
    seq(|staged|, j requires 0 <= j < |staged| => if j < k then Undone(staged[j], renames(j)) else staged[j])
  }

  lemma UndoneMore(staged: seq<Staged>, renames: nat -> bool, k: nat, left: seq<Staged>)
    requires k < |staged|
    ensures var claims := UndoneTo(staged, renames, k) + left;
            claims[k] == staged[k] &&
            claims[k := Undone(staged[k], renames(k))] == UndoneTo(staged, renames, k + 1) + left
  {
  }

  // Claims of the same artifacts.
  ghost predicate SameClaimed(a: seq<Staged>, b: seq<Staged>) {
    |a| == |b| && forall j :: 0 <= j < |a| ==> a[j].at == b[j].at
  }

  lemma MissingSame(sha: Content -> Digest, f0: Files, m: Manifest, a: seq<Staged>, b: seq<Staged>)
    requires Missing(sha, f0, m, a) && SameClaimed(a, b)
    ensures Missing(sha, f0, m, b)
  {
    forall j | 0 <= j < |b|
      ensures b[j].at < |m.All()| && !FileVerifies(sha, f0, FinalPath(m, b[j].at), m.All()[b[j].at])
    {
      assert a[j].at == b[j].at;
    }
  }

  lemma MissingMore(sha: Content -> Digest, f0: Files, m: Manifest, a: seq<Staged>, b: seq<Staged>, i: nat)
    requires Missing(sha, f0, m, a) && |a| <= |b| && b[..|a|] == a
    requires i < |m.All()| && !FileVerifies(sha, f0, FinalPath(m, i), m.All()[i])
    requires forall j :: |a| <= j < |b| ==> b[j].at == i
    ensures Missing(sha, f0, m, b)
  {
    forall j | 0 <= j < |a|
      ensures b[j] == a[j]
    {
      assert b[..|a|][j] == b[j];
    }
  }

  // Where the rollback has the content of a live stage.
  function Kept(m: Manifest, c: Staged, works: bool): Path
    requires c.at < |m.All()|
  {
    if works then PartPath(m, c.at) else StagedPath(m, c)
  }

  // No content of a live stage is lost: of those before k it is under the stable name if
  // its rename works, otherwise where it was.
  ghost predicate RolledBack(m: Manifest, staged: seq<Staged>, renames: nat -> bool, k: nat, f: Files, g: Files) {
    && (forall j :: 0 <= j < |staged| ==> staged[j].at < |m.All()|)
    && (forall j :: 0 <= j < |staged| && staged[j].fate == Live ==> StagedPath(m, staged[j]) in f)
    && (forall j :: 0 <= j < |staged| && staged[j].fate == Live ==>
          var x := Kept(m, staged[j], j < k && renames(j)); x in g && g[x] == f[StagedPath(m, staged[j])])
  }

  lemma RollbackStarts(sha: Content -> Digest, f0: Files, f: Files, m: Manifest, staged: seq<Staged>, left: seq<Staged>,
                       renames: nat -> bool)
    requires Tracks(sha, f0, f, m, staged + left)
    ensures RolledBack(m, staged, renames, 0, f, f) && staged + left == UndoneTo(staged, renames, 0) + left
    ensures forall i, j :: 0 <= i < j < |staged| ==> staged[i].at < staged[j].at
  {
    var claims := staged + left;
    assert forall j :: 0 <= j < |staged| ==> claims[j] == staged[j];
    forall j | 0 <= j < |staged|
      ensures ClaimInv(sha, f, m, staged[j])
    {
      assert ClaimInv(sha, f, m, claims[j]);
    }
  }

  // The claims after the rollback.
  lemma RollbackEnds(staged: seq<Staged>, left: seq<Staged>, renames: nat -> bool)
    requires left == [] || (|left| == 1 && left[0].fate == Stuck)
    requires forall j :: 0 <= j < |staged| ==> staged[j].fate != Stuck
    ensures var claims := UndoneTo(staged, renames, |staged|) + left;
            && NoneLive(claims) && SameClaimed(staged + left, claims)
            && forall j :: 0 <= j < |claims| && claims[j].fate == Stuck ==> !renames(j) || j == |claims| - 1
  {
    var claims := UndoneTo(staged, renames, |staged|) + left;
    forall j | 0 <= j < |claims|
      ensures claims[j].at == (staged + left)[j].at && claims[j].fate != Live
      ensures claims[j].fate == Stuck ==> !renames(j) || j == |claims| - 1
    {
      assert j < |staged| ==> claims[j] == Undone(staged[j], renames(j));
    }
  }

  lemma RolledBackMore(m: Manifest, staged: seq<Staged>, renames: nat -> bool, k: nat, f: Files, g: Files, h: Files)
    requires m.WellFormed() && k < |staged| && RolledBack(m, staged, renames, k, f, g)
    requires OnlyNamed(m, g, h, staged[k].at)
    requires forall i, j :: 0 <= i < j < |staged| ==> staged[i].at < staged[j].at
    requires staged[k].fate == Live ==>
               var x := Kept(m, staged[k], renames(k)); x in h && h[x] == g[StagedPath(m, staged[k])]
    ensures RolledBack(m, staged, renames, k + 1, f, h)
  {
    forall j | 0 <= j < |staged| && j != k
      ensures SameFile(g, h, PartPath(m, staged[j].at)) && SameFile(g, h, StagedPath(m, staged[j]))
    {
      assert staged[j].at != staged[k].at;
      assert m.All()[staged[j].at].filename != m.All()[staged[k].at].filename;
    }
  }

  // What ClaimPartial did, entered as a claim.
  lemma Entered(sha: Content -> Digest, m: Manifest, f0: Files, f: Files, g: Files, claims: seq<Staged>, c: Staged)
    requires Tracks(sha, f0, f, m, claims) && c.at < |m.All()| && StagedPath(m, c) !in f
    requires forall j :: 0 <= j < |claims| ==> claims[j].at < c.at
    requires || (c.fate == Live && g == Claimed(f, PartPath(m, c.at), StagedPath(m, c)))
             || (c.fate == Stuck && g == f[StagedPath(m, c) := []])
    ensures Tracks(sha, f0, g, m, claims + [c])
  {
    assert StagedPath(m, c) !in f0 by {
      assert ClaimNamed(m, claims, StagedPath(m, c)) ==> false;
    }
    TracksClaim(sha, f0, f, g, m, claims, c);
  }

  // c stands for an empty staging file of artifact i, which is all that is new in g.
  ghost predicate LeftEmpty(m: Manifest, i: nat, f: Files, g: Files, c: Staged)
    requires i < |m.All()|
  {
    c.at == i && c.fate == Stuck && StagedPath(m, c) !in f && g == f[StagedPath(m, c) := []]
  }

  class Downloader {
    const sha: Content -> Digest
    const reliable: bool   // no file operation fails
    var files: Files

    constructor (sha: Content -> Digest, reliable: bool, files: Files)
      ensures this.sha == sha && this.reliable == reliable && this.files == files
    {
      this.sha := sha;
      this.reliable := reliable;
      this.files := files;
    }

    // A file operation fails.
    method Fails() returns (failed: bool)
      ensures reliable ==> !failed
    {
      failed := *;
      if reliable {
        failed := false;
      }
    }

    // claimPartial: on an error the directory is as before, or the empty stage is left.
    method ClaimPartial(dir: Dir, name: string) returns (stage: Option<Path>, ghost left: Option<nat>)
      modifies this`files
      ensures stage.None? && left.None? ==> files == old(files)
      ensures left.Some? ==>
                stage.None? && Stage(dir, name, left.value) !in old(files) &&
                files == old(files)[Stage(dir, name, left.value) := []]
      ensures reliable ==> stage.Some?
      ensures stage.Some? ==>
                stage.value.Stage? && stage.value.dir == dir && stage.value.name == name &&
                stage.value !in old(files) && files == Claimed(old(files), Part(dir, name), stage.value)
    {
      left := None;
      var failed := Fails();
      if failed {
        return None, left;
      }
      ghost var low := FreshTag(files.Keys, dir, name);
      assert Stage(dir, name, low) !in files;
      var tag: nat :| Stage(dir, name, tag) !in files;
      var temp := Stage(dir, name, tag);
      files := files[temp := []];
      failed := Fails();
      if failed {
        var removed := Remove(temp);
        left := if removed then None else Some(tag);
        return None, left;
      }
      if Part(dir, name) in files {
        var removed := Remove(temp);
        if !removed {
          left := Some(tag);
          return None, left;
        }
        failed := Fails();
        if failed {
          return None, left;
        }
        files := Renamed(files, Part(dir, name), temp);
      }
      return Some(temp), left;
    }

    // os.Remove, which may fail.
    method Remove(x: Path) returns (ok: bool)
      modifies this`files
      ensures files == if ok then old(files) - {x} else old(files)
      ensures reliable ==> ok
    {
      var failed := Fails();
      ok := !failed;
      if ok {
        files := files - {x};
      }
    }

    // restorePartial; works: whether the rename does.
    method RestorePartial(stage: Path, stable: Path, works: bool) returns (ok: bool)
      modifies this`files
      ensures files == if works then Restored(old(files), stage, stable) else old(files)
      ensures ok <==> stage !in files
    {
      if stage !in files {
        return true;
      }
      if stable in files || !works {
        return false;
      }
      files := Renamed(files, stage, stable);
      ok := true;
    }

    // commitStagedFile: the rename may be followed by an error of chmod.
    method CommitStagedFile(stage: Path, dest: Path) returns (ok: bool)
      modifies this`files
      ensures ok ==> stage in old(files)
      ensures files == old(files) || (stage in old(files) && files == Renamed(old(files), stage, dest))
      ensures ok ==> files == Renamed(old(files), stage, dest)
      ensures reliable && stage in old(files) ==> ok
    {
      if stage !in files {
        return false;
      }
      var failed := Fails();
      if failed {
        return false;
      }
      files := Renamed(files, stage, dest);
      failed := Fails();
      ok := !failed;
    }

    // The first half of downloadArtifact: keeps a partial stage, and empties one that is
    // oversized, or full and wrong.
    method PrepareStage(a: Artifact, part: Path) returns (whole: bool, offset: Option<nat>)
      requires part in files
      modifies this`files
      ensures forall x :: x != part ==> SameFile(old(files), files, x)
      ensures part in files && (files[part] == old(files[part]) || files[part] == [])
      ensures whole <==> |old(files[part])| == a.size && Verifies(sha, old(files[part]), a)
      ensures whole ==> files[part] == old(files[part])
      ensures reliable && !whole ==> offset.Some?
      ensures offset.Some? ==>
                offset.value == |files[part]| &&
                files[part] == if |old(files[part])| < a.size then old(files[part]) else []
    {
      if |files[part]| < a.size {
        return false, Some(|files[part]|);
      }
      if |files[part]| == a.size && FileVerifies(sha, files, part, a) {
        return true, None;
      }
      var failed := Fails();
      if failed {
        return false, None;
      }
      files := files[part := []];
      return false, Some(0);
    }

    // The second half: appends a matching partial answer, or restarts with a full one, and
    // verifies the whole.
    method Receive(a: Artifact, part: Path, resp: Response, offset: nat) returns (ok: bool, ghost last: Content)
      requires part in files && offset == |files[part]| && (offset == 0 || offset < a.size)
      modifies this`files
      ensures forall x :: x != part ==> SameFile(old(files), files, x)
      ensures ok ==> Completes(sha, old(files[part]), resp, a)
      ensures reliable && Completes(sha, old(files[part]), resp, a) ==> ok
      ensures ok ==> FileVerifies(sha, files, part, a) && Assembled(old(files[part]), resp, files[part])
      ensures part in files ==> files[part] == last
      ensures part !in files ==> !ok && !Verifies(sha, last, a)
    {
      last := files[part];
      if resp.NoResponse? {
        return false, last;
      }
      var append := false;
      if offset > 0 && resp.status == 206 {
        if !RangeMatches(resp, offset, a.size) {
          return false, last;
        }
        append := true;
      } else if resp.status != 200 {
        return false, last;
      }
      var expected := if append then a.size - offset else a.size;
      if resp.length.Some? && resp.length.value >= 0 && resp.length.value != expected {
        return false, last;
      }
      var failed := Fails();
      if failed {
        return false, last;
      }
      // At most one byte more than expected is read, to notice an overlong body.
      var written := resp.body[..if |resp.body| < expected + 1 then |resp.body| else expected + 1];
      assert |written| == expected ==> written == resp.body;
      files := files[part := (if append then files[part] else []) + written];
      last := files[part];
      if resp.broken || |written| != expected {
        return false, last;
      }
      failed := Fails();
      if failed {
        return false, last;
      }
      assert last == if append then old(files[part]) + resp.body else resp.body;
      if !FileVerifies(sha, files, part, a) {
        var _ := Remove(part);
        return false, last;
      }
      return true, last;
    }

    // downloadArtifact: resumes, restarts or reuses the stage, and verifies the whole.
    method DownloadArtifact(a: Artifact, part: Path, resp: Response) returns (ok: bool, ghost last: Content)
      requires part in files
      modifies this`files
      ensures forall x :: x != part ==> SameFile(old(files), files, x)
      ensures ok ==> FileVerifies(sha, files, part, a) && Assembled(old(files[part]), resp, files[part])
      ensures ok ==> Suffices(sha, old(files[part]), resp, a)
      ensures reliable && Suffices(sha, old(files[part]), resp, a) ==> ok
      // The stage keeps what arrived; it goes only if all of it arrived and is wrong.
      ensures part in files ==> files[part] == last
      ensures part !in files ==> !ok && !Verifies(sha, last, a)
    {
      var whole, offset := PrepareStage(a, part);
      ghost var prepared := files;
      last := files[part];
      if whole {
        return true, last;
      }
      if offset.None? {
        return false, last;
      }
      ok, last := Receive(a, part, resp, offset.value);
      forall x | x != part
        ensures SameFile(old(files), files, x)
      {
        assert SameFile(old(files), prepared, x) && SameFile(prepared, files, x);
      }
    }

    // planManifestWithValidation: hashes each cached artifact once.
    method PlanValid(m: Manifest) returns (valid: set<string>)
      requires m.WellFormed()
      ensures ValidNames(sha, files, m, valid)
    {
      valid := {};
      for i := 0 to |m.All()|
        invariant forall x :: 0 <= x < i ==>
                    (Name(m, x) in valid <==> FileVerifies(sha, files, FinalPath(m, x), m.All()[x]))
        invariant forall x :: i <= x < |m.All()| ==> Name(m, x) !in valid
      {
        if FileVerifies(sha, files, FinalPath(m, i), m.All()[i]) {
          valid := valid + {Name(m, i)};
        }
        assert forall x :: 0 <= x < |m.All()| && x != i ==> m.All()[x].filename != m.All()[i].filename;
      }
    }

    // One stage of the rollback, which ignores the error.
    method PutBackOne(m: Manifest, c: Staged, works: bool, ghost k: nat, ghost claims: seq<Staged>, ghost f0: Files)
      returns (ghost claims': seq<Staged>)
      requires k < |claims| && claims[k] == c && c.fate != Stuck && Tracks(sha, f0, files, m, claims)
      modifies this`files
      ensures Tracks(sha, f0, files, m, claims') && claims' == claims[k := Undone(c, works)]
      ensures c.fate == Live ==>
                var x := Kept(m, c, works); x in files && files[x] == old(files[StagedPath(m, c)])
      ensures OnlyNamed(m, old(files), files, c.at)
    {
      ghost var before := files;
      assert ClaimInv(sha, files, m, claims[k]);
      var _ := RestorePartial(StagedPath(m, c), PartPath(m, c.at), works);
      claims' := claims;
      if c.fate == Live {
        var fate := if works then PutBack else Stuck;
        TracksChange(sha, f0, before, files, m, claims, k, fate);
        claims' := WithFate(claims, k, fate);
      } else {
        assert files == before;
      }
    }

    // The deferred rollback: every stage still there goes back to its stable name, if its
    // rename works. left: the stage of a claim that failed, which the rollback does not know.
    method Rollback(m: Manifest, staged: seq<Staged>, renames: nat -> bool, ghost left: seq<Staged>, ghost f0: Files)
      returns (ghost claims: seq<Staged>)
      requires Tracks(sha, f0, files, m, staged + left)
      requires forall j :: 0 <= j < |staged| ==> staged[j].fate != Stuck
      modifies this`files
      ensures Tracks(sha, f0, files, m, claims) && claims == UndoneTo(staged, renames, |staged|) + left
      ensures RolledBack(m, staged, renames, |staged|, old(files), files)
    {
      claims := staged + left;
      RollbackStarts(sha, f0, files, m, staged, left, renames);
      for k := 0 to |staged|
        invariant Tracks(sha, f0, files, m, claims)
        invariant claims == UndoneTo(staged, renames, k) + left
        invariant RolledBack(m, staged, renames, k, old(files), files)
      {
        ghost var before := files;
        UndoneMore(staged, renames, k, left);
        claims := PutBackOne(m, staged[k], renames(k), k, claims, f0);
        RolledBackMore(m, staged, renames, k, old(files), before, files);
      }
    }

    // One round of the staging loop: claim, then download.
    method StageArtifact(m: Manifest, i: nat, staged: seq<Staged>, resp: Response, ghost f0: Files)
      returns (ok: bool, more: seq<Staged>, ghost left: seq<Staged>)
      requires Tracks(sha, f0, files, m, staged) && i < |m.All()|
      requires forall j :: 0 <= j < |staged| ==> staged[j].at < i
      modifies this`files
      ensures Tracks(sha, f0, files, m, more + left)
      ensures |more| >= |staged| && more[..|staged|] == staged && |more| <= |staged| + 1
      ensures |more| > |staged| ==> more[|staged|].at == i && more[|staged|].fate in {Live, Discarded}
      ensures ok ==> left == [] && |more| > |staged| && LiveVerified(sha, files, m, more[|staged|])
      ensures ok ==> Suffices(sha, Partial(old(files), m, i), resp, m.All()[i])
      ensures reliable && Suffices(sha, Partial(old(files), m, i), resp, m.All()[i]) ==> ok
      // A claim that failed leaves no stage or an empty one.
      ensures left == [] || (more == staged && exists c :: left == [c] && LeftEmpty(m, i, old(files), files, c))
      ensures forall x: Path :: x.name != Name(m, i) ==> SameFile(old(files), files, x)
    {
      ghost var f := files;
      var stage;
      ghost var stays;
      stage, stays := ClaimPartial(m.dir, Name(m, i));
      left := [];
      if stage.None? {
        more := staged;
        if stays.Some? {
          ghost var c := Staged(i, stays.value, Stuck);
          Entered(sha, m, f0, f, files, staged, c);
          left := [c];
          assert LeftEmpty(m, i, f, files, c);
        } else {
          assert more + left == staged;
        }
        return false, more, left;
      }
      var c := Staged(i, stage.value.tag, Live);
      var k := |staged|;
      Entered(sha, m, f0, f, files, staged, c);
      ghost var g := files;
      more := staged + [c];
      ghost var last;
      ok, last := DownloadArtifact(m.All()[i], stage.value, resp);
      assert SameFile(g, files, PartPath(m, i));
      if stage.value in files {
        TracksChange(sha, f0, g, files, m, more, k, Live);
        assert WithFate(more, k, Live) == more;
      } else {
        TracksChange(sha, f0, g, files, m, more, k, Discarded);
        more := WithFate(more, k, Discarded);
      }
      assert more + left == more;
    }

    // The artifacts below i are valid or staged and verified.
    ghost predicate Staging(m: Manifest, valid: set<string>, staged: seq<Staged>, net: nat -> Response, i: nat,
                            f0: Files)
      reads this
    {
      && Tracks(sha, f0, files, m, staged) && Missing(sha, f0, m, staged) && Covered(m, valid, staged, i)
      && (forall x :: 0 <= x < i ==> Obtains(sha, f0, m, net, x))
      && forall j :: 0 <= j < |staged| ==> staged[j].at < i && LiveVerified(sha, files, m, staged[j])
    }

    // What the staging loop leaves for the rollback when it ends early.
    ghost predicate Interrupted(m: Manifest, staged: seq<Staged>, left: seq<Staged>, f0: Files)
      reads this
    {
      && Tracks(sha, f0, files, m, staged + left) && Missing(sha, f0, m, staged + left)
      && (forall x: Path :: x.Final? ==> SameFile(f0, files, x))
      && (forall j :: 0 <= j < |staged| ==> staged[j].fate != Stuck)
      && (left == [] || (|left| == 1 && left[0].fate == Stuck))
    }

    // One round of the staging loop.
    method StageNext(m: Manifest, valid: set<string>, i: nat, had: seq<Staged>, net: nat -> Response, ghost f0: Files)
      returns (ok: bool, staged: seq<Staged>, ghost left: seq<Staged>)
      requires Staging(m, valid, had, net, i, f0) && ValidNames(sha, f0, m, valid)
      requires i < |m.All()| && Name(m, i) !in valid
      modifies this`files
      ensures Interrupted(m, staged, left, f0)
      ensures ok ==> left == [] && Staging(m, valid, staged, net, i + 1, f0)
      ensures !ok ==> !reliable || !Obtains(sha, f0, m, net, i)
    {
      ghost var f := files;
      PartialKept(sha, f0, f, m, had, i);
      ok, staged, left := StageArtifact(m, i, had, net(i), f0);
      RoundStaged(sha, f0, m, valid, had, staged + left, i);
      NothingFinal(sha, f0, files, m, staged + left);
      assert forall j :: 0 <= j < |had| ==> staged[j] == staged[..|had|][j];
      if ok {
        assert staged + left == staged;
        StagedMore(sha, f, files, m, valid, had, staged, i);
      }
    }

    // The staging loop: on success every missing artifact is staged and verified.
    method StageMissing(m: Manifest, valid: set<string>, net: nat -> Response)
      returns (ok: bool, staged: seq<Staged>, ghost left: seq<Staged>)
      requires m.WellFormed() && ValidNames(sha, files, m, valid)
      modifies this`files
      ensures Interrupted(m, staged, left, old(files))
      ensures ok ==> left == [] && Staging(m, valid, staged, net, |m.All()|, old(files))
      ensures !ok ==> !reliable || !Obtainable(sha, old(files), m, net)
    {
      ghost var f0 := files;
      staged, left := [], [];
      for i := 0 to |m.All()|
        invariant left == [] && Staging(m, valid, staged, net, i, f0)
      {
        if Name(m, i) !in valid {
          ok, staged, left := StageNext(m, valid, i, staged, net, f0);
          if !ok {
            return;
          }
        }
      }
      NothingFinal(sha, f0, files, m, staged);
      assert staged + left == staged;
      ok := true;
    }

    // The first c claims are committed; the rest are as staged, live and verified.
    ghost predicate CommittedTo(c: nat, staged: seq<Staged>, claims: seq<Staged>, m: Manifest)
      reads this
    {
      && c <= |staged| == |claims|
      && (forall j :: 0 <= j < c ==> claims[j].fate == Committed)
      && forall j :: c <= j < |staged| ==> claims[j] == staged[j] && LiveVerified(sha, files, m, claims[j])
    }

    // The commit loop; the stages of a failed commit stay live from where it stopped.
    method CommitStaged(m: Manifest, staged: seq<Staged>, ghost f0: Files) returns (ok: bool, claims: seq<Staged>)
      requires Tracks(sha, f0, files, m, staged)
      requires forall j :: 0 <= j < |staged| ==> LiveVerified(sha, files, m, staged[j])
      modifies this`files
      ensures Tracks(sha, f0, files, m, claims) && |claims| == |staged|
      ensures SameClaimed(staged, claims)
      ensures exists c: nat :: CommittedTo(c, staged, claims, m) && (ok ==> c == |staged|)
      ensures reliable ==> ok
    {
      claims := staged;
      for k := 0 to |staged|
        invariant |claims| == |staged| && Tracks(sha, f0, files, m, claims)
        invariant forall j :: 0 <= j < |staged| ==> claims[j].at == staged[j].at
        invariant CommittedTo(k, staged, claims, m)
      {
        ghost var f := files;
        assert ClaimInv(sha, files, m, claims[k]);
        ok := CommitStagedFile(StagedPath(m, claims[k]), FinalPath(m, claims[k].at));
        StillVerified(sha, f, files, m, claims, claims[k].at);
        if StagedPath(m, claims[k]) !in files {
          TracksChange(sha, f0, f, files, m, claims, k, Committed);
          claims := WithFate(claims, k, Committed);
          assert CommittedTo(k + 1, staged, claims, m);
        } else {
          assert files == f && CommittedTo(k, staged, claims, m);
        }
        if !ok {
          return;
        }
      }
      assert CommittedTo(|staged|, staged, claims, m);
      ok := true;
    }

    // verifyManifestDirectory.
    method VerifyDirectory(m: Manifest) returns (ok: bool)
      ensures ok <==> forall i :: 0 <= i < |m.All()| ==> FileVerifies(sha, files, FinalPath(m, i), m.All()[i])
    {
      for i := 0 to |m.All()|
        invariant forall x :: 0 <= x < i ==> FileVerifies(sha, files, FinalPath(m, x), m.All()[x])
      {
        if !FileVerifies(sha, files, FinalPath(m, i), m.All()[i]) {
          return false;
        }
      }
      return true;
    }

    // EnsureArtifacts from the second plan to the deferred rollback. renames: which of the
    // rollback's renames work.
    method Install(m: Manifest, fits: bool, net: nat -> Response, renames: nat -> bool)
      returns (r: Option<Installed>, ghost claims: seq<Staged>)
      requires m.WellFormed()
      modifies this`files
      // Nothing but what the claims account for has changed, and no live stage is left.
      ensures Tracks(sha, old(files), files, m, claims) && NoneLive(claims)
      // A stage stays only if its move back failed, or its claim did, which was the last then.
      ensures forall j :: 0 <= j < |claims| && claims[j].fate == Stuck ==> r.None? && (!renames(j) || j == |claims| - 1)
      // Only missing artifacts are claimed.
      ensures Missing(sha, old(files), m, claims)
      // It succeeds only if the plan fits and the answers complete what is missing, and then
      // it does unless a file operation fails.
      ensures r.Some? ==> fits && Obtainable(sha, old(files), m, net)
      ensures reliable && fits && Obtainable(sha, old(files), m, net) ==> r.Some?
      // The result names a file for each model file and for the projector.
      ensures r.Some? ==>
                && |r.value.modelFiles| == |m.models| && r.value.model == r.value.modelFiles[0]
                && (forall i :: 0 <= i < |m.models| ==> r.value.modelFiles[i] == Final(m.dir, m.models[i].filename))
                && (m.mmproj.None? ==> r.value.mmproj.None?)
                && (m.mmproj.Some? ==> r.value.mmproj == Some(Final(m.dir, m.mmproj.value.filename)))
      // Each of them has the size, the magic number and the hash of its artifact.
      ensures r.Some? ==>
                forall a :: a in m.models || m.mmproj == Some(a) ==>
                  && Final(m.dir, a.filename) in files
                  && var c := files[Final(m.dir, a.filename)];
                  && |c| == a.size && |c| >= 4 && sha(c) == a.sha256
                  && c[0] == 0x47 && c[1] == 0x47 && c[2] == 0x55 && c[3] == 0x46
      ensures r.Some? ==> forall j :: 0 <= j < |claims| ==> claims[j].fate == Committed
      ensures !fits ==> files == old(files)
    {
      ghost var f0 := files;
      var valid := PlanValid(m);
      if !fits {
        return None, [];
      }
      var ok, staged;
      ghost var left;
      ok, staged, left := StageMissing(m, valid, net);
      // Nothing becomes visible until the whole missing set is staged and verified.
      ghost var had := staged + left;
      if ok {
        assert staged + left == staged;
        ghost var live := staged;
        ok, staged := CommitStaged(m, staged, f0);
        assert staged + left == staged;
        CoveredSame(m, valid, live, staged);
      }
      MissingSame(sha, f0, m, had, staged + left);
      // syncDirectory may fail.
      if ok {
        var failed := Fails();
        ok := !failed;
      }
      if ok {
        AllInPlace(sha, f0, files, m, valid, staged);
        ok := VerifyDirectory(m);
      }
      if !ok {
        claims := Rollback(m, staged, renames, left, f0);
        RollbackEnds(staged, left, renames);
        MissingSame(sha, f0, m, staged + left, claims);
        return None, claims;
      }
      InPlaceMeans(sha, files, m);
      return Some(LocalPaths(m)), staged;
    }
  }
}
