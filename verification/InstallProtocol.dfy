/** Several processes run EnsureArtifacts over shared models directories
    (internal/llm/llamacpp/download.go and filelock_unix.go). One step of one
    process is one file operation, one lock operation or one decision; a crash
    may replace any step. The network and the host profiler are the choices
    inside the actions. */
module InstallProtocol {
  import opened Artifacts

  type Pid = nat

  datatype Lock = Acquisition(root: string) | ManifestLock(dir: Dir)

  // The fate of a claimed stage. Discarded: deleted because its content failed verification.
  // Stuck: left behind, because removing it or moving it back failed.
  datatype Fate = Live | Committed | PutBack | Discarded | Stuck

  // at: position of the artifact in the manifest.
  datatype Staged = Staged(at: nat, tag: nat, fate: Fate)

  datatype After = Usable | GiveUp | Online

  datatype Pc =
    | Idle
    | CacheWait               // waits for the manifest lock of a cached manifest
    | CachePlan(i: nat)       // hashes artifact i of the cached manifest
    | FreeCache(after: After)
    | Remote                  // no cached manifest, or it was incomplete
    | AcqWait                 // waits for the acquisition lock
    | ManWait                 // holds it and waits for the manifest lock
    | Plan(i: nat)            // hashes artifact i
    | Next(i: nat)            // head of the staging loop
    | Temp(i: nat, tag: nat)  // created the temporary file of a claim
    | Gone(i: nat, tag: nat)  // removed it to make room for the partial
    | Fetch(i: nat)           // downloads into the stage claimed last
    | Commit(k: nat)
    | Check(k: nat)           // verifies the final paths again
    | Undo(k: nat)            // the deferred rollback
    | FreeMan(ok: bool)
    | FreeAcq(ok: bool)
    | Finished(ok: bool)
    | Crashed

  // valid: filenames found valid by the plan. fits: the decision of the fit gate.
  datatype Proc = Proc(m: Manifest, pc: Pc, valid: set<string>, staged: seq<Staged>, fits: bool)

  // owner is a history variable: which process created an existing staging file.
  datatype Sys = Sys(files: Files, owner: map<Path, Pid>, locks: map<Lock, Pid>, procs: map<Pid, Proc>)

  // spec: the artifact a commit publishes under a filename. residue: staging files
  // that were there at the start.
  datatype World = World(sha: Content -> Digest, spec: (Dir, string) -> Artifact, residue: set<Path>)

  datatype Action =
    | BeginCached(cached: Manifest)
    | BeginRemote(resolved: Manifest)
    | Acquire
    | Cancel
    | Hash
    | Decide(fit: bool)
    | Fail            // an operation of the current step returns an error
    | Skip
    | MakeTemp(tag: nat)
    | KeepTemp
    | DropTemp
    | TakePart
    | Write(content: Content)
    | Verify
    | StartCommit
    | Rename(chmod: bool)
    | StartCheck
    | Recheck
    | Return
    | Restore
    | Abandon         // a claim fails, and so does the removal of its temporary file
    | Strand          // the rollback fails to move a stage back
    | EndUndo
    | Release
    | Crash

  // ---------- locks held at a program point ----------

  predicate HoldsManifest(pc: Pc) {
    pc.CachePlan? || pc.FreeCache? || Installing(pc) || pc.FreeMan?
  }

  predicate HoldsAcquisition(pc: Pc) {
    pc.ManWait? || Installing(pc) || pc.FreeMan? || pc.FreeAcq?
  }

  // From the second plan to the end of the rollback.
  predicate Installing(pc: Pc) {
    pc.Plan? || Downloading(pc) || pc.Check? || pc.Undo?
  }

  predicate Downloading(pc: Pc) {
    pc.Next? || pc.Temp? || pc.Gone? || pc.Fetch? || pc.Commit?
  }

  predicate Waiting(pc: Pc) {
    pc.CacheWait? || pc.AcqWait? || pc.ManWait?
  }

  predicate Over(pc: Pc) {
    pc.Finished? || pc.Crashed?
  }

  // Has a manifest and is installing it, or has installed it.
  predicate Informed(pc: Pc) {
    Waiting(pc) || HoldsManifest(pc) || pc.FreeAcq? || (pc.Finished? && pc.ok)
  }

  function Wanted(q: Proc): Lock {
    if q.pc.AcqWait? then Acquisition(q.m.dir.root) else ManifestLock(q.m.dir)
  }

  function Dropped(q: Proc): Lock {
    if q.pc.FreeAcq? then Acquisition(q.m.dir.root) else ManifestLock(q.m.dir)
  }

  predicate HoldsLock(q: Proc, l: Lock) {
    match l
    case Acquisition(root) => HoldsAcquisition(q.pc) && q.m.dir.root == root
    case ManifestLock(dir) => HoldsManifest(q.pc) && q.m.dir == dir
  }

  // ---------- derived names ----------

  function Name(m: Manifest, i: nat): string
    requires i < |m.All()|
  {
    m.All()[i].filename
  }

  function FinalPath(m: Manifest, i: nat): Path
    requires i < |m.All()|
  {
    Final(m.dir, Name(m, i))
  }

  function PartPath(m: Manifest, i: nat): Path
    requires i < |m.All()|
  {
    Part(m.dir, Name(m, i))
  }

  function StagePath(m: Manifest, i: nat, tag: nat): Path
    requires i < |m.All()|
  {
    Stage(m.dir, Name(m, i), tag)
  }

  function StagedPath(m: Manifest, c: Staged): Path
    requires c.at < |m.All()|
  {
    StagePath(m, c.at, c.tag)
  }

  function Last(q: Proc): Staged
    requires |q.staged| > 0
  {
    q.staged[|q.staged| - 1]
  }

  // "Manifests of one commit agree": every manifest lists what the commit publishes.
  ghost predicate Admissible(w: World, m: Manifest) {
    m.WellFormed() && forall i :: 0 <= i < |m.All()| ==> w.spec(m.dir, m.All()[i].filename) == m.All()[i]
  }

  ghost predicate FinalGood(w: World, files: Files, dir: Dir, name: string) {
    FileVerifies(w.sha, files, Final(dir, name), w.spec(dir, name))
  }

  // allArtifactsValid; a well-formed manifest lists a model.
  ghost predicate Complete(m: Manifest, valid: set<string>) {
    forall i :: 0 <= i < |m.All()| ==> m.All()[i].filename in valid
  }

  ghost predicate AllGood(w: World, files: Files, m: Manifest) {
    forall i :: 0 <= i < |m.All()| ==> FinalGood(w, files, m.dir, m.All()[i].filename)
  }

  // ---------- steps ----------

  ghost predicate Enabled(w: World, s: Sys, p: Pid, a: Action) {
    p in s.procs &&
    var q := s.procs[p];
    var n := |q.m.All()|;
    match a
    case BeginCached(m) => q.pc.Idle? && Admissible(w, m)
    case BeginRemote(m) => (q.pc.Idle? || q.pc.Remote?) && Admissible(w, m)
    case Acquire => Waiting(q.pc) && Wanted(q) !in s.locks
    case Cancel => Waiting(q.pc)
    case Hash => (q.pc.CachePlan? || q.pc.Plan?) && q.pc.i < n
    case Decide(_) => (q.pc.CachePlan? || q.pc.Plan?) && q.pc.i == n
    case Fail => q.pc.Idle? || q.pc.Remote? || q.pc.CachePlan? || q.pc.Plan? || Downloading(q.pc) || q.pc.Check?
    case Skip => q.pc.Next? && q.pc.i < n && Name(q.m, q.pc.i) in q.valid
    case MakeTemp(tag) =>
      q.pc.Next? && q.pc.i < n && Name(q.m, q.pc.i) !in q.valid && StagePath(q.m, q.pc.i, tag) !in s.files
    case KeepTemp => q.pc.Temp? && q.pc.i < n && PartPath(q.m, q.pc.i) !in s.files
    case DropTemp => q.pc.Temp? && q.pc.i < n && PartPath(q.m, q.pc.i) in s.files
    case TakePart => q.pc.Gone? && q.pc.i < n && PartPath(q.m, q.pc.i) in s.files
    case Write(_) => q.pc.Fetch? && HasLast(s, q)
    case Verify => q.pc.Fetch? && HasLast(s, q)
    case StartCommit => q.pc.Next? && q.pc.i == n
    case Rename(_) => q.pc.Commit? && q.pc.k < |q.staged| && q.staged[q.pc.k].at < n &&
      StagedPath(q.m, q.staged[q.pc.k]) in s.files
    case StartCheck => q.pc.Commit? && q.pc.k == |q.staged|
    case Recheck => q.pc.Check? && q.pc.k < n
    case Return => q.pc.Check? && q.pc.k == n
    case Restore => q.pc.Undo? && q.pc.k < |q.staged| && q.staged[q.pc.k].at < n
    case Abandon => q.pc.Temp? && q.pc.i < n
    case Strand => q.pc.Undo? && q.pc.k < |q.staged| && q.staged[q.pc.k].at < n && CanRestore(s, q)
    case EndUndo => q.pc.Undo? && q.pc.k == |q.staged|
    case Release => q.pc.FreeCache? || q.pc.FreeMan? || q.pc.FreeAcq?
    case Crash => !Over(q.pc)
  }

  // The stage being downloaded exists.
  predicate HasLast(s: Sys, q: Proc) {
    |q.staged| > 0 && Last(q).at < |q.m.All()| && StagedPath(q.m, Last(q)) in s.files
  }

  function SetFate(q: Proc, j: nat, fate: Fate): Proc
    requires j < |q.staged|
  {
    q.(staged := q.staged[j := q.staged[j].(fate := fate)])
  }

  function Claim(q: Proc): Proc
    requires q.pc.Temp? || q.pc.Gone?
  {
    q.(pc := Fetch(q.pc.i), staged := q.staged + [Staged(q.pc.i, q.pc.tag, Live)])
  }

  // Whether the stage downloaded last passes verification.
  ghost predicate LastGood(w: World, s: Sys, q: Proc)
    requires HasLast(s, q)
  {
    Verifies(w.sha, s.files[StagedPath(q.m, Last(q))], q.m.All()[Last(q).at])
  }

  // Whether the rollback knows of the stage, finds it and finds a free stable name.
  predicate CanRestore(s: Sys, q: Proc)
    requires q.pc.Undo? && q.pc.k < |q.staged| && q.staged[q.pc.k].at < |q.m.All()|
  {
    && q.staged[q.pc.k].fate != Stuck
    && StagedPath(q.m, q.staged[q.pc.k]) in s.files && PartPath(q.m, q.staged[q.pc.k].at) !in s.files
  }

  // The local state of p after the step.
  ghost function NextProc(w: World, s: Sys, p: Pid, a: Action): Proc
    requires Enabled(w, s, p, a)
  {
    var q := s.procs[p];
    match a
    case BeginCached(m) => q.(m := m, pc := CacheWait, valid := {})
    case BeginRemote(m) => q.(m := m, pc := AcqWait, valid := {})
    case Acquire => q.(pc := if q.pc.CacheWait? then CachePlan(0) else if q.pc.AcqWait? then ManWait else Plan(0))
    case Cancel => q.(pc := if q.pc.ManWait? then FreeAcq(false) else Finished(false))
    case Hash =>
      var good := FileVerifies(w.sha, s.files, FinalPath(q.m, q.pc.i), q.m.All()[q.pc.i]);
      q.(valid := if good then q.valid + {Name(q.m, q.pc.i)} else q.valid,
         pc := if q.pc.Plan? then Plan(q.pc.i + 1) else CachePlan(q.pc.i + 1))
    case Decide(fit) =>
      // After the second plan nothing is staged yet: the refusal has nothing to roll back.
      if q.pc.Plan? then q.(fits := fit, pc := if fit then Next(0) else FreeMan(false))
      else
        q.(pc := FreeCache(if !Complete(q.m, q.valid) then Online else if fit then Usable else GiveUp))
    case Fail => q.(pc := if q.pc.Idle? || q.pc.Remote? then Finished(false)
                          else if q.pc.CachePlan? then FreeCache(GiveUp)
                          else if q.pc.Plan? then FreeMan(false)
                          else Undo(0))
    case Skip => q.(pc := Next(q.pc.i + 1))
    case MakeTemp(tag) => q.(pc := Temp(q.pc.i, tag))
    case KeepTemp => Claim(q)
    case DropTemp => q.(pc := Gone(q.pc.i, q.pc.tag))
    case TakePart => Claim(q)
    case Write(_) => q
    case Verify =>
      if LastGood(w, s, q) then q.(pc := Next(q.pc.i + 1))
      else SetFate(q, |q.staged| - 1, Discarded).(pc := Undo(0))
    case StartCommit => q.(pc := Commit(0))
    case Rename(chmod) => SetFate(q, q.pc.k, Committed).(pc := if chmod then Commit(q.pc.k + 1) else Undo(0))
    case StartCheck => q.(pc := Check(0))
    case Recheck =>
      var good := FileVerifies(w.sha, s.files, FinalPath(q.m, q.pc.k), q.m.All()[q.pc.k]);
      q.(pc := if good then Check(q.pc.k + 1) else Undo(0))
    case Return => q.(pc := FreeMan(true))
    case Restore => (if CanRestore(s, q) then SetFate(q, q.pc.k, PutBack) else q).(pc := Undo(q.pc.k + 1))
    // The temporary file is recorded as a stage that stays; the rollback leaves it alone.
    case Abandon => q.(pc := Undo(0), staged := q.staged + [Staged(q.pc.i, q.pc.tag, Stuck)])
    case Strand => SetFate(q, q.pc.k, Stuck).(pc := Undo(q.pc.k + 1))
    case EndUndo => q.(pc := FreeMan(false))
    case Release =>
      q.(pc := if q.pc.FreeMan? then FreeAcq(q.pc.ok)
               else if q.pc.FreeAcq? then Finished(q.pc.ok)
               else if q.pc.after.Online? then Remote
               else Finished(q.pc.after.Usable?))
    case Crash => q.(pc := Crashed)
  }

  ghost function NextFiles(w: World, s: Sys, p: Pid, a: Action): Files
    requires Enabled(w, s, p, a)
  {
    var q := s.procs[p];
    match a
    case MakeTemp(tag) => s.files[StagePath(q.m, q.pc.i, tag) := []]
    case DropTemp => s.files - {StagePath(q.m, q.pc.i, q.pc.tag)}
    case Fail => if q.pc.Temp? && q.pc.i < |q.m.All()| then s.files - {StagePath(q.m, q.pc.i, q.pc.tag)} else s.files
    case TakePart => Renamed(s.files, PartPath(q.m, q.pc.i), StagePath(q.m, q.pc.i, q.pc.tag))
    case Write(c) => s.files[StagedPath(q.m, Last(q)) := c]
    case Verify => if LastGood(w, s, q) then s.files else s.files - {StagedPath(q.m, Last(q))}
    case Rename(_) => Renamed(s.files, StagedPath(q.m, q.staged[q.pc.k]), FinalPath(q.m, q.staged[q.pc.k].at))
    case Restore =>
      if CanRestore(s, q) then Renamed(s.files, StagedPath(q.m, q.staged[q.pc.k]), PartPath(q.m, q.staged[q.pc.k].at))
          else s.files
    case _ => s.files
  }

  // A staging file has an owner from its creation until it is renamed away or removed.
  ghost function NextOwner(w: World, s: Sys, p: Pid, a: Action): map<Path, Pid>
    requires Enabled(w, s, p, a)
  {
    var q := s.procs[p];
    match a
    case MakeTemp(tag) => s.owner[StagePath(q.m, q.pc.i, tag) := p]
    case DropTemp => s.owner - {StagePath(q.m, q.pc.i, q.pc.tag)}
    case Fail => if q.pc.Temp? && q.pc.i < |q.m.All()| then s.owner - {StagePath(q.m, q.pc.i, q.pc.tag)} else s.owner
    case TakePart => s.owner[StagePath(q.m, q.pc.i, q.pc.tag) := p]
    case Verify => if LastGood(w, s, q) then s.owner else s.owner - {StagedPath(q.m, Last(q))}
    case Rename(_) => s.owner - {StagedPath(q.m, q.staged[q.pc.k])}
    case Restore => if CanRestore(s, q) then s.owner - {StagedPath(q.m, q.staged[q.pc.k])} else s.owner
    case _ => s.owner
  }

  ghost function NextLocks(w: World, s: Sys, p: Pid, a: Action): map<Lock, Pid>
    requires Enabled(w, s, p, a)
  {
    var q := s.procs[p];
    match a
    case Acquire => s.locks[Wanted(q) := p]
    case Release => s.locks - {Dropped(q)}
    // A crash closes the descriptors of the process, so the kernel drops its locks.
    case Crash => map l | l in s.locks && s.locks[l] != p :: s.locks[l]
    case _ => s.locks
  }

  ghost function Do(w: World, s: Sys, p: Pid, a: Action): Sys
    requires Enabled(w, s, p, a)
  {
    Sys(NextFiles(w, s, p, a), NextOwner(w, s, p, a), NextLocks(w, s, p, a), s.procs[p := NextProc(w, s, p, a)])
  }

  // ---------- the invariant ----------

  // p has exactly the locks its program point requires.
  ghost predicate Locking(s: Sys, p: Pid, q: Proc) {
    forall l :: HoldsLock(q, l) <==> l in s.locks && s.locks[l] == p
  }

  ghost predicate OwnedBy(owner: map<Path, Pid>, x: Path, p: Pid) {
    x in owner && owner[x] == p
  }

  // What holds of a claimed stage, by fate.
  ghost predicate StagedInv(w: World, s: Sys, p: Pid, m: Manifest, c: Staged) {
    c.at < |m.All()| &&
    match c.fate
    case Live =>
      StagedPath(m, c) in s.files && OwnedBy(s.owner, StagedPath(m, c), p) && PartPath(m, c.at) !in s.files
    case Committed => FinalGood(w, s.files, m.dir, Name(m, c.at)) && StagedPath(m, c) !in s.files
    case PutBack => PartPath(m, c.at) in s.files && StagedPath(m, c) !in s.files
    case Discarded => StagedPath(m, c) !in s.files
    case Stuck => true
  }

  ghost predicate StagesInv(w: World, s: Sys, p: Pid, m: Manifest, staged: seq<Staged>) {
    forall j :: 0 <= j < |staged| ==> StagedInv(w, s, p, m, staged[j])
  }

  ghost predicate LiveVerified(sha: Content -> Digest, files: Files, m: Manifest, c: Staged) {
    c.fate == Live && c.at < |m.All()| && FileVerifies(sha, files, StagedPath(m, c), m.All()[c.at])
  }

  // Claims follow the manifest order, below position i.
  ghost predicate Ordered(staged: seq<Staged>, i: nat) {
    (forall j :: 0 <= j < |staged| ==> staged[j].at < i) &&
    (forall j, l :: 0 <= j < l < |staged| ==> staged[j].at < staged[l].at)
  }

  ghost predicate IsStaged(staged: seq<Staged>, x: nat) {
    exists j :: 0 <= j < |staged| && staged[j].at == x
  }

  // Every artifact below i is valid or staged.
  ghost predicate Covered(m: Manifest, valid: set<string>, staged: seq<Staged>, i: nat) {
    i <= |m.All()| && forall x :: 0 <= x < i ==> Name(m, x) in valid || IsStaged(staged, x)
  }

  // Stages before k are committed, the others are live and verified.
  ghost predicate Progress(w: World, files: Files, m: Manifest, staged: seq<Staged>, k: nat) {
    k <= |staged| &&
    (forall j :: 0 <= j < k ==> staged[j].fate == Committed) &&
    (forall j :: k <= j < |staged| ==> LiveVerified(w.sha, files, m, staged[j]))
  }

  ghost predicate Settled(staged: seq<Staged>, k: nat) {
    k <= |staged| && forall j :: 0 <= j < k ==> !staged[j].fate.Live?
  }

  ghost predicate StagingInv(w: World, s: Sys, q: Proc, i: nat) {
    q.fits && Ordered(q.staged, i) && Covered(q.m, q.valid, q.staged, i) && Progress(w, s.files, q.m, q.staged, 0)
  }

  ghost predicate PhaseInv(w: World, s: Sys, p: Pid, q: Proc) {
    var n := |q.m.All()|;
    match q.pc
    case FreeCache(after) => q.staged == [] && (after == Usable ==> AllGood(w, s.files, q.m))
    case Plan(i) => q.staged == [] && i <= n
    case CachePlan(i) => q.staged == [] && i <= n
    case Next(i) => StagingInv(w, s, q, i)
    case Temp(i, tag) => StagingInv(w, s, q, i) && i < n && OwnTemp(s, p, q.m, i, tag)
    case Gone(i, tag) => StagingInv(w, s, q, i) && i < n && OpenSlot(s, q.m, i, tag)
    case Fetch(i) =>
      q.fits && i < n && Ordered(q.staged, i + 1) && Covered(q.m, q.valid, q.staged, i + 1) &&
      |q.staged| > 0 && Last(q).at == i && Last(q).fate == Live &&
      Progress(w, s.files, q.m, q.staged[..|q.staged| - 1], 0)
    case Commit(k) => q.fits && Ordered(q.staged, n) && Covered(q.m, q.valid, q.staged, n) &&
      Progress(w, s.files, q.m, q.staged, k)
    case Check(k) => k <= n && Ordered(q.staged, n) && AllGood(w, s.files, q.m) && Settled(q.staged, |q.staged|)
    case Undo(k) => Ordered(q.staged, n) && Settled(q.staged, k)
    case FreeMan(ok) => (ok ==> AllGood(w, s.files, q.m)) && Settled(q.staged, |q.staged|)
    case FreeAcq(ok) => ok ==> AllGood(w, s.files, q.m)
    case Finished(ok) => ok ==> AllGood(w, s.files, q.m)
    case Crashed => true
    case _ => q.staged == [] && (Waiting(q.pc) ==> q.valid == {})
  }

  ghost predicate OwnTemp(s: Sys, p: Pid, m: Manifest, i: nat, tag: nat)
    requires i < |m.All()|
  {
    StagePath(m, i, tag) in s.files && OwnedBy(s.owner, StagePath(m, i, tag), p)
  }

  ghost predicate OpenSlot(s: Sys, m: Manifest, i: nat, tag: nat)
    requires i < |m.All()|
  {
    StagePath(m, i, tag) !in s.files && PartPath(m, i) in s.files
  }

  ghost predicate IsStageOf(m: Manifest, staged: seq<Staged>, fate: Fate, x: Path) {
    exists j :: 0 <= j < |staged| && staged[j].at < |m.All()| && staged[j].fate == fate && x == StagedPath(m, staged[j])
  }

  // A staging file of p is a live stage, the temporary file of the current claim, or stuck.
  ghost predicate Accounted(q: Proc, x: Path) {
    || q.pc.Crashed?
    || (q.pc.Temp? && q.pc.i < |q.m.All()| && x == StagePath(q.m, q.pc.i, q.pc.tag))
    || ((Downloading(q.pc) || q.pc.Undo?) && IsStageOf(q.m, q.staged, Live, x))
    || IsStageOf(q.m, q.staged, Stuck, x)
  }

  ghost predicate AccountInv(owner: map<Path, Pid>, p: Pid, q: Proc) {
    forall x :: OwnedBy(owner, x, p) ==> Accounted(q, x)
  }

  // What the plan found valid stays valid while the lock is held.
  ghost predicate ValidInv(w: World, files: Files, dir: Dir, valid: set<string>) {
    forall name :: name in valid ==> FinalGood(w, files, dir, name)
  }

  // The locks of p apart.
  ghost predicate LocalInv(w: World, s: Sys, p: Pid, q: Proc) {
    && (Informed(q.pc) ==> Admissible(w, q.m))
    && (HoldsManifest(q.pc) ==> ValidInv(w, s.files, q.m.dir, q.valid))
    && PhaseInv(w, s, p, q)
    && (Installing(q.pc) || q.pc.FreeMan? ==> StagesInv(w, s, p, q.m, q.staged))
    && AccountInv(s.owner, p, q)
  }

  ghost predicate ProcInv(w: World, s: Sys, p: Pid, q: Proc) {
    Locking(s, p, q) && LocalInv(w, s, p, q)
  }

  ghost predicate OwnersInv(w: World, s: Sys) {
    && (forall x :: x in s.owner ==> x.Stage? && x in s.files && s.owner[x] in s.procs)
    && (forall x :: x in s.files && x.Stage? ==> x in s.owner || x in w.residue)
  }

  ghost predicate Inv(w: World, s: Sys) {
    && (forall p :: p in s.procs ==> ProcInv(w, s, p, s.procs[p]))
    && (forall l :: l in s.locks ==> s.locks[l] in s.procs)
    && OwnersInv(w, s)
  }

  ghost predicate Init(w: World, s: Sys) {
    && s.owner == map[] && s.locks == map[]
    && (forall p :: p in s.procs ==> s.procs[p].pc.Idle? && s.procs[p].staged == [])
    && (forall x :: x in s.files && x.Stage? ==> x in w.residue)
  }
}
