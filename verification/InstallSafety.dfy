/** What every run of the installation protocol keeps, and what a finished
    process can rely on. */
module InstallSafety {
  import opened Artifacts
  import opened InstallProtocol

  // ---------- what one step may change ----------

  ghost predicate SameDir(f: Files, g: Files, dir: Dir) {
    forall x: Path :: x.dir == dir ==> SameFile(f, g, x)
  }

  // A step of p touches files of its own manifest directory only, and only under
  // its lock; a good final path stays good; staging files of others stay theirs.
  ghost predicate Framed(w: World, s: Sys, t: Sys, p: Pid) {
    p in s.procs &&
    var q := s.procs[p];
    && (forall dir :: dir != q.m.dir || !HoldsManifest(q.pc) ==> SameDir(s.files, t.files, dir))
    && FinalsStay(w, s, t)
    && SameOwners(s, t, p)
  }

  // What the invariant says of one process and of the staging files.
  ghost predicate Here(w: World, s: Sys, p: Pid) {
    p in s.procs && LocalInv(w, s, p, s.procs[p]) && OwnersInv(w, s)
  }

  ghost predicate Moves(a: Action) {
    a.TakePart? || a.Rename? || a.Restore?
  }

  ghost predicate Writes(a: Action) {
    a.Write? || a.Verify? || a.MakeTemp? || a.DropTemp? || a.Fail?
  }

  ghost predicate SameOwners(s: Sys, t: Sys, p: Pid) {
    forall x, r :: r != p ==> (OwnedBy(t.owner, x, r) <==> OwnedBy(s.owner, x, r))
  }

  lemma RenameFrame(w: World, s: Sys, t: Sys, p: Pid, from: Path, to: Path)
    requires p in s.procs && HoldsManifest(s.procs[p].pc)
    requires from.dir == to.dir == s.procs[p].m.dir && !from.Final? && from in s.files
    requires to.Final? ==> Verifies(w.sha, s.files[from], w.spec(to.dir, to.name))
    requires t.files == Renamed(s.files, from, to) && SameOwners(s, t, p)
    ensures Framed(w, s, t, p)
  {
    forall x: Path | x != from && x != to
      ensures SameFile(s.files, t.files, x)
    {
    }
    forall dir, name | FinalGood(w, s.files, dir, name)
      ensures FinalGood(w, t.files, dir, name)
    {
      assert Final(dir, name) != to ==> SameFile(s.files, t.files, Final(dir, name));
    }
  }

  lemma EditFrame(w: World, s: Sys, t: Sys, p: Pid, x: Path)
    requires p in s.procs && HoldsManifest(s.procs[p].pc)
    requires x.dir == s.procs[p].m.dir && x.Stage? && SameOwners(s, t, p)
    requires forall y :: y != x ==> SameFile(s.files, t.files, y)
    ensures Framed(w, s, t, p)
  {
    forall dir, name | FinalGood(w, s.files, dir, name)
      ensures FinalGood(w, t.files, dir, name)
    {
      assert SameFile(s.files, t.files, Final(dir, name));
    }
  }

  lemma MoveFrame(w: World, s: Sys, p: Pid, a: Action)
    requires Here(w, s, p) && Enabled(w, s, p, a) && Moves(a)
    ensures Framed(w, s, Do(w, s, p, a), p)
  {
    var q := s.procs[p];
    var t := Do(w, s, p, a);
    match a
    case Rename(_) =>
      assert LiveVerified(w.sha, s.files, q.m, q.staged[q.pc.k]);
      assert StagedInv(w, s, p, q.m, q.staged[q.pc.k]);
      assert SameOwners(s, t, p);
      RenameFrame(w, s, t, p, StagedPath(q.m, q.staged[q.pc.k]), FinalPath(q.m, q.staged[q.pc.k].at));
    case Restore =>
      assert StagedInv(w, s, p, q.m, q.staged[q.pc.k]);
      assert SameOwners(s, t, p);
      if CanRestore(s, q) {
        RenameFrame(w, s, t, p, StagedPath(q.m, q.staged[q.pc.k]), PartPath(q.m, q.staged[q.pc.k].at));
      }
    case TakePart =>
      assert StagePath(q.m, q.pc.i, q.pc.tag) !in s.owner;
      assert SameOwners(s, t, p);
      RenameFrame(w, s, t, p, PartPath(q.m, q.pc.i), StagePath(q.m, q.pc.i, q.pc.tag));
  }

  lemma StageFrame(w: World, s: Sys, p: Pid, a: Action)
    requires Here(w, s, p) && Enabled(w, s, p, a) && (a.Write? || a.Verify?)
    ensures Framed(w, s, Do(w, s, p, a), p)
  {
    var q := s.procs[p];
    assert StagedInv(w, s, p, q.m, Last(q));
    EditFrame(w, s, Do(w, s, p, a), p, StagedPath(q.m, Last(q)));
  }

  lemma WriteFrame(w: World, s: Sys, p: Pid, a: Action)
    requires Here(w, s, p) && Enabled(w, s, p, a) && Writes(a)
    ensures Framed(w, s, Do(w, s, p, a), p)
  {
    var q := s.procs[p];
    var t := Do(w, s, p, a);
    if a.Write? || a.Verify? {
      StageFrame(w, s, p, a);
    } else if a.MakeTemp? {
      assert StagePath(q.m, q.pc.i, a.tag) !in s.owner;
      EditFrame(w, s, t, p, StagePath(q.m, q.pc.i, a.tag));
    } else if a.DropTemp? || q.pc.Temp? {
      EditFrame(w, s, t, p, StagePath(q.m, q.pc.i, q.pc.tag));
    } else {
      assert t.files == s.files && t.owner == s.owner;
    }
  }

  lemma StepFrame(w: World, s: Sys, p: Pid, a: Action)
    requires Here(w, s, p) && Enabled(w, s, p, a)
    ensures Framed(w, s, Do(w, s, p, a), p)
  {
    if Moves(a) {
      MoveFrame(w, s, p, a);
    } else if Writes(a) {
      WriteFrame(w, s, p, a);
    } else {
      assert NextFiles(w, s, p, a) == s.files && NextOwner(w, s, p, a) == s.owner;
    }
  }

  // ---------- locks ----------

  ghost predicate LocksInv(s: Sys) {
    && (forall p :: p in s.procs ==> Locking(s, p, s.procs[p]))
    && (forall l :: l in s.locks ==> s.locks[l] in s.procs)
  }

  // A step takes the lock waited for, drops one lock, drops all, or keeps what it has.
  lemma LockEffect(w: World, s: Sys, p: Pid, a: Action, l: Lock)
    requires Enabled(w, s, p, a)
    ensures HoldsLock(NextProc(w, s, p, a), l) <==>
              (HoldsLock(s.procs[p], l) && !(a.Release? && l == Dropped(s.procs[p])) && !a.Crash?) ||
              (a.Acquire? && l == Wanted(s.procs[p]))
  {
    var q, q' := s.procs[p], NextProc(w, s, p, a);
    if a.BeginCached? || a.BeginRemote? {
      assert !HoldsLock(q, l) && !HoldsLock(q', l);
    } else {
      assert q'.m == q.m;
    }
  }

  ghost predicate HeldBy(locks: map<Lock, Pid>, l: Lock, r: Pid) {
    l in locks && locks[l] == r
  }

  // The step's own locks.
  lemma OwnLock(w: World, s: Sys, p: Pid, a: Action, l: Lock)
    requires Enabled(w, s, p, a) && Locking(s, p, s.procs[p])
    ensures HoldsLock(NextProc(w, s, p, a), l) <==> HeldBy(NextLocks(w, s, p, a), l, p)
  {
    LockEffect(w, s, p, a, l);
    OwnLocksAfter(w, s, p, a, l);
  }

  lemma OwnLocksAfter(w: World, s: Sys, p: Pid, a: Action, l: Lock)
    requires Enabled(w, s, p, a) && Locking(s, p, s.procs[p])
    ensures HeldBy(NextLocks(w, s, p, a), l, p) <==>
              (HoldsLock(s.procs[p], l) && !(a.Release? && l == Dropped(s.procs[p])) && !a.Crash?) ||
              (a.Acquire? && l == Wanted(s.procs[p]))
  {
  }

  lemma LockStep(w: World, s: Sys, p: Pid, a: Action, r: Pid, l: Lock)
    requires LocksInv(s) && Enabled(w, s, p, a) && r in s.procs
    ensures HoldsLock(if r == p then NextProc(w, s, p, a) else s.procs[r], l) <==> HeldBy(NextLocks(w, s, p, a), l, r)
  {
    if r == p {
      assert Locking(s, p, s.procs[p]);
      OwnLock(w, s, p, a, l);
    } else {
      assert Locking(s, p, s.procs[p]);
      OtherLock(w, s, p, a, r, l);
      Held(s, r, l);
    }
  }

  lemma Held(s: Sys, r: Pid, l: Lock)
    requires LocksInv(s) && r in s.procs
    ensures HoldsLock(s.procs[r], l) <==> l in s.locks && s.locks[l] == r
  {
    assert Locking(s, r, s.procs[r]);
  }

  lemma OtherLock(w: World, s: Sys, p: Pid, a: Action, r: Pid, l: Lock)
    requires Enabled(w, s, p, a) && r in s.procs && r != p && Locking(s, p, s.procs[p])
    ensures var locks := NextLocks(w, s, p, a); l in locks && locks[l] == r <==> l in s.locks && s.locks[l] == r
  {
    if a.Release? {
      assert HoldsLock(s.procs[p], Dropped(s.procs[p]));
    }
  }

  lemma StepLocks(w: World, s: Sys, p: Pid, a: Action)
    requires LocksInv(s) && Enabled(w, s, p, a)
    ensures LocksInv(Do(w, s, p, a))
  {
    var t := Do(w, s, p, a);
    assert t.procs.Keys == s.procs.Keys;
    forall r | r in t.procs
      ensures Locking(t, r, t.procs[r])
    {
      forall l
        ensures HoldsLock(t.procs[r], l) <==> l in t.locks && t.locks[l] == r
      {
        LockStep(w, s, p, a, r, l);
        assert t.procs[r] == (if r == p then NextProc(w, s, p, a) else s.procs[r]) && t.locks == NextLocks(w, s, p, a);
      }
    }
  }

  ghost predicate FinalsStay(w: World, s: Sys, t: Sys) {
    forall dir, name :: FinalGood(w, s.files, dir, name) ==> FinalGood(w, t.files, dir, name)
  }

  // A path keeps its content and, if r owns it, its owner.
  ghost predicate Stays(s: Sys, t: Sys, r: Pid, x: Path) {
    SameFile(s.files, t.files, x) && (OwnedBy(s.owner, x, r) ==> OwnedBy(t.owner, x, r))
  }

  lemma StagedStays(w: World, s: Sys, t: Sys, r: Pid, m: Manifest, c: Staged)
    requires FinalsStay(w, s, t) && StagedInv(w, s, r, m, c)
    requires Stays(s, t, r, StagedPath(m, c)) && Stays(s, t, r, PartPath(m, c.at))
    ensures StagedInv(w, t, r, m, c)
    ensures LiveVerified(w.sha, s.files, m, c) ==> LiveVerified(w.sha, t.files, m, c)
  {
  }

  lemma OthersKeepInv(w: World, s: Sys, t: Sys, p: Pid, r: Pid)
    requires Framed(w, s, t, p) && LocksInv(s) && LocksInv(t)
    requires r != p && r in s.procs && r in t.procs && t.procs[r] == s.procs[r]
    requires ProcInv(w, s, r, s.procs[r])
    ensures ProcInv(w, t, r, s.procs[r])
  {
    var q, o := s.procs[p], s.procs[r];
    assert Locking(s, p, q) && Locking(s, r, o) && Locking(t, r, o);
    assert forall x :: OwnedBy(t.owner, x, r) ==> OwnedBy(s.owner, x, r);
    if HoldsManifest(o.pc) {
      assert HoldsLock(o, ManifestLock(o.m.dir));
      assert q.m.dir != o.m.dir || !HoldsManifest(q.pc);
      HolderFrame(w, s, t, p, r, o);
    }
  }

  lemma HolderFrame(w: World, s: Sys, t: Sys, p: Pid, r: Pid, o: Proc)
    requires Framed(w, s, t, p) && r != p && SameDir(s.files, t.files, o.m.dir)
    requires ProcInv(w, s, r, o) && HoldsManifest(o.pc)
    ensures PhaseInv(w, t, r, o)
    ensures Installing(o.pc) || o.pc.FreeMan? ==> StagesInv(w, t, r, o.m, o.staged)
  {
    forall x: Path | x.dir == o.m.dir
      ensures Stays(s, t, r, x)
    {
    }
    if Installing(o.pc) || o.pc.FreeMan? {
      StagesFrame(w, s, t, r, o.m, o.staged);
    }
    PhaseFrame(w, s, t, r, o);
  }

  // Verified live stages stay verified.
  ghost predicate StillLive(w: World, s: Sys, t: Sys, m: Manifest, staged: seq<Staged>) {
    forall j :: 0 <= j < |staged| && LiveVerified(w.sha, s.files, m, staged[j]) ==>
          LiveVerified(w.sha, t.files, m, staged[j])
  }

  lemma StagesFrame(w: World, s: Sys, t: Sys, r: Pid, m: Manifest, staged: seq<Staged>)
    requires FinalsStay(w, s, t) && StagesInv(w, s, r, m, staged)
    requires forall x: Path :: x.dir == m.dir ==> Stays(s, t, r, x)
    ensures StagesInv(w, t, r, m, staged) && StillLive(w, s, t, m, staged)
  {
    forall j | 0 <= j < |staged|
      ensures StagedInv(w, t, r, m, staged[j])
      ensures LiveVerified(w.sha, s.files, m, staged[j]) ==> LiveVerified(w.sha, t.files, m, staged[j])
    {
      assert StagedInv(w, s, r, m, staged[j]);
      StagedStays(w, s, t, r, m, staged[j]);
    }
  }

  lemma PhaseFrame(w: World, s: Sys, t: Sys, r: Pid, o: Proc)
    requires FinalsStay(w, s, t) && PhaseInv(w, s, r, o) && HoldsManifest(o.pc)
    requires Installing(o.pc) || o.pc.FreeMan? ==> StillLive(w, s, t, o.m, o.staged)
    requires forall x: Path :: x.dir == o.m.dir ==> Stays(s, t, r, x)
    ensures PhaseInv(w, t, r, o)
  {
    match o.pc
    case Temp(i, tag) => assert Stays(s, t, r, StagePath(o.m, i, tag));
    case Gone(i, tag) => assert Stays(s, t, r, StagePath(o.m, i, tag)) && Stays(s, t, r, PartPath(o.m, i));
    case _ =>
  }

  // ---------- the process that moves ----------

  ghost predicate Before(w: World, s: Sys, p: Pid, a: Action) {
    p in s.procs && LocalInv(w, s, p, s.procs[p]) && Enabled(w, s, p, a)
  }

  ghost predicate Goes(w: World, s: Sys, p: Pid, a: Action) {
    Before(w, s, p, a) && FinalsStay(w, s, Do(w, s, p, a))
  }

  // What is left to show of a step that keeps the locking and the frame.
  ghost predicate Kept(w: World, s: Sys, p: Pid, a: Action)
    requires Enabled(w, s, p, a)
  {
    var t, q' := Do(w, s, p, a), NextProc(w, s, p, a);
    && PhaseInv(w, t, p, q')
    && AccountInv(t.owner, p, q')
    && (Installing(q'.pc) || q'.pc.FreeMan? ==> StagesInv(w, t, p, q'.m, q'.staged))
  }

  // Stages of artifacts other than i are as before when only paths named like i changed.
  lemma StagesStay(w: World, s: Sys, t: Sys, r: Pid, m: Manifest, staged: seq<Staged>, i: nat)
    requires m.WellFormed() && i < |m.All()|
    requires FinalsStay(w, s, t) && StagesInv(w, s, r, m, staged)
    requires forall x: Path :: x.name != Name(m, i) ==> Stays(s, t, r, x)
    ensures forall j :: 0 <= j < |staged| && staged[j].at != i ==>
              StagedInv(w, t, r, m, staged[j]) &&
                (LiveVerified(w.sha, s.files, m, staged[j]) ==> LiveVerified(w.sha, t.files, m, staged[j]))
  {
    forall j | 0 <= j < |staged| && staged[j].at != i
      ensures StagedInv(w, t, r, m, staged[j])
      ensures LiveVerified(w.sha, s.files, m, staged[j]) ==> LiveVerified(w.sha, t.files, m, staged[j])
    {
      assert StagedInv(w, s, r, m, staged[j]);
      assert m.All()[staged[j].at].filename != m.All()[i].filename;
      StagedStays(w, s, t, r, m, staged[j]);
    }
  }

  // Nothing missing is left once all claimed stages are committed.
  lemma AllCommitted(w: World, s: Sys, p: Pid, q: Proc)
    requires ValidInv(w, s.files, q.m.dir, q.valid) && StagesInv(w, s, p, q.m, q.staged)
    requires Covered(q.m, q.valid, q.staged, |q.m.All()|) && Progress(w, s.files, q.m, q.staged, |q.staged|)
    ensures AllGood(w, s.files, q.m)
  {
    forall i | 0 <= i < |q.m.All()|
      ensures FinalGood(w, s.files, q.m.dir, q.m.All()[i].filename)
    {
      if Name(q.m, i) !in q.valid {
        assert IsStaged(q.staged, i);
        var j :| 0 <= j < |q.staged| && q.staged[j].at == i;
        assert StagedInv(w, s, p, q.m, q.staged[j]);
      }
    }
  }

  // Taking, dropping and waiting for locks.
  ghost predicate Locks(a: Action) {
    a.BeginCached? || a.BeginRemote? || a.Acquire? || a.Cancel? || a.Release? || a.Crash?
  }

  lemma LocksEffect(w: World, s: Sys, p: Pid, a: Action)
    requires Enabled(w, s, p, a) && Locks(a)
    ensures var t, q, q' := Do(w, s, p, a), s.procs[p], NextProc(w, s, p, a);
            t.files == s.files && t.owner == s.owner && q'.staged == q.staged
  {
  }

  lemma LocksAccount(w: World, s: Sys, p: Pid, a: Action, x: Path)
    requires Enabled(w, s, p, a) && Locks(a) && Accounted(s.procs[p], x)
    requires a.BeginCached? || a.BeginRemote? ==> s.procs[p].staged == []
    ensures Accounted(NextProc(w, s, p, a), x)
  {
  }

  lemma LocksOwn(w: World, s: Sys, p: Pid, a: Action)
    requires Before(w, s, p, a) && Locks(a)
    ensures Kept(w, s, p, a)
  {
    LocksEffect(w, s, p, a);
    forall x | OwnedBy(s.owner, x, p)
      ensures Accounted(NextProc(w, s, p, a), x)
    {
      assert Accounted(s.procs[p], x);
      LocksAccount(w, s, p, a, x);
    }
  }

  // Steps that only move the program counter, the plan or the indices.
  ghost predicate Quiet(a: Action) {
    a.Hash? || a.Decide? || a.Skip? || a.StartCommit? || a.StartCheck? || a.Recheck? || a.Return? || a.EndUndo?
  }

  lemma QuietEffect(w: World, s: Sys, p: Pid, a: Action)
    requires Enabled(w, s, p, a) && Quiet(a)
    ensures var t, q, q' := Do(w, s, p, a), s.procs[p], NextProc(w, s, p, a);
            && t.files == s.files && t.owner == s.owner && q'.staged == q.staged && q'.m == q.m
            && (a.Hash? || q'.valid == q.valid)
  {
  }

  lemma PlanPhase(w: World, s: Sys, p: Pid, a: Action)
    requires Before(w, s, p, a) && (a.Hash? || a.Decide?)
    ensures PhaseInv(w, Do(w, s, p, a), p, NextProc(w, s, p, a))
  {
    QuietEffect(w, s, p, a);
  }

  lemma StagingPhase(w: World, s: Sys, p: Pid, a: Action)
    requires Before(w, s, p, a) && (a.Skip? || a.StartCommit? || a.StartCheck?)
    ensures PhaseInv(w, Do(w, s, p, a), p, NextProc(w, s, p, a))
  {
    QuietEffect(w, s, p, a);
    if a.StartCheck? {
      AllCommitted(w, s, p, s.procs[p]);
    }
  }

  lemma EndPhase(w: World, s: Sys, p: Pid, a: Action)
    requires Before(w, s, p, a) && (a.Recheck? || a.Return? || a.EndUndo?)
    ensures PhaseInv(w, Do(w, s, p, a), p, NextProc(w, s, p, a))
  {
    QuietEffect(w, s, p, a);
    var q, q' := s.procs[p], NextProc(w, s, p, a);
    match a
    case Recheck => assert q'.pc == Check(q.pc.k + 1) || q'.pc == Undo(0);
    case Return => assert q'.pc == FreeMan(true);
    case EndUndo => assert q'.pc == FreeMan(false);
  }

  lemma QuietAccounts(w: World, s: Sys, p: Pid, a: Action)
    requires Before(w, s, p, a) && Quiet(a)
    ensures AccountInv(Do(w, s, p, a).owner, p, NextProc(w, s, p, a))
  {
    QuietEffect(w, s, p, a);
    var q, q' := s.procs[p], NextProc(w, s, p, a);
    forall x | OwnedBy(s.owner, x, p)
      ensures Accounted(q', x)
    {
      assert Accounted(q, x);
      if a.EndUndo? || a.StartCheck? {
        NoneLiveLeft(w, s, p, q, x);
      }
      QuietAccount(w, s, p, a, x);
    }
  }

  lemma QuietAccount(w: World, s: Sys, p: Pid, a: Action, x: Path)
    requires Enabled(w, s, p, a) && Quiet(a) && Accounted(s.procs[p], x)
    requires a.EndUndo? || a.StartCheck? ==> !IsStageOf(s.procs[p].m, s.procs[p].staged, Live, x)
    ensures Accounted(NextProc(w, s, p, a), x)
  {
    QuietEffect(w, s, p, a);
  }

  lemma NoneLiveLeft(w: World, s: Sys, p: Pid, q: Proc, x: Path)
    requires PhaseInv(w, s, p, q) && (q.pc.Commit? || q.pc.Undo?) && q.pc.k == |q.staged|
    ensures !IsStageOf(q.m, q.staged, Live, x)
  {
  }

  lemma QuietOwn(w: World, s: Sys, p: Pid, a: Action)
    requires Before(w, s, p, a) && Quiet(a)
    ensures Kept(w, s, p, a)
  {
    QuietEffect(w, s, p, a);
    QuietAccounts(w, s, p, a);
    if a.Hash? || a.Decide? {
      PlanPhase(w, s, p, a);
    } else if a.Skip? || a.StartCommit? || a.StartCheck? {
      StagingPhase(w, s, p, a);
    } else {
      EndPhase(w, s, p, a);
    }
  }

  lemma Extends(w: World, files: Files, m: Manifest, valid: set<string>, staged: seq<Staged>, c: Staged)
    requires Ordered(staged, c.at) && Covered(m, valid, staged, c.at) && c.at < |m.All()|
    ensures Ordered(staged + [c], c.at + 1) && Covered(m, valid, staged + [c], c.at + 1)
  {
    var more := staged + [c];
    forall x | 0 <= x < c.at + 1
      ensures Name(m, x) in valid || IsStaged(more, x)
    {
      if x == c.at {
        assert more[|staged|].at == x;
      } else if Name(m, x) !in valid {
        assert IsStaged(staged, x);
        var j :| 0 <= j < |staged| && staged[j].at == x;
        assert more[j].at == x;
      }
    }
  }

  lemma StageGrows(m: Manifest, staged: seq<Staged>, c: Staged, fate: Fate, x: Path)
    requires IsStageOf(m, staged, fate, x)
    ensures IsStageOf(m, staged + [c], fate, x)
  {
    var j :| 0 <= j < |staged| && staged[j].at < |m.All()| && staged[j].fate == fate && x == StagedPath(m, staged[j]);
    assert (staged + [c])[j] == staged[j];
  }

  lemma ClaimKeeps(w: World, s: Sys, t: Sys, p: Pid, q: Proc, c: Staged)
    requires StagingInv(w, s, q, c.at) && c.at < |q.m.All()| && q.m.WellFormed()
    requires StagesInv(w, s, p, q.m, q.staged) && FinalsStay(w, s, t)
    requires forall x: Path :: x.name != Name(q.m, c.at) ==> Stays(s, t, p, x)
    requires StagedInv(w, t, p, q.m, c) && c.fate == Live
    ensures StagesInv(w, t, p, q.m, q.staged + [c])
    ensures var q' := q.(staged := q.staged + [c], pc := Fetch(c.at)); PhaseInv(w, t, p, q')
  {
    StagesStay(w, s, t, p, q.m, q.staged, c.at);
    Extends(w, t.files, q.m, q.valid, q.staged, c);
    assert (q.staged + [c])[..|q.staged|] == q.staged;
  }

  // While staging goes well every claim is live.
  lemma NoneStuck(w: World, s: Sys, q: Proc, i: nat, x: Path)
    requires StagingInv(w, s, q, i)
    ensures !IsStageOf(q.m, q.staged, Stuck, x)
  {
  }

  lemma ClaimOwn(w: World, s: Sys, p: Pid, a: Action)
    requires Goes(w, s, p, a) && (a.TakePart? || a.KeepTemp?)
    ensures Kept(w, s, p, a)
  {
    var t, q, q' := Do(w, s, p, a), s.procs[p], NextProc(w, s, p, a);
    var c := Staged(q.pc.i, q.pc.tag, Live);
    assert StagedInv(w, t, p, q.m, c);
    ClaimKeeps(w, s, t, p, q, c);
    forall x | OwnedBy(t.owner, x, p)
      ensures IsStageOf(q.m, q'.staged, Live, x)
    {
      if x == StagedPath(q.m, c) {
        assert q'.staged[|q.staged|] == c;
      } else {
        assert OwnedBy(s.owner, x, p) && Accounted(q, x);
        NoneStuck(w, s, q, q.pc.i, x);
        StageGrows(q.m, q.staged, c, Live, x);
      }
    }
  }

  lemma StagingStays(w: World, s: Sys, t: Sys, p: Pid, q: Proc, i: nat)
    requires StagingInv(w, s, q, i) && i < |q.m.All()| && q.m.WellFormed()
    requires StagesInv(w, s, p, q.m, q.staged) && FinalsStay(w, s, t)
    requires forall x: Path :: x.name != Name(q.m, i) ==> Stays(s, t, p, x)
    ensures StagesInv(w, t, p, q.m, q.staged) && StagingInv(w, t, q, i)
  {
    StagesStay(w, s, t, p, q.m, q.staged, i);
  }

  // Steps on the temporary file of a claim.
  ghost predicate Temps(q: Proc, a: Action) {
    a.MakeTemp? || a.DropTemp? || (a.Fail? && q.pc.Temp? && q.pc.i < |q.m.All()|)
  }

  // Where such a step leads, and what it leaves.
  lemma TempMoves(w: World, s: Sys, p: Pid, a: Action)
    requires Enabled(w, s, p, a) && Temps(s.procs[p], a)
    ensures var t, q, q' := Do(w, s, p, a), s.procs[p], NextProc(w, s, p, a);
            && (a.MakeTemp? ==> q' == q.(pc := Temp(q.pc.i, a.tag)) && OwnTemp(t, p, q.m, q.pc.i, a.tag))
            && (a.DropTemp? ==> q' == q.(pc := Gone(q.pc.i, q.pc.tag)) && OpenSlot(t, q.m, q.pc.i, q.pc.tag))
            && (a.Fail? ==> q' == q.(pc := Undo(0)))
  {
  }

  lemma TempLeaves(w: World, s: Sys, p: Pid, a: Action)
    requires Enabled(w, s, p, a) && Temps(s.procs[p], a)
    ensures var q := s.procs[p];
            forall x: Path :: x.name != Name(q.m, q.pc.i) ==> Stays(s, Do(w, s, p, a), p, x)
  {
  }

  lemma TempStages(w: World, s: Sys, p: Pid, a: Action)
    requires Goes(w, s, p, a) && Temps(s.procs[p], a)
    ensures var t, q' := Do(w, s, p, a), NextProc(w, s, p, a);
            PhaseInv(w, t, p, q') && StagesInv(w, t, p, q'.m, q'.staged)
  {
    var q := s.procs[p];
    TempLeaves(w, s, p, a);
    StagingStays(w, s, Do(w, s, p, a), p, q, q.pc.i);
    TempMoves(w, s, p, a);
  }

  lemma TempAccount(w: World, s: Sys, p: Pid, a: Action, x: Path)
    requires Enabled(w, s, p, a) && Temps(s.procs[p], a)
    requires OwnedBy(Do(w, s, p, a).owner, x, p) && (OwnedBy(s.owner, x, p) ==> Accounted(s.procs[p], x))
    ensures Accounted(NextProc(w, s, p, a), x)
  {
  }

  lemma TempOwn(w: World, s: Sys, p: Pid, a: Action)
    requires Goes(w, s, p, a) && Temps(s.procs[p], a)
    ensures Kept(w, s, p, a)
  {
    TempStages(w, s, p, a);
    forall x | OwnedBy(Do(w, s, p, a).owner, x, p)
      ensures Accounted(NextProc(w, s, p, a), x)
    {
      assert OwnedBy(s.owner, x, p) ==> Accounted(s.procs[p], x);
      TempAccount(w, s, p, a, x);
    }
  }

  lemma FailAccount(w: World, s: Sys, p: Pid, a: Action, x: Path)
    requires Enabled(w, s, p, a) && a.Fail? && !s.procs[p].pc.Temp? && Accounted(s.procs[p], x)
    ensures Accounted(NextProc(w, s, p, a), x)
  {
  }

  lemma FailOwn(w: World, s: Sys, p: Pid, a: Action)
    requires Before(w, s, p, a) && a.Fail? && !s.procs[p].pc.Temp?
    ensures Kept(w, s, p, a)
  {
    assert Do(w, s, p, a).files == s.files && Do(w, s, p, a).owner == s.owner;
    assert NextProc(w, s, p, a).staged == s.procs[p].staged;
    forall x | OwnedBy(s.owner, x, p)
      ensures Accounted(NextProc(w, s, p, a), x)
    {
      assert Accounted(s.procs[p], x);
      FailAccount(w, s, p, a, x);
    }
  }

  // The stages before the last belong to other artifacts than the last.
  lemma LastDiffers(q: Proc, j: nat)
    requires |q.staged| > 0 && Ordered(q.staged, |q.m.All()|) && j < |q.staged| - 1
    ensures q.staged[j].at != Last(q).at
  {
  }

  lemma FetchKeeps(w: World, s: Sys, t: Sys, p: Pid, q: Proc)
    requires q.pc.Fetch? && PhaseInv(w, s, p, q) && q.m.WellFormed()
    requires StagesInv(w, s, p, q.m, q.staged) && FinalsStay(w, s, t)
    requires forall x: Path :: x != StagedPath(q.m, Last(q)) ==> Stays(s, t, p, x)
    ensures forall j :: 0 <= j < |q.staged| - 1 ==>
              StagedInv(w, t, p, q.m, q.staged[j]) && LiveVerified(w.sha, t.files, q.m, q.staged[j])
  {
    var c := Last(q);
    StagesStay(w, s, t, p, q.m, q.staged, c.at);
    forall j | 0 <= j < |q.staged| - 1
      ensures StagedInv(w, t, p, q.m, q.staged[j]) && LiveVerified(w.sha, t.files, q.m, q.staged[j])
    {
      LastDiffers(q, j);
      assert q.staged[..|q.staged| - 1][j] == q.staged[j];
    }
  }

  lemma WriteOwn(w: World, s: Sys, p: Pid, a: Action)
    requires Goes(w, s, p, a) && a.Write?
    ensures Kept(w, s, p, a)
  {
    var t, q := Do(w, s, p, a), s.procs[p];
    WriteLeaves(w, s, p, a);
    FetchKeeps(w, s, t, p, q);
    LastStays(w, s, t, p, q);
  }

  // Writing changes one staging file and nothing else.
  lemma WriteLeaves(w: World, s: Sys, p: Pid, a: Action)
    requires Before(w, s, p, a) && a.Write?
    ensures var t, q := Do(w, s, p, a), s.procs[p];
            && q.pc.Fetch? && NextProc(w, s, p, a) == q && t.owner == s.owner
            && StagedPath(q.m, Last(q)) in t.files && Last(q).fate == Live
            && forall x: Path :: x != StagedPath(q.m, Last(q)) ==> Stays(s, t, p, x)
  {
    assert StagedInv(w, s, p, s.procs[p].m, Last(s.procs[p]));
  }

  lemma LastStays(w: World, s: Sys, t: Sys, p: Pid, q: Proc)
    requires q.staged != [] && Last(q).fate == Live && StagesInv(w, s, p, q.m, q.staged)
    requires t.owner == s.owner && StagedPath(q.m, Last(q)) in t.files
    requires forall x: Path :: x != StagedPath(q.m, Last(q)) ==> Stays(s, t, p, x)
    ensures StagedInv(w, t, p, q.m, Last(q))
  {
    assert StagedInv(w, s, p, q.m, Last(q));
    assert Stays(s, t, p, PartPath(q.m, Last(q).at));
  }

  lemma VerifiedKeeps(w: World, s: Sys, p: Pid, q: Proc)
    requires q.pc.Fetch? && PhaseInv(w, s, p, q) && LiveVerified(w.sha, s.files, q.m, Last(q))
    ensures StagingInv(w, s, q, q.pc.i + 1)
  {
    assert forall j :: 0 <= j < |q.staged| - 1 ==> q.staged[..|q.staged| - 1][j] == q.staged[j];
  }

  lemma VerifyGoodOwn(w: World, s: Sys, p: Pid, a: Action)
    requires Before(w, s, p, a) && a.Verify? && LastGood(w, s, s.procs[p])
    ensures Kept(w, s, p, a)
  {
    var q := s.procs[p];
    assert StagedInv(w, s, p, q.m, Last(q));
    VerifiedKeeps(w, s, p, q);
    var q' := q.(pc := Next(q.pc.i + 1));
    assert Do(w, s, p, a).files == s.files && Do(w, s, p, a).owner == s.owner && NextProc(w, s, p, a) == q';
    forall x | OwnedBy(s.owner, x, p)
      ensures Accounted(q', x)
    {
      assert Accounted(q, x);
    }
  }

  lemma VerifyBadMoves(w: World, s: Sys, p: Pid)
    requires Enabled(w, s, p, Verify) && !LastGood(w, s, s.procs[p])
    ensures var t, q := Do(w, s, p, Verify), s.procs[p];
            var x := StagedPath(q.m, Last(q));
            && NextProc(w, s, p, Verify) == SetFate(q, |q.staged| - 1, Discarded).(pc := Undo(0))
            && t.files == s.files - {x} && t.owner == s.owner - {x}
  {
  }

  lemma VerifyBadAccounts(w: World, s: Sys, p: Pid)
    requires Before(w, s, p, Verify) && !LastGood(w, s, s.procs[p])
    ensures AccountInv(Do(w, s, p, Verify).owner, p, NextProc(w, s, p, Verify))
  {
    var t, q, q' := Do(w, s, p, Verify), s.procs[p], NextProc(w, s, p, Verify);
    VerifyBadMoves(w, s, p);
    forall x | OwnedBy(t.owner, x, p)
      ensures Accounted(q', x)
    {
      assert OwnedBy(s.owner, x, p) && Accounted(q, x);
      FateAccount(q, |q.staged| - 1, Discarded, q'.pc, x);
    }
  }

  lemma VerifyBadOwn(w: World, s: Sys, p: Pid, a: Action)
    requires Goes(w, s, p, a) && a.Verify? && !LastGood(w, s, s.procs[p])
    ensures Kept(w, s, p, a)
  {
    var t, q := Do(w, s, p, a), s.procs[p];
    VerifyBadMoves(w, s, p);
    assert StagedInv(w, s, p, q.m, Last(q));
    FetchKeeps(w, s, t, p, q);
    VerifyBadAccounts(w, s, p);
  }

  lemma VerifyOwn(w: World, s: Sys, p: Pid, a: Action)
    requires Goes(w, s, p, a) && a.Verify?
    ensures Kept(w, s, p, a)
  {
    if LastGood(w, s, s.procs[p]) {
      VerifyGoodOwn(w, s, p, a);
    } else {
      VerifyBadOwn(w, s, p, a);
    }
  }

  // A change of fate of one stage leaves the others accounted for.
  lemma StageStays(m: Manifest, staged: seq<Staged>, k: nat, to: Fate, fate: Fate, x: Path)
    requires IsStageOf(m, staged, fate, x) && k < |staged| && staged[k].at < |m.All()| && x != StagedPath(m, staged[k])
    ensures IsStageOf(m, staged[k := staged[k].(fate := to)], fate, x)
  {
    var j :| 0 <= j < |staged| && staged[j].at < |m.All()| && staged[j].fate == fate && x == StagedPath(m, staged[j]);
    assert staged[k := staged[k].(fate := to)][j] == staged[j];
  }

  lemma FateAccount(q: Proc, k: nat, to: Fate, pc: Pc, x: Path)
    requires Accounted(q, x) && k < |q.staged| && q.staged[k].at < |q.m.All()| && x != StagedPath(q.m, q.staged[k])
    requires !q.pc.Temp? && !q.pc.Crashed? && (Downloading(pc) || pc.Undo?)
    ensures Accounted(SetFate(q, k, to).(pc := pc), x)
  {
    if IsStageOf(q.m, q.staged, Stuck, x) {
      StageStays(q.m, q.staged, k, to, Stuck, x);
    } else {
      StageStays(q.m, q.staged, k, to, Live, x);
    }
  }

  lemma FateKeepsCover(m: Manifest, valid: set<string>, staged: seq<Staged>, i: nat, k: nat, fate: Fate)
    requires Ordered(staged, i) && Covered(m, valid, staged, i) && k < |staged|
    ensures var next := staged[k := staged[k].(fate := fate)]; Ordered(next, i) && Covered(m, valid, next, i)
  {
    var next := staged[k := staged[k].(fate := fate)];
    forall x | 0 <= x < i && Name(m, x) !in valid
      ensures IsStaged(next, x)
    {
      assert IsStaged(staged, x);
      var j :| 0 <= j < |staged| && staged[j].at == x;
      assert next[j].at == x;
    }
  }

  // Moving stage k away leaves the other stages alone.
  lemma OthersStay(w: World, s: Sys, t: Sys, p: Pid, q: Proc, k: nat)
    requires Ordered(q.staged, |q.m.All()|) && k < |q.staged| && q.m.WellFormed()
    requires StagesInv(w, s, p, q.m, q.staged) && FinalsStay(w, s, t)
    requires forall x: Path :: x.name != Name(q.m, q.staged[k].at) ==> Stays(s, t, p, x)
    ensures forall j :: 0 <= j < |q.staged| && j != k ==>
              StagedInv(w, t, p, q.m, q.staged[j]) &&
              (LiveVerified(w.sha, s.files, q.m, q.staged[j]) ==> LiveVerified(w.sha, t.files, q.m, q.staged[j]))
  {
    StagesStay(w, s, t, p, q.m, q.staged, q.staged[k].at);
    assert forall j :: 0 <= j < |q.staged| && j != k ==> q.staged[j].at != q.staged[k].at;
  }

  lemma RenameAccounts(w: World, s: Sys, p: Pid, a: Action)
    requires Before(w, s, p, a) && a.Rename?
    ensures AccountInv(Do(w, s, p, a).owner, p, NextProc(w, s, p, a))
  {
    var t, q, q' := Do(w, s, p, a), s.procs[p], NextProc(w, s, p, a);
    forall x | OwnedBy(t.owner, x, p)
      ensures Accounted(q', x)
    {
      assert OwnedBy(s.owner, x, p) && Accounted(q, x);
      FateAccount(q, q.pc.k, Committed, q'.pc, x);
    }
  }

  lemma RenameOwn(w: World, s: Sys, p: Pid, a: Action)
    requires Goes(w, s, p, a) && a.Rename?
    ensures Kept(w, s, p, a)
  {
    var t, q, q' := Do(w, s, p, a), s.procs[p], NextProc(w, s, p, a);
    var k := q.pc.k;
    assert StagedInv(w, s, p, q.m, q.staged[k]) && LiveVerified(w.sha, s.files, q.m, q.staged[k]);
    OthersStay(w, s, t, p, q, k);
    assert StagedInv(w, t, p, q.m, q'.staged[k]);
    FateKeepsCover(q.m, q.valid, q.staged, |q.m.All()|, k, Committed);
    RenameAccounts(w, s, p, a);
  }

  // Moving a stage back changes files of its artifact only and puts its content in place.
  lemma RestoreMoves(w: World, s: Sys, p: Pid, a: Action)
    requires Before(w, s, p, a) && a.Restore?
    ensures var t, q, q' := Do(w, s, p, a), s.procs[p], NextProc(w, s, p, a);
            && (forall x: Path :: x.name != Name(q.m, q.staged[q.pc.k].at) ==> Stays(s, t, p, x))
            && (CanRestore(s, q) ==> StagedInv(w, t, p, q.m, q'.staged[q.pc.k]))
            && (!CanRestore(s, q) ==> t.files == s.files && t.owner == s.owner)
            && q' == (if CanRestore(s, q) then SetFate(q, q.pc.k, PutBack) else q).(pc := Undo(q.pc.k + 1))
  {
  }

  lemma RestoreOwn(w: World, s: Sys, p: Pid, a: Action)
    requires Goes(w, s, p, a) && a.Restore?
    ensures Kept(w, s, p, a)
  {
    var t, q := Do(w, s, p, a), s.procs[p];
    RestoreMoves(w, s, p, a);
    assert StagedInv(w, s, p, q.m, q.staged[q.pc.k]);
    OthersStay(w, s, t, p, q, q.pc.k);
    RestoreAccounts(w, s, p, a);
  }

  lemma RestoreAccounts(w: World, s: Sys, p: Pid, a: Action)
    requires Before(w, s, p, a) && a.Restore?
    ensures AccountInv(Do(w, s, p, a).owner, p, NextProc(w, s, p, a))
  {
    var q := s.procs[p];
    assert StagedInv(w, s, p, q.m, q.staged[q.pc.k]);
    forall x | OwnedBy(Do(w, s, p, a).owner, x, p)
      ensures Accounted(NextProc(w, s, p, a), x)
    {
      assert OwnedBy(s.owner, x, p) && Accounted(q, x);
      if CanRestore(s, q) {
        FateAccount(q, q.pc.k, PutBack, Undo(q.pc.k + 1), x);
      }
    }
  }

  // ---------- stages that stay ----------

  lemma StuckEffect(w: World, s: Sys, p: Pid, a: Action)
    requires Enabled(w, s, p, a) && (a.Abandon? || a.Strand?)
    ensures Do(w, s, p, a).files == s.files && Do(w, s, p, a).owner == s.owner
    ensures var q, q' := s.procs[p], NextProc(w, s, p, a);
            && (a.Abandon? ==> q' == q.(pc := Undo(0), staged := q.staged + [Staged(q.pc.i, q.pc.tag, Stuck)]))
            && (a.Strand? ==> q' == SetFate(q, q.pc.k, Stuck).(pc := Undo(q.pc.k + 1)))
  {
  }

  lemma AbandonAccount(q: Proc, c: Staged, x: Path)
    requires q.pc.Temp? && q.pc.i == c.at < |q.m.All()| && q.pc.tag == c.tag && c.fate == Stuck && Accounted(q, x)
    ensures Accounted(q.(pc := Undo(0), staged := q.staged + [c]), x)
  {
    if x == StagePath(q.m, c.at, c.tag) {
      assert (q.staged + [c])[|q.staged|] == c;
    } else if IsStageOf(q.m, q.staged, Stuck, x) {
      StageGrows(q.m, q.staged, c, Stuck, x);
    } else {
      StageGrows(q.m, q.staged, c, Live, x);
    }
  }

  // A claim that failed and stays needs nothing of the directory.
  lemma AbandonStages(w: World, s: Sys, p: Pid, q: Proc, c: Staged)
    requires StagingInv(w, s, q, c.at) && c.at < |q.m.All()| && c.fate == Stuck
    requires StagesInv(w, s, p, q.m, q.staged)
    ensures StagesInv(w, s, p, q.m, q.staged + [c]) && Ordered(q.staged + [c], |q.m.All()|)
  {
    Extends(w, s.files, q.m, q.valid, q.staged, c);
  }

  lemma AbandonOwn(w: World, s: Sys, p: Pid, a: Action)
    requires Before(w, s, p, a) && a.Abandon?
    ensures Kept(w, s, p, a)
  {
    var q := s.procs[p];
    var c := Staged(q.pc.i, q.pc.tag, Stuck);
    AbandonStages(w, s, p, q, c);
    StuckEffect(w, s, p, a);
    forall x | OwnedBy(s.owner, x, p)
      ensures Accounted(NextProc(w, s, p, a), x)
    {
      assert Accounted(q, x);
      AbandonAccount(q, c, x);
    }
  }

  lemma StrandAccount(q: Proc, x: Path)
    requires q.pc.Undo? && q.pc.k < |q.staged| && q.staged[q.pc.k].at < |q.m.All()| && Accounted(q, x)
    ensures Accounted(SetFate(q, q.pc.k, Stuck).(pc := Undo(q.pc.k + 1)), x)
  {
    var k := q.pc.k;
    var q' := SetFate(q, k, Stuck).(pc := Undo(k + 1));
    assert q'.staged[k] == q.staged[k].(fate := Stuck);
    if x != StagedPath(q.m, q.staged[k]) {
      FateAccount(q, k, Stuck, q'.pc, x);
    }
  }

  lemma StrandOwn(w: World, s: Sys, p: Pid, a: Action)
    requires Before(w, s, p, a) && a.Strand?
    ensures Kept(w, s, p, a)
  {
    var q := s.procs[p];
    StuckEffect(w, s, p, a);
    assert StagedInv(w, s, p, q.m, q.staged[q.pc.k]);
    forall x | OwnedBy(s.owner, x, p)
      ensures Accounted(NextProc(w, s, p, a), x)
    {
      assert Accounted(q, x);
      StrandAccount(q, x);
    }
  }

  // ---------- one step, every run ----------

  lemma OwnKeepsInv(w: World, s: Sys, p: Pid, a: Action)
    requires Goes(w, s, p, a)
    ensures Kept(w, s, p, a)
  {
    match a
    case Write(_) => WriteOwn(w, s, p, a);
    case Verify => VerifyOwn(w, s, p, a);
    case Rename(_) => RenameOwn(w, s, p, a);
    case Restore => RestoreOwn(w, s, p, a);
    case TakePart => ClaimOwn(w, s, p, a);
    case KeepTemp => ClaimOwn(w, s, p, a);
    case MakeTemp(_) => TempOwn(w, s, p, a);
    case DropTemp => TempOwn(w, s, p, a);
    case Abandon => AbandonOwn(w, s, p, a);
    case Strand => StrandOwn(w, s, p, a);
    case Fail =>
      if s.procs[p].pc.Temp? {
        TempOwn(w, s, p, a);
      } else {
        FailOwn(w, s, p, a);
      }
    case _ =>
      if Locks(a) {
        LocksOwn(w, s, p, a);
      } else {
        QuietOwn(w, s, p, a);
      }
  }

  lemma SameManifest(w: World, s: Sys, p: Pid, a: Action)
    requires Enabled(w, s, p, a) && !a.BeginCached? && !a.BeginRemote?
    ensures NextProc(w, s, p, a).m == s.procs[p].m
    ensures var pc' := NextProc(w, s, p, a).pc;
            Informed(pc') ==> Informed(s.procs[p].pc)
  {
  }

  lemma OwnAdmissible(w: World, s: Sys, p: Pid, a: Action)
    requires Enabled(w, s, p, a)
    requires Informed(s.procs[p].pc) ==> Admissible(w, s.procs[p].m)
    ensures var q' := NextProc(w, s, p, a); Informed(q'.pc) ==> Admissible(w, q'.m)
  {
    if !a.BeginCached? && !a.BeginRemote? {
      SameManifest(w, s, p, a);
    }
  }

  lemma HashValid(w: World, s: Sys, p: Pid)
    requires Enabled(w, s, p, Hash) && Admissible(w, s.procs[p].m)
    requires ValidInv(w, s.files, s.procs[p].m.dir, s.procs[p].valid)
    ensures ValidInv(w, s.files, s.procs[p].m.dir, NextProc(w, s, p, Hash).valid)
  {
    var q := s.procs[p];
    assert q.m.All()[q.pc.i] == w.spec(q.m.dir, Name(q.m, q.pc.i));
  }

  lemma SameValid(w: World, s: Sys, p: Pid, a: Action)
    requires Enabled(w, s, p, a) && !a.Hash? && HoldsManifest(NextProc(w, s, p, a).pc)
    ensures NextProc(w, s, p, a).valid == s.procs[p].valid
    ensures HoldsManifest(s.procs[p].pc) || Waiting(s.procs[p].pc)
  {
  }

  lemma OwnValid(w: World, s: Sys, p: Pid, a: Action)
    requires Enabled(w, s, p, a) && FinalsStay(w, s, Do(w, s, p, a)) && HoldsManifest(NextProc(w, s, p, a).pc)
    requires HoldsManifest(s.procs[p].pc) ==>
               Admissible(w, s.procs[p].m) && ValidInv(w, s.files, s.procs[p].m.dir, s.procs[p].valid)
    requires Waiting(s.procs[p].pc) ==> s.procs[p].valid == {}
    ensures NextProc(w, s, p, a).m == s.procs[p].m
    ensures ValidInv(w, Do(w, s, p, a).files, s.procs[p].m.dir, NextProc(w, s, p, a).valid)
  {
    SameManifest(w, s, p, a);
    if a.Hash? {
      HashValid(w, s, p);
    } else {
      SameValid(w, s, p, a);
    }
  }

  lemma MoveOwners(w: World, s: Sys, p: Pid, a: Action)
    requires OwnersInv(w, s) && Before(w, s, p, a) && Moves(a)
    ensures OwnersInv(w, Do(w, s, p, a))
  {
    var q := s.procs[p];
    match a
    case Rename(_) => assert StagedInv(w, s, p, q.m, q.staged[q.pc.k]);
    case Restore => assert StagedInv(w, s, p, q.m, q.staged[q.pc.k]);
    case _ =>
  }

  lemma WriteOwners(w: World, s: Sys, p: Pid, a: Action)
    requires OwnersInv(w, s) && Before(w, s, p, a) && Writes(a)
    ensures OwnersInv(w, Do(w, s, p, a))
  {
    var q := s.procs[p];
    if a.Write? || a.Verify? {
      assert StagedInv(w, s, p, q.m, Last(q));
    }
  }

  lemma StepOwners(w: World, s: Sys, p: Pid, a: Action)
    requires OwnersInv(w, s) && Before(w, s, p, a)
    ensures OwnersInv(w, Do(w, s, p, a))
  {
    if Moves(a) {
      MoveOwners(w, s, p, a);
    } else if Writes(a) {
      WriteOwners(w, s, p, a);
    } else {
      assert NextFiles(w, s, p, a) == s.files && NextOwner(w, s, p, a) == s.owner;
    }
  }

  lemma AllLocked(w: World, s: Sys)
    requires Inv(w, s)
    ensures LocksInv(s)
  {
    forall r | r in s.procs
      ensures Locking(s, r, s.procs[r])
    {
      assert ProcInv(w, s, r, s.procs[r]);
    }
  }

  lemma {:induction false} StepKeepsInv(w: World, s: Sys, p: Pid, a: Action)
    requires Inv(w, s) && Enabled(w, s, p, a)
    ensures Inv(w, Do(w, s, p, a))
  {
    var t := Do(w, s, p, a);
    assert ProcInv(w, s, p, s.procs[p]);
    AllLocked(w, s);
    StepFrame(w, s, p, a);
    StepLocks(w, s, p, a);
    StepOwners(w, s, p, a);
    OwnKeepsInv(w, s, p, a);
    if HoldsManifest(NextProc(w, s, p, a).pc) {
      OwnValid(w, s, p, a);
    }
    OwnAdmissible(w, s, p, a);
    forall r | r in t.procs
      ensures ProcInv(w, t, r, t.procs[r])
    {
      if r != p {
        OthersKeepInv(w, s, t, p, r);
      } else {
        assert Locking(t, p, t.procs[p]);
      }
    }
  }
}
