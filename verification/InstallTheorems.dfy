/** Theorems over all runs of the installation protocol. */
module InstallTheorems {
  import opened Prelude
  import opened Artifacts
  import opened InstallProtocol
  import opened InstallSafety

  datatype Event = Event(p: Pid, a: Action)

  // states[i + 1] follows from states[i] by event i.
  ghost predicate Run(w: World, states: seq<Sys>, events: seq<Event>) {
    |states| == |events| + 1 && Init(w, states[0]) &&
    forall i :: 0 <= i < |events| ==>
      Enabled(w, states[i], events[i].p, events[i].a) && states[i + 1] == Do(w, states[i], events[i].p, events[i].a)
  }

  lemma InitInv(w: World, s: Sys)
    requires Init(w, s)
    ensures Inv(w, s)
  {
  }

  lemma {:induction false} RunInv(w: World, states: seq<Sys>, events: seq<Event>, i: nat)
    requires Run(w, states, events) && i < |states|
    ensures Inv(w, states[i])
  {
    if i == 0 {
      InitInv(w, states[0]);
    } else {
      RunInv(w, states, events, i - 1);
      StepKeepsInv(w, states[i - 1], events[i - 1].p, events[i - 1].a);
    }
  }

  // ---------- what becomes visible ----------

  // Every artifact of the manifest is valid in place or staged and verified.
  ghost predicate EverythingReady(w: World, s: Sys, m: Manifest) {
    forall i :: 0 <= i < |m.All()| ==>
      FinalGood(w, s.files, m.dir, m.All()[i].filename) ||
      exists tag :: FileVerifies(w.sha, s.files, StagePath(m, i, tag), m.All()[i])
  }

  lemma ReadyToCommit(w: World, s: Sys, p: Pid)
    requires Here(w, s, p) && s.procs[p].pc.Commit?
    ensures EverythingReady(w, s, s.procs[p].m)
  {
    var q := s.procs[p];
    forall i | 0 <= i < |q.m.All()| && !FinalGood(w, s.files, q.m.dir, q.m.All()[i].filename)
      ensures exists tag :: FileVerifies(w.sha, s.files, StagePath(q.m, i, tag), q.m.All()[i])
    {
      assert Name(q.m, i) !in q.valid;
      assert IsStaged(q.staged, i);
      var j :| 0 <= j < |q.staged| && q.staged[j].at == i;
      assert StagedInv(w, s, p, q.m, q.staged[j]);
      assert FileVerifies(w.sha, s.files, StagePath(q.m, i, q.staged[j].tag), q.m.All()[i]);
    }
  }

  // A final path changes only when its installer renames a verified stage onto it,
  // after everything its manifest lists is in place or staged and verified.
  lemma OnlyVerifiedContentAppears(w: World, states: seq<Sys>, events: seq<Event>, i: nat, dir: Dir, name: string)
    requires Run(w, states, events) && i < |events|
    requires !SameFile(states[i].files, states[i + 1].files, Final(dir, name))
    ensures Final(dir, name) in states[i + 1].files
    ensures var c, a := states[i + 1].files[Final(dir, name)], w.spec(dir, name);
            && |c| == a.size && |c| >= 4 && w.sha(c) == a.sha256
            && c[0] == 0x47 && c[1] == 0x47 && c[2] == 0x55 && c[3] == 0x46
    ensures var q := states[i].procs[events[i].p];
            events[i].a.Rename? && q.m.dir == dir && q.fits && EverythingReady(w, states[i], q.m)
  {
    var s, p, a := states[i], events[i].p, events[i].a;
    var q := s.procs[p];
    RunInv(w, states, events, i);
    assert ProcInv(w, s, p, q) && OwnersInv(w, s);
    FinalChange(w, s, p, a, dir, name);
    ReadyToCommit(w, s, p);
    assert LiveVerified(w.sha, s.files, q.m, q.staged[q.pc.k]);
    VerifiesMeans(w.sha, states[i + 1].files[Final(dir, name)], w.spec(dir, name));
  }

  lemma FinalChange(w: World, s: Sys, p: Pid, a: Action, dir: Dir, name: string)
    requires Enabled(w, s, p, a)
    requires !SameFile(s.files, NextFiles(w, s, p, a), Final(dir, name))
    ensures a.Rename?
    ensures var q := s.procs[p]; Final(dir, name) == FinalPath(q.m, q.staged[q.pc.k].at)
  {
  }

  // A good final path stays good for the rest of the run.
  lemma {:induction false} GoodForever(w: World, states: seq<Sys>, events: seq<Event>, i: nat, j: nat, dir: Dir,
                                       name: string)
    requires Run(w, states, events) && i <= j < |states|
    requires FinalGood(w, states[i].files, dir, name)
    ensures FinalGood(w, states[j].files, dir, name)
    decreases j
  {
    if i < j {
      GoodForever(w, states, events, i, j - 1, dir, name);
      RunInv(w, states, events, j - 1);
      var s, p, a := states[j - 1], events[j - 1].p, events[j - 1].a;
      assert ProcInv(w, s, p, s.procs[p]);
      StepFrame(w, s, p, a);
    }
  }

  // A normal return: from then on every path it lists holds the content of its manifest.
  lemma ReturnedPathsVerify(w: World, states: seq<Sys>, events: seq<Event>, i: nat, j: nat, p: Pid)
    requires Run(w, states, events) && i <= j < |states|
    requires p in states[i].procs && states[i].procs[p].pc == Finished(true)
    ensures var m := states[i].procs[p].m;
            forall a :: a in m.models || m.mmproj == Some(a) ==>
              && Final(m.dir, a.filename) in states[j].files
              && var c := states[j].files[Final(m.dir, a.filename)];
              && |c| == a.size && |c| >= 4 && w.sha(c) == a.sha256
              && c[0] == 0x47 && c[1] == 0x47 && c[2] == 0x55 && c[3] == 0x46
  {
    RunInv(w, states, events, i);
    var m := states[i].procs[p].m;
    assert ProcInv(w, states[i], p, states[i].procs[p]);
    forall a | a in m.models || m.mmproj == Some(a)
      ensures w.spec(m.dir, a.filename) == a && FinalGood(w, states[j].files, m.dir, a.filename)
    {
      assert a in m.All();
      var x :| 0 <= x < |m.All()| && m.All()[x] == a;
      GoodForever(w, states, events, i, j, m.dir, m.All()[x].filename);
    }
    forall a | a in m.models || m.mmproj == Some(a)
      ensures var c := states[j].files[Final(m.dir, a.filename)];
              && |c| == a.size && |c| >= 4 && w.sha(c) == a.sha256
              && c[0] == 0x47 && c[1] == 0x47 && c[2] == 0x55 && c[3] == 0x46
    {
      VerifiesMeans(w.sha, states[j].files[Final(m.dir, a.filename)], a);
    }
  }

  // ---------- locks ----------

  // At most one installer per models directory, at most one lock holder per manifest directory.
  lemma MutualExclusion(w: World, states: seq<Sys>, events: seq<Event>, i: nat, p: Pid, r: Pid)
    requires Run(w, states, events) && i < |states|
    requires p in states[i].procs && r in states[i].procs && p != r
    ensures var q, o := states[i].procs[p], states[i].procs[r];
            && !(Installing(q.pc) && Installing(o.pc) && q.m.dir.root == o.m.dir.root)
            && !(HoldsManifest(q.pc) && HoldsManifest(o.pc) && q.m.dir == o.m.dir)
  {
    RunInv(w, states, events, i);
    var s := states[i];
    var q, o := s.procs[p], s.procs[r];
    assert ProcInv(w, s, p, q) && ProcInv(w, s, r, o);
    assert HoldsLock(q, ManifestLock(q.m.dir)) <==> HoldsManifest(q.pc);
    assert HoldsLock(o, ManifestLock(o.m.dir)) <==> HoldsManifest(o.pc);
    assert HoldsLock(q, Acquisition(q.m.dir.root)) <==> HoldsAcquisition(q.pc);
    assert HoldsLock(o, Acquisition(o.m.dir.root)) <==> HoldsAcquisition(o.pc);
  }

  // An artifact is requested only under both locks and with a plan that fits.
  lemma RequestsAreAdmitted(w: World, states: seq<Sys>, events: seq<Event>, i: nat, p: Pid)
    requires Run(w, states, events) && i < |states| && p in states[i].procs && states[i].procs[p].pc.Fetch?
    ensures var s := states[i];
            var q := s.procs[p];
            && q.fits
            && Acquisition(q.m.dir.root) in s.locks && s.locks[Acquisition(q.m.dir.root)] == p
            && ManifestLock(q.m.dir) in s.locks && s.locks[ManifestLock(q.m.dir)] == p
  {
    RunInv(w, states, events, i);
    var s := states[i];
    var q := s.procs[p];
    assert ProcInv(w, s, p, q);
    assert HoldsLock(q, ManifestLock(q.m.dir)) && HoldsLock(q, Acquisition(q.m.dir.root));
  }

  // While p holds the lock of its manifest directory no other process changes a file there.
  lemma HolderIsAlone(w: World, states: seq<Sys>, events: seq<Event>, i: nat, p: Pid)
    requires Run(w, states, events) && i < |events| && events[i].p != p
    requires p in states[i].procs && HoldsManifest(states[i].procs[p].pc)
    ensures SameDir(states[i].files, states[i + 1].files, states[i].procs[p].m.dir)
  {
    RunInv(w, states, events, i);
    var s, r, a := states[i], events[i].p, events[i].a;
    var q, o := s.procs[p], s.procs[r];
    assert ProcInv(w, s, r, o) && ProcInv(w, s, p, q);
    StepFrame(w, s, r, a);
    assert HoldsLock(q, ManifestLock(q.m.dir));
    assert HoldsLock(o, ManifestLock(q.m.dir)) ==> false;
  }

  // ---------- no deadlock ----------

  ghost predicate Voluntary(a: Action) {
    !a.Fail? && !a.Crash? && !a.Cancel? && !a.Abandon? && !a.Strand?
  }

  ghost predicate Advances(w: World, s: Sys, p: Pid) {
    exists a :: Voluntary(a) && Enabled(w, s, p, a)
  }

  lemma Step(w: World, s: Sys, p: Pid, a: Action)
    requires Voluntary(a) && Enabled(w, s, p, a)
    ensures Advances(w, s, p)
  {
  }

  lemma StagerAdvances(w: World, s: Sys, p: Pid)
    requires Here(w, s, p)
    requires var pc := s.procs[p].pc; pc.Next? || pc.Temp? || pc.Gone? || pc.Fetch?
    ensures Advances(w, s, p)
  {
    var q := s.procs[p];
    match q.pc
    case Next(i) =>
      if i == |q.m.All()| {
        Step(w, s, p, StartCommit);
      } else if Name(q.m, i) in q.valid {
        Step(w, s, p, Skip);
      } else {
        var tag := FreshTag(s.files.Keys, q.m.dir, Name(q.m, i));
        Step(w, s, p, MakeTemp(tag));
      }
    case Temp(i, _) => Step(w, s, p, if PartPath(q.m, i) in s.files then DropTemp else KeepTemp);
    case Gone(_, _) => Step(w, s, p, TakePart);
    case Fetch(_) =>
      assert StagedInv(w, s, p, q.m, Last(q));
      Step(w, s, p, Verify);
  }

  lemma CommitterAdvances(w: World, s: Sys, p: Pid)
    requires Here(w, s, p)
    requires var pc := s.procs[p].pc; pc.Commit? || pc.Check? || pc.Undo?
    ensures Advances(w, s, p)
  {
    var q := s.procs[p];
    if !q.pc.Check? && q.pc.k < |q.staged| {
      assert StagedInv(w, s, p, q.m, q.staged[q.pc.k]);
    }
    match q.pc
    case Commit(k) => Step(w, s, p, if k < |q.staged| then Rename(true) else StartCheck);
    case Check(k) => Step(w, s, p, if k < |q.m.All()| then Recheck else Return);
    case Undo(k) => Step(w, s, p, if k < |q.staged| then Restore else EndUndo);
  }

  // A process that does not wait for a lock has a step of its own.
  lemma RunnerAdvances(w: World, s: Sys, p: Pid)
    requires Here(w, s, p)
    requires var pc := s.procs[p].pc; !Over(pc) && !Waiting(pc) && !pc.Idle? && !pc.Remote?
    ensures Advances(w, s, p)
  {
    var q := s.procs[p];
    if q.pc.CachePlan? || q.pc.Plan? {
      Step(w, s, p, if q.pc.i < |q.m.All()| then Hash else Decide(true));
    } else if q.pc.FreeCache? || q.pc.FreeMan? || q.pc.FreeAcq? {
      Step(w, s, p, Release);
    } else if q.pc.Commit? || q.pc.Check? || q.pc.Undo? {
      CommitterAdvances(w, s, p);
    } else {
      StagerAdvances(w, s, p);
    }
  }

  // Some manifest can be resolved.
  ghost predicate Resolvable(w: World) {
    exists m :: Admissible(w, m)
  }

  lemma StarterAdvances(w: World, s: Sys, p: Pid)
    requires p in s.procs && (s.procs[p].pc.Idle? || s.procs[p].pc.Remote?) && Resolvable(w)
    ensures Advances(w, s, p)
  {
    var m :| Admissible(w, m);
    Step(w, s, p, BeginRemote(m));
  }

  lemma WaiterAdvances(w: World, s: Sys, p: Pid)
    requires p in s.procs && Waiting(s.procs[p].pc) && Wanted(s.procs[p]) !in s.locks
    ensures Advances(w, s, p)
  {
    Step(w, s, p, Acquire);
  }

  // Whoever is not over: some process, waiting or not, can take a voluntary step, if
  // only a manifest can be resolved for those that look for one.
  lemma NoDeadlock(w: World, states: seq<Sys>, events: seq<Event>, i: nat, p: Pid)
    requires Run(w, states, events) && i < |states| && p in states[i].procs
    requires var pc := states[i].procs[p].pc; !Over(pc) && (pc.Idle? || pc.Remote? ==> Resolvable(w))
    ensures exists r :: r in states[i].procs && Advances(w, states[i], r)
  {
    RunInv(w, states, events, i);
    var s := states[i];
    if s.procs[p].pc.Idle? || s.procs[p].pc.Remote? {
      StarterAdvances(w, s, p);
    } else {
      var r := Unblocked(w, s, p);
    }
  }

  lemma LocksAreHeld(w: World, s: Sys, p: Pid, l: Lock)
    requires Inv(w, s) && p in s.procs
    ensures HoldsLock(s.procs[p], l) <==> l in s.locks && s.locks[l] == p
  {
    assert ProcInv(w, s, p, s.procs[p]);
  }

  // Who waits for the acquisition lock holds no lock, so waiting makes no circle.
  lemma WaitersHoldNothing(w: World, states: seq<Sys>, events: seq<Event>, i: nat, p: Pid, l: Lock)
    requires Run(w, states, events) && i < |states| && p in states[i].procs && states[i].procs[p].pc.AcqWait?
    ensures l in states[i].locks ==> states[i].locks[l] != p
  {
    RunInv(w, states, events, i);
    LocksAreHeld(w, states[i], p, l);
  }

  lemma HolderOf(w: World, s: Sys, l: Lock) returns (h: Pid)
    requires Inv(w, s) && l in s.locks
    ensures h in s.procs && Here(w, s, h) && HoldsLock(s.procs[h], l)
  {
    h := s.locks[l];
    assert ProcInv(w, s, h, s.procs[h]);
  }

  // Who holds a manifest lock waits for nothing.
  lemma HolderAdvances(w: World, s: Sys, dir: Dir) returns (h: Pid)
    requires Inv(w, s) && ManifestLock(dir) in s.locks
    ensures h in s.procs && Advances(w, s, h)
  {
    h := HolderOf(w, s, ManifestLock(dir));
    RunnerAdvances(w, s, h);
  }

  // Holders of manifest locks do not wait, so who waits for one is not blocked for ever.
  lemma NearUnblocked(w: World, s: Sys, p: Pid) returns (r: Pid)
    requires Inv(w, s) && p in s.procs
    requires var pc := s.procs[p].pc; !Over(pc) && !pc.Idle? && !pc.Remote? && !pc.AcqWait?
    ensures r in s.procs && Advances(w, s, r)
  {
    var q := s.procs[p];
    assert ProcInv(w, s, p, q);
    if !Waiting(q.pc) {
      r := p;
      RunnerAdvances(w, s, r);
    } else if Wanted(q) !in s.locks {
      r := p;
      WaiterAdvances(w, s, r);
    } else {
      r := HolderAdvances(w, s, q.m.dir);
    }
  }

  // Waiting for the acquisition lock leads to its holder, who may wait for a manifest lock.
  lemma Unblocked(w: World, s: Sys, p: Pid) returns (r: Pid)
    requires Inv(w, s) && p in s.procs
    requires var pc := s.procs[p].pc; !Over(pc) && !pc.Idle? && !pc.Remote?
    ensures r in s.procs && Advances(w, s, r)
  {
    var q := s.procs[p];
    if !q.pc.AcqWait? {
      r := NearUnblocked(w, s, p);
    } else if Wanted(q) !in s.locks {
      r := p;
      WaiterAdvances(w, s, r);
    } else {
      var h := HolderOf(w, s, Wanted(q));
      r := NearUnblocked(w, s, h);
    }
  }

  // ---------- termination ----------

  function Level(pc: Pc): nat {
    match pc
    case Idle => 13
    case CacheWait => 12
    case CachePlan(_) => 11
    case FreeCache(_) => 10
    case Remote => 9
    case AcqWait => 8
    case ManWait => 7
    case Plan(_) => 6
    case Next(_) => 5
    case Temp(_, _) => 5
    case Gone(_, _) => 5
    case Fetch(_) => 5
    case Commit(_) => 4
    case Check(_) => 3
    case Undo(_) => 2
    case FreeMan(_) => 1
    case FreeAcq(_) => 1
    case Finished(_) => 0
    case Crashed => 0
  }

  // Work left on the level.
  function Left(q: Proc): int {
    var n := |q.m.All()|;
    match q.pc
    case CachePlan(i) => n - i
    case Plan(i) => n - i
    case Next(i) => 4 * (n - i) + 3
    case Temp(i, _) => 4 * (n - i) + 2
    case Gone(i, _) => 4 * (n - i) + 1
    case Fetch(i) => 4 * (n - i)
    case Commit(k) => |q.staged| - k
    case Check(k) => n - k
    case Undo(k) => |q.staged| - k
    case FreeMan(_) => 1
    case _ => 0
  }

  ghost predicate Nearer(q: Proc, q': Proc) {
    Level(q'.pc) < Level(q.pc) || (Level(q'.pc) == Level(q.pc) && 0 <= Left(q') < Left(q))
  }

  ghost predicate InsideLevel(a: Action) {
    a.Hash? || a.Skip? || a.MakeTemp? || a.KeepTemp? || a.DropTemp? || a.TakePart? || a.Verify? || a.Rename? ||
      a.Recheck? || a.Restore? || a.Strand?
  }

  lemma InsideProgress(w: World, s: Sys, p: Pid, a: Action)
    requires Enabled(w, s, p, a) && InsideLevel(a) && (a.Verify? ==> s.procs[p].pc.i < |s.procs[p].m.All()|)
    ensures Nearer(s.procs[p], NextProc(w, s, p, a))
  {
  }

  lemma AcrossProgress(w: World, s: Sys, p: Pid, a: Action)
    requires Enabled(w, s, p, a) && !InsideLevel(a) && !a.Write?
    ensures Nearer(s.procs[p], NextProc(w, s, p, a))
  {
  }

  // Every step of a process but the arrival of bytes brings it nearer to its end,
  // and no step of another process sets it back: no run is a livelock.
  lemma EveryStepProgresses(w: World, states: seq<Sys>, events: seq<Event>, i: nat)
    requires Run(w, states, events) && i < |events| && !events[i].a.Write?
    ensures var s, t, p := states[i], states[i + 1], events[i].p;
            && Nearer(s.procs[p], t.procs[p])
            && forall r :: r in s.procs && r != p ==> t.procs[r] == s.procs[r]
  {
    RunInv(w, states, events, i);
    var s, p, a := states[i], events[i].p, events[i].a;
    assert ProcInv(w, s, p, s.procs[p]);
    if InsideLevel(a) {
      InsideProgress(w, s, p, a);
    } else {
      AcrossProgress(w, s, p, a);
    }
  }

  // ---------- how long a run can be ----------

  lemma {:induction false} OrderedIsShort(staged: seq<Staged>, i: nat)
    requires Ordered(staged, i)
    ensures |staged| <= i
  {
    if staged != [] {
      OrderedIsShort(staged[..|staged| - 1], staged[|staged| - 1].at);
    }
  }

  lemma LeftInRange(w: World, s: Sys, p: Pid)
    requires p in s.procs && PhaseInv(w, s, p, s.procs[p])
    ensures 0 <= Left(s.procs[p]) <= 4 * |s.procs[p].m.All()| + 3
  {
    var q := s.procs[p];
    if q.pc.Commit? || q.pc.Undo? {
      OrderedIsShort(q.staged, |q.m.All()|);
    }
  }

  // The measure as one number, for manifests of at most n artifacts.
  function Weight(q: Proc, n: nat): int {
    Scaled(Level(q.pc), n) + Left(q)
  }

  function Scaled(level: nat, n: nat): nat {
    level * (4 * n + 4)
  }

  lemma ScaledStep(low: nat, high: nat, n: nat)
    requires low < high
    ensures Scaled(low, n) + 4 * n + 4 <= Scaled(high, n)
  {
    assert Scaled(low, n) + 4 * n + 4 == (low + 1) * (4 * n + 4);
    assert (low + 1) * (4 * n + 4) <= high * (4 * n + 4);
  }

  lemma WeightFalls(q: Proc, q': Proc, n: nat)
    requires Nearer(q, q') && 0 <= Left(q) <= 4 * n + 3 && 0 <= Left(q') <= 4 * n + 3
    ensures Weight(q', n) < Weight(q, n)
  {
    if Level(q'.pc) < Level(q.pc) {
      ScaledStep(Level(q'.pc), Level(q.pc), n);
    }
  }

  // The steps of these processes, the arrival of bytes apart.
  function Steps(events: seq<Event>, ps: set<Pid>): nat {
    if events == [] then 0
    else
      Steps(events[..|events| - 1], ps) +
      (var e := events[|events| - 1]; if e.p in ps && !e.a.Write? then 1 else 0)
  }

  // No manifest a process comes to install lists more than n artifacts.
  ghost predicate Sized(states: seq<Sys>, n: nat) {
    forall i, p :: 0 <= i < |states| && p in states[i].procs ==> |states[i].procs[p].m.All()| <= n
  }

  lemma LeftInRun(w: World, states: seq<Sys>, events: seq<Event>, n: nat, p: Pid, i: nat)
    requires Run(w, states, events) && Sized(states, n) && i < |states| && p in states[i].procs
    ensures 0 <= Left(states[i].procs[p]) <= 4 * n + 3
  {
    RunInv(w, states, events, i);
    assert ProcInv(w, states[i], p, states[i].procs[p]);
    LeftInRange(w, states[i], p);
  }

  lemma StepOfOne(w: World, states: seq<Sys>, events: seq<Event>, n: nat, p: Pid, i: nat)
    requires Run(w, states, events) && Sized(states, n) && i < |events| && p in states[i].procs
    ensures p in states[i + 1].procs
    ensures Weight(states[i + 1].procs[p], n) + (if events[i].p == p && !events[i].a.Write? then 1 else 0) <=
            Weight(states[i].procs[p], n)
  {
    var s, t := states[i], states[i + 1];
    LeftInRun(w, states, events, n, p, i);
    LeftInRun(w, states, events, n, p, i + 1);
    if events[i].p == p && !events[i].a.Write? {
      EveryStepProgresses(w, states, events, i);
      WeightFalls(s.procs[p], t.procs[p], n);
    }
  }

  lemma {:induction false} StepsOfOne(w: World, states: seq<Sys>, events: seq<Event>, n: nat, p: Pid, i: nat)
    requires Run(w, states, events) && Sized(states, n) && i < |states| && p in states[0].procs
    ensures p in states[i].procs
    ensures Steps(events[..i], {p}) + Weight(states[i].procs[p], n) <= Weight(states[0].procs[p], n)
  {
    if i > 0 {
      StepsOfOne(w, states, events, n, p, i - 1);
      StepOfOne(w, states, events, n, p, i - 1);
      assert events[..i][..i - 1] == events[..i - 1];
    }
  }

  lemma BoundOfOne(w: World, states: seq<Sys>, events: seq<Event>, n: nat, p: Pid)
    requires Run(w, states, events) && Sized(states, n) && p in states[0].procs
    ensures Steps(events, {p}) <= 56 * (n + 1)
  {
    var last := |events|;
    StepsOfOne(w, states, events, n, p, last);
    assert events[..last] == events;
    LeftInRun(w, states, events, n, p, 0);
    LeftInRun(w, states, events, n, p, last);
    LevelBound(states[0].procs[p], n);
  }

  lemma LevelBound(q: Proc, n: nat)
    requires Left(q) <= 4 * n + 3
    ensures Weight(q, n) < 56 * (n + 1)
  {
    assert Level(q.pc) <= 13;
    if Level(q.pc) < 13 {
      ScaledStep(Level(q.pc), 13, n);
    }
  }

  lemma {:induction false} StepsSplit(events: seq<Event>, ps: set<Pid>, p: Pid)
    requires p in ps
    ensures Steps(events, ps) == Steps(events, {p}) + Steps(events, ps - {p})
  {
    if events != [] {
      StepsSplit(events[..|events| - 1], ps, p);
    }
  }

  lemma {:induction false} NoSteps(events: seq<Event>)
    ensures Steps(events, {}) == 0
  {
    if events != [] {
      NoSteps(events[..|events| - 1]);
    }
  }

  lemma {:induction false} BoundOfMany(w: World, states: seq<Sys>, events: seq<Event>, n: nat, ps: set<Pid>)
    requires Run(w, states, events) && Sized(states, n) && ps <= states[0].procs.Keys
    ensures Steps(events, ps) <= |ps| * (56 * (n + 1))
    decreases |ps|
  {
    if ps == {} {
      NoSteps(events);
    } else {
      var p :| p in ps;
      StepsSplit(events, ps, p);
      BoundOfOne(w, states, events, n, p);
      BoundOfMany(w, states, events, n, ps - {p});
      OneShare(|ps - {p}|, 56 * (n + 1));
    }
  }

  lemma OneShare(k: nat, b: nat)
    ensures (k + 1) * b == k * b + b
  {
  }

  // Whatever the processes do, and in whatever order, a run is at most so long, the
  // arrival of bytes apart.
  lemma RunsAreBounded(w: World, states: seq<Sys>, events: seq<Event>, n: nat)
    requires Run(w, states, events) && Sized(states, n)
    ensures Steps(events, states[0].procs.Keys) <= |states[0].procs| * (56 * (n + 1))
    ensures forall i :: 0 <= i < |events| ==> events[i].p in states[0].procs
  {
    BoundOfMany(w, states, events, n, states[0].procs.Keys);
    forall i | 0 <= i < |events|
      ensures events[i].p in states[0].procs
    {
      SameProcs(w, states, events, i);
    }
  }

  lemma {:induction false} SameProcs(w: World, states: seq<Sys>, events: seq<Event>, i: nat)
    requires Run(w, states, events) && i < |states|
    ensures states[i].procs.Keys == states[0].procs.Keys
  {
    if i > 0 {
      SameProcs(w, states, events, i - 1);
    }
  }

  // ---------- why a process ends as it does ----------

  // The process is bound to return, or has returned, what it was asked for.
  ghost predicate Admitted(pc: Pc) {
    || pc == FreeCache(Usable) || Downloading(pc) || pc.Check?
    || pc == FreeMan(true) || pc == FreeAcq(true) || pc == Finished(true)
  }

  // It is bound to return an error, or has done so.
  ghost predicate Failed(pc: Pc) {
    || pc == FreeCache(GiveUp) || pc.Undo?
    || pc == FreeMan(false) || pc == FreeAcq(false) || pc == Finished(false)
  }

  // The plan does not fit, an operation fails, the caller gives up, or what was downloaded
  // is not the artifact.
  ghost predicate GoesWrong(w: World, s: Sys, e: Event)
    requires e.p in s.procs
  {
    var q := s.procs[e.p];
    || e.a.Fail? || e.a.Cancel? || e.a.Abandon? || e.a == Decide(false) || e.a == Rename(false)
    || (e.a.Verify? && HasLast(s, q) && !LastGood(w, s, q))
  }

  ghost predicate WentWrong(w: World, states: seq<Sys>, events: seq<Event>, e: nat, p: Pid) {
    && e < |events| && e < |states| && events[e].p == p && p in states[e].procs
    && GoesWrong(w, states[e], events[e])
  }

  lemma AdmittedStep(w: World, s: Sys, p: Pid, a: Action)
    requires Enabled(w, s, p, a) && Admitted(NextProc(w, s, p, a).pc)
    ensures a == Decide(true) || Admitted(s.procs[p].pc)
  {
  }

  lemma ManifestStays(w: World, s: Sys, p: Pid, a: Action)
    requires Enabled(w, s, p, a) && Admitted(NextProc(w, s, p, a).pc)
    ensures NextProc(w, s, p, a).m == s.procs[p].m
  {
  }

  lemma RecheckPasses(w: World, s: Sys, p: Pid, a: Action)
    requires Enabled(w, s, p, a) && LocalInv(w, s, p, s.procs[p])
    ensures a.Recheck? ==> NextProc(w, s, p, a).pc.Check?
  {
    var q := s.procs[p];
    if a.Recheck? {
      var x := q.m.All()[q.pc.k];
      assert FinalGood(w, s.files, q.m.dir, x.filename) && w.spec(q.m.dir, x.filename) == x;
    }
  }

  lemma FailedStep(w: World, s: Sys, p: Pid, a: Action)
    requires Enabled(w, s, p, a) && LocalInv(w, s, p, s.procs[p]) && Failed(NextProc(w, s, p, a).pc)
    ensures Failed(s.procs[p].pc) || GoesWrong(w, s, Event(p, a))
  {
    RecheckPasses(w, s, p, a);
  }

  lemma AdmittedBefore(w: World, s: Sys, e: Event, p: Pid)
    requires Enabled(w, s, e.p, e.a)
    requires p in Do(w, s, e.p, e.a).procs && Admitted(Do(w, s, e.p, e.a).procs[p].pc)
    ensures p in s.procs && s.procs[p].m == Do(w, s, e.p, e.a).procs[p].m
    ensures Admitted(s.procs[p].pc) || e == Event(p, Decide(true))
  {
    if e.p == p {
      AdmittedStep(w, s, p, e.a);
      ManifestStays(w, s, p, e.a);
    }
  }

  // The event found the plan for this manifest to fit.
  ghost predicate FoundToFit(states: seq<Sys>, events: seq<Event>, e: nat, p: Pid, m: Manifest) {
    && e < |events| && e < |states| && events[e] == Event(p, Decide(true))
    && p in states[e].procs && states[e].procs[p].m == m
  }

  // What a process downloads or returns, from the cache as well, was found to fit before.
  lemma {:induction false} ReturnedWasAdmitted(w: World, states: seq<Sys>, events: seq<Event>, i: nat, p: Pid)
    requires Run(w, states, events) && i < |states| && p in states[i].procs && Admitted(states[i].procs[p].pc)
    ensures exists e :: 0 <= e < i && FoundToFit(states, events, e, p, states[i].procs[p].m)
  {
    assert i > 0;
    AdmittedBefore(w, states[i - 1], events[i - 1], p);
    if Admitted(states[i - 1].procs[p].pc) {
      ReturnedWasAdmitted(w, states, events, i - 1, p);
    } else {
      assert FoundToFit(states, events, i - 1, p, states[i].procs[p].m);
    }
  }

  lemma FailedBefore(w: World, s: Sys, e: Event, p: Pid)
    requires Enabled(w, s, e.p, e.a) && Inv(w, s)
    requires p in Do(w, s, e.p, e.a).procs && Failed(Do(w, s, e.p, e.a).procs[p].pc)
    ensures p in s.procs && (Failed(s.procs[p].pc) || (e.p == p && GoesWrong(w, s, e)))
  {
    if e.p == p {
      assert ProcInv(w, s, p, s.procs[p]);
      FailedStep(w, s, p, e.a);
    }
  }

  // An error is returned only if something went wrong before.
  lemma {:induction false} FailureHasCause(w: World, states: seq<Sys>, events: seq<Event>, i: nat, p: Pid)
    requires Run(w, states, events) && i < |states| && p in states[i].procs && Failed(states[i].procs[p].pc)
    ensures exists e :: 0 <= e < i && WentWrong(w, states, events, e, p)
  {
    assert i > 0;
    RunInv(w, states, events, i - 1);
    FailedBefore(w, states[i - 1], events[i - 1], p);
    if Failed(states[i - 1].procs[p].pc) {
      FailureHasCause(w, states, events, i - 1, p);
    } else {
      assert WentWrong(w, states, events, i - 1, p);
    }
  }

  // ---------- what a process leaves behind ----------

  // A staging file was there at the start, belongs to a process that is still installing
  // or that crashed, or is one whose removal or move back failed.
  lemma NoStagingLeft(w: World, states: seq<Sys>, events: seq<Event>, i: nat, x: Path)
    requires Run(w, states, events) && i < |states| && x.Stage? && x in states[i].files
    ensures x in w.residue || exists p ::
              OwnedBy(states[i].owner, x, p) && p in states[i].procs &&
              var q := states[i].procs[p];
              q.pc.Crashed? || Downloading(q.pc) || q.pc.Undo? || IsStageOf(q.m, q.staged, Stuck, x)
  {
    RunInv(w, states, events, i);
    var s := states[i];
    if x !in w.residue {
      var p := s.owner[x];
      assert OwnedBy(s.owner, x, p);
      assert ProcInv(w, s, p, s.procs[p]);
      assert Accounted(s.procs[p], x);
    }
  }

  // When the locks are about to be dropped, every claimed stage is settled: renamed
  // onto a final path that verifies, back under its stable name, deleted because its
  // content was found invalid, or left where it was because a file operation failed.
  lemma ClaimsAreSettled(w: World, states: seq<Sys>, events: seq<Event>, i: nat, p: Pid, j: nat)
    requires Run(w, states, events) && i < |states| && p in states[i].procs
    requires states[i].procs[p].pc.FreeMan? && j < |states[i].procs[p].staged|
    ensures var q := states[i].procs[p];
            var c := q.staged[j];
            c.at < |q.m.All()| && (c.fate != Stuck ==> StagedPath(q.m, c) !in states[i].files) &&
            match c.fate
            case Committed => FinalGood(w, states[i].files, q.m.dir, Name(q.m, c.at))
            case PutBack => PartPath(q.m, c.at) in states[i].files
            case Discarded => exists e :: 0 <= e < i && FoundInvalid(w, states[e], events[e], p, c.at, c.tag)
            case Stuck => exists e :: 0 <= e < i && LeftBehind(states[e], events[e], p, c.at, c.tag)
            case Live => false
  {
    RunInv(w, states, events, i);
    var s := states[i];
    var q := s.procs[p];
    assert ProcInv(w, s, p, q);
    assert StagedInv(w, s, p, q.m, q.staged[j]);
    if q.staged[j].fate == Discarded {
      DiscardedWasFoundInvalid(w, states, events, i, p, j);
    } else if q.staged[j].fate == Stuck {
      StuckWasLeftBehind(w, states, events, i, p, j);
    }
  }

  // A stage is discarded only in the step that finds its content invalid.
  lemma DiscardedWereInvalid(w: World, s: Sys, p: Pid, a: Action, j: nat)
    requires Enabled(w, s, p, a) && j < |s.procs[p].staged| && j < |NextProc(w, s, p, a).staged|
    requires s.procs[p].staged[j].fate != Discarded && NextProc(w, s, p, a).staged[j].fate == Discarded
    ensures a.Verify? && !LastGood(w, s, s.procs[p]) && j == |s.procs[p].staged| - 1
  {
  }

  // A stage becomes stuck only in a step in which removing it or moving it back fails.
  lemma StuckWasLive(w: World, s: Sys, p: Pid, a: Action, j: nat)
    requires Enabled(w, s, p, a) && j < |NextProc(w, s, p, a).staged|
    requires NextProc(w, s, p, a).staged[j].fate == Stuck
    requires j < |s.procs[p].staged| ==> s.procs[p].staged[j].fate != Stuck
    ensures var c := NextProc(w, s, p, a).staged[j]; LeftBehind(s, Event(p, a), p, c.at, c.tag)
  {
  }

  // The event fails to remove the temporary file of this claim of p, or to move its stage back.
  ghost predicate LeftBehind(s: Sys, e: Event, p: Pid, at: nat, tag: nat) {
    && e.p == p && p in s.procs
    && var q := s.procs[p];
    || (e.a.Abandon? && q.pc == Temp(at, tag))
    || (e.a.Strand? && q.pc.Undo? && q.pc.k < |q.staged| && q.staged[q.pc.k].at == at && q.staged[q.pc.k].tag == tag)
  }

  // In every run: what is stuck was left behind by such an event.
  lemma {:induction false} StuckWasLeftBehind(w: World, states: seq<Sys>, events: seq<Event>, i: nat, p: Pid, k: nat)
    requires Run(w, states, events) && i < |states| && p in states[i].procs
    requires k < |states[i].procs[p].staged| && states[i].procs[p].staged[k].fate == Stuck
    ensures var c := states[i].procs[p].staged[k];
            exists e :: 0 <= e < i && LeftBehind(states[e], events[e], p, c.at, c.tag)
  {
    assert i > 0;
    var s, e := states[i - 1], events[i - 1];
    var c := states[i].procs[p].staged[k];
    assert states[i] == Do(w, s, e.p, e.a);
    if e.p != p {
      assert s.procs[p] == states[i].procs[p];
      StuckWasLeftBehind(w, states, events, i - 1, p, k);
    } else {
      ClaimsGrow(w, s, p, e.a);
      if k < |s.procs[p].staged| && s.procs[p].staged[k].fate == Stuck {
        StuckWasLeftBehind(w, states, events, i - 1, p, k);
      } else {
        StuckWasLive(w, s, p, e.a, k);
        assert LeftBehind(states[i - 1], events[i - 1], p, c.at, c.tag);
      }
    }
  }

  // A step adds at most one claim, not a discarded one, and renames none.
  lemma ClaimsGrow(w: World, s: Sys, p: Pid, a: Action)
    requires Enabled(w, s, p, a)
    ensures var old', new' := s.procs[p].staged, NextProc(w, s, p, a).staged;
            && |old'| <= |new'| <= |old'| + 1
            && (|new'| > |old'| ==> new'[|old'|].fate != Discarded)
            && forall j :: 0 <= j < |old'| ==> new'[j].at == old'[j].at && new'[j].tag == old'[j].tag
  {
  }

  // The event verifies this claim of p and finds the content of its stage invalid.
  ghost predicate FoundInvalid(w: World, s: Sys, e: Event, p: Pid, at: nat, tag: nat) {
    && e.p == p && e.a.Verify? && Enabled(w, s, p, e.a)
    && Last(s.procs[p]).at == at && Last(s.procs[p]).tag == tag && !LastGood(w, s, s.procs[p])
  }

  // In every run: what is discarded was found invalid before.
  lemma {:induction false} DiscardedWasFoundInvalid(w: World, states: seq<Sys>, events: seq<Event>, i: nat, p: Pid,
                                                    k: nat)
    requires Run(w, states, events) && i < |states| && p in states[i].procs
    requires k < |states[i].procs[p].staged| && states[i].procs[p].staged[k].fate == Discarded
    ensures var c := states[i].procs[p].staged[k];
            exists e :: 0 <= e < i && FoundInvalid(w, states[e], events[e], p, c.at, c.tag)
  {
    assert i > 0;
    var s, e := states[i - 1], events[i - 1];
    var c := states[i].procs[p].staged[k];
    assert states[i] == Do(w, s, e.p, e.a);
    if e.p != p {
      assert s.procs[p] == states[i].procs[p];
      DiscardedWasFoundInvalid(w, states, events, i - 1, p, k);
    } else {
      ClaimsGrow(w, s, p, e.a);
      assert k < |s.procs[p].staged|;
      if s.procs[p].staged[k].fate == Discarded {
        DiscardedWasFoundInvalid(w, states, events, i - 1, p, k);
      } else {
        DiscardedWereInvalid(w, s, p, e.a, k);
        assert FoundInvalid(w, states[i - 1], events[i - 1], p, c.at, c.tag);
      }
    }
  }
}
