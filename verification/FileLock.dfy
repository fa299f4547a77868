/** The advisory lock of the installer (internal/llm/llamacpp/filelock_unix.go): taken by
    retrying, given up when the caller is cancelled, released once. */
module FileLock {
  import opened Prelude

  type Fd = nat

  // The kernel's table: which open file holds the lock of a path.
  class Kernel {
    var holders: map<string, Fd>

    constructor ()
      ensures holders == map[]
    {
      holders := map[];
    }

    ghost predicate HoldsNothing(fd: Fd)
      reads this
    {
      forall p :: p in holders ==> holders[p] != fd
    }

    // What fd holds.
    ghost function Held(fd: Fd): set<string>
      reads this
    {
      set p | p in holders && holders[p] == fd
    }

    // flock(LOCK_EX | LOCK_NB): fails while another open file holds the lock.
    method TryLock(path: string, fd: Fd) returns (ok: bool)
      modifies this
      ensures ok <==> path !in old(holders) || old(holders)[path] == fd
      ensures holders == if ok then old(holders)[path := fd] else old(holders)
    {
      ok := path !in holders || holders[path] == fd;
      if ok {
        holders := holders[path := fd];
      }
    }

    // Closing the descriptor drops what it holds.
    method Drop(fd: Fd)
      modifies this
      ensures holders == map p | p in old(holders) && old(holders)[p] != fd :: old(holders)[p]
    {
      holders := map p | p in holders && holders[p] != fd :: holders[p];
    }

    // Time passes: others come to hold what they hold then, fd's locks stay.
    method Tick(fd: Fd, others: map<string, Fd>)
      requires HoldsNothing(fd)
      modifies this
      ensures HoldsNothing(fd) && forall p :: p in holders <==> p in others && others[p] != fd
    {
      holders := map p | p in others && others[p] != fd :: others[p];
    }
  }

  // Another open file holds the lock.
  ghost predicate Busy(holders: map<string, Fd>, path: string, fd: Fd) {
    path in holders && holders[path] != fd
  }

  class Lock {
    var file: Option<Fd>

    constructor (fd: Fd)
      ensures file == Some(fd)
    {
      file := Some(fd);
    }

    // The first call releases; any further call does nothing.
    method Close(k: Kernel)
      modifies this, k
      ensures file == None
      ensures old(file).None? ==> k.holders == old(k.holders)
      ensures old(file).Some? ==>
                k.holders == map p | p in old(k.holders) && old(k.holders)[p] != old(file).value :: old(k.holders)[p]
    {
      if file.None? {
        return;
      }
      k.Drop(file.value);
      file := None;
    }
  }

  // What others hold at look i, from the first on.
  ghost function Seen(first: map<string, Fd>, others: nat -> map<string, Fd>, i: nat): map<string, Fd> {
    if i == 0 then first else others(i)
  }

  ghost predicate FreeAtSomeLook(first: map<string, Fd>, others: nat -> map<string, Fd>, patience: nat, path: string,
                                 fd: Fd)
  {
    exists i: nat :: i < patience && !Busy(Seen(first, others, i), path, fd)
  }

  // acquireFileLock for a descriptor just opened; patience is how often it looks before
  // the context is done, others(i) what others hold when it looks again. It gets the lock
  // exactly if that is free at one of the looks; giving up leaves nothing held.
  method AcquireFileLock(k: Kernel, path: string, fd: Fd, patience: nat, others: nat -> map<string, Fd>)
    returns (lock: Lock?)
    requires k.HoldsNothing(fd)
    modifies k
    ensures lock != null <==> FreeAtSomeLook(old(k.holders), others, patience, path, fd)
    ensures patience > 0 && path !in old(k.holders) ==> lock != null
    ensures forall i :: 0 < i < patience && path !in others(i) ==> lock != null
    ensures path in old(k.holders) && (forall i :: 0 < i < patience ==> path in others(i) && others(i)[path] != fd) ==>
              lock == null
    ensures lock == null ==> k.HoldsNothing(fd)
    ensures lock != null ==> fresh(lock) && lock.file == Some(fd) && k.Held(fd) == {path}
  {
    lock := null;
    ghost var first := k.holders;
    for i := 0 to patience
      invariant k.HoldsNothing(fd)
      invariant path in k.holders <==> Busy(Seen(first, others, i), path, fd)
      invariant forall j: nat :: j < i ==> Busy(Seen(first, others, j), path, fd)
    {
      var ok := k.TryLock(path, fd);
      if ok {
        return new Lock(fd);
      }
      k.Tick(fd, others(i + 1));
    }
    k.Drop(fd);
    forall i | 0 < i < patience
      ensures path in others(i)
    {
      assert Busy(Seen(first, others, i), path, fd);
    }
  }
}
