/** Writer leases of one session across any number of stores
    (internal/sessionstore/lock.go). Each store has its own cached state; what
    they share is the lock file, which the operating system gives to one open
    descriptor at a time. */
module Leases {
  import opened Basics
  import opened Events

  // A lease handed out by `AcquireWriter`.
  datatype Lease = Lease(store: nat, released: bool)

  // Who holds the lock file: nobody, a lease, or one operation of a store.
  datatype Holder = Free | ByLease(lease: nat) | ByOperation(store: nat)

  class LeaseTable {
    // `writer` of every store's state, every lease ever handed out, and the lock file.
    var writer: seq<Option<nat>>
    var leases: seq<Lease>
    var lockFile: Holder

    // A lease that still protects its session.
    ghost predicate Live(k: nat)
      reads this
    {
      k < |leases| && !leases[k].released
    }

    ghost predicate Valid()
      reads this
    {
      && (forall k :: 0 <= k < |leases| ==> leases[k].store < |writer|)
      && (forall k {:trigger leases[k]} :: 0 <= k < |leases| && !leases[k].released ==>
            writer[leases[k].store] == Some(k) && lockFile == ByLease(k))
      && (forall i :: 0 <= i < |writer| && writer[i].Some? ==>
            Live(writer[i].value) && leases[writer[i].value].store == i)
      && (lockFile.ByLease? ==> Live(lockFile.lease))
      && (lockFile.ByOperation? ==> lockFile.store < |writer|)
    }

    constructor (stores: nat)
      ensures Valid() && leases == [] && lockFile == Free && |writer| == stores
    {
      writer := seq(stores, _ => None);
      leases := [];
      lockFile := Free;
    }

    method AcquireWriter(i: nat, canceled: bool, opens: bool, canceledHeld: bool) returns (r: Result<nat, StoreError>)
      requires Valid() && i < |writer|
      modifies this
      ensures Valid() && |writer| == |old(writer)|
      // Contention is an error, never a wait; a lease is given exactly when
      // neither a lease nor an operation anywhere holds the lock file.
      ensures r.Ok? <==> !canceled && opens && !canceledHeld && old(lockFile) == Free
      ensures r.Ok? ==> r.value == |old(leases)| && leases == old(leases) + [Lease(i, false)]
                        && lockFile == ByLease(r.value) && writer == old(writer)[i := Some(r.value)]
      ensures r.Err? ==> leases == old(leases) && lockFile == old(lockFile) && writer == old(writer)
    {
      if canceled {
        return Err(Canceled);
      }
      if writer[i].Some? {
        return Err(InUse);
      }
      if !opens {
        return Err(IoFailed);
      }
      if lockFile != Free {
        return Err(InUse);
      }
      if canceledHeld {
        return Err(Canceled);
      }
      var k := |leases|;
      leases := leases + [Lease(i, false)];
      writer := writer[i := Some(k)];
      lockFile := ByLease(k);
      return Ok(k);
    }

    // Only the first Release of a lease does anything, so a repeated or late
    // one leaves the lease of a successor alone.
    method Release(k: nat)
      requires Valid() && k < |leases|
      modifies this
      ensures Valid() && |writer| == |old(writer)|
      ensures leases == old(leases)[k := old(leases)[k].(released := true)]
      ensures old(leases)[k].released ==> writer == old(writer) && lockFile == old(lockFile)
      ensures !old(leases)[k].released ==> lockFile == Free && writer == old(writer)[old(leases)[k].store := None]
      ensures forall j :: j != k && old(Live(j)) ==> Live(j)
    {
      if leases[k].released {
        assert leases[k := leases[k].(released := true)] == leases;
        return;
      }
      var i := leases[k].store;
      leases := leases[k := leases[k].(released := true)];
      writer := writer[i := None];
      lockFile := Free;
    }

    // `mutationGuard`: an operation needs no lock of its own under its store's lease.
    method BeginOperation(i: nat, canceled: bool, opens: bool) returns (err: Option<StoreError>)
      requires Valid() && i < |writer|
      modifies this`lockFile
      ensures Valid()
      ensures err.None? <==> !canceled && (writer[i].Some? || (opens && old(lockFile) == Free))
      ensures err.None? ==> if writer[i].Some? then lockFile == ByLease(writer[i].value) else lockFile == ByOperation(i)
      ensures err.Some? || writer[i].Some? ==> lockFile == old(lockFile)
    {
      if canceled {
        return Some(Canceled);
      }
      if writer[i].Some? {
        return None;
      }
      if !opens {
        return Some(IoFailed);
      }
      if lockFile != Free {
        return Some(InUse);
      }
      lockFile := ByOperation(i);
      return None;
    }

    method EndOperation(i: nat)
      requires Valid() && i < |writer|
      requires lockFile == ByOperation(i) || writer[i].Some?
      modifies this`lockFile
      ensures Valid()
      ensures if old(lockFile) == ByOperation(i) then lockFile == Free else lockFile == old(lockFile)
    {
      if writer[i].None? {
        lockFile := Free;
      }
    }

    // No two leases, and no lease and unleased operation, protect the session at once.
    lemma Exclusive(j: nat, k: nat)
      requires Valid() && Live(j) && Live(k)
      ensures j == k && !lockFile.ByOperation?
    {
    }
  }
}
