/** Client code written against the three classes: each method builds its
    own owners and observers, runs one of the situations the header is made
    for, and states what the client can see afterwards. */
module Scenarios {
  import opened Pointers
  import opened Detail
  import opened UniquePtr
  import opened WeakPtr

  /** Destroying the owner runs its deleter once on the object, and its
      observers then report the object expired: `expired()` and a null
      `try_get()` together. */
  method DestroyExpiresObservers(p: Ptr)
    returns (seen: Ptr, after: Ptr, expired: bool, calls: seq<DeleterCall>)
    ensures seen == p
    ensures after == Null && expired
    ensures calls == Deletion(DefaultDeleter, p)
  {
    var log := new DeleterLog();
    var u := new WeakableUniquePtr.FromPointer(p);
    var w := new UniqueWeakPtr.FromOwner(u);
    seen := w.TryGet();
    AbandonSound(u.pc.View());
    u.Destroy(log);
    after := w.TryGet();
    expired := w.Expired();
    calls := log.calls;
  }

  /** A move hands the same cell to the new owner: an observer taken before
      the move still sees the object, and destroying the new owner expires
      the observers taken before and after the move alike, with one
      deleter call. */
  method MoveKeepsObservers(p: Ptr)
    returns (seen: Ptr, earlyAfter: Ptr, lateAfter: Ptr, calls: seq<DeleterCall>)
    ensures seen == p
    ensures earlyAfter == Null && lateAfter == Null
    ensures calls == Deletion(DefaultDeleter, p)
  {
    var log := new DeleterLog();
    var u := new WeakableUniquePtr.FromPointer(p);
    var early := new UniqueWeakPtr.FromOwner(u);
    var v := new WeakableUniquePtr.Move(u);
    var late := new UniqueWeakPtr.FromOwner(v);
    seen := early.TryGet();
    AbandonSound(v.pc.View());
    v.Destroy(log);
    earlyAfter, lateAfter := early.TryGet(), late.TryGet();
    calls := log.calls;
  }

  /** The end of a moved-from owner deletes nothing; the object lives on
      in the owner it moved to. */
  method MovedFromDeletesNothing(p: Ptr)
    returns (sourceSet: bool, current: Ptr, calls: seq<DeleterCall>)
    ensures !sourceSet && current == p
    ensures calls == []
  {
    var log := new DeleterLog();
    var u := new WeakableUniquePtr.FromPointer(p);
    var v := new WeakableUniquePtr.Move(u);
    sourceSet := u.IsSet();
    u.Destroy(log);
    current := v.Get();
    calls := log.calls;
  }

  /** `release()` hands the object back undeleted and without a deleter
      call, yet observers report it expired; the owner ends up with the
      default deleter in place of its custom one. */
  method ReleaseExpiresWithoutDeleting(p: Ptr, d: Deleter)
    returns (q: Ptr, expired: bool, isSet: bool, deleter: Deleter, calls: seq<DeleterCall>)
    ensures q == p
    ensures expired && !isSet
    ensures deleter == DefaultDeleter
    ensures calls == []
  {
    var log := new DeleterLog();
    var u := new WeakableUniquePtr.WithDeleter(p, d);
    var w := new UniqueWeakPtr.FromOwner(u);
    AbandonSound(u.pc.View());
    q := u.Release(log);
    expired := w.Expired();
    isSet := u.IsSet();
    deleter := u.GetDeleter();
    calls := log.calls;
  }

  /** `reset(p2)` deletes the old object through the old deleter, leaves
      the observers taken before it on the old, expired cell, and observers
      taken after it see the new object. */
  method ResetRebinds(p1: Ptr, p2: Ptr, d: Deleter)
    returns (before: Ptr, after: Ptr, current: Ptr, deleter: Deleter, calls: seq<DeleterCall>)
    ensures before == Null
    ensures after == p2 && current == p2
    ensures deleter == DefaultDeleter
    ensures calls == Deletion(d, p1)
  {
    var log := new DeleterLog();
    var u := new WeakableUniquePtr.WithDeleter(p1, d);
    var w1 := new UniqueWeakPtr.FromOwner(u);
    AbandonSound(u.pc.View());
    u.Reset(log, p2);
    var w2 := new UniqueWeakPtr.FromOwner(u);
    before := w1.TryGet();
    after := w2.TryGet();
    current := u.Get();
    deleter := u.GetDeleter();
    calls := log.calls;
  }

  /** An owner that never held an object tests false and its observers
      are expired. `reset()` with no argument still gives it a cell of its
      own, and deletes nothing. After a `reset(p2)`, an observer taken
      before still sees nothing, while one taken after sees `p2`: an
      observer keeps the cell it was made from and does not follow the
      owner. */
  method EmptyOwner(p2: Ptr)
    returns (isSet: bool, expired: bool, hasCell: bool, stillExpired: bool, after: Ptr,
             calls: seq<DeleterCall>)
    ensures !isSet && expired
    ensures hasCell
    ensures stillExpired && after == p2
    ensures calls == []
  {
    var log := new DeleterLog();
    var u := new WeakableUniquePtr();
    isSet := u.IsSet();
    var w := new UniqueWeakPtr.FromOwner(u);
    expired := w.Expired();
    u.Reset(log);
    hasCell := u.pc != null;
    u.Reset(log, p2);
    var w2 := new UniqueWeakPtr.FromOwner(u);
    stillExpired := w.Expired();
    after := w2.TryGet();
    calls := log.calls;
  }

  /** The deleter `get_deleter()` reports is the one the destructor calls:
      a custom deleter given at construction is reported and then runs
      exactly once on the object. */
  method DeleterReportsWhatRuns(p: Ptr, d: Deleter)
    returns (reported: Deleter, calls: seq<DeleterCall>)
    ensures reported == d
    ensures calls == Deletion(reported, p)
  {
    var log := new DeleterLog();
    var u := new WeakableUniquePtr.WithDeleter(p, d);
    reported := u.GetDeleter();
    u.Destroy(log);
    calls := log.calls;
  }

  /** Move-assignment deletes the destination's object and expires its
      observers; the source's observers follow the object to its new owner
      and the source is left empty. */
  method MoveAssignDeletesTarget(p1: Ptr, p2: Ptr)
    returns (dstSeen: Ptr, srcSeen: Ptr, current: Ptr, srcSet: bool, calls: seq<DeleterCall>)
    ensures dstSeen == Null
    ensures srcSeen == p2 && current == p2
    ensures !srcSet
    ensures calls == Deletion(DefaultDeleter, p1)
  {
    var log := new DeleterLog();
    var dst := new WeakableUniquePtr.FromPointer(p1);
    var src := new WeakableUniquePtr.FromPointer(p2);
    var wd := new UniqueWeakPtr.FromOwner(dst);
    var ws := new UniqueWeakPtr.FromOwner(src);
    AbandonSound(dst.pc.View());
    dst.MoveAssign(src, log);
    dstSeen := wd.TryGet();
    srcSeen := ws.TryGet();
    current := dst.Get();
    srcSet := src.IsSet();
    calls := log.calls;
  }

  /** Moving an owner into itself changes nothing and deletes nothing. */
  method SelfMoveAssign(p: Ptr, d: Deleter)
    returns (current: Ptr, seen: Ptr, deleter: Deleter, calls: seq<DeleterCall>)
    ensures current == p && seen == p && deleter == d
    ensures calls == []
  {
    var log := new DeleterLog();
    var u := new WeakableUniquePtr.WithDeleter(p, d);
    var w := new UniqueWeakPtr.FromOwner(u);
    u.MoveAssign(u, log);
    current := u.Get();
    seen := w.TryGet();
    deleter := u.GetDeleter();
    calls := log.calls;
  }

  /** Assigning `nullptr` deletes the object through the custom deleter and
      installs the default deleter. */
  method AssignNullDeletes(p: Ptr, d: Deleter)
    returns (expired: bool, deleter: Deleter, calls: seq<DeleterCall>)
    ensures expired
    ensures deleter == DefaultDeleter
    ensures calls == Deletion(d, p)
  {
    var log := new DeleterLog();
    var u := new WeakableUniquePtr.WithDeleter(p, d);
    var w := new UniqueWeakPtr.FromOwner(u);
    AbandonSound(u.pc.View());
    u.AssignNull(log);
    expired := w.Expired();
    deleter := u.GetDeleter();
    calls := log.calls;
  }

  /** Swapping two owners exchanges their objects and deleters; each
      observer keeps watching its cell, so it follows its object to the
      other owner. */
  method SwapOwners(p1: Ptr, d1: Deleter, p2: Ptr, d2: Deleter)
    returns (a: Ptr, b: Ptr, da: Deleter, db: Deleter, seen1: Ptr, seen2: Ptr)
    ensures a == p2 && b == p1 && da == d2 && db == d1
    ensures seen1 == p1 && seen2 == p2
  {
    var x := new WeakableUniquePtr.WithDeleter(p1, d1);
    var y := new WeakableUniquePtr.WithDeleter(p2, d2);
    var w1 := new UniqueWeakPtr.FromOwner(x);
    var w2 := new UniqueWeakPtr.FromOwner(y);
    x.Swap(y);
    a, b := x.Get(), y.Get();
    da, db := x.GetDeleter(), y.GetDeleter();
    seen1, seen2 := w1.TryGet(), w2.TryGet();
  }

  /** Copying and moving observers never changes what the cell stores:
      the copies see the live object and a moved-from observer sees
      nothing. */
  method ObserverCopyAndMove(p: Ptr)
    returns (seen1: Ptr, seen2: Ptr, seen3: Ptr, current: Ptr)
    ensures seen1 == p && seen3 == p && current == p
    ensures seen2 == Null
  {
    var u := new WeakableUniquePtr.FromPointer(p);
    var w1 := new UniqueWeakPtr.FromOwner(u);
    var w2 := new UniqueWeakPtr.Copy(w1);
    var w3 := new UniqueWeakPtr.MoveFrom(w2);
    seen1, seen2, seen3 := w1.TryGet(), w2.TryGet(), w3.TryGet();
    current := u.Get();
  }

  /** Assigning observers from an owner and from another observer binds
      them to the live cell without changing what it stores. */
  method ObserverAssign(p: Ptr)
    returns (seen1: Ptr, seen2: Ptr, current: Ptr)
    ensures seen1 == p && seen2 == p && current == p
  {
    var u := new WeakableUniquePtr.FromPointer(p);
    var w1 := new UniqueWeakPtr();
    w1.AssignFromOwner(u);
    var w2 := new UniqueWeakPtr();
    w2.CopyAssign(w1);
    seen1, seen2 := w1.TryGet(), w2.TryGet();
    current := u.Get();
  }

  /** Move-assigning an observer moves its handle: the moved-from observer
      sees nothing, the target sees the live object, and the owner keeps
      it. */
  method ObserverMoveAssign(p: Ptr)
    returns (movedFrom: Ptr, movedTo: Ptr, current: Ptr)
    ensures movedFrom == Null && movedTo == p && current == p
  {
    var u := new WeakableUniquePtr.FromPointer(p);
    var w1 := new UniqueWeakPtr.FromOwner(u);
    var w2 := new UniqueWeakPtr();
    w2.MoveAssign(w1);
    movedFrom, movedTo := w1.TryGet(), w2.TryGet();
    current := u.Get();
  }

  /** Swapping observers exchanges what they see, and resetting one drops
      its view; neither changes what the cell stores, so the owner keeps
      the object. */
  method ObserverSwapReset(p: Ptr)
    returns (swappedAway: Ptr, swappedIn: Ptr, reset: Ptr, current: Ptr)
    ensures swappedAway == Null && swappedIn == p
    ensures reset == Null && current == p
  {
    var u := new WeakableUniquePtr.FromPointer(p);
    var w1 := new UniqueWeakPtr.FromOwner(u);
    var w2 := new UniqueWeakPtr();
    w2.Swap(w1);
    swappedAway, swappedIn := w1.TryGet(), w2.TryGet();
    w2.Reset();
    reset := w2.TryGet();
    current := u.Get();
  }
}
