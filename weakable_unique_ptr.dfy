/** The exclusive owner `weakable_unique_ptr`: it holds the object pointer,
    the deleter and a counted handle on its current control block. C++ runs
    destructors implicitly; here `Destroy` is called where C++ would run
    one, including on the temporaries that move-assignment, `release()` and
    `reset()` create and swap with. */
module UniquePtr {
  import opened Pointers
  import opened Detail

  class WeakableUniquePtr {
    var px: Ptr
    var pd: Deleter
    var pc: ControlBlock?

    /** This owner holds the owning handle of its block, if it has one. */
    ghost predicate Holds()
      reads this, pc
    {
      pc != null ==> pc.Valid() && pc.owner == this
    }

    /** The object invariant: a block is present whenever a pointer is, and
        it records exactly that pointer. */
    ghost predicate Valid()
      reads this, pc
    {
      && Holds()
      && (pc == null ==> px == Null)
      && (pc != null ==> pc.px == px)
    }

    /** The default and the `nullptr` constructor: no object, no block. */
    constructor ()
      ensures Valid()
      ensures px == Null && pd == DefaultDeleter && pc == null
    {
      px := Null;
      pd := DefaultDeleter;
      pc := null;
    }

    /** Construction from a pointer allocates a fresh block, even for a
        null pointer. */
    constructor FromPointer(p: Ptr)
      ensures Valid()
      ensures px == p && pd == DefaultDeleter
      ensures pc != null && fresh(pc)
      ensures pc.View() == BlockView(CellState(1, p, false), this, multiset{})
    {
      px := p;
      pd := DefaultDeleter;
      pc := new ControlBlock(p);
      new;
      AdoptSound(pc.View(), this);
      pc.AddRef(Owning(this));
    }

    /** Construction from a pointer and a deleter. */
    constructor WithDeleter(p: Ptr, d: Deleter)
      ensures Valid()
      ensures px == p && pd == d
      ensures pc != null && fresh(pc)
      ensures pc.View() == BlockView(CellState(1, p, false), this, multiset{})
    {
      px := p;
      pd := d;
      pc := new ControlBlock(p);
      new;
      AdoptSound(pc.View(), this);
      pc.AddRef(Owning(this));
    }

    /** The move constructor hands over the pointer, the deleter and the
        same block; the source is left without pointer and block. */
    constructor Move(r: WeakableUniquePtr)
      requires r.Valid()
      modifies r, r.pc
      ensures Valid() && r.Valid()
      ensures px == old(r.px) && pd == old(r.pd) && pc == old(r.pc)
      ensures r.px == Null && r.pc == null && r.pd == old(r.pd)
      ensures pc != null ==> pc.View() == PassOwner(old(r.pc.View()), this)
    {
      px := r.px;
      pd := r.pd;
      pc := r.pc;
      new;
      r.pc := null;
      r.px := Null;
      if pc != null {
        pc.PassOwnership(this);
      }
    }

    /** The destructor: the deleter runs on the pointer if it is non-null,
        then the block is cleared and the owning handle released. The object
        is left empty, since its lifetime ends here. */
    method Destroy(log: DeleterLog)
      requires Holds()
      modifies this, pc, log
      ensures log.calls == old(log.calls) + Deletion(old(pd), old(px))
      ensures old(pc) != null ==> old(pc).View() == Abandon(old(pc.View()))
      ensures Valid() && px == Null && pc == null && pd == old(pd)
    {
      if px != Null {
        log.Invoke(pd, px);
      }
      if pc != null {
        AbandonSound(pc.View());
        pc.Reset();
        pc.Release(Owning(this));
      }
      px := Null;
      pc := null;
    }

    /** `swap` exchanges exactly the pointer, the deleter and the block
        reference; no block's contents change, only which owner holds it. */
    method Swap(r: WeakableUniquePtr)
      requires Holds() && r.Holds()
      modifies this, r, pc, r.pc
      ensures px == old(r.px) && pd == old(r.pd) && pc == old(r.pc)
      ensures r.px == old(px) && r.pd == old(pd) && r.pc == old(pc)
      ensures Holds() && r.Holds()
      ensures old(Valid()) && old(r.Valid()) ==> Valid() && r.Valid()
      ensures r != this && pc != null ==> pc.View() == PassOwner(old(r.pc.View()), this)
      ensures r != this && r.pc != null ==> r.pc.View() == PassOwner(old(pc.View()), r)
      ensures r == this ==> pc == old(pc) && (pc != null ==> pc.View() == old(pc.View()))
    {
      ghost var mine, theirs := pc, r.pc;
      px, r.px := r.px, px;
      pd, r.pd := r.pd, pd;
      pc, r.pc := r.pc, pc;
      if r != this {
        if theirs != null {
          theirs.PassOwnership(this);
        }
        if mine != null {
          mine.PassOwnership(r);
        }
      }
    }

    /** Move-assignment: the destination's previous object is deleted and
        its block cleared; it then holds what `r` held, and `r` is left
        empty. Self-move-assignment changes nothing. */
    method MoveAssign(r: WeakableUniquePtr, log: DeleterLog)
      requires Valid() && r.Valid()
      modifies this, r, pc, r.pc, log
      ensures Valid() && r.Valid()
      ensures r == this ==> px == old(px) && pd == old(pd) && pc == old(pc)
      ensures r == this ==> log.calls == old(log.calls) && (pc != null ==> pc.View() == old(pc.View()))
      ensures r != this ==> px == old(r.px) && pd == old(r.pd) && pc == old(r.pc)
      ensures r != this ==> r.px == Null && r.pc == null && r.pd == old(r.pd)
      ensures r != this ==> log.calls == old(log.calls) + Deletion(old(pd), old(px))
      ensures r != this && old(pc) != null ==> old(pc).View() == Abandon(old(pc.View()))
      ensures r != this && pc != null ==> pc.View() == PassOwner(old(r.pc.View()), this)
    {
      ghost var a, b := pc, r.pc;
      assert r != this && a != null && b != null ==> a != b;
      var tmp := new WeakableUniquePtr.Move(r);
      tmp.Swap(this);
      label swapped:
      tmp.Destroy(log);
      if pc != null && pc != a {
        assert pc.View() == old@swapped(pc.View());
      }
    }

    /** Assigning `nullptr`: the previous object is deleted, its block
        cleared, and the deleter becomes a default-constructed one. */
    method AssignNull(log: DeleterLog)
      requires Valid()
      modifies this, pc, log
      ensures Valid() && px == Null && pc == null && pd == DefaultDeleter
      ensures log.calls == old(log.calls) + Deletion(old(pd), old(px))
      ensures old(pc) != null ==> old(pc).View() == Abandon(old(pc.View()))
    {
      var tmp := new WeakableUniquePtr();
      tmp.Swap(this);
      tmp.Destroy(log);
    }

    /** `release()` gives the pointer back without running the deleter. The
        old block is still cleared, so its observers report expiry although
        the object lives on, and the deleter becomes a default one. */
    method Release(log: DeleterLog) returns (p: Ptr)
      requires Valid()
      modifies this, pc, log
      ensures p == old(px)
      ensures Valid() && px == Null && pc == null && pd == DefaultDeleter
      ensures log.calls == old(log.calls)
      ensures old(pc) != null ==> old(pc).View() == Abandon(old(pc.View()))
    {
      var tmp := new WeakableUniquePtr();
      tmp.Swap(this);
      p := tmp.px;
      tmp.px := Null;
      tmp.Destroy(log);
    }

    /** `reset(p)`: the previous object is deleted and its block cleared,
        and a brand-new block storing `p` is installed, even when `p` is
        null. The deleter becomes a default one. */
    method Reset(log: DeleterLog, p: Ptr := Null)
      requires Valid()
      modifies this, pc, log
      ensures Valid() && px == p && pd == DefaultDeleter
      ensures pc != null && fresh(pc)
      ensures pc.View() == BlockView(CellState(1, p, false), this, multiset{})
      ensures log.calls == old(log.calls) + Deletion(old(pd), old(px))
      ensures old(pc) != null ==> old(pc).View() == Abandon(old(pc.View()))
    {
      var tmp := new WeakableUniquePtr.FromPointer(p);
      tmp.Swap(this);
      tmp.Destroy(log);
    }

    /** `get()`: the pointer its block records, or null without a block. */
    function Get(): (p: Ptr)
      reads this, pc
      requires Valid()
      ensures pc != null ==> p == pc.Get()
      ensures pc == null ==> p == Null
    {
      px
    }

    /** `operator bool`: true exactly when its block records a live object. */
    function IsSet(): (b: bool)
      reads this, pc
      requires Valid()
      ensures b <==> pc != null && pc.Get() != Null
    {
      px != Null
    }

    /** `get_deleter()`: the deleter that the destructor, move-assignment,
        `= nullptr` and `reset` will call on the object. */
    function GetDeleter(): (d: Deleter)
      reads this, pc
      requires Valid()
      ensures d == pd
    {
      pd
    }
  }
}
