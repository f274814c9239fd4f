/** The observer `unique_weak_ptr`: a counted handle on the control block
    its source held when it was made. It never writes the block's pointer;
    it only reads it to tell whether the owned object is still alive. */
module WeakPtr {
  import opened Pointers
  import opened Detail
  import opened UniquePtr

  class UniqueWeakPtr {
    var pc: ControlBlock?

    /** The object invariant: its block counts it among its observers. */
    ghost predicate Valid()
      reads this, pc
    {
      pc != null ==> this in pc.observers && pc.Valid()
    }

    /** The default constructor: bound to no block. */
    constructor ()
      ensures Valid() && pc == null
    {
      pc := null;
    }

    /** Construction from an owner takes a snapshot of the owner's current
        block and adds a handle to it. */
    constructor FromOwner(r: WeakableUniquePtr)
      requires r.Valid()
      modifies r.pc
      ensures Valid() && r.Valid() && pc == r.pc
      ensures pc != null ==> pc.View() == Observe(old(r.pc.View()), this)
    {
      pc := r.pc;
      new;
      if pc != null {
        ObserveSound(pc.View(), this);
        pc.AddRef(Observing(this));
      }
    }

    /** The copy constructor shares the block of `r`. */
    constructor Copy(r: UniqueWeakPtr)
      requires r.Valid()
      modifies r.pc
      ensures Valid() && r.Valid() && pc == r.pc
      ensures pc != null ==> pc.View() == Observe(old(r.pc.View()), this)
    {
      pc := r.pc;
      new;
      if pc != null {
        ObserveSound(pc.View(), this);
        pc.AddRef(Observing(this));
      }
    }

    /** The move constructor takes over the handle of `r`, which is left
        bound to no block; the count does not change. */
    constructor MoveFrom(r: UniqueWeakPtr)
      requires r.Valid()
      modifies r, r.pc
      ensures Valid() && r.Valid()
      ensures pc == old(r.pc) && r.pc == null
      ensures pc != null ==> pc.View() == PassObserver(old(r.pc.View()), r, this)
    {
      pc := r.pc;
      new;
      r.pc := null;
      if pc != null {
        PassObserverSound(pc.View(), r, this);
        pc.PassObservation(r, this);
      }
    }

    /** The destructor releases the handle; the block is deleted if that was
        the last one. The object is left unbound. */
    method Destroy()
      requires Valid()
      modifies this, pc
      ensures Valid() && pc == null
      ensures old(pc) != null ==> old(pc).View() == Unobserve(old(pc.View()), this)
      ensures old(pc) != null ==> old(pc).Valid()
    {
      if pc != null {
        UnobserveSound(pc.View(), this);
        pc.Release(Observing(this));
      }
      pc := null;
    }

    /** `swap` exchanges the two handles; no block's contents change. */
    method Swap(r: UniqueWeakPtr)
      requires Valid() && r.Valid()
      modifies this, r, pc, r.pc
      ensures Valid() && r.Valid()
      ensures pc == old(r.pc) && r.pc == old(pc)
      ensures pc != r.pc && pc != null ==> pc.View() == PassObserver(old(r.pc.View()), r, this)
      ensures pc != r.pc && r.pc != null ==> r.pc.View() == PassObserver(old(pc.View()), this, r)
      ensures pc == r.pc && pc != null ==> pc.View() == old(pc.View())
    {
      ghost var mine, theirs := pc, r.pc;
      pc, r.pc := r.pc, pc;
      if mine != theirs {
        if theirs != null {
          PassObserverSound(theirs.View(), r, this);
          theirs.PassObservation(r, this);
        }
        if mine != null {
          PassObserverSound(mine.View(), this, r);
          mine.PassObservation(this, r);
        }
      }
    }

    /** `tmp.swap(*this)` followed by the end of the temporary `tmp`: the
        common tail of every assignment and of `reset()`. */
    method TakeOver(tmp: UniqueWeakPtr)
      requires Valid() && tmp.Valid() && tmp != this
      modifies this, tmp, pc, tmp.pc
      ensures Valid() && pc == old(tmp.pc) && tmp.pc == null
      ensures old(pc) != pc && pc != null ==> pc.View() == PassObserver(old(tmp.pc.View()), tmp, this)
      ensures old(pc) != pc && old(pc) != null ==> old(pc).View() == Unobserve(old(pc.View()), this)
      ensures old(pc) == pc && pc != null ==> pc.View() == Unobserve(old(pc.View()), tmp)
    {
      ghost var a := pc;
      tmp.Swap(this);
      label swapped:
      tmp.Destroy();
      if a != pc {
        if pc != null {
          assert pc.View() == old@swapped(pc.View());
        }
        if a != null {
          PassThenUnobserve(old(a.View()), this, tmp);
        }
      }
    }

    /** Copy-assignment from an observer: now bound to the block of `r`,
        which gains a handle; the previous block loses one. */
    method CopyAssign(r: UniqueWeakPtr)
      requires Valid() && r.Valid()
      modifies this, pc, r.pc
      ensures Valid() && r.Valid() && pc == old(r.pc)
      ensures old(pc) != pc && pc != null ==> pc.View() == Observe(old(r.pc.View()), this)
      ensures old(pc) != pc && old(pc) != null ==> old(pc).View() == Unobserve(old(pc.View()), this)
      ensures old(pc) == pc && pc != null ==> pc.View() == old(pc.View())
    {
      ghost var a, b := pc, r.pc;
      var tmp := new UniqueWeakPtr.Copy(r);
      TakeOver(tmp);
      if a != b && b != null {
        ObserveThenPass(old(b.View()), tmp, this);
      }
      if a == b && a != null {
        ObserveThenUnobserve(old(a.View()), tmp, this);
      }
    }

    /** Assignment from an owner: a new snapshot of the owner's current
        block, which gains a handle; the previous block loses one. */
    method AssignFromOwner(r: WeakableUniquePtr)
      requires Valid() && r.Valid()
      modifies this, pc, r.pc
      ensures Valid() && r.Valid() && pc == old(r.pc)
      ensures old(pc) != pc && pc != null ==> pc.View() == Observe(old(r.pc.View()), this)
      ensures old(pc) != pc && old(pc) != null ==> old(pc).View() == Unobserve(old(pc.View()), this)
      ensures old(pc) == pc && pc != null ==> pc.View() == old(pc.View())
    {
      ghost var a, b := pc, r.pc;
      var tmp := new UniqueWeakPtr.FromOwner(r);
      TakeOver(tmp);
      if a != b && b != null {
        ObserveThenPass(old(b.View()), tmp, this);
      }
      if a == b && a != null {
        ObserveThenUnobserve(old(a.View()), tmp, this);
      }
    }

    /** Move-assignment: the handle of `r` moves here and `r` is left
        unbound; the previous block loses a handle. Self-move-assignment
        changes nothing. */
    method MoveAssign(r: UniqueWeakPtr)
      requires Valid() && r.Valid()
      modifies this, r, pc, r.pc
      ensures Valid() && r.Valid()
      ensures r == this ==> pc == old(pc) && (pc != null ==> pc.View() == old(pc.View()))
      ensures r != this ==> pc == old(r.pc) && r.pc == null
      ensures r != this && old(pc) != pc && pc != null ==> pc.View() == PassObserver(old(r.pc.View()), r, this)
      ensures r != this && old(pc) != pc && old(pc) != null ==> old(pc).View() == Unobserve(old(pc.View()), this)
      ensures r != this && old(pc) == pc && pc != null ==> pc.View() == Unobserve(old(pc.View()), r)
    {
      ghost var a, b := pc, r.pc;
      var tmp := new UniqueWeakPtr.MoveFrom(r);
      TakeOver(tmp);
      if r == this && a != null {
        PassTwice(old(a.View()), this, tmp, this);
      }
      if r != this && a != b && b != null {
        PassTwice(old(b.View()), r, tmp, this);
      }
      if r != this && a == b && a != null {
        PassThenUnobserve(old(a.View()), r, tmp);
      }
    }

    /** `reset()`: drop the handle and become unbound. */
    method Reset()
      requires Valid()
      modifies this, pc
      ensures Valid() && pc == null
      ensures old(pc) != null ==> old(pc).View() == Unobserve(old(pc.View()), this)
    {
      var tmp := new UniqueWeakPtr();
      TakeOver(tmp);
    }

    /** `try_get()`: the pointer the block records, or null when unbound.
        A non-null answer means an owner still holds the block. */
    function TryGet(): (p: Ptr)
      reads this, pc
      requires Valid()
      ensures p != Null ==> pc != null && pc.owner != null && !pc.freed
      ensures pc != null && pc.owner == null ==> p == Null
    {
      if pc != null then pc.Get() else Null
    }

    /** `expired()`: true exactly when `try_get()` has nothing to give. */
    function Expired(): (b: bool)
      reads this, pc
      requires Valid()
      ensures b <==> TryGet() == Null
    {
      !(pc != null && pc.Get() != Null)
    }
  }
}
