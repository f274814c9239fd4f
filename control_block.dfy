/** The liveness cell `detail::weakable_unique_ptr_control_block`: a
    reference-counted heap record holding the owned pointer until the owner
    clears it. */
module Detail {
  import opened Pointers

  /** The abstract value of a control block: its count, its stored pointer,
      and whether `delete` has been run on it. */
  datatype CellState = CellState(refCount: int, px: Ptr, freed: bool)

  /** The operations a block offers: `intrusive_ptr_add_ref`,
      `intrusive_ptr_release` and `reset()`. */
  datatype CellOp = AddRefOp | ReleaseOp | ClearOp

  /** The state `new control_block(p)` produces. */
  function Fresh(p: Ptr): (s: CellState)
  {
    CellState(0, p, false)
  }

  /** An operation may be applied to a block that has not been deleted;
      releasing also needs a reference that is actually held. */
  predicate Enabled(s: CellState, op: CellOp)
  {
    !s.freed && (op == ReleaseOp ==> s.refCount > 0)
  }

  function Step(s: CellState, op: CellOp): (t: CellState)
    requires Enabled(s, op)
  {
    match op
    case AddRefOp => s.(refCount := s.refCount + 1)
    case ReleaseOp => s.(refCount := s.refCount - 1, freed := s.refCount - 1 == 0)
    case ClearOp => s.(px := Null)
  }

  /** A sequence of operations none of which touches a deleted block or
      releases a reference that is not held. */
  predicate Allowed(s: CellState, ops: seq<CellOp>)
    decreases |ops|
  {
    ops == [] || (Enabled(s, ops[0]) && Allowed(Step(s, ops[0]), ops[1..]))
  }

  function Run(s: CellState, ops: seq<CellOp>): (t: CellState)
    requires Allowed(s, ops)
    decreases |ops|
  {
    if ops == [] then s else Run(Step(s, ops[0]), ops[1..])
  }

  /** Clearing twice is the same as clearing once. */
  lemma ClearIdempotent(s: CellState)
    requires !s.freed
    ensures Enabled(Step(s, ClearOp), ClearOp)
    ensures Step(Step(s, ClearOp), ClearOp) == Step(s, ClearOp)
  {
  }

  /** The stored pointer is only ever written by the constructor: after any
      run it is the original pointer if no clear happened and null
      otherwise, so once null it stays null. */
  lemma {:induction false} RunPointer(s: CellState, ops: seq<CellOp>)
    requires Allowed(s, ops)
    ensures Run(s, ops).px == if ClearOp in ops then Null else s.px
    decreases |ops|
  {
    if ops != [] {
      RunPointer(Step(s, ops[0]), ops[1..]);
      assert ops == [ops[0]] + ops[1..];
    }
  }

  /** The count moves by one per add-ref and by minus one per release. */
  lemma {:induction false} RunCount(s: CellState, ops: seq<CellOp>)
    requires Allowed(s, ops)
    ensures Run(s, ops).refCount
         == s.refCount + multiset(ops)[AddRefOp] - multiset(ops)[ReleaseOp]
    decreases |ops|
  {
    if ops != [] {
      RunCount(Step(s, ops[0]), ops[1..]);
      assert ops == [ops[0]] + ops[1..];
      assert multiset(ops) == multiset{ops[0]} + multiset(ops[1..]);
    }
  }

  /** A live block with a non-negative count is deleted at the end of a run
      exactly when some release brought its count to zero: never before the
      count reaches zero, and always once it does. */
  lemma {:induction false} FreedExactlyAtZero(s: CellState, ops: seq<CellOp>)
    requires Allowed(s, ops) && !s.freed && s.refCount >= 0
    ensures Run(s, ops).freed <==> ReleaseOp in ops && Run(s, ops).refCount == 0
    ensures Run(s, ops).refCount >= 0
    decreases |ops|
  {
    if ops != [] {
      var t := Step(s, ops[0]);
      var rest := ops[1..];
      assert ops == [ops[0]] + rest;
      if t.freed {
        assert rest == [];
      } else {
        FreedExactlyAtZero(t, rest);
        if ReleaseOp !in rest {
          RunCount(t, rest);
          assert multiset(rest)[ReleaseOp] == 0;
        }
      }
    }
  }

  /** The abstract value of a block together with who holds its counted
      references: the owner's handle, if the owner has not let go, and one
      entry per observer handle. */
  datatype BlockView = BlockView(state: CellState, owner: object?, observers: multiset<object>)

  /** The count is the number of handles; only a block nobody holds is
      deleted; a block its owner has let go of stores null. */
  ghost predicate Sound(v: BlockView)
  {
    && v.state.refCount == |v.observers| + (if v.owner == null then 0 else 1)
    && (v.state.freed ==> v.state.refCount == 0)
    && (v.owner == null ==> v.state.px == Null)
  }

  /** The owner constructed with this block takes the first handle. */
  ghost function Adopt(v: BlockView, o: object): (w: BlockView)
    requires !v.state.freed
  {
    BlockView(Step(v.state, AddRefOp), o, v.observers)
  }

  /** An observer `h` takes a new handle. */
  ghost function Observe(v: BlockView, h: object): (w: BlockView)
    requires !v.state.freed
  {
    BlockView(Step(v.state, AddRefOp), v.owner, v.observers + multiset{h})
  }

  /** An observer `h` drops its handle. */
  ghost function Unobserve(v: BlockView, h: object): (w: BlockView)
    requires Enabled(v.state, ReleaseOp)
  {
    BlockView(Step(v.state, ReleaseOp), v.owner, v.observers - multiset{h})
  }

  /** The owner lets go: it clears the pointer, then drops its handle. */
  ghost function Abandon(v: BlockView): (w: BlockView)
    requires Enabled(v.state, ReleaseOp)
  {
    BlockView(Step(Step(v.state, ClearOp), ReleaseOp), null, v.observers)
  }

  /** The owning handle moves to the owner object `to`. */
  ghost function PassOwner(v: BlockView, to: object): (w: BlockView)
  {
    v.(owner := to)
  }

  /** One observer handle moves from `from` to `to`. */
  ghost function PassObserver(v: BlockView, from: object, to: object): (w: BlockView)
  {
    v.(observers := v.observers - multiset{from} + multiset{to})
  }

  /* Every handle operation keeps the count equal to the number of handles.
     One lemma per operation on `BlockView`. */

  /** The owner constructed with a block takes its first owning handle; the
      block may store any pointer, since it is not yet sound without one. */
  lemma AdoptSound(v: BlockView, o: object)
    requires !v.state.freed && v.owner == null
    requires v.state.refCount == |v.observers|
    ensures Sound(Adopt(v, o))
  {
  }

  /** An observer taking a handle keeps the block sound. */
  lemma ObserveSound(v: BlockView, h: object)
    requires Sound(v) && !v.state.freed
    ensures Sound(Observe(v, h))
  {
  }

  /** An observer holding a handle may drop it; the block is deleted
      exactly when that was the last handle. */
  lemma UnobserveSound(v: BlockView, h: object)
    requires Sound(v) && h in v.observers
    ensures Enabled(v.state, ReleaseOp) && Sound(Unobserve(v, h))
    ensures Unobserve(v, h).state.freed <==> v.owner == null && v.observers == multiset{h}
  {
    assert |v.observers - multiset{h}| == |v.observers| - 1;
    if Unobserve(v, h).state.freed {
      assert |v.observers - multiset{h}| == 0;
    }
  }

  /** The owner may let go of its block; the block is then deleted exactly
      when no observer holds it, and otherwise stores null. */
  lemma AbandonSound(v: BlockView)
    requires Sound(v) && v.owner != null
    ensures Enabled(v.state, ReleaseOp) && Sound(Abandon(v))
    ensures Abandon(v).state.freed <==> v.observers == multiset{}
  {
  }

  /** Moving the owning handle to another owner keeps the block sound. */
  lemma PassOwnerSound(v: BlockView, to: object)
    requires Sound(v) && v.owner != null
    ensures Sound(PassOwner(v, to))
  {
  }

  /** Moving an observer handle from `from` to `to` keeps the block sound,
      and `to` then holds a handle. */
  lemma PassObserverSound(v: BlockView, from: object, to: object)
    requires Sound(v) && from in v.observers
    ensures Sound(PassObserver(v, from, to)) && to in PassObserver(v, from, to).observers
  {
    assert |v.observers - multiset{from} + multiset{to}| == |v.observers|;
  }

  /** A temporary observer handle passed on to `h` leaves the block as if
      `h` had taken the handle directly. */
  lemma ObserveThenPass(v: BlockView, tmp: object, h: object)
    requires !v.state.freed
    ensures PassObserver(Observe(v, tmp), tmp, h) == Observe(v, h)
  {
    assert v.observers + multiset{tmp} - multiset{tmp} + multiset{h} == v.observers + multiset{h};
  }

  /** The handle of `h` passed to a temporary that then drops it leaves the
      block as if `h` had dropped it directly. */
  lemma PassThenUnobserve(v: BlockView, h: object, tmp: object)
    requires Sound(v) && h in v.observers
    ensures Enabled(PassObserver(v, h, tmp).state, ReleaseOp)
    ensures Unobserve(PassObserver(v, h, tmp), tmp) == Unobserve(v, h)
  {
    assert v.observers - multiset{h} + multiset{tmp} - multiset{tmp} == v.observers - multiset{h};
  }

  /** An observer handle passed from `h` to a temporary and from there to
      `g` ends where a direct pass from `h` to `g` puts it; passed back to
      `h` itself, the block is as it was. */
  lemma PassTwice(v: BlockView, h: object, tmp: object, g: object)
    requires h in v.observers
    ensures PassObserver(PassObserver(v, h, tmp), tmp, g) == PassObserver(v, h, g)
    ensures g == h ==> PassObserver(v, h, g) == v
  {
    assert v.observers - multiset{h} + multiset{tmp} - multiset{tmp} + multiset{g}
        == v.observers - multiset{h} + multiset{g};
    if g == h {
      assert v.observers - multiset{h} + multiset{h} == v.observers;
    }
  }

  /** A temporary handle taken and dropped again on a block that some
      observer `h` holds leaves the block exactly as it was. */
  lemma ObserveThenUnobserve(v: BlockView, tmp: object, h: object)
    requires Sound(v) && h in v.observers
    ensures Unobserve(Observe(v, tmp), tmp) == v
  {
    assert v.observers + multiset{tmp} - multiset{tmp} == v.observers;
  }

  /** Who holds a counted reference to a block: its owner or an observer. */
  datatype Holder = Owning(o: object) | Observing(o: object)

  class ControlBlock {
    var refCount: int
    var px: Ptr
    /** Set once `delete` has run on this block. */
    ghost var freed: bool
    /** The owner whose `pc` refers to this block, if it has not let go. */
    ghost var owner: object?
    /** The observers whose `pc` refer to this block, one entry per handle. */
    ghost var observers: multiset<object>

    ghost function State(): (s: CellState)
      reads this
    {
      CellState(refCount, px, freed)
    }

    ghost function View(): (v: BlockView)
      reads this
    {
      BlockView(State(), owner, observers)
    }

    ghost predicate Valid()
      reads this
    {
      Sound(View())
    }

    constructor (p: Ptr)
      ensures View() == BlockView(Fresh(p), null, multiset{})
    {
      refCount := 0;
      px := p;
      freed := false;
      owner := null;
      observers := multiset{};
    }

    /** `reset()`: forget the pointer. */
    method Reset()
      requires !freed
      modifies this
      ensures View() == old(View()).(state := Step(old(State()), ClearOp))
    {
      px := Null;
    }

    /** `get()` */
    function Get(): (p: Ptr)
      reads this
      requires Valid()
      ensures p != Null ==> owner != null && !freed
    {
      px
    }

    /** `intrusive_ptr_add_ref`, for the handle of `h`. */
    method AddRef(ghost h: Holder)
      requires !freed
      modifies this
      ensures State() == Step(old(State()), AddRefOp)
      ensures h.Owning? ==> View() == Adopt(old(View()), h.o)
      ensures h.Observing? ==> View() == Observe(old(View()), h.o)
    {
      refCount := refCount + 1;
      if h.Owning? {
        owner := h.o;
      } else {
        observers := observers + multiset{h.o};
      }
    }

    /** `intrusive_ptr_release`, for the handle of `h`: the block is deleted
        when the count drops to zero. */
    method Release(ghost h: Holder)
      requires !freed && refCount > 0
      modifies this
      ensures State() == Step(old(State()), ReleaseOp)
      ensures h.Owning? ==> View() == old(View()).(state := State(), owner := null)
      ensures h.Observing? ==> View() == Unobserve(old(View()), h.o)
    {
      refCount := refCount - 1;
      if h.Owning? {
        owner := null;
      } else {
        observers := observers - multiset{h.o};
      }
      if refCount == 0 {
        freed := true;
      }
    }

    /** The owning handle moves to another owner object (a move or a swap
        of owners). */
    ghost method PassOwnership(to: object)
      modifies this
      ensures View() == PassOwner(old(View()), to)
    {
      owner := to;
    }

    /** An observer handle moves from one observer object to another (a move
        or a swap of observers). */
    ghost method PassObservation(from: object, to: object)
      modifies this
      ensures View() == PassObserver(old(View()), from, to)
    {
      observers := observers - multiset{from} + multiset{to};
    }
  }
}
