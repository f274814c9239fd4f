# weakable_unique_ptr in Dafny

This project models `weakable_unique_ptr.hpp`, a prototype header that declares `boost::weakable_unique_ptr` inside `namespace boost`; Boost itself does not ship it. The header has three parts:

- `weakable_unique_ptr` is an exclusive owner, like `std::unique_ptr`.
- `unique_weak_ptr` is a non-owning observer. It can tell whether the owned object is still alive.
- `detail::weakable_unique_ptr_control_block` connects the two. It is a reference-counted heap cell that stores the owned pointer until the owner clears it.

The model is imperative, as the header is. Each of the three is a class whose methods update fields in place:

- `Detail.ControlBlock` is the control block.
- `UniquePtr.WeakableUniquePtr` is the owner.
- `WeakPtr.UniqueWeakPtr` is the observer.

C++ runs destructors implicitly. In this model a `Destroy` method is called at each point where C++ would run a destructor. That includes the temporaries that move-assignment, `operator=(nullptr)`, `release()`, `reset()`, every observer assignment and the observer's `reset()` create, swap with `*this`, and let die.

Pointers are natural numbers, with `Null` (0) standing for `nullptr`. A deleter is an identity token, and `DefaultDeleter` is what a default-constructed deleter holds. A call of a deleter appends to a `DeleterLog`, which stands for the object's deletion.

Each block carries ghost bookkeeping:

- which owner object holds its owning handle;
- which observer objects hold its other handles, as a multiset;
- whether `delete` has run on it.

The block invariant `Detail.Sound` says three things:

- the count equals the number of handles;
- only a block nobody holds is deleted;
- a block its owner has let go of stores null.

Every handle operation keeps this invariant. The owner's invariant says that the block it points to names it as owner and stores its pointer. So two live owners never share a block, and an observer's view of the block is the owner's pointer or null.

A pure trace model proves what any sequence of the block's own operations does:

- `CellState` is the block's state.
- `Step` applies one of `intrusive_ptr_add_ref`, `intrusive_ptr_release` or `reset()`.
- `Run` applies a sequence of them.

Each block operation is stated as one `Step`. Each handle operation is stated as a function on `BlockView` (the block's state plus its holders): `Adopt`, `Observe`, `Unobserve`, `Abandon`, `PassOwner` and `PassObserver`. Lemmas compose these views.

Module `Scenarios` contains client methods. Each one builds its own owners and observers and proves what a user of the header observes afterwards.

## Model

| member | source | states |
|---|---|---|
| Pointers.Deletion | weakable_unique_ptr.hpp:87-90 | the deleter is called at most once; it is called iff the pointer is non-null, and then on that pointer with that deleter |
| Pointers.DeleterLog.Invoke | weakable_unique_ptr.hpp:89 | a deleter call appends exactly that call to the record of calls |
| Detail.ControlBlock.constructor | weakable_unique_ptr.hpp:23-26 | a new block has count 0, stores the given pointer, and has no holders |
| Detail.ControlBlock.Reset | weakable_unique_ptr.hpp:31-34 | `reset()` nulls the stored pointer; it changes nothing else and no holder |
| Detail.ControlBlock.Get | weakable_unique_ptr.hpp:36-39 | a non-null stored pointer implies that the block is live and an owner still holds it |
| Detail.ControlBlock.AddRef | weakable_unique_ptr.hpp:41-43 | the count goes up by one; the new handle is recorded as the owner's or as one more observer's |
| Detail.ControlBlock.Release | weakable_unique_ptr.hpp:45-49 | the count goes down by one; the block is deleted exactly when the count reaches zero; the releasing handle is removed |
| Detail.ControlBlock.PassOwnership | weakable_unique_ptr.hpp:133 | moving the owner's `intrusive_ptr` moves the owning handle to the new owner; the count and the pointer stay the same |
| Detail.ControlBlock.PassObservation | weakable_unique_ptr.hpp:291-293 | moving an observer's `intrusive_ptr` moves one observer handle; the count and the pointer stay the same |
| Detail.ClearIdempotent | weakable_unique_ptr.hpp:31-34 | clearing a block twice is the same as clearing it once |
| Detail.RunPointer | weakable_unique_ptr.hpp:23-49 | after any run of block operations, the stored pointer is null if the run cleared it and the original pointer otherwise, so it never becomes non-null again once cleared |
| Detail.RunCount | weakable_unique_ptr.hpp:41-49 | after any run, the count is the initial count plus the number of add-refs minus the number of releases |
| Detail.FreedExactlyAtZero | weakable_unique_ptr.hpp:45-49 | a run deletes a live block iff it contains a release and ends with count zero; deletion never happens earlier and the count never goes negative |
| Detail.AdoptSound | weakable_unique_ptr.hpp:109-112 | a fresh block, whatever pointer it stores, becomes sound when the owner it was constructed for takes the first handle: the count then equals the number of handles |
| Detail.ObserveSound | weakable_unique_ptr.hpp:41-43 | an observer taking a handle keeps the count equal to the number of handles |
| Detail.UnobserveSound | weakable_unique_ptr.hpp:45-49 | an observer holding a handle can always release it, the count stays equal to the number of handles, and the block is deleted iff that was the last handle |
| Detail.AbandonSound | weakable_unique_ptr.hpp:85-95 | an owner can always clear its block and release its handle; the block is then deleted iff no observer holds it, and otherwise it stores null |
| Detail.PassOwnerSound | weakable_unique_ptr.hpp:132-136 | moving the owning handle to another owner keeps the count equal to the number of handles |
| Detail.PassObserverSound | weakable_unique_ptr.hpp:291-293 | moving an observer handle keeps the count equal to the number of handles, and the receiving observer then holds a handle |
| Detail.ObserveThenPass | weakable_unique_ptr.hpp:303-307 | an observer handle taken by a temporary and swapped to `h` is the same as `h` taking it directly |
| Detail.PassThenUnobserve | weakable_unique_ptr.hpp:336-339 | a handle swapped from `h` into a temporary that then dies is the same as `h` releasing it |
| Detail.ObserveThenUnobserve | weakable_unique_ptr.hpp:303-307 | copy-assigning an observer from one on the same block leaves the block exactly as it was |
| Detail.PassTwice | weakable_unique_ptr.hpp:323-327 | moving a handle through a temporary equals moving it directly; moving it back to where it started is no change |
| UniquePtr.WeakableUniquePtr.constructor | weakable_unique_ptr.hpp:99-107 | default and `nullptr` construction give a null pointer, the default deleter, and no block |
| UniquePtr.WeakableUniquePtr.FromPointer | weakable_unique_ptr.hpp:109-112 | construction from `p`, even a null `p`, allocates a fresh block that stores `p`, has count 1, and is held by this owner |
| UniquePtr.WeakableUniquePtr.WithDeleter | weakable_unique_ptr.hpp:114-120 | as `FromPointer`, with the given deleter stored |
| UniquePtr.WeakableUniquePtr.Move | weakable_unique_ptr.hpp:132-136 | the move constructor takes the same block object, the pointer and the deleter; the source is left with a null pointer and no block |
| UniquePtr.WeakableUniquePtr.Destroy | weakable_unique_ptr.hpp:85-95 | the deleter runs once on the pointer iff it is non-null; then the block is cleared and the owning handle released, and the block is deleted iff no observer remains |
| UniquePtr.WeakableUniquePtr.Swap | weakable_unique_ptr.hpp:241-246 | exactly the pointer, the deleter and the block reference are exchanged; no block's contents change, only which owner holds it |
| UniquePtr.WeakableUniquePtr.MoveAssign | weakable_unique_ptr.hpp:160-164 | the old object is deleted and its block cleared; the destination then holds the source's pointer, deleter and block, and the source is empty; self-move-assignment changes nothing |
| UniquePtr.WeakableUniquePtr.AssignNull | weakable_unique_ptr.hpp:173-177 | the old object is deleted and its block cleared; the owner is left with no pointer, no block and the default deleter |
| UniquePtr.WeakableUniquePtr.Release | weakable_unique_ptr.hpp:184-189 | returns the held pointer without calling any deleter, still clears the old block, and leaves no pointer, no block and the default deleter |
| UniquePtr.WeakableUniquePtr.Reset | weakable_unique_ptr.hpp:193-196 | the old object is deleted through the old deleter and its block cleared; a fresh block storing `p` is installed even for a null `p`, with the default deleter |
| UniquePtr.WeakableUniquePtr.Get | weakable_unique_ptr.hpp:215-218 | the result is what the owner's block stores, or null without a block |
| UniquePtr.WeakableUniquePtr.GetDeleter | weakable_unique_ptr.hpp:220-228 | returns the stored deleter, the one the destructor calls (see `Scenarios.DeleterReportsWhatRuns`) |
| UniquePtr.WeakableUniquePtr.IsSet | weakable_unique_ptr.hpp:230-233 | true iff the owner's block stores a live object |
| WeakPtr.UniqueWeakPtr.constructor | weakable_unique_ptr.hpp:267-269 | a default observer has no block |
| WeakPtr.UniqueWeakPtr.FromOwner | weakable_unique_ptr.hpp:283-289 | the observer shares the owner's current block, which gains one observer handle |
| WeakPtr.UniqueWeakPtr.Copy | weakable_unique_ptr.hpp:271-273 | the copy shares the source's block, which gains one observer handle |
| WeakPtr.UniqueWeakPtr.MoveFrom | weakable_unique_ptr.hpp:291-293 | the handle moves to the new observer, the source is left without a block, and the count is unchanged |
| WeakPtr.UniqueWeakPtr.Destroy | weakable_unique_ptr.hpp:263-265 | the end of an observer releases its handle, and the block is deleted iff that was the last handle |
| WeakPtr.UniqueWeakPtr.Swap | weakable_unique_ptr.hpp:341-344 | the two block references are exchanged; no block's count or pointer changes |
| WeakPtr.UniqueWeakPtr.TakeOver | weakable_unique_ptr.hpp:305 | `tmp.swap(*this)` then the end of `tmp`: this observer holds the temporary's block, and its previous block loses a handle |
| WeakPtr.UniqueWeakPtr.CopyAssign | weakable_unique_ptr.hpp:303-307 | the observer is bound to the source's block, which gains a handle, and its previous block loses one; on the same block nothing changes |
| WeakPtr.UniqueWeakPtr.AssignFromOwner | weakable_unique_ptr.hpp:317-321 | the observer is bound to the owner's current block, which gains a handle, and its previous block loses one |
| WeakPtr.UniqueWeakPtr.MoveAssign | weakable_unique_ptr.hpp:323-327 | the source's handle moves here and the source is left without a block; the previous block loses a handle; self-move-assignment changes nothing |
| WeakPtr.UniqueWeakPtr.Reset | weakable_unique_ptr.hpp:336-339 | the observer drops its handle and is left without a block |
| WeakPtr.UniqueWeakPtr.TryGet | weakable_unique_ptr.hpp:351-354 | a non-null result means that the block is live and an owner still holds it; once the owner has let go, the result is null |
| WeakPtr.UniqueWeakPtr.Expired | weakable_unique_ptr.hpp:346-349 | `expired()` is true iff `try_get()` returns null |
| Scenarios.DestroyExpiresObservers | weakable_unique_ptr.hpp:85-95 | destroying the owner calls the deleter exactly once on the object; its observer then reports `expired()` and sees null |
| Scenarios.MoveKeepsObservers | weakable_unique_ptr.hpp:132-136 | an observer taken before a move still sees the object; destroying the new owner calls the deleter once and expires observers taken before and after the move |
| Scenarios.MovedFromDeletesNothing | weakable_unique_ptr.hpp:132-136 | a moved-from owner is unset and its end calls no deleter; the new owner still holds the object |
| Scenarios.ReleaseExpiresWithoutDeleting | weakable_unique_ptr.hpp:184-189 | `release()` returns the object with no deleter call, its observers report expired, and the owner is left unset with the default deleter |
| Scenarios.ResetRebinds | weakable_unique_ptr.hpp:193-196 | `reset(p2)` deletes the old object through the old deleter; observers taken before see null, and observers taken after see `p2` |
| Scenarios.EmptyOwner | weakable_unique_ptr.hpp:99-112 | an empty owner is false and its observers are expired; `reset()` still gives it a cell; after `reset(p2)` an observer taken before still sees null while one taken after sees `p2`; no deleter runs |
| Scenarios.DeleterReportsWhatRuns | weakable_unique_ptr.hpp:220-228 | the deleter `get_deleter()` reports is the custom one given at construction, and the destructor calls exactly that deleter once on the object |
| Scenarios.MoveAssignDeletesTarget | weakable_unique_ptr.hpp:160-164 | move-assignment deletes the destination's object and expires its observers; the source's observers follow the object to its new owner; the source is empty |
| Scenarios.SelfMoveAssign | weakable_unique_ptr.hpp:160-164 | move-assigning an owner to itself keeps its object and deleter and deletes nothing |
| Scenarios.AssignNullDeletes | weakable_unique_ptr.hpp:173-177 | assigning `nullptr` deletes the object through the custom deleter, expires observers, and installs the default deleter |
| Scenarios.SwapOwners | weakable_unique_ptr.hpp:241-246 | swapping owners exchanges objects and deleters; each observer follows its object to the other owner |
| Scenarios.ObserverCopyAndMove | weakable_unique_ptr.hpp:271-273 | copies of an observer see the live object and a moved-from observer sees null; the owner's pointer is unchanged |
| Scenarios.ObserverAssign | weakable_unique_ptr.hpp:303-321 | observers assigned from an owner or from another observer see the live object, which stays unchanged |
| Scenarios.ObserverMoveAssign | weakable_unique_ptr.hpp:323-327 | after a move-assignment the moved-from observer sees null and the target sees the object; the owner keeps it |
| Scenarios.ObserverSwapReset | weakable_unique_ptr.hpp:336-344 | a swap of observers exchanges what they see; `reset()` leaves the observer seeing null; the owner keeps its object throughout |

## Left out

- Templates are not modelled. That covers the converting constructors and assignments between `Y` and `T`, the deleter-forwarding constructor at lines 122-128, `sp_enable_if_convertible` and `static_pointer_cast`. The model has a single element type.
- The `static_assert`s at lines 62-65 and the deleted copy operations at lines 28-29, 153 and 179 are compile-time rules. The model simply offers no copy.
- `operator*` and `operator->` are not modelled. There is no object memory to dereference.
- What a deleter does is not modelled. Neither is the memory that `delete p` frees at line 47. A deleter call is an entry in `DeleterLog`, and a deleted block is a ghost `freed` flag.
- `get_deleter()` is modelled as a read of the stored deleter. Writing through the mutable reference it returns is not modelled.
- The deleter moved out of a source by `std::move(r.pd)` is modelled as keeping its value, which is what `std::default_delete` does.
- `ref_count` is modelled as an unbounded integer. Overflow of the C++ `long` is not modelled, and neither is thread safety (the count is not atomic).
- `UniquePtr.WeakableUniquePtr.Destroy` and `WeakPtr.UniqueWeakPtr.Destroy` leave the dead object empty (no pointer, no block). In C++ the object simply ceases to exist.
- UniquePtr.WeakableUniquePtr.FromPointer: allocating the block with `new control_block(p)` is assumed never to fail. In C++ this constructor is not `noexcept`, so a failed allocation throws `std::bad_alloc`, and `p` is then neither deleted nor owned: it leaks.
- UniquePtr.WeakableUniquePtr.WithDeleter: block allocation is assumed never to fail. In C++ a failed allocation throws, and `p` leaks as for `FromPointer`.
- UniquePtr.WeakableUniquePtr.Reset: block allocation is assumed never to fail. `reset` is `noexcept` but allocates through `weakable_unique_ptr(p)`, so in C++ a failed allocation calls `std::terminate`, even for `reset()` with no argument.
- A deleter that throws is not modelled. The destructor is `noexcept`.
