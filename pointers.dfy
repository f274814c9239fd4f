/** Raw pointers and deleters as seen by the smart pointers of this model.
    The pointee itself is never modelled: only its address, and the record
    of the deleter calls made on it. */
module Pointers {

  /** A raw object pointer; `Null` stands for `nullptr`. */
  type Ptr = nat

  const Null: Ptr := 0

  /** A deleter value. Only its identity matters here: `DefaultDeleter` is
      the value a default-constructed deleter has (`std::default_delete`). */
  datatype Deleter = Deleter(id: nat)

  const DefaultDeleter: Deleter := Deleter(0)

  /** One invocation `d(p)` of a deleter on a pointer. */
  datatype DeleterCall = DeleterCall(deleter: Deleter, target: Ptr)

  /** The deleter calls that `if (px) pd(px);` makes: one call when the
      pointer is non-null, none otherwise. */
  function Deletion(d: Deleter, p: Ptr): (calls: seq<DeleterCall>)
    ensures |calls| <= 1
    ensures calls != [] <==> p != Null
    ensures forall c :: c in calls ==> c == DeleterCall(d, p)
  {
    if p != Null then [DeleterCall(d, p)] else []
  }

  /** The history of deleter invocations; what a deleter does to the object
      is outside the model, so calling one only appends to this record. */
  class DeleterLog {
    var calls: seq<DeleterCall>

    constructor ()
      ensures calls == []
    {
      calls := [];
    }

    method Invoke(d: Deleter, p: Ptr)
      modifies this
      ensures calls == old(calls) + [DeleterCall(d, p)]
    {
      calls := calls + [DeleterCall(d, p)];
    }
  }
}
