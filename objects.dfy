/** Lisp object handles as the runtime core sees them. */
module Objects {

  /** A `cl_object`: either the distinguished `Cnil`, or a handle to a heap
      object identified by its address. Nothing here looks inside an object. */
  datatype Object = Nil | Ref(address: nat)
}
