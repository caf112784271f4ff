/** The lock macros of the threaded build: a hash table is locked through its
    own lock object, and a table whose lock is nil is unshared and never
    locked; package and error-handler mutation take the one global lock.

    A macro is modelled by the lock operation it performs, and the effect of an
    operation by the set of locks the calling thread holds afterwards. */
module Locks {
  import opened Objects

  /** The one field of a hash table header that the macros read. */
  datatype HashTable = HashTable(lock: Object)

  /** The process-wide core state, reduced to its global lock (`cl_core.global_lock`). */
  datatype Core = Core(globalLock: Object)

  /** What a lock macro does: nothing, `mp_get_lock_wait(lock)` or `mp_giveup_lock(lock)`. */
  datatype LockOp = NoOp | GetLockWait(lock: Object) | GiveupLock(lock: Object)

  /** The locks the thread holds after performing `op`. */
  function Perform(op: LockOp, held: set<Object>): set<Object>
  {
    match op
    case NoOp => held
    case GetLockWait(l) => held + {l}
    case GiveupLock(l) => held - {l}
  }

  /** HASH_TABLE_LOCK */
  function HashTableLock(h: HashTable): (op: LockOp)
    ensures op == NoOp <==> h.lock == Nil
    ensures op != NoOp ==> op == GetLockWait(h.lock)
  {
    if h.lock != Nil then GetLockWait(h.lock) else NoOp
  }

  /** HASH_TABLE_UNLOCK */
  function HashTableUnlock(h: HashTable): (op: LockOp)
    ensures op == NoOp <==> h.lock == Nil
    ensures op != NoOp ==> op == GiveupLock(h.lock)
  {
    if h.lock != Nil then GiveupLock(h.lock) else NoOp
  }

  /** THREAD_OP_LOCK */
  function ThreadOpLock(core: Core): (op: LockOp)
    ensures forall held :: Perform(op, held) == held + {core.globalLock}
  {
    GetLockWait(core.globalLock)
  }

  /** THREAD_OP_UNLOCK */
  function ThreadOpUnlock(core: Core): (op: LockOp)
    ensures forall held :: Perform(op, held) == held - {core.globalLock}
  {
    GiveupLock(core.globalLock)
  }

  /** PACKAGE_OP_LOCK */
  function PackageOpLock(core: Core): (op: LockOp)
    ensures forall held :: Perform(op, held) == held + {core.globalLock}
  {
    ThreadOpLock(core)
  }

  /** PACKAGE_OP_UNLOCK */
  function PackageOpUnlock(core: Core): (op: LockOp)
    ensures forall held :: Perform(op, held) == held - {core.globalLock}
  {
    ThreadOpUnlock(core)
  }

  /** ERROR_HANDLER_LOCK */
  function ErrorHandlerLock(core: Core): (op: LockOp)
    ensures forall held :: Perform(op, held) == held + {core.globalLock}
  {
    ThreadOpLock(core)
  }

  /** ERROR_HANDLER_UNLOCK */
  function ErrorHandlerUnlock(core: Core): (op: LockOp)
    ensures forall held :: Perform(op, held) == held - {core.globalLock}
  {
    ThreadOpUnlock(core)
  }

  /** Locking a table and unlocking it again leaves the thread holding what it
      held before, provided it did not already hold a shared table's lock; for
      an unshared table both steps leave the held set as it is. */
  lemma HashTableBracket(h: HashTable, held: set<Object>)
    requires h.lock != Nil ==> h.lock !in held
    ensures Perform(HashTableUnlock(h), Perform(HashTableLock(h), held)) == held
    ensures h.lock != Nil ==> Perform(HashTableLock(h), held) == held + {h.lock}
    ensures h.lock == Nil ==> Perform(HashTableLock(h), held) == held
  {
  }

  /** The lock macros of a table touch no lock but the table's own. */
  lemma HashTableLockIsLocal(h: HashTable, held: set<Object>, other: Object)
    requires other != h.lock
    ensures other in Perform(HashTableLock(h), held) <==> other in held
    ensures other in Perform(HashTableUnlock(h), held) <==> other in held
  {
  }

  /** Package and error-handler locking are the global lock operations. */
  lemma PackageAndErrorHandlerUseGlobalLock(core: Core)
    ensures PackageOpLock(core) == ErrorHandlerLock(core) == GetLockWait(core.globalLock)
    ensures PackageOpUnlock(core) == ErrorHandlerUnlock(core) == GiveupLock(core.globalLock)
  {
  }
}
