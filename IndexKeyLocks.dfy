/**
  The key-lock surface of an index (`lockKeysForUpdateNoTx` and
  `releaseKeysForUpdateNoTx` of `OIndexInternal`), as its documentation
  states it.  The interface gives no implementation, so the model is the
  documented contract seen from one thread: the set of keys the thread holds,
  which the index's `put`, `checkEntry` and both `remove`s of other threads
  must wait for.  Whether a transaction is active is an explicit argument.
  Both overloads of each operation (a variadic argument list and a
  collection) share one documented contract and are modelled once, the keys
  given as a sequence.
*/
module IndexKeyLocks {

  class KeyLocks<K(==)> {
    /** The keys this thread holds an exclusive lock on; other threads' `put`, `checkEntry` and `remove` on them wait. */
    var held: set<K>

    constructor()
      ensures held == {}
    {
      held := {};
    }

    /**
      Locks all of `keys` in one call.  A thread may not call it again before
      releasing (that could deadlock), and while a transaction is active the
      call locks nothing.
    */
    method LockKeysForUpdateNoTx(keys: seq<K>, txActive: bool)
      requires txActive || held == {}
      modifies this
      ensures txActive ==> held == old(held)
      ensures !txActive ==> held == set k | k in keys
    {
      if !txActive {
        held := set k | k in keys;
      }
    }

    /** Releases the lock on `keys`; locks on other keys stay. */
    method ReleaseKeysForUpdateNoTx(keys: seq<K>)
      modifies this
      ensures held == old(held) - set k | k in keys
    {
      held := held - set k | k in keys;
    }
  }
}
