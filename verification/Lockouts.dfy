// The lockout's operations as loops of atomic accesses. Between any two accesses of this
// thread the other threads may take and give up warrants of their own, by the same rules:
// whoever takes the signpost down holds the mutex, and notifies before letting it go.
module Lockouts {
  import opened LockoutProtocol

  class Lockout {
    var count: nat
    /** This thread holds the mutex. */
    var locked: bool
    /** How many of the others wait on the condition variable. */
    var waiting: nat
    /** The warrants of this thread, and those of the others. */
    var mine: nat
    var mineExclusive: bool
    var others: nat
    var othersExclusive: bool
    /** How often the others will still interfere. */
    var interference: nat

    predicate Counts()
      reads this
    {
      if mineExclusive || othersExclusive then
        mine == 0 && others == 0 && !(mineExclusive && othersExclusive) && count == EXCLUSIVE_SIGNPOST
      else
        count == mine + others < EXCLUSIVE_SIGNPOST
    }

    /** The counter is right, and whoever waits waits for the signpost to go. */
    predicate Valid()
      reads this
    {
      Counts() && (waiting > 0 ==> count == EXCLUSIVE_SIGNPOST)
    }

    /** One more warrant stays below the signpost. */
    predicate Room()
      reads this
    {
      count == EXCLUSIVE_SIGNPOST || count + 1 < EXCLUSIVE_SIGNPOST
    }

    constructor (interference: nat)
      ensures Valid() && Room() && !locked && mine == 0 && !mineExclusive && this.interference == interference
    {
      count, locked, waiting, mine, mineExclusive, others, othersExclusive := 0, false, 0, 0, false, 0, false;
      this.interference := interference;
    }

    /** The others take and give up warrants and start to wait, leaving room for one more.
        They cannot take the signpost down, or start to wait, while this thread holds the
        mutex. */
    method Interfere()
      requires Valid() && interference > 0
      modifies `count, `waiting, `others, `othersExclusive, `interference
      ensures Valid() && (old(Room()) ==> Room()) && interference == old(interference) - 1
      ensures locked && old(count) == EXCLUSIVE_SIGNPOST ==> count == EXCLUSIVE_SIGNPOST && waiting == old(waiting)
    {
      interference := interference - 1;
      var n: nat, exclusive: bool, more: nat := *, *, *;
      if !mineExclusive && !(locked && othersExclusive) {
        if exclusive && mine == 0 {
          count, others, othersExclusive := EXCLUSIVE_SIGNPOST, 0, true;
        } else if mine + n + 1 < EXCLUSIVE_SIGNPOST {
          count, others, othersExclusive, waiting := mine + n, n, false, 0;
        }
      }
      if count == EXCLUSIVE_SIGNPOST && !locked {
        waiting := waiting + more;
      }
    }

    /** Somewhere between two accesses. */
    method Yield()
      requires Valid()
      modifies `count, `waiting, `others, `othersExclusive, `interference
      ensures Valid() && (old(Room()) ==> Room()) && interference <= old(interference)
      ensures interference == old(interference) ==> count == old(count)
      ensures locked && old(count) == EXCLUSIVE_SIGNPOST ==> count == EXCLUSIVE_SIGNPOST && waiting == old(waiting)
    {
      while interference > 0
        invariant Valid() && (old(Room()) ==> Room()) && interference <= old(interference)
        invariant interference == old(interference) ==> count == old(count)
        invariant locked && old(count) == EXCLUSIVE_SIGNPOST ==> count == EXCLUSIVE_SIGNPOST && waiting == old(waiting)
      {
        var enough: bool := *;
        if enough { break; }
        Interfere();
      }
    }

    method CompareExchange(current: nat, desired: nat) returns (ok: bool)
      modifies `count
      ensures ok == (old(count) == current) && count == if ok then desired else old(count)
    {
      ok := count == current;
      if ok { count := desired; }
    }

    method LockMutex()
      requires Valid() && !locked
      modifies `locked, `count, `waiting, `others, `othersExclusive, `interference
      ensures Valid() && (old(Room()) ==> Room()) && locked && interference <= old(interference)
    {
      Yield();
      locked := true;
    }

    method UnlockMutex()
      requires locked
      modifies `locked
      ensures !locked
    {
      locked := false;
    }

    /** `Condvar::wait`: lets the mutex go, sleeps until a notification, and takes the mutex
        again. Only the exclusive dropper notifies, with the signpost down. */
    method Wait()
      requires Valid() && Room() && locked && othersExclusive && interference > 0
      modifies `locked, `count, `waiting, `others, `othersExclusive, `interference
      ensures Valid() && Room() && locked && interference < old(interference)
    {
      UnlockMutex();
      interference := interference - 1;
      count, othersExclusive, waiting := 0, false, 0;
      LockMutex();
    }

    method NotifyAll()
      requires locked
      modifies `waiting
      ensures waiting == 0
    {
      waiting := 0;
    }

    /** Takes a warrant. It comes back without one only when it has to wait for ever,
        because another thread keeps an exclusive warrant for ever. */
    method GetWarrant() returns (got: bool)
      requires Valid() && Room() && !locked && !mineExclusive
      modifies this
      ensures Valid() && !locked && !mineExclusive && mine == old(mine) + if got then 1 else 0
      ensures !got ==> othersExclusive && interference == 0
    {
      Yield();
      var startingCount := count;
      if startingCount != EXCLUSIVE_SIGNPOST {
        Yield();
        var ok := CompareExchange(startingCount, startingCount + 1);
        if ok {
          mine := mine + 1;
          return true;
        }
      }
      LockMutex();
      while true
        invariant Valid() && Room() && locked && !mineExclusive && mine == old(mine)
        decreases interference
      {
        var value := count;
        Yield();
        if value == EXCLUSIVE_SIGNPOST {
          assert count == EXCLUSIVE_SIGNPOST;
          if interference == 0 {
            UnlockMutex();
            return false;
          }
          Wait();
        } else {
          var ok := CompareExchange(value, value + 1);
          if ok {
            mine := mine + 1;
            UnlockMutex();
            return true;
          }
        }
      }
    }

    /** Takes the exclusive warrant exactly when the access finds no warrant at all. */
    method GetExclusiveWarrant() returns (got: bool)
      requires Valid() && !locked
      modifies this
      ensures Valid() && !locked && mine == old(mine) && mineExclusive == (old(mineExclusive) || got)
      ensures got ==> mine == 0 && others == 0 && !old(mineExclusive)
      ensures !got ==> mine + others > 0 || mineExclusive || othersExclusive
    {
      Yield();
      got := CompareExchange(0, EXCLUSIVE_SIGNPOST);
      if got { mineExclusive := true; }
    }

    /** Gives a warrant up; the assertion in the loop never fails. */
    method DropWarrant()
      requires Valid() && !locked && mine > 0
      modifies this
      ensures Valid() && !locked && mine == old(mine) - 1
    {
      while true
        invariant Valid() && !locked && mine == old(mine)
        decreases interference
      {
        var value := count;
        assert value > 0 && value != EXCLUSIVE_SIGNPOST;
        Yield();
        var ok := CompareExchange(value, value - 1);
        if ok {
          mine := mine - 1;
          return;
        }
      }
    }

    /** Gives the exclusive warrant up: takes the signpost down under the mutex, which
        always succeeds, and leaves nobody waiting. */
    method DropExclusiveWarrant()
      requires Valid() && !locked && mineExclusive
      modifies this
      ensures Valid() && !locked && !mineExclusive && mine == 0 && waiting == 0
    {
      LockMutex();
      var ok := CompareExchange(EXCLUSIVE_SIGNPOST, 0);
      assert ok;
      mineExclusive := false;
      NotifyAll();
      UnlockMutex();
    }
  }
}
