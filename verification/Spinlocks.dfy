// The spinlock's operations as loops of atomic accesses, with other threads acting
// between any two accesses of this one.
module Spinlocks {
  import opened Basics
  import opened SpinlockProtocol

  class AtomicProtectingSpinlock {
    var tracker: nat
    /** The guards of this thread, and those of the others. */
    var mine: nat
    var mineExclusive: bool
    var others: nat
    var othersExclusive: bool
    /** The attempts that failed since the exclusive guard was taken. */
    var failed: nat
    /** How often the others will still interfere. */
    var interference: nat

    predicate Valid()
      reads this
    {
      if mineExclusive || othersExclusive then
        && mine == 0 && others == 0 && !(mineExclusive && othersExclusive)
        && tracker == SENTINEL_VALUE + failed < WORD
      else
        tracker == mine + others < SENTINEL_VALUE
    }

    /** One more attempt stays in range. */
    predicate Room()
      reads this
    {
      tracker + 1 != SENTINEL_VALUE && tracker + 1 != WORD
    }

    constructor (interference: nat)
      ensures Valid() && Room() && mine == 0 && !mineExclusive && this.interference == interference
    {
      tracker, mine, mineExclusive, others, othersExclusive, failed := 0, 0, false, 0, false, 0;
      this.interference := interference;
    }

    /** The others take and drop guards or fail to, by the rules, and leave room. */
    method Interfere()
      requires Valid() && Room() && interference > 0
      modifies `tracker, `others, `othersExclusive, `failed, `interference
      ensures Valid() && Room() && interference == old(interference) - 1
    {
      interference := interference - 1;
      var n: nat, exclusive: bool := *, *;
      if mineExclusive {
        if SENTINEL_VALUE + failed + n + 1 < WORD {
          tracker, failed := tracker + n, failed + n;
        }
      } else if exclusive && mine == 0 {
        if SENTINEL_VALUE + n + 1 < WORD {
          tracker, others, othersExclusive, failed := SENTINEL_VALUE + n, 0, true, n;
        }
      } else if mine + n + 1 < SENTINEL_VALUE {
        tracker, others, othersExclusive := mine + n, n, false;
      }
    }

    method Yield()
      requires Valid() && Room()
      modifies `tracker, `others, `othersExclusive, `failed, `interference
      ensures Valid() && Room() && interference <= old(interference)
      ensures interference == old(interference) ==> tracker == old(tracker)
    {
      while interference > 0
        invariant Valid() && Room() && interference <= old(interference)
        invariant interference == old(interference) ==> tracker == old(tracker)
      {
        var enough: bool := *;
        if enough { break; }
        Interfere();
      }
    }

    /** Spins until there is no guard at all; it gives up only where it would spin for
        ever, because some guard is kept for ever. */
    method LockExclusive() returns (got: bool)
      requires Valid() && Room()
      modifies this
      ensures Valid() && Room() && mine == old(mine)
      ensures got ==> mineExclusive && !old(mineExclusive) && mine == 0 && others == 0
      ensures !got ==> interference == 0 && tracker != 0 && mineExclusive == old(mineExclusive)
    {
      while true
        invariant Valid() && Room() && mine == old(mine) && mineExclusive == old(mineExclusive)
        decreases interference
      {
        var currentValue := tracker;
        if currentValue == 0 {
          Yield();
          if tracker == 0 {
            tracker, failed, mineExclusive := SENTINEL_VALUE, 0, true;
            return true;
          }
        } else if interference == 0 {
          return false;
        } else {
          Interfere();
        }
      }
    }

    /** Adds to the tracker first; succeeds exactly when there is no exclusive guard. */
    method LockInclusive() returns (got: bool)
      requires Valid() && Room()
      modifies `tracker, `mine, `failed
      ensures Valid() && got == !(mineExclusive || othersExclusive)
      ensures mine == old(mine) + if got then 1 else 0
      ensures failed == old(failed) + if got then 0 else 1
    {
      var oldValue := tracker;
      tracker := tracker + 1;
      got := oldValue < SENTINEL_VALUE;
      if got {
        mine := mine + 1;
      } else {
        failed := failed + 1;
      }
    }

    method DropInclusive()
      requires Valid() && mine > 0
      modifies `tracker, `mine
      ensures Valid() && mine == old(mine) - 1 && tracker == old(tracker) - 1
    {
      tracker := tracker - 1;
      mine := mine - 1;
    }

    /** Storing zero wipes out every failed attempt and no guard. */
    method DropExclusive()
      requires Valid() && mineExclusive
      modifies `tracker, `mineExclusive, `failed
      ensures Valid() && !mineExclusive && tracker == 0 && mine == 0 && others == 0
    {
      tracker, mineExclusive, failed := 0, false, 0;
    }

    /** `gc_lock` can be taken once the collection that held it lets it go. Its exclusive
        guard goes a little later: it may still be there, or be gone, or another one may be
        there. */
    method WaitForCollector()
      requires Valid() && othersExclusive && interference > 0
      modifies `tracker, `others, `othersExclusive, `failed, `interference
      ensures Valid() && Room() && interference < old(interference)
    {
      interference := interference - 1;
      var stillThere: bool := *;
      if stillThere && Room() {
        return;
      }
      tracker, othersExclusive, failed := 0, false, 0;
      Yield();
    }

    /** Tries, and waits for the collector, until it has a guard; it gives up only where it
        would wait for ever, because a collection never ends. */
    method GetCollectionBlocker() returns (got: bool)
      requires Valid() && Room() && !mineExclusive
      modifies this
      ensures Valid() && mine == old(mine) + if got then 1 else 0
      ensures !got ==> othersExclusive && interference == 0
    {
      got := LockInclusive();
      while !got
        invariant Valid() && mine == old(mine) + (if got then 1 else 0)
        invariant !mineExclusive && (!got ==> othersExclusive)
        decreases interference, !got
      {
        if interference == 0 { return; }
        WaitForCollector();
        got := LockInclusive();
      }
    }
  }
}
