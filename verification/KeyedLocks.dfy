/** The keyed mutex of both languages: one lock object per key, created on first use and never removed. */
module KeyedLocks {

  /** A buffered channel of capacity 1 (Go) or a plain lock (Python). */
  class Channel {
    var full: bool

    constructor ()
      ensures !full
    {
      full := false;
    }
  }

  class KeyedMutex {
    var locks: map<string, Channel>

    /** Distinct keys have distinct lock objects. */
    ghost predicate Valid()
      reads this
    {
      forall a, b | a in locks && b in locks && a != b :: locks[a] != locks[b]
    }

    predicate Busy(key: string)
      reads this, locks.Values
    {
      key in locks && locks[key].full
    }

    constructor ()
      ensures Valid() && locks == map[]
    {
      locks := map[];
    }

    /** ch / _get: the lock object of a key never changes once it exists. */
    method Ch(key: string) returns (ch: Channel)
      requires Valid()
      modifies this
      ensures Valid() && key in locks && locks[key] == ch
      ensures locks.Keys == old(locks.Keys) + {key}
      ensures forall k | k in old(locks) :: locks[k] == old(locks[k])
      ensures key !in old(locks) ==> fresh(ch) && !ch.full
      ensures forall k :: Busy(k) == old(Busy(k))
    {
      if key !in locks {
        ch := new Channel();
        locks := locks[key := ch];
      }
      ch := locks[key];
    }

    /** Lock / acquire without a time-out.  The blocking send goes through at once when the channel is free;
        while it is full the caller waits, and nothing has happened but the creation of the channel. */
    method Lock(key: string) returns (ch: Channel, waits: bool)
      requires Valid()
      modifies this, locks.Values
      ensures Valid() && key in locks && locks[key] == ch && ch.full
      ensures waits <==> old(Busy(key))
      ensures locks.Keys == old(locks.Keys) + {key} && fresh(locks.Values - old(locks.Values))
      ensures forall k | k in old(locks) :: locks[k] == old(locks[k])
      ensures forall k :: Busy(k) == (k == key || old(Busy(k)))
    {
      ch := Ch(key);
      waits := ch.full;
      ch.full := true;
    }

    /** TryLock / try_acquire: takes the lock exactly when nobody holds it. */
    method TryLock(key: string) returns (ch: Channel, ok: bool)
      requires Valid()
      modifies this, locks.Values
      ensures Valid() && key in locks && locks[key] == ch && ch.full
      ensures ok == !old(Busy(key))
      ensures locks.Keys == old(locks.Keys) + {key} && fresh(locks.Values - old(locks.Values))
      ensures forall k | k in old(locks) :: locks[k] == old(locks[k])
      ensures forall k :: Busy(k) == (k == key || old(Busy(k)))
    {
      ch := Ch(key);
      ok := !ch.full;
      if ok {
        ch.full := true;
      }
    }

    /** The unlock closure / release. */
    method Unlock(ch: Channel, ghost key: string)
      requires Valid() && key in locks && locks[key] == ch && ch.full
      modifies ch
      ensures Valid() && locks == old(locks)
      ensures forall k :: Busy(k) == (k != key && old(Busy(k)))
    {
      ch.full := false;
    }
  }
}
