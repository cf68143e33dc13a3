/** A Redis server as the handlers use it: string keys, one value each, with a lifetime. */
module RedisStore {
  import opened Vocabulary
  import opened Protocol

  function Find<T>(m: map<string, T>, key: string): Option<T> {
    if key in m then Some(m[key]) else None
  }

  /** The answer to a GET: the value, redis.Nil, or an error (of the network or of the decoding). */
  datatype Fetched = Found(value: Value) | Absent | Broken

  function Fetch(e: Option<Entry>, now: Time, up: bool): Fetched {
    if !up then Broken else if Alive(e, now) then Found(e.value.value) else Absent
  }

  /** `up` tells for each command whether it reaches the server. */
  class Redis {
    var now: Time
    var data: map<string, Entry>

    constructor (now: Time)
      ensures this.now == now && data == map[]
    {
      this.now := now;
      data := map[];
    }

    method Get(key: string, up: bool) returns (f: Fetched)
      ensures f == Fetch(Find(data, key), now, up)
    {
      if !up {
        return Broken;
      }
      f := if key in data && Alive(Some(data[key]), now) then Found(data[key].value) else Absent;
    }

    method Exists(key: string, up: bool) returns (b: Option<bool>)
      ensures b == if up then Some(Read(Find(data, key), now).Some?) else None
    {
      b := if up then Some(key in data && Alive(Some(data[key]), now)) else None;
    }

    method TimeToLive(key: string, up: bool) returns (n: Option<int>)
      ensures n == if up then Some(Remaining(Find(data, key), now)) else None
    {
      n := if up then Some(Remaining(Find(data, key), now)) else None;
    }

    /** SET with the expiry the client was given; the server refuses one that is not positive. */
    method SetEx(key: string, v: Value, ttl: int, up: bool) returns (ok: bool)
      modifies this`data
      ensures ok <==> up && ttl > 0
      ensures data == if ok then old(data)[key := Fresh(v, now, ttl)] else old(data)
    {
      ok := up && ttl > 0;
      if ok {
        data := data[key := Fresh(v, now, ttl)];
      }
    }

    /** SET as go-redis sends it: no expiry unless the duration is positive. */
    method SetDuration(key: string, v: Value, ttl: int, up: bool) returns (ok: bool)
      modifies this`data
      ensures ok == up
      ensures data == if ok then old(data)[key := Fresh(v, now, ttl)] else old(data)
    {
      ok := up;
      if ok {
        data := data[key := Fresh(v, now, ttl)];
      }
    }

    method Delete(keys: set<string>, up: bool) returns (ok: bool)
      modifies this`data
      ensures ok == up
      ensures data == if ok then old(data) - keys else old(data)
    {
      ok := up;
      if ok {
        data := data - keys;
      }
    }
  }
}
