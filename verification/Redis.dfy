// The Redis key space with expiry, and the client calls on it.

module Redis {
  import opened Prelude
  import opened Domain
  import opened RedisValues
  import opened Stores

  /** A value and the moment it expires; an entry set with a TTL that is not positive never does. */
  datatype Entry = Entry(value: Value, deadline: Option<nat>)

  type Entries = map<string, Entry>

  predicate Alive(e: Entry, now: nat) {
    e.deadline.None? || now < e.deadline.value
  }

  /** The unexpired part, which is all a client sees. */
  function Live(entries: Entries, now: nat): Cache {
    map k | k in entries && Alive(entries[k], now) :: entries[k].value
  }

  function SetEntry(entries: Entries, now: nat, key: string, v: Value, ttl: int, f: Fault): Entries {
    if f == Lost then entries else entries[key := Entry(v, if ttl <= 0 then None else Some(now + ttl))]
  }

  function RemoveEntry(entries: Entries, key: string, f: Fault): Entries {
    if f == Lost then entries else entries - {key}
  }

  /** What a set and a delete do to the unexpired part, at the moment they happen. */
  lemma LiveAfterWrites(entries: Entries, now: nat, key: string, v: Value, ttl: int, f: Fault)
    ensures Live(SetEntry(entries, now, key, v, ttl, f), now) == WriteCache(Live(entries, now), key, v, f)
    ensures Live(RemoveEntry(entries, key, f), now) == DeleteKey(Live(entries, now), key, f)
  {
  }

  class RedisClient {
    var entries: Entries
    var now: nat

    constructor ()
      ensures Contents() == map[]
    {
      entries, now := map[], 0;
    }

    function Contents(): Cache
      reads this
    {
      Live(entries, now)
    }

    method Get(key: string, f: Fault) returns (r: Result<Value, Error>)
      ensures r == if f != Fine then Err(StoreFailure) else if key in Contents() then Ok(Contents()[key])
        else Err(NotFound)
    {
      if f != Fine {
        return Err(StoreFailure);
      }
      if key !in entries || !Alive(entries[key], now) {
        return Err(NotFound);
      }
      return Ok(entries[key].value);
    }

    method Exists(key: string, f: Fault) returns (r: Result<bool, Error>)
      ensures r == if f != Fine then Err(StoreFailure) else Ok(key in Contents())
    {
      if f != Fine {
        return Err(StoreFailure);
      }
      return Ok(key in entries && Alive(entries[key], now));
    }

    method Set(key: string, v: Value, ttl: int, f: Fault) returns (ok: bool)
      modifies this`entries
      ensures entries == SetEntry(old(entries), now, key, v, ttl, f)
      ensures Contents() == WriteCache(old(Contents()), key, v, f)
      ensures ok == (f == Fine)
    {
      LiveAfterWrites(entries, now, key, v, ttl, f);
      if f != Lost {
        entries := entries[key := Entry(v, if ttl <= 0 then None else Some(now + ttl))];
      }
      ok := f == Fine;
    }

    method Delete(key: string, f: Fault) returns (ok: bool)
      modifies this`entries
      ensures entries == RemoveEntry(old(entries), key, f)
      ensures Contents() == DeleteKey(old(Contents()), key, f)
      ensures ok == (f == Fine)
    {
      LiveAfterWrites(entries, now, key, TextV(""), 0, f);
      if f != Lost {
        entries := entries - {key};
      }
      ok := f == Fine;
    }

    /** GETDEL: reads and removes in one command. */
    method GetDel(key: string, f: Fault) returns (r: Result<Value, Error>)
      modifies this`entries
      ensures entries == RemoveEntry(old(entries), key, f)
      ensures Contents() == DeleteKey(old(Contents()), key, f)
      ensures r == if f != Fine then Err(StoreFailure) else if key in old(Contents()) then Ok(old(Contents())[key])
        else Err(NotFound)
    {
      r := Get(key, f);
      var _ := Delete(key, f);
    }
  }
}
