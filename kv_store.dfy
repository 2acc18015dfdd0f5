/** The external key-value store (Redis) as the core uses it: string keys,
    string values, a TTL recorded with every write, and a log of the
    mutating commands issued. Expiry itself is not simulated. */
module KeyValue {
  import opened Wrappers

  /** A stored value and the TTL, in seconds, it was written with. */
  datatype Entry = Entry(value: string, ttl: int)

  /** A mutating command as issued to the store. */
  datatype Command =
    | SetCommand(key: string, value: string, ttl: int)
    | DeleteCommand(keys: set<string>)

  /** The keys of `data` that a `KEYS "<prefix>*"` query returns. */
  function KeysWithPrefix(data: map<string, Entry>, prefix: string): (ks: set<string>)
    ensures forall k :: k in ks <==> k in data && prefix <= k
  {
    set k | k in data && prefix <= k
  }

  class Store {
    var data: map<string, Entry>
    var log: seq<Command>

    constructor (initial: map<string, Entry>)
      ensures data == initial && log == []
    {
      data := initial;
      log := [];
    }

    function Lookup(key: string): (v: Option<string>)
      reads this
      ensures v.Some? <==> key in data
      ensures v.Some? ==> v.value == data[key].value
    {
      if key in data then Some(data[key].value) else None
    }

    /** `GET key` */
    method Get(key: string) returns (v: Option<string>)
      ensures v == Lookup(key)
    {
      v := if key in data then Some(data[key].value) else None;
    }

    /** `EXISTS key == 1` */
    method Exists(key: string) returns (b: bool)
      ensures b <==> key in data
    {
      b := key in data;
    }

    /** `KEYS "<prefix>*"` */
    method Keys(prefix: string) returns (ks: set<string>)
      ensures ks == KeysWithPrefix(data, prefix)
    {
      ks := set k | k in data && prefix <= k;
    }

    /** `SET key value EX ttl`. The server refuses a TTL that is not
        positive and then leaves the data as it was. */
    method Set(key: string, value: string, ttl: int) returns (ok: bool)
      modifies this
      ensures ok <==> ttl > 0
      ensures data == if ok then old(data)[key := Entry(value, ttl)] else old(data)
      ensures log == old(log) + [SetCommand(key, value, ttl)]
    {
      ok := ttl > 0;
      if ok {
        data := data[key := Entry(value, ttl)];
      }
      log := log + [SetCommand(key, value, ttl)];
    }

    /** `DEL k1 k2 ...`; absent keys are ignored. */
    method Delete(keys: set<string>)
      modifies this
      ensures data == old(data) - keys
      ensures log == old(log) + [DeleteCommand(keys)]
    {
      data := data - keys;
      log := log + [DeleteCommand(keys)];
    }
  }
}
