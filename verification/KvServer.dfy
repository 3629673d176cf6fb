/** The versioned key/value server: what its two calls do to its data, and the object that does it. */
module KvServer {

  datatype Err = OK | ErrNoKey | ErrVersion | ErrMaybe
  datatype Entry = Entry(value: string, version: nat)
  type Store = map<string, Entry>

  datatype PutArgs = PutArgs(key: string, value: string, version: nat)
  datatype GetReply = GetReply(value: string, version: nat, err: Err)

  function ServerGet(data: Store, key: string): GetReply {
    if key in data then GetReply(data[key].value, data[key].version, OK) else GetReply("", 0, ErrNoKey)
  }

  /** A put succeeds only if it names the present version; a key that is not there has version 0. */
  function ServerPut(data: Store, a: PutArgs): (Store, Err) {
    if a.key !in data then
      if a.version == 0 then (data[a.key := Entry(a.value, 1)], OK) else (data, ErrNoKey)
    else if a.version != data[a.key].version then (data, ErrVersion)
    else (data[a.key := Entry(a.value, data[a.key].version + 1)], OK)
  }

  function Version(data: Store, key: string): nat {
    if key in data then data[key].version else 0
  }

  /** Every key that is there was put at least once. */
  ghost predicate Stored(data: Store) {
    forall k <- data :: data[k].version >= 1
  }

  /** Exactly the puts that name the present version succeed, they raise it by one and store their value, and
      nothing else changes. */
  lemma PutMeaning(data: Store, a: PutArgs)
    requires Stored(data)
    ensures var (next, err) := ServerPut(data, a);
            && Stored(next)
            && (err == OK <==> a.version == Version(data, a.key))
            && (err == OK ==> ServerGet(next, a.key) == GetReply(a.value, a.version + 1, OK))
            && (err == ErrNoKey <==> a.version != 0 && a.key !in data)
            && (err != OK ==> next == data)
            && err != ErrMaybe
            && forall k :: k != a.key ==> ServerGet(next, k) == ServerGet(data, k)
  {
  }

  /** A get tells whether the key is there and which version it has, 0 if it is not; a put that names this version
      succeeds if nothing came in between, and the next get returns what it stored. */
  lemma GetMeaning(data: Store, key: string, value: string)
    requires Stored(data)
    ensures var r := ServerGet(data, key);
            && (r.err == OK <==> key in data) && (r.err == ErrNoKey <==> key !in data)
            && (r.err == ErrNoKey ==> r.value == "" && r.version == 0)
            && var (next, err) := ServerPut(data, PutArgs(key, value, r.version));
               err == OK && ServerGet(next, key) == GetReply(value, r.version + 1, OK)
  {
    PutMeaning(data, PutArgs(key, value, ServerGet(data, key).version));
  }

  class KVEntry {
    var value: string
    var version: nat

    constructor (value: string, version: nat)
      ensures this.value == value && this.version == version
    {
      this.value, this.version := value, version;
    }
  }

  class KVServer {
    var data: map<string, KVEntry>

    /** No two keys share an entry. */
    ghost predicate Valid()
      reads this
    {
      forall k, l :: k in data && l in data && k != l ==> data[k] != data[l]
    }

    ghost function Contents(): Store
      reads this, data.Values
    {
      map k | k in data :: Entry(data[k].value, data[k].version)
    }

    constructor ()
      ensures Valid() && Contents() == map[] && data == map[]
    {
      data := map[];
    }

    method Get(key: string) returns (reply: GetReply)
      ensures reply == ServerGet(Contents(), key)
    {
      if key !in data {
        return GetReply("", 0, ErrNoKey);
      }
      var entry := data[key];
      reply := GetReply(entry.value, entry.version, OK);
    }

    method Put(args: PutArgs) returns (err: Err)
      requires Valid()
      modifies this, data.Values
      ensures Valid() && fresh(data.Values - old(data.Values))
      ensures (Contents(), err) == ServerPut(old(Contents()), args)
    {
      if args.key !in data {
        if args.version == 0 {
          var entry := new KVEntry(args.value, 1);
          data := data[args.key := entry];
          assert Contents() == old(Contents())[args.key := Entry(args.value, 1)];
          err := OK;
        } else {
          err := ErrNoKey;
        }
        return;
      }
      var entry := data[args.key];
      if args.version != entry.version {
        return ErrVersion;
      }
      entry.value := args.value;
      entry.version := entry.version + 1;
      assert Contents() == old(Contents())[args.key := Entry(args.value, args.version + 1)];
      err := OK;
    }
  }
}
