/**
 * The fast key-value cache: each key holds a string, a set or a value of another type,
 * and may carry an expiry. Time is a millisecond clock passed in by the caller; a key
 * whose expiry instant has passed reads as absent, exactly as if the cache had evicted it.
 */
module Redis {
  import opened Common

  /** The cache's other value types; the service never writes them, but a key may hold one. */
  datatype OtherType = List | Hash | SortedSet | Stream

  datatype Value = Text(s: string) | Members(items: set<string>) | Other(t: OtherType)

  /** A stored value and its absolute expiry in milliseconds (none: the key never expires). */
  datatype Entry = Entry(value: Value, expiresAt: Option<int>)

  type Keyspace = map<string, Entry>

  /** A reply of a command, or the error the cache raises when the key holds the wrong type. */
  datatype CacheReply<T> = Ok(value: T) | WrongType

  /** An entry is visible up to and including its expiry instant; the cache expires it only once that instant has passed. */
  predicate Live(e: Entry, now: int) {
    e.expiresAt.None? || now <= e.expiresAt.value
  }

  /** The value a key holds at `now`, if the key exists and has not expired. */
  function Lookup(ks: Keyspace, key: string, now: int): Option<Value> {
    if key in ks && Live(ks[key], now) then Some(ks[key].value) else None
  }

  /** `TYPE key`. */
  function TypeName(ks: Keyspace, key: string, now: int): (t: string)
    ensures t == "none" <==> Lookup(ks, key, now).None?
    ensures t == "set" <==> Lookup(ks, key, now).Some? && Lookup(ks, key, now).value.Members?
    ensures t == "string" <==> Lookup(ks, key, now).Some? && Lookup(ks, key, now).value.Text?
  {
    match Lookup(ks, key, now)
    case None => "none"
    case Some(Text(_)) => "string"
    case Some(Members(_)) => "set"
    case Some(Other(List)) => "list"
    case Some(Other(Hash)) => "hash"
    case Some(Other(SortedSet)) => "zset"
    case Some(Other(Stream)) => "stream"
  }

  /** `GET key`: nil for a missing key, the string for a string key, an error for any other type. */
  function Get(ks: Keyspace, key: string, now: int): (r: CacheReply<Option<string>>)
    ensures r == Ok(None) <==> Lookup(ks, key, now).None?
    ensures r.Ok? && r.value.Some? <==> Lookup(ks, key, now).Some? && Lookup(ks, key, now).value.Text?
    ensures r.Ok? && r.value.Some? ==> Lookup(ks, key, now).value.s == r.value.value
  {
    match Lookup(ks, key, now)
    case None => Ok(None)
    case Some(Text(s)) => Ok(Some(s))
    case Some(_) => WrongType
  }

  /** `SET key s` (no expiry) or `SET key s EX ttl`: replaces whatever the key held, of any type. */
  function SetText(ks: Keyspace, key: string, s: string, ttl: Option<nat>, now: int): Keyspace
    requires ttl.Some? ==> ttl.value > 0
  {
    ks[key := Entry(Text(s), if ttl.Some? then Some(now + ttl.value * 1000) else None)]
  }

  /** `DEL key`. */
  function Del(ks: Keyspace, key: string): Keyspace {
    ks - {key}
  }

  /** The members of a list, as a set. */
  function Elements(items: seq<string>): (m: set<string>)
    ensures forall x :: x in m <==> x in items
  {
    set x | x in items
  }

  /** `SADD key items…`: creates the set (without expiry) if the key is missing, adds to an existing set. */
  function SAdd(ks: Keyspace, key: string, items: seq<string>, now: int): CacheReply<Keyspace> {
    match Lookup(ks, key, now)
    case None => Ok(ks[key := Entry(Members(Elements(items)), None)])
    case Some(Members(old_items)) => Ok(ks[key := Entry(Members(old_items + Elements(items)), ks[key].expiresAt)])
    case Some(_) => WrongType
  }

  /** `SISMEMBER key m`: false for a missing key, membership for a set, an error for any other type. */
  function SIsMember(ks: Keyspace, key: string, m: string, now: int): (r: CacheReply<bool>)
    ensures Lookup(ks, key, now).None? ==> r == Ok(false)
    ensures r == Ok(true) <==>
      Lookup(ks, key, now).Some? && Lookup(ks, key, now).value.Members? && m in Lookup(ks, key, now).value.items
  {
    match Lookup(ks, key, now)
    case None => Ok(false)
    case Some(Members(items)) => Ok(m in items)
    case Some(_) => WrongType
  }

  /**
   * A string written with a TTL reads back up to the instant the TTL elapses and is gone
   * after it; one written without a TTL reads back forever. No other key is affected.
   */
  lemma SetThenGet(ks: Keyspace, key: string, s: string, ttl: Option<nat>, now: int, t: int)
    requires ttl.Some? ==> ttl.value > 0
    requires now <= t
    ensures ttl.None? ==> Get(SetText(ks, key, s, ttl, now), key, t) == Ok(Some(s))
    ensures ttl.Some? && t <= now + ttl.value * 1000 ==> Get(SetText(ks, key, s, ttl, now), key, t) == Ok(Some(s))
    ensures ttl.Some? && t > now + ttl.value * 1000 ==> Get(SetText(ks, key, s, ttl, now), key, t) == Ok(None)
    ensures forall k :: k != key ==> Lookup(SetText(ks, key, s, ttl, now), k, t) == Lookup(ks, k, t)
  {
  }

  /** After `DEL` the key is absent at every instant, and no other key changes. */
  lemma DelThenLookup(ks: Keyspace, key: string, t: int)
    ensures Lookup(Del(ks, key), key, t).None?
    ensures TypeName(Del(ks, key), key, t) == "none"
    ensures forall k :: k != key ==> Lookup(Del(ks, key), k, t) == Lookup(ks, k, t)
  {
  }

  /** `SADD` on a missing key succeeds and the new set answers membership exactly for the items, at any later time. */
  lemma SAddOnMissing(ks: Keyspace, key: string, items: seq<string>, now: int, t: int, m: string)
    requires Lookup(ks, key, now).None?
    ensures SAdd(ks, key, items, now).Ok?
    ensures SIsMember(SAdd(ks, key, items, now).value, key, m, t) == Ok(m in items)
    ensures TypeName(SAdd(ks, key, items, now).value, key, t) == "set"
  {
  }

  /** The cache client: one keyspace, changed in place by the write commands. */
  class Client {
    var data: Keyspace

    constructor ()
      ensures data == map[]
    {
      data := map[];
    }

    method Set(key: string, s: string, ttl: Option<nat>, now: int)
      requires ttl.Some? ==> ttl.value > 0
      modifies this
      ensures data == SetText(old(data), key, s, ttl, now)
    {
      data := SetText(data, key, s, ttl, now);
    }

    method Delete(key: string)
      modifies this
      ensures data == Del(old(data), key)
    {
      data := Del(data, key);
    }

    /** Returns false, changing nothing, when the key holds a value that is not a set. */
    method AddMembers(key: string, items: seq<string>, now: int) returns (ok: bool)
      modifies this
      ensures ok == SAdd(old(data), key, items, now).Ok?
      ensures data == if ok then SAdd(old(data), key, items, now).value else old(data)
    {
      var r := SAdd(data, key, items, now);
      ok := r.Ok?;
      if ok {
        data := r.value;
      }
    }
  }
}
