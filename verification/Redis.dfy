/** The Redis commands the service issues, over any key type, and the server that holds string keys.
    An entry whose expiry has come counts as absent for every command; when the server actually
    reclaims it is not observable. */
module Redis {
  import opened Wrappers
  import opened Keys

  datatype Value =
    | Hash(fields: map<string, string>)
    | SortedSet(scores: map<string, int>)

  /** Any value under a key, with the second from which it is gone. */
  datatype Entry<V> = Entry(value: V, expiry: Option<int>)

  type Store<K> = map<K, Entry<Value>>

  predicate Live<K(==), V>(db: map<K, Entry<V>>, now: int, k: K) {
    k in db && (db[k].expiry.None? || now < db[k].expiry.value)
  }

  /** HSET: creates the hash without an expiry, or overwrites the given fields of a live one.
      On a key of another type the server answers WRONGTYPE and changes nothing. */
  function HSet<K(==)>(db: Store<K>, now: int, k: K, fields: map<string, string>): Store<K> {
    if !Live(db, now, k) then db[k := Entry(Hash(fields), None)]
    else if db[k].value.Hash? then db[k := Entry(Hash(db[k].value.fields + fields), db[k].expiry)]
    else db
  }

  /** EXPIRE: no effect on a missing key. */
  function Expire<K(==), V>(db: map<K, Entry<V>>, now: int, k: K, ttl: int): map<K, Entry<V>> {
    if Live(db, now, k) then db[k := Entry(db[k].value, Some(now + ttl))] else db
  }

  function ZAdd<K(==)>(db: Store<K>, now: int, k: K, score: int, member: string): Store<K> {
    if !Live(db, now, k) then db[k := Entry(SortedSet(map[member := score]), None)]
    else if db[k].value.SortedSet? then
      db[k := Entry(SortedSet(db[k].value.scores[member := score]), db[k].expiry)]
    else db
  }

  /** The members that survive ZREMRANGEBYSCORE -inf max. */
  function Above(scores: map<string, int>, max: int): map<string, int> {
    map m | m in scores && scores[m] > max :: scores[m]
  }

  /** ZREMRANGEBYSCORE k -inf max: an emptied set disappears. */
  function ZRemUpTo<K(==)>(db: Store<K>, now: int, k: K, max: int): Store<K> {
    if Live(db, now, k) && db[k].value.SortedSet? then
      var kept := Above(db[k].value.scores, max);
      if kept == map[] then db - {k} else db[k := Entry(SortedSet(kept), db[k].expiry)]
    else db
  }

  function Del<K(==)>(db: Store<K>, k: K): Store<K> {
    db - {k}
  }

  /** HGETALL: the empty map for a missing key, nothing (an error reply) for another type. */
  function HGetAll<K(==)>(db: Store<K>, now: int, k: K): Option<map<string, string>> {
    if !Live(db, now, k) then Some(map[])
    else if db[k].value.Hash? then Some(db[k].value.fields)
    else None
  }

  // ---- typed keys against string keys ----

  /** The string-keyed store db is the typed store view with every key written out. */
  ghost predicate Represents(db: Store<string>, view: Store<Key>) {
    && (forall k :: k in view ==> WellFormed(k))
    && (forall k :: WellFormed(k) ==> (k in view <==> Text(k) in db))
    && (forall k :: k in view ==> Text(k) in db && db[Text(k)] == view[k])
  }

  lemma RepresentsPut(db: Store<string>, view: Store<Key>, k: Key, e: Entry<Value>)
    requires Represents(db, view) && WellFormed(k)
    ensures Represents(db[Text(k) := e], view[k := e])
  {
    forall j | WellFormed(j) && Text(j) == Text(k) ensures j == k {
      TextInjective(j, k);
    }
  }

  lemma RepresentsRemove(db: Store<string>, view: Store<Key>, k: Key)
    requires Represents(db, view) && WellFormed(k)
    ensures Represents(db - {Text(k)}, view - {k})
  {
    forall j | WellFormed(j) && Text(j) == Text(k) ensures j == k {
      TextInjective(j, k);
    }
  }

  // Every command on the text of a key is the same command on the key: families never interfere.

  lemma ReadsCommute(db: Store<string>, view: Store<Key>, now: int, k: Key)
    requires Represents(db, view) && WellFormed(k)
    ensures Live(db, now, Text(k)) == Live(view, now, k)
    ensures HGetAll(db, now, Text(k)) == HGetAll(view, now, k)
  {
  }

  lemma HSetCommutes(db: Store<string>, view: Store<Key>, now: int, k: Key, fields: map<string, string>)
    requires Represents(db, view) && WellFormed(k)
    ensures Represents(HSet(db, now, Text(k), fields), HSet(view, now, k, fields))
  {
    ReadsCommute(db, view, now, k);
    if !Live(view, now, k) {
      RepresentsPut(db, view, k, Entry(Hash(fields), None));
    } else if view[k].value.Hash? {
      RepresentsPut(db, view, k, Entry(Hash(view[k].value.fields + fields), view[k].expiry));
    }
  }

  lemma ExpireCommutes(db: Store<string>, view: Store<Key>, now: int, k: Key, ttl: int)
    requires Represents(db, view) && WellFormed(k)
    ensures Represents(Expire(db, now, Text(k), ttl), Expire(view, now, k, ttl))
  {
    ReadsCommute(db, view, now, k);
    if Live(view, now, k) {
      RepresentsPut(db, view, k, Entry(view[k].value, Some(now + ttl)));
    }
  }

  lemma ZAddCommutes(db: Store<string>, view: Store<Key>, now: int, k: Key, score: int, member: string)
    requires Represents(db, view) && WellFormed(k)
    ensures Represents(ZAdd(db, now, Text(k), score, member), ZAdd(view, now, k, score, member))
  {
    ReadsCommute(db, view, now, k);
    if !Live(view, now, k) {
      RepresentsPut(db, view, k, Entry(SortedSet(map[member := score]), None));
    } else if view[k].value.SortedSet? {
      RepresentsPut(db, view, k, Entry(SortedSet(view[k].value.scores[member := score]), view[k].expiry));
    }
  }

  lemma ZRemUpToCommutes(db: Store<string>, view: Store<Key>, now: int, k: Key, max: int)
    requires Represents(db, view) && WellFormed(k)
    ensures Represents(ZRemUpTo(db, now, Text(k), max), ZRemUpTo(view, now, k, max))
  {
    ReadsCommute(db, view, now, k);
    RepresentsRemove(db, view, k);
    if Live(view, now, k) && view[k].value.SortedSet? {
      RepresentsPut(db, view, k, Entry(SortedSet(Above(view[k].value.scores, max)), view[k].expiry));
    }
  }

  /** The server: string keys and one clock that never runs backwards. */
  class Server {
    var db: Store<string>
    var now: int

    constructor (start: int)
      ensures db == map[] && now == start
    {
      db := map[];
      now := start;
    }

    method Advance(seconds: nat)
      modifies this`now
      ensures now == old(now) + seconds
    {
      now := now + seconds;
    }
  }

  /** Pruning keeps exactly the members above the bound, in a set that lives as long as before; a set that
      would be empty is gone. */
  lemma ZRemUpToExactly<K>(db: Store<K>, now: int, k: K, max: int)
    requires Live(db, now, k) && db[k].value.SortedSet?
    ensures var scores, db' := db[k].value.scores, ZRemUpTo(db, now, k, max);
            && (k in db' <==> exists m :: m in scores && max < scores[m])
            && (k in db' ==>
                  && db'[k].value.SortedSet? && db'[k].expiry == db[k].expiry
                  && (forall m :: m in db'[k].value.scores <==> m in scores && max < scores[m])
                  && (forall m :: m in db'[k].value.scores ==> db'[k].value.scores[m] == scores[m]))
            && db' - {k} == db - {k}
  {
    var scores := db[k].value.scores;
    var kept := Above(scores, max);
    assert forall m :: m in kept <==> m in scores && max < scores[m];
    assert kept != map[] <==> exists m :: m in kept;
  }

  /** A missing or expired key reads as an empty hash, a hash as its fields, and a set is an error. */
  lemma HGetAllExactly<K>(db: Store<K>, now: int, k: K)
    ensures HGetAll(db, now, k) == None <==> Live(db, now, k) && db[k].value.SortedSet?
    ensures HGetAll(db, now, k) != None ==>
              HGetAll(db, now, k).value == if Live(db, now, k) then db[k].value.fields else map[]
  {
  }
}
